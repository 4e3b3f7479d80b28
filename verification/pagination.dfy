/**
 * The query builder of the HTTP client: `addPaginationParams`, the
 * `isValidIso8601` check it relies on, and the branch of `get` that chooses
 * between the caller's parameters and the paginated ones.
 */
module Pagination {
  import opened Php

  /** The `createdAt` bounds the builder looks at, in its order. */
  const BoundKeys: seq<string> := ["gt", "gte", "lt", "lte"]

  /** `isValidIso8601($datetime)`: the text parses in `DateTime::ATOM`
      format and formats back to the identical string. The comparison is
      strict (`===`), so only strings can pass; an array is a TypeError in
      `createFromFormat`. */
  function IsValidIso8601(rt: Runtime, v: Json): (r: Result<bool, PhpError>)
    ensures r.Failure? <==> IsArray(v)
    ensures r == Success(true) <==> v.JString? && rt.fromAtom(v.s).Some? && rt.fromAtom(v.s).value.atom == v.s
  {
    if IsArray(v) then Failure(TypeError("DateTime::createFromFormat(): Argument #2 ($datetime)"))
    else if !v.JString? then Success(false)
    else match rt.fromAtom(v.s)
      case None => Success(false)
      case Some(d) => Success(d.atom == v.s)
  }

  /** A bound survives when it is set and passes the round-trip check. */
  predicate Keeps(c: map<string, Json>, key: string, rt: Runtime) {
    IsSet(c, key) && IsValidIso8601(rt, c[key]) == Success(true)
  }

  /** The bounds among `keys` that survive, with their values. */
  function KeptAmong(c: map<string, Json>, keys: seq<string>, rt: Runtime): (m: map<string, Json>)
    ensures m.Keys <= set k | k in keys
    ensures forall k :: k in keys ==> (k in m <==> Keeps(c, k, rt))
    ensures forall k :: k in m ==> k in c && m[k] == c[k]
  {
    map k | k in keys && Keeps(c, k, rt) :: c[k]
  }

  /** What the builder keeps under `createdAt`: only the four known bounds,
      and each one a string that reads back as itself in ATOM format. */
  function KeptBounds(c: map<string, Json>, rt: Runtime): (m: map<string, Json>)
    ensures m.Keys <= {"gt", "gte", "lt", "lte"}
    ensures forall k :: k in m ==> k in c && m[k] == c[k] && m[k].JString? && rt.fromAtom(m[k].s) == Some(DateTime(m[k].s))
    ensures forall k :: k in BoundKeys && IsSet(c, k) && c[k].JString? && rt.fromAtom(c[k].s) == Some(DateTime(c[k].s))
                        ==> k in m
  {
    KeptAmong(c, BoundKeys, rt)
  }

  /** Some bound among `keys` is set to an array: `isValidIso8601` throws. */
  predicate HasArrayBound(c: map<string, Json>, keys: seq<string>) {
    exists k :: k in keys && IsSet(c, k) && IsArray(c[k])
  }

  /** The part of the query fixed before the `createdAt` loop. */
  function Base(params: map<string, Json>): (m: map<string, Json>)
  {
    var limit := if IsSet(params, "limit") then params["limit"] else JInt(10);
    if IsSet(params, "endingBefore") then map["limit" := limit, "endingBefore" := params["endingBefore"]]
    else if IsSet(params, "startingAfter") then map["limit" := limit, "startingAfter" := params["startingAfter"]]
    else map["limit" := limit]
  }

  /** Adding one more key to the bounds examined. */
  lemma KeptAmongStep(c: map<string, Json>, keys: seq<string>, key: string, rt: Runtime)
    ensures KeptAmong(c, keys + [key], rt) ==
      if Keeps(c, key, rt) then KeptAmong(c, keys, rt)[key := c[key]] else KeptAmong(c, keys, rt)
  {
    var l := KeptAmong(c, keys + [key], rt);
    var r := if Keeps(c, key, rt) then KeptAmong(c, keys, rt)[key := c[key]] else KeptAmong(c, keys, rt);
    assert forall k :: k in keys + [key] <==> k in keys || k == key;
    assert l.Keys == r.Keys;
  }

  /** The paginated query, all at once: a TypeError when a bound is an
      array, otherwise the base keys plus the surviving `createdAt` bounds,
      if any survive. */
  function Paginated(params: map<string, Json>, rt: Runtime): (r: Result<map<string, Json>, PhpError>)
    ensures r.Failure? <==> IsSet(params, "createdAt") && HasArrayBound(Entries(params["createdAt"]), BoundKeys)
    ensures r.Success? ==> r.value.Keys <= {"limit", "endingBefore", "startingAfter", "createdAt"}
    ensures r.Success? ==> "limit" in r.value && r.value["limit"] == (if IsSet(params, "limit") then params["limit"] else JInt(10))
    ensures r.Success? ==> ("endingBefore" in r.value <==> IsSet(params, "endingBefore"))
    ensures r.Success? && "endingBefore" in r.value ==> r.value["endingBefore"] == params["endingBefore"]
    ensures r.Success? ==> ("startingAfter" in r.value <==> !IsSet(params, "endingBefore") && IsSet(params, "startingAfter"))
    ensures r.Success? && "startingAfter" in r.value ==> r.value["startingAfter"] == params["startingAfter"]
    ensures r.Success? ==>
      ("createdAt" in r.value <==> IsSet(params, "createdAt") && KeptBounds(Entries(params["createdAt"]), rt) != map[])
    ensures r.Success? && "createdAt" in r.value ==> r.value["createdAt"] == JObject(KeptBounds(Entries(params["createdAt"]), rt))
  {
    if !IsSet(params, "createdAt") then Success(Base(params))
    else
      var c := Entries(params["createdAt"]);
      if HasArrayBound(c, BoundKeys) then Failure(TypeError("DateTime::createFromFormat(): Argument #2 ($datetime)"))
      else if KeptBounds(c, rt) == map[] then Success(Base(params))
      else Success(Base(params)["createdAt" := JObject(KeptBounds(c, rt))])
  }

  /** `addPaginationParams($params)`: the limit, then the cursor, then the
      `createdAt` bounds one by one. `bounds` is `$paginationParams['createdAt']`,
      which PHP creates at its first write. */
  method AddPaginationParams(params: map<string, Json>, rt: Runtime) returns (r: Result<map<string, Json>, PhpError>)
    ensures r == Paginated(params, rt)
  {
    var query := Base(params);
    if IsSet(params, "createdAt") {
      var c := Entries(params["createdAt"]);
      var bounds: map<string, Json> := map[];
      for i := 0 to |BoundKeys|
        invariant !HasArrayBound(c, BoundKeys[..i])
        invariant bounds == KeptAmong(c, BoundKeys[..i], rt)
      {
        var key := BoundKeys[i];
        assert BoundKeys[..i + 1] == BoundKeys[..i] + [key];
        KeptAmongStep(c, BoundKeys[..i], key, rt);
        if IsSet(c, key) {
          var valid := IsValidIso8601(rt, c[key]);
          if valid.Failure? {
            assert key in BoundKeys;
            return Failure(valid.error);
          }
          if valid.value {
            bounds := bounds[key := c[key]];
          }
        }
      }
      assert BoundKeys[..|BoundKeys|] == BoundKeys;
      if bounds != map[] {
        query := query["createdAt" := JObject(bounds)];
      }
    }
    return Success(query);
  }

  /** The query `get` sends: the parameters as given, or the paginated ones
      when `usePagination` is true. */
  method Query(params: map<string, Json>, usePagination: bool, rt: Runtime) returns (r: Result<map<string, Json>, PhpError>)
    ensures !usePagination ==> r == Success(params)
    ensures usePagination && r.Success? ==> r.value.Keys <= {"limit", "endingBefore", "startingAfter", "createdAt"}
    ensures usePagination ==> (r.Failure? <==> IsSet(params, "createdAt") && HasArrayBound(Entries(params["createdAt"]), BoundKeys))
  {
    r := Success(params);
    if usePagination {
      r := AddPaginationParams(params, rt);
    }
  }
}
