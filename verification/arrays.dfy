/**
 * `array_map($f, $a)` over a decoded array, and the `toArray` side of it.
 * A list keeps its order; an object keeps all its keys, and is visited in
 * the order the runtime reports for it.
 */
module Arrays {
  import opened Php

  /** The array `array_map` returns: `array_map` keeps the keys of its
      input, so a list gives a list and an object an object. */
  datatype Mapped<T> = MappedList(elems: seq<T>) | MappedKeys(entries: map<string, T>) {
    /** The array is non-empty (what `if ($this->items)` tests). */
    predicate NonEmpty() {
      if MappedList? then elems != [] else entries != map[]
    }
  }

  /** The callback on each element of a list, in order, up to the first
      exception. */
  function MapList<T>(xs: seq<Json>, f: Json -> Result<T, PhpError>): (r: Result<seq<T>, PhpError>)
    ensures r.Success? <==> forall i :: 0 <= i < |xs| ==> f(xs[i]).Success?
    ensures r.Success? ==> |r.value| == |xs| && forall i :: 0 <= i < |xs| ==> f(xs[i]) == Success(r.value[i])
    ensures r.Failure? ==>
      exists i :: 0 <= i < |xs| && f(xs[i]).Failure? && r.error == f(xs[i]).error &&
        forall j :: 0 <= j < i ==> f(xs[j]).Success?
    decreases |xs|
  {
    if xs == [] then Success([])
    else
      match f(xs[0])
      case Failure(e) => Failure(e)
      case Success(y) =>
        match MapList(xs[1..], f)
        case Failure(e) =>
          assert exists i :: (0 <= i < |xs| - 1 && f(xs[1..][i]).Failure? && e == f(xs[1..][i]).error &&
                              forall j :: 0 <= j < i ==> f(xs[1..][j]).Success?);
          var i :| 0 <= i < |xs| - 1 && f(xs[1..][i]).Failure? && e == f(xs[1..][i]).error &&
            forall j :: 0 <= j < i ==> f(xs[1..][j]).Success?;
          assert f(xs[i + 1]).Failure? && e == f(xs[i + 1]).error;
          assert forall j :: 0 <= j < i + 1 ==> f(xs[j]).Success? by {
            forall j | 0 <= j < i + 1
              ensures f(xs[j]).Success?
            {
              if j > 0 {
                assert xs[j] == xs[1..][j - 1];
              }
            }
          }
          Failure(e)
        case Success(ys) =>
          assert forall i :: 1 <= i < |xs| ==> xs[i] == xs[1..][i - 1];
          Success([y] + ys)
  }

  /** The callback on each entry of an object whose keys are visited in the
      order `keys`, up to the first exception; keys the object lacks are
      skipped. */
  function MapKeys<T>(keys: seq<string>, m: map<string, Json>, f: Json -> Result<T, PhpError>): (r: Result<map<string, T>, PhpError>)
    ensures r.Success? <==> forall k :: k in keys && k in m ==> f(m[k]).Success?
    ensures r.Success? ==> r.value.Keys == (set k | k in keys && k in m)
    ensures r.Success? ==> forall k :: k in r.value ==> f(m[k]) == Success(r.value[k])
    ensures r.Failure? ==>
      exists i :: 0 <= i < |keys| && keys[i] in m && f(m[keys[i]]).Failure? && r.error == f(m[keys[i]]).error &&
        forall j :: 0 <= j < i && keys[j] in m ==> f(m[keys[j]]).Success?
    decreases |keys|
  {
    if keys == [] then Success(map[])
    else
      var k := keys[0];
      var rest := MapKeys(keys[1..], m, f);
      assert forall j :: j in keys <==> j == k || j in keys[1..];
      if k in m && f(m[k]).Failure? then Failure(f(m[k]).error)
      else
        match rest
        case Failure(e) =>
          var t := keys[1..];
          var i :| 0 <= i < |t| && t[i] in m && f(m[t[i]]).Failure? && e == f(m[t[i]]).error &&
            forall j :: 0 <= j < i && t[j] in m ==> f(m[t[j]]).Success?;
          assert keys[i + 1] == t[i];
          assert forall j :: 0 <= j < i + 1 && keys[j] in m ==> f(m[keys[j]]).Success? by {
            forall j | 0 <= j < i + 1 && keys[j] in m
              ensures f(m[keys[j]]).Success?
            {
              if j > 0 {
                assert keys[j] == t[j - 1];
              }
            }
          }
          Failure(e)
        case Success(ys) => if k in m then Success(ys[k := f(m[k]).value]) else rest
  }

  /** The values `foreach ($keys as $k)` visits in `m`: each listed key
      that `m` holds, in the listed order. */
  function ValuesAt(keys: seq<string>, m: map<string, Json>): (r: seq<Json>)
    ensures |r| <= |keys|
    ensures forall i :: 0 <= i < |r| ==> r[i] in m.Values
    ensures (forall k :: k in keys ==> k in m) ==> |r| == |keys| && forall i :: 0 <= i < |keys| ==> r[i] == m[keys[i]]
    decreases |keys|
  {
    if keys == [] then []
    else if keys[0] in m then
      var rest := ValuesAt(keys[1..], m);
      assert forall i :: 1 <= i < |keys| ==> keys[i] == keys[1..][i - 1];
      [m[keys[0]]] + rest
    else ValuesAt(keys[1..], m)
  }

  /** The values `foreach ($v as $x)` visits: a list's elements in order,
      an object's values, one per key, in the order the runtime reports its
      keys. */
  function Values(v: Json, rt: Runtime): (r: seq<Json>)
    ensures v.JList? ==> r == v.items
    ensures v.JObject? ==>
      |r| == |v.fields| && |r| == |rt.keyOrder(v.fields)| &&
      forall i :: 0 <= i < |r| ==> r[i] == v.fields[rt.keyOrder(v.fields)[i]]
    ensures !IsArray(v) ==> r == []
  {
    match v
    case JList(xs) => xs
    case JObject(m) =>
      ListingSize(m, rt.keyOrder(m));
      ValuesAt(rt.keyOrder(m), m)
    case _ => []
  }

  /** Every value of an object is visited. */
  lemma ValuesCoverObject(v: Json, rt: Runtime)
    requires v.JObject?
    ensures forall k :: k in v.fields ==> v.fields[k] in Values(v, rt)
  {
    var ks := rt.keyOrder(v.fields);
    var r := Values(v, rt);
    forall k | k in v.fields
      ensures v.fields[k] in r
    {
      var i :| 0 <= i < |ks| && ks[i] == k;
      assert r[i] == v.fields[k];
    }
  }

  /** A `foreach` whose body builds an element with `f` and appends it to
      an array that already holds `done`: all the elements, or the ones
      built before the first failing value and that value's error. */
  function AppendEach<T>(xs: seq<Json>, f: Json -> Result<T, PhpError>, done: seq<T>): Update<seq<T>>
    decreases |xs|
  {
    if xs == [] then Updated(done)
    else
      match f(xs[0])
      case Failure(e) => Stopped(done, e)
      case Success(y) => AppendEach(xs[1..], f, done + [y])
  }

  /** One turn of the appending loop. */
  lemma AppendEachNext<T>(xs: seq<Json>, f: Json -> Result<T, PhpError>, done: seq<T>)
    requires xs != []
    ensures f(xs[0]).Failure? ==> AppendEach(xs, f, done) == Stopped(done, f(xs[0]).error)
    ensures f(xs[0]).Success? ==> AppendEach(xs, f, done) == AppendEach(xs[1..], f, done + [f(xs[0]).value])
  {
  }

  /** The appending loop completes exactly when `array_map` with the same
      body does, with the same elements after `done`. */
  lemma {:induction false} AppendEachCompletes<T>(xs: seq<Json>, f: Json -> Result<T, PhpError>, done: seq<T>)
    ensures AppendEach(xs, f, done).Updated? <==> MapList(xs, f).Success?
    ensures AppendEach(xs, f, done).Updated? ==> AppendEach(xs, f, done).fields == done + MapList(xs, f).value
    decreases |xs|
  {
    if xs != [] {
      match f(xs[0])
      case Failure(e) =>
      case Success(y) =>
        AppendEachCompletes(xs[1..], f, done + [y]);
        if MapList(xs[1..], f).Success? {
          assert done + [y] + MapList(xs[1..], f).value == done + MapList(xs, f).value;
        }
    }
  }

  /** When the appending loop stops, it keeps what was there, followed by
      the elements built before the first failing value, and reports that
      value's error. */
  lemma {:induction false} AppendEachStops<T>(xs: seq<Json>, f: Json -> Result<T, PhpError>, done: seq<T>)
    requires AppendEach(xs, f, done).Stopped?
    ensures var p := AppendEach(xs, f, done).fields;
      |done| <= |p| < |done| + |xs| && p[..|done|] == done &&
      (forall j :: |done| <= j < |p| ==> f(xs[j - |done|]) == Success(p[j])) &&
      f(xs[|p| - |done|]).Failure? && AppendEach(xs, f, done).error == f(xs[|p| - |done|]).error
    decreases |xs|
  {
    match f(xs[0])
    case Failure(e) =>
    case Success(y) =>
      AppendEachStops(xs[1..], f, done + [y]);
      var p := AppendEach(xs[1..], f, done + [y]).fields;
      assert p[..|done|] == (done + [y])[..|done|];
      forall j | |done| <= j < |p|
        ensures f(xs[j - |done|]) == Success(p[j])
      {
        if j > |done| {
          assert xs[j - |done|] == xs[1..][j - (|done| + 1)];
        }
      }
      assert xs[|p| - |done|] == xs[1..][|p| - (|done| + 1)];
  }

  /** The appending loop over a whole array, from the empty array: all the
      elements, each what `f` builds from its value, or the ones built before
      the first failing value and that value's error. */
  lemma AppendEachFromEmpty<T>(xs: seq<Json>, f: Json -> Result<T, PhpError>)
    ensures AppendEach(xs, f, []).Updated? <==> forall i :: 0 <= i < |xs| ==> f(xs[i]).Success?
    ensures AppendEach(xs, f, []).Updated? ==>
      |AppendEach(xs, f, []).fields| == |xs| &&
      forall i :: 0 <= i < |xs| ==> f(xs[i]) == Success(AppendEach(xs, f, []).fields[i])
    ensures AppendEach(xs, f, []).Stopped? ==>
      var p := AppendEach(xs, f, []).fields;
      |p| < |xs| && (forall j :: 0 <= j < |p| ==> f(xs[j]) == Success(p[j])) &&
      f(xs[|p|]).Failure? && AppendEach(xs, f, []).error == f(xs[|p|]).error
  {
    AppendEachCompletes(xs, f, []);
    if AppendEach(xs, f, []).Stopped? {
      AppendEachStops(xs, f, []);
    }
    if MapList(xs, f).Success? {
      assert [] + MapList(xs, f).value == MapList(xs, f).value;
    }
  }

  /** `array_map($f, $v)`: a non-array is a TypeError. */
  function ArrayMap<T>(v: Json, f: Json -> Result<T, PhpError>, rt: Runtime): (r: Result<Mapped<T>, PhpError>)
    ensures !IsArray(v) ==> r == Failure(TypeError("array_map(): Argument #2 ($array)"))
    ensures v.JList? ==> (r.Success? <==> forall i :: 0 <= i < |v.items| ==> f(v.items[i]).Success?)
    ensures v.JList? && r.Success? ==>
      r.value.MappedList? && |r.value.elems| == |v.items| &&
      forall i :: 0 <= i < |v.items| ==> f(v.items[i]) == Success(r.value.elems[i])
    ensures v.JList? && r.Failure? ==>
      exists i :: 0 <= i < |v.items| && f(v.items[i]).Failure? && r.error == f(v.items[i]).error &&
        forall j :: 0 <= j < i ==> f(v.items[j]).Success?
    ensures v.JObject? ==> (r.Success? <==> forall k :: k in v.fields ==> f(v.fields[k]).Success?)
    ensures v.JObject? && r.Success? ==>
      r.value.MappedKeys? && r.value.entries.Keys == v.fields.Keys &&
      forall k :: k in r.value.entries ==> f(v.fields[k]) == Success(r.value.entries[k])
    ensures v.JObject? && r.Failure? ==>
      var ks := rt.keyOrder(v.fields);
      exists i :: 0 <= i < |ks| && f(v.fields[ks[i]]).Failure? && r.error == f(v.fields[ks[i]]).error &&
        forall j :: 0 <= j < i ==> f(v.fields[ks[j]]).Success?
  {
    match v
    case JList(xs) =>
      var ys :- MapList(xs, f);
      Success(MappedList(ys))
    case JObject(m) =>
      var ys :- MapKeys(rt.keyOrder(m), m, f);
      Success(MappedKeys(ys))
    case _ => Failure(TypeError("array_map(): Argument #2 ($array)"))
  }

  /** `array_map(fn($i) => $i->toArray(), $items)` */
  function Project<T>(items: Mapped<T>, g: T -> Json): (r: Json)
    ensures items.MappedList? ==>
      r.JList? && |r.items| == |items.elems| && forall i :: 0 <= i < |items.elems| ==> r.items[i] == g(items.elems[i])
    ensures items.MappedKeys? ==>
      r.JObject? && r.fields.Keys == items.entries.Keys && forall k :: k in items.entries ==> r.fields[k] == g(items.entries[k])
  {
    match items
    case MappedList(ys) => JList(seq(|ys|, i requires 0 <= i < |ys| => g(ys[i])))
    case MappedKeys(e) => JObject(map k | k in e :: g(e[k]))
  }

  /** Mapping an element-wise inverse: projecting the mapped array gives
      back the input. */
  lemma {:induction false} MapListProjects<T>(xs: seq<Json>, f: Json -> Result<T, PhpError>, g: T -> Json)
    requires forall x :: f(x).Success? ==> g(f(x).value) == x
    requires MapList(xs, f).Success?
    ensures Project(MappedList(MapList(xs, f).value), g) == JList(xs)
  {
    var ys := MapList(xs, f).value;
    assert forall i :: 0 <= i < |xs| ==> g(ys[i]) == xs[i] by {
      forall i | 0 <= i < |xs|
        ensures g(ys[i]) == xs[i]
      {
        assert f(xs[i]) == Success(ys[i]);
      }
    }
  }
}
