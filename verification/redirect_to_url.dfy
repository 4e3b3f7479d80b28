/**
 * `ONVO\Models\RedirectToUrl`, declared beside `PaymentIntent`: where a
 * payment intent's next action sends the customer. Both properties are
 * nullable.
 */
module RedirectToUrl {
  import opened Php
  import opened Setter

  /** The state of a RedirectToUrl object. */
  datatype RedirectToUrlFields = RedirectToUrlFields(
    url: Option<string>,
    returnUrl: Option<string>)
  {
    /** Field `x` as JSON: what `toArray` shows of it. */
    function Get(x: Field): Json {
      match x
      case Url => OptStr(url)
      case ReturnUrl => OptStr(returnUrl)
    }

    /** `toArray()`: both keys, nulls included. */
    function ToArray(): (m: map<string, Json>)
      ensures m.Keys == {"url", "returnUrl"}
      ensures forall x: Field :: m[x.Key()] == Get(x)
    {
      map["url" := OptStr(url), "returnUrl" := OptStr(returnUrl)]
    }
  }

  /** The keys `setData` looks at. */
  datatype Field = Url | ReturnUrl {
    function Key(): string {
      match this
      case Url => "url"
      case ReturnUrl => "returnUrl"
    }
  }

  /** The order in which `setData` visits them. */
  const Order: seq<Field> := [Url, ReturnUrl]

  /** `g` and `f` hold the same value in field `x`. */
  predicate Same(g: RedirectToUrlFields, f: RedirectToUrlFields, x: Field) {
    match x
    case Url => g.url == f.url
    case ReturnUrl => g.returnUrl == f.returnUrl
  }

  lemma SameGet(g: RedirectToUrlFields, f: RedirectToUrlFields, x: Field)
    requires Same(g, f, x)
    ensures g.Get(x) == f.Get(x)
  {
  }

  /** `setData` acts on key `x` of `d`: the key is set (`isset`). */
  predicate Reads(d: map<string, Json>, x: Field) {
    IsSet(d, x.Key())
  }

  /** What `setData` leaves in field `x` when it acts on it, in `Get`'s
      terms, or the error it raises. */
  function Take(x: Field, d: map<string, Json>, rt: Runtime): Result<Json, PhpError> {
    match x
    case Url => (match AsStr(Read(d, "url"), "RedirectToUrl::$url") case Failure(e) => Failure(e) case Success(s) => Success(JString(s)))
    case ReturnUrl => (match AsStr(Read(d, "returnUrl"), "RedirectToUrl::$returnUrl") case Failure(e) => Failure(e) case Success(s) => Success(JString(s)))
  }

  /** A key `setData` acts on and stops at. */
  predicate Refused(d: map<string, Json>, x: Field, rt: Runtime) {
    Reads(d, x) && Take(x, d, rt).Failure?
  }

  /** One `if (isset($data[key])) { ... }` block of `setData`. */
  function Step(f: RedirectToUrlFields, d: map<string, Json>, x: Field, rt: Runtime): (r: Update<RedirectToUrlFields>)
    ensures !Reads(d, x) ==> r == Updated(f)
    ensures Reads(d, x) && r.Updated? ==> Take(x, d, rt) == Success(r.fields.Get(x))
    ensures Reads(d, x) && r.Stopped? ==> Take(x, d, rt) == Failure(r.error)
    ensures r.Stopped? ==> r.fields == f
    ensures forall y: Field :: y != x ==> Same(r.fields, f, y)
    ensures Reads(d, x) && Take(x, d, rt) == Success(f.Get(x)) ==> r == Updated(f)
  {
    if !Reads(d, x) then Updated(f)
    else match x
      case Url =>
        (match AsStr(Read(d, "url"), "RedirectToUrl::$url")
          case Failure(e) => Stopped(f, e)
          case Success(s) => Updated(f.(url := Some(s))))
      case ReturnUrl =>
        (match AsStr(Read(d, "returnUrl"), "RedirectToUrl::$returnUrl")
          case Failure(e) => Stopped(f, e)
          case Success(s) => Updated(f.(returnUrl := Some(s))))
  }

  /** `setData($data)` on an object in state `f`. */
  function Apply(f: RedirectToUrlFields, d: map<string, Json>, rt: Runtime): Update<RedirectToUrlFields> {
    Fold(Step, f, d, Order, rt)
  }

  class RedirectToUrl {
    var url: Option<string>
    var returnUrl: Option<string>

    function Fields(): RedirectToUrlFields
      reads this
    {
      RedirectToUrlFields(url, returnUrl)
    }

    /** An object in state `f`; `New` is the PHP constructor. */
    constructor (f: RedirectToUrlFields)
      ensures Fields() == f
    {
      url := f.url;
      returnUrl := f.returnUrl;
    }

    /** One guarded assignment of `setData`. */
    method Assign(x: Field, data: map<string, Json>, rt: Runtime) returns (r: Result<(), PhpError>)
      modifies this
      ensures Fields() == Step(old(Fields()), data, x, rt).fields
      ensures r.Failure? <==> Step(old(Fields()), data, x, rt).Stopped?
      ensures r.Failure? ==> r.error == Step(old(Fields()), data, x, rt).error
    {
      if Reads(data, x) {
        match x
        case Url =>
          var s :- AsStr(Read(data, "url"), "RedirectToUrl::$url");
          url := Some(s);
        case ReturnUrl =>
          var s :- AsStr(Read(data, "returnUrl"), "RedirectToUrl::$returnUrl");
          returnUrl := Some(s);
      }
      return Success(());
    }

    /** The blocks for the keys of `xs`, one after the other, up to the
        first error. */
    method AssignAll(xs: seq<Field>, data: map<string, Json>, rt: Runtime) returns (r: Result<(), PhpError>)
      modifies this
      ensures Fields() == Fold(Step, old(Fields()), data, xs, rt).fields
      ensures r.Failure? <==> Fold(Step, old(Fields()), data, xs, rt).Stopped?
      ensures r.Failure? ==> r.error == Fold(Step, old(Fields()), data, xs, rt).error
      decreases |xs|
    {
      if xs == [] {
        return Success(());
      }
      r := Assign(xs[0], data, rt);
      if r.Failure? {
        return;
      }
      r := AssignAll(xs[1..], data, rt);
    }

    /** `setData($data)`: every block, in the order of the source. */
    method SetData(data: map<string, Json>, rt: Runtime) returns (r: Result<(), PhpError>)
      modifies this
      ensures Fields() == Apply(old(Fields()), data, rt).fields
      ensures r.Failure? <==> Apply(old(Fields()), data, rt).Stopped?
      ensures r.Failure? ==> r.error == Apply(old(Fields()), data, rt).error
    {
      r := AssignAll(Order, data, rt);
    }
  }

  // ---------------------------------------------------------------------------
  // Properties of setData

  lemma OrderIsComplete(x: Field)
    ensures x in Order
  {
  }

  /** A field whose key `setData` does not act on keeps its value, even
      when `setData` stops early. */
  lemma ApplyKeepsUnread(f: RedirectToUrlFields, d: map<string, Json>, x: Field, rt: Runtime)
    requires !Reads(d, x)
    ensures Apply(f, d, rt).fields.Get(x) == f.Get(x)
  {
    var P := (g: RedirectToUrlFields) => g.Get(x) == f.Get(x);
    StepKeepsUnread(d, x, rt, f.Get(x), P);
    FoldKeeps(Step, f, d, Order, rt, P);
  }

  /** No step changes a field whose key `setData` does not act on. */
  lemma StepKeepsUnread(d: map<string, Json>, x: Field, rt: Runtime, v: Json, P: RedirectToUrlFields -> bool)
    requires !Reads(d, x)
    requires forall g :: P(g) <==> g.Get(x) == v
    ensures forall g, y :: y in Order && P(g) ==> P(Step(g, d, y, rt).fields)
  {
    forall g, y | y in Order && P(g)
      ensures P(Step(g, d, y, rt).fields)
    {
      if y != x {
        SameGet(Step(g, d, y, rt).fields, g, x);
      }
    }
  }

  /** When `setData` completes, each field it acts on holds what `Take`
      says. */
  lemma ApplyStoresRead(f: RedirectToUrlFields, d: map<string, Json>, x: Field, rt: Runtime)
    requires Reads(d, x) && Apply(f, d, rt).Updated?
    ensures Take(x, d, rt) == Success(Apply(f, d, rt).fields.Get(x))
  {
    OrderIsComplete(x);
    var P := (g: RedirectToUrlFields) => Take(x, d, rt) == Success(g.Get(x));
    StepStoresRead(d, x, rt, P);
    FoldEstablishes(Step, f, d, Order, rt, x, P);
  }

  /** The step for `x` establishes what `Take` says, and the other steps
      keep it. */
  lemma StepStoresRead(d: map<string, Json>, x: Field, rt: Runtime, P: RedirectToUrlFields -> bool)
    requires Reads(d, x)
    requires forall g :: P(g) <==> Take(x, d, rt) == Success(g.Get(x))
    ensures forall g :: Step(g, d, x, rt).Updated? ==> P(Step(g, d, x, rt).fields)
    ensures forall g, y :: y != x && P(g) ==> P(Step(g, d, y, rt).fields)
  {
    forall g, y | y != x && P(g)
      ensures P(Step(g, d, y, rt).fields)
    {
      SameGet(Step(g, d, y, rt).fields, g, x);
    }
  }

  /** `setData` stops exactly when some key it acts on is refused, and
      with the error of the first such key in its order. */
  lemma ApplyStops(f: RedirectToUrlFields, d: map<string, Json>, rt: Runtime)
    ensures Apply(f, d, rt).Stopped? <==> exists x: Field :: Refused(d, x, rt)
    ensures Apply(f, d, rt).Stopped? ==>
      exists i :: 0 <= i < |Order| && Refused(d, Order[i], rt) &&
        (forall j :: 0 <= j < i ==> !Refused(d, Order[j], rt)) &&
        Apply(f, d, rt).error == Take(Order[i], d, rt).error
  {
    FoldStops(Step, f, d, Order, rt, (y: Field) => Refused(d, y, rt), (y: Field) => Take(y, d, rt));
    if x: Field :| Refused(d, x, rt) {
      OrderIsComplete(x);
    }
  }

  /** An empty array changes nothing. */
  lemma ApplyEmpty(f: RedirectToUrlFields, rt: Runtime)
    ensures Apply(f, map[], rt) == Updated(f)
  {
    FoldNoOp(Step, f, map[], Order, rt);
  }

  /** Applying the same data twice is applying it once. */
  lemma ApplyIdempotent(f: RedirectToUrlFields, d: map<string, Json>, rt: Runtime)
    requires Apply(f, d, rt).Updated?
    ensures Apply(Apply(f, d, rt).fields, d, rt) == Apply(f, d, rt)
  {
    var g := Apply(f, d, rt).fields;
    ApplyStops(f, d, rt);
    forall x | x in Order
      ensures Step(g, d, x, rt) == Updated(g)
    {
      if Reads(d, x) {
        ApplyStoresRead(f, d, x, rt);
      }
    }
    FoldNoOp(Step, g, d, Order, rt);
  }

  /** A RedirectToUrl as `new RedirectToUrl()` leaves it: everything null. */
  const Blank := RedirectToUrlFields(None, None)

  /** `(new RedirectToUrl())->setData($v)` as an expression: `$v` must be an array;
      the fresh object is filled and then discarded, and since `setData`
      returns nothing the expression's value is null. */
  function SetDataOnNew(v: Json, rt: Runtime): (r: Result<Option<RedirectToUrlFields>, PhpError>)
    ensures !IsArray(v) ==> r == Failure(TypeError("RedirectToUrl::setData(): Argument #1 ($data)"))
    ensures IsArray(v) ==> (r.Failure? <==> exists x: Field :: Refused(Entries(v), x, rt))
    ensures r.Success? ==> r.value.None?
  {
    if !IsArray(v) then Failure(TypeError("RedirectToUrl::setData(): Argument #1 ($data)"))
    else
      ApplyStops(Blank, Entries(v), rt);
      match Apply(Blank, Entries(v), rt)
      case Updated(_) => Success(None)
      case Stopped(_, e) => Failure(e)
  }

  /** Feeding `toArray()` back to `setData` reproduces the object: null
      properties are not set, and every other value is taken back as it is. */
  lemma ToArrayRoundTrip(f: RedirectToUrlFields, rt: Runtime)
    ensures Apply(f, f.ToArray(), rt) == Updated(f)
  {
    var d := f.ToArray();
    forall x | x in Order
      ensures Step(f, d, x, rt) == Updated(f)
    {
      assert d[x.Key()] == f.Get(x);
    }
    FoldNoOp(Step, f, d, Order, rt);
  }
}
