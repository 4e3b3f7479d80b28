/**
 * `ONVO\Models\NextAction`, declared beside `PaymentIntent`: what the
 * customer must do next. `actionType` is the property `type`. Its `setData`
 * stores in `redirectToUrl` the value of `(new RedirectToUrl())->setData(...)`,
 * which is null, so a `redirectToUrl` key clears the property (after the
 * nested call has had its chance to fail).
 */
module NextAction {
  import opened Php
  import opened Setter
  import RedirectToUrlModel = RedirectToUrl

  /** The state of a NextAction object. */
  datatype NextActionFields = NextActionFields(
    actionType: Option<string>,
    redirectToUrl: Option<RedirectToUrlModel.RedirectToUrlFields>)
  {
    /** Field `x` as JSON: what `toArray` shows of it. */
    function Get(x: Field): Json {
      match x
      case Type => OptStr(actionType)
      case RedirectToUrl => ShownRedirect(redirectToUrl)
    }

    /** `toArray()`: both keys; the redirect as its own `toArray()`, or null. */
    function ToArray(): (m: map<string, Json>)
      ensures m.Keys == {"type", "redirectToUrl"}
      ensures forall x: Field :: m[x.Key()] == Get(x)
    {
      map["type" := OptStr(actionType), "redirectToUrl" := ShownRedirect(redirectToUrl)]
    }
  }

  /** The keys `setData` looks at. */
  datatype Field = Type | RedirectToUrl {
    function Key(): string {
      match this
      case Type => "type"
      case RedirectToUrl => "redirectToUrl"
    }
  }

  /** The order in which `setData` visits them. */
  const Order: seq<Field> := [Type, RedirectToUrl]

  /** `g` and `f` hold the same value in field `x`. */
  predicate Same(g: NextActionFields, f: NextActionFields, x: Field) {
    match x
    case Type => g.actionType == f.actionType
    case RedirectToUrl => g.redirectToUrl == f.redirectToUrl
  }

  lemma SameGet(g: NextActionFields, f: NextActionFields, x: Field)
    requires Same(g, f, x)
    ensures g.Get(x) == f.Get(x)
  {
  }

  /** `setData` acts on key `x` of `d`: the key is set (`isset`). */
  predicate Reads(d: map<string, Json>, x: Field) {
    IsSet(d, x.Key())
  }

  /** What `setData` leaves in field `x` when it acts on it, in `Get`'s
      terms, or the error it raises. */
  function Take(x: Field, d: map<string, Json>, rt: Runtime): Result<Json, PhpError> {
    match x
    case Type => (match AsStr(Read(d, "type"), "NextAction::$type") case Failure(e) => Failure(e) case Success(s) => Success(JString(s)))
    case RedirectToUrl => (match RedirectToUrlModel.SetDataOnNew(Read(d, "redirectToUrl"), rt) case Failure(e) => Failure(e) case Success(o) => Success(ShownRedirect(o)))
  }

  /** A key `setData` acts on and stops at. */
  predicate Refused(d: map<string, Json>, x: Field, rt: Runtime) {
    Reads(d, x) && Take(x, d, rt).Failure?
  }

  /** One `if (isset($data[key])) { ... }` block of `setData`. */
  function Step(f: NextActionFields, d: map<string, Json>, x: Field, rt: Runtime): (r: Update<NextActionFields>)
    ensures !Reads(d, x) ==> r == Updated(f)
    ensures Reads(d, x) && r.Updated? ==> Take(x, d, rt) == Success(r.fields.Get(x))
    ensures Reads(d, x) && r.Stopped? ==> Take(x, d, rt) == Failure(r.error)
    ensures r.Stopped? ==> r.fields == f
    ensures forall y: Field :: y != x ==> Same(r.fields, f, y)
    ensures Reads(d, x) && Take(x, d, rt) == Success(f.Get(x)) ==> r == Updated(f)
  {
    if !Reads(d, x) then Updated(f)
    else match x
      case Type =>
        (match AsStr(Read(d, "type"), "NextAction::$type")
          case Failure(e) => Stopped(f, e)
          case Success(s) => Updated(f.(actionType := Some(s))))
      case RedirectToUrl =>
        (match RedirectToUrlModel.SetDataOnNew(Read(d, "redirectToUrl"), rt)
          case Failure(e) => Stopped(f, e)
          case Success(o) => Updated(f.(redirectToUrl := o)))
  }

  /** `setData($data)` on an object in state `f`. */
  function Apply(f: NextActionFields, d: map<string, Json>, rt: Runtime): Update<NextActionFields> {
    Fold(Step, f, d, Order, rt)
  }

  class NextAction {
    var actionType: Option<string>
    var redirectToUrl: Option<RedirectToUrlModel.RedirectToUrlFields>

    function Fields(): NextActionFields
      reads this
    {
      NextActionFields(actionType, redirectToUrl)
    }

    /** An object in state `f`; `New` is the PHP constructor. */
    constructor (f: NextActionFields)
      ensures Fields() == f
    {
      actionType := f.actionType;
      redirectToUrl := f.redirectToUrl;
    }

    /** One guarded assignment of `setData`. */
    method Assign(x: Field, data: map<string, Json>, rt: Runtime) returns (r: Result<(), PhpError>)
      modifies this
      ensures Fields() == Step(old(Fields()), data, x, rt).fields
      ensures r.Failure? <==> Step(old(Fields()), data, x, rt).Stopped?
      ensures r.Failure? ==> r.error == Step(old(Fields()), data, x, rt).error
    {
      if Reads(data, x) {
        match x
        case Type =>
          var s :- AsStr(Read(data, "type"), "NextAction::$type");
          actionType := Some(s);
        case RedirectToUrl =>
          var o :- RedirectToUrlModel.SetDataOnNew(Read(data, "redirectToUrl"), rt);
          redirectToUrl := o;
      }
      return Success(());
    }

    /** The blocks for the keys of `xs`, one after the other, up to the
        first error. */
    method AssignAll(xs: seq<Field>, data: map<string, Json>, rt: Runtime) returns (r: Result<(), PhpError>)
      modifies this
      ensures Fields() == Fold(Step, old(Fields()), data, xs, rt).fields
      ensures r.Failure? <==> Fold(Step, old(Fields()), data, xs, rt).Stopped?
      ensures r.Failure? ==> r.error == Fold(Step, old(Fields()), data, xs, rt).error
      decreases |xs|
    {
      if xs == [] {
        return Success(());
      }
      r := Assign(xs[0], data, rt);
      if r.Failure? {
        return;
      }
      r := AssignAll(xs[1..], data, rt);
    }

    /** `setData($data)`: every block, in the order of the source. */
    method SetData(data: map<string, Json>, rt: Runtime) returns (r: Result<(), PhpError>)
      modifies this
      ensures Fields() == Apply(old(Fields()), data, rt).fields
      ensures r.Failure? <==> Apply(old(Fields()), data, rt).Stopped?
      ensures r.Failure? ==> r.error == Apply(old(Fields()), data, rt).error
    {
      r := AssignAll(Order, data, rt);
    }
  }

  // ---------------------------------------------------------------------------
  // Properties of setData

  lemma OrderIsComplete(x: Field)
    ensures x in Order
  {
  }

  /** A field whose key `setData` does not act on keeps its value, even
      when `setData` stops early. */
  lemma ApplyKeepsUnread(f: NextActionFields, d: map<string, Json>, x: Field, rt: Runtime)
    requires !Reads(d, x)
    ensures Apply(f, d, rt).fields.Get(x) == f.Get(x)
  {
    var P := (g: NextActionFields) => g.Get(x) == f.Get(x);
    StepKeepsUnread(d, x, rt, f.Get(x), P);
    FoldKeeps(Step, f, d, Order, rt, P);
  }

  /** No step changes a field whose key `setData` does not act on. */
  lemma StepKeepsUnread(d: map<string, Json>, x: Field, rt: Runtime, v: Json, P: NextActionFields -> bool)
    requires !Reads(d, x)
    requires forall g :: P(g) <==> g.Get(x) == v
    ensures forall g, y :: y in Order && P(g) ==> P(Step(g, d, y, rt).fields)
  {
    forall g, y | y in Order && P(g)
      ensures P(Step(g, d, y, rt).fields)
    {
      if y != x {
        SameGet(Step(g, d, y, rt).fields, g, x);
      }
    }
  }

  /** When `setData` completes, each field it acts on holds what `Take`
      says. */
  lemma ApplyStoresRead(f: NextActionFields, d: map<string, Json>, x: Field, rt: Runtime)
    requires Reads(d, x) && Apply(f, d, rt).Updated?
    ensures Take(x, d, rt) == Success(Apply(f, d, rt).fields.Get(x))
  {
    OrderIsComplete(x);
    var P := (g: NextActionFields) => Take(x, d, rt) == Success(g.Get(x));
    StepStoresRead(d, x, rt, P);
    FoldEstablishes(Step, f, d, Order, rt, x, P);
  }

  /** The step for `x` establishes what `Take` says, and the other steps
      keep it. */
  lemma StepStoresRead(d: map<string, Json>, x: Field, rt: Runtime, P: NextActionFields -> bool)
    requires Reads(d, x)
    requires forall g :: P(g) <==> Take(x, d, rt) == Success(g.Get(x))
    ensures forall g :: Step(g, d, x, rt).Updated? ==> P(Step(g, d, x, rt).fields)
    ensures forall g, y :: y != x && P(g) ==> P(Step(g, d, y, rt).fields)
  {
    forall g, y | y != x && P(g)
      ensures P(Step(g, d, y, rt).fields)
    {
      SameGet(Step(g, d, y, rt).fields, g, x);
    }
  }

  /** `setData` stops exactly when some key it acts on is refused, and
      with the error of the first such key in its order. */
  lemma ApplyStops(f: NextActionFields, d: map<string, Json>, rt: Runtime)
    ensures Apply(f, d, rt).Stopped? <==> exists x: Field :: Refused(d, x, rt)
    ensures Apply(f, d, rt).Stopped? ==>
      exists i :: 0 <= i < |Order| && Refused(d, Order[i], rt) &&
        (forall j :: 0 <= j < i ==> !Refused(d, Order[j], rt)) &&
        Apply(f, d, rt).error == Take(Order[i], d, rt).error
  {
    FoldStops(Step, f, d, Order, rt, (y: Field) => Refused(d, y, rt), (y: Field) => Take(y, d, rt));
    if x: Field :| Refused(d, x, rt) {
      OrderIsComplete(x);
    }
  }

  /** An empty array changes nothing. */
  lemma ApplyEmpty(f: NextActionFields, rt: Runtime)
    ensures Apply(f, map[], rt) == Updated(f)
  {
    FoldNoOp(Step, f, map[], Order, rt);
  }

  /** Applying the same data twice is applying it once. */
  lemma ApplyIdempotent(f: NextActionFields, d: map<string, Json>, rt: Runtime)
    requires Apply(f, d, rt).Updated?
    ensures Apply(Apply(f, d, rt).fields, d, rt) == Apply(f, d, rt)
  {
    var g := Apply(f, d, rt).fields;
    ApplyStops(f, d, rt);
    forall x | x in Order
      ensures Step(g, d, x, rt) == Updated(g)
    {
      if Reads(d, x) {
        ApplyStoresRead(f, d, x, rt);
      }
    }
    FoldNoOp(Step, g, d, Order, rt);
  }

  /** `$this->redirectToUrl?->toArray()` */
  function ShownRedirect(o: Option<RedirectToUrlModel.RedirectToUrlFields>): (r: Json)
    ensures r.JNull? <==> o.None?
  {
    if o.Some? then JObject(o.value.ToArray()) else JNull
  }

  /** A NextAction as `new NextAction()` leaves it: everything null. */
  const Blank := NextActionFields(None, None)

  /** `(new NextAction())->setData($v)` as an expression: `$v` must be an array;
      the fresh object is filled and then discarded, and since `setData`
      returns nothing the expression's value is null. */
  function SetDataOnNew(v: Json, rt: Runtime): (r: Result<Option<NextActionFields>, PhpError>)
    ensures !IsArray(v) ==> r == Failure(TypeError("NextAction::setData(): Argument #1 ($data)"))
    ensures IsArray(v) ==> (r.Failure? <==> exists x: Field :: Refused(Entries(v), x, rt))
    ensures r.Success? ==> r.value.None?
  {
    if !IsArray(v) then Failure(TypeError("NextAction::setData(): Argument #1 ($data)"))
    else
      ApplyStops(Blank, Entries(v), rt);
      match Apply(Blank, Entries(v), rt)
      case Updated(_) => Success(None)
      case Stopped(_, e) => Failure(e)
  }

  /** A completed `setData` that reads `redirectToUrl` leaves it null,
      whatever the object held and whatever the array gave. */
  lemma ApplyClearsRedirect(f: NextActionFields, d: map<string, Json>, rt: Runtime)
    requires Reads(d, RedirectToUrl) && Apply(f, d, rt).Updated?
    ensures Apply(f, d, rt).fields.redirectToUrl.None?
  {
    ApplyStoresRead(f, d, RedirectToUrl, rt);
  }

  /** Feeding `toArray()` back to `setData` reproduces the object when it
      holds no redirect; a redirect is dropped (`ApplyClearsRedirect`). */
  lemma ToArrayRoundTrip(f: NextActionFields, rt: Runtime)
    requires f.redirectToUrl.None?
    ensures Apply(f, f.ToArray(), rt) == Updated(f)
  {
    var d := f.ToArray();
    forall x | x in Order
      ensures Step(f, d, x, rt) == Updated(f)
    {
      assert d[x.Key()] == f.Get(x);
    }
    FoldNoOp(Step, f, d, Order, rt);
  }
}
