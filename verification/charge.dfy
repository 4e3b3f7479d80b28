/**
 * `ONVO\Models\Charge`, declared beside `PaymentIntent`: one charge of a
 * payment intent. Every property is nullable and `toArray` shows all five.
 */
module Charge {
  import opened Php
  import opened Setter

  /** The state of a Charge object. */
  datatype ChargeFields = ChargeFields(
    id: Option<string>,
    amount: Option<Int64>,
    currency: Option<string>,
    status: Option<string>,
    createdAt: Option<DateTime>)
  {
    /** Field `x` as JSON: what `toArray` shows of it. */
    function Get(x: Field): Json {
      match x
      case Id => OptStr(id)
      case Amount => OptInt(amount)
      case Currency => OptStr(currency)
      case Status => OptStr(status)
      case CreatedAt => OptDate(createdAt)
    }

    /** `toArray()`: all five keys, nulls included. */
    function ToArray(): (m: map<string, Json>)
      ensures m.Keys == {"id", "amount", "currency", "status", "createdAt"}
      ensures forall x: Field :: m[x.Key()] == Get(x)
    {
      map["id" := OptStr(id), "amount" := OptInt(amount), "currency" := OptStr(currency),
          "status" := OptStr(status), "createdAt" := OptDate(createdAt)]
    }
  }

  /** The keys `setData` looks at. */
  datatype Field = Id | Amount | Currency | Status | CreatedAt {
    function Key(): string {
      match this
      case Id => "id"
      case Amount => "amount"
      case Currency => "currency"
      case Status => "status"
      case CreatedAt => "createdAt"
    }
  }

  /** The order in which `setData` visits them. */
  const Order: seq<Field> := [Id, Amount, Currency, Status, CreatedAt]

  /** `g` and `f` hold the same value in field `x`. */
  predicate Same(g: ChargeFields, f: ChargeFields, x: Field) {
    match x
    case Id => g.id == f.id
    case Amount => g.amount == f.amount
    case Currency => g.currency == f.currency
    case Status => g.status == f.status
    case CreatedAt => g.createdAt == f.createdAt
  }

  lemma SameGet(g: ChargeFields, f: ChargeFields, x: Field)
    requires Same(g, f, x)
    ensures g.Get(x) == f.Get(x)
  {
  }

  /** `setData` acts on key `x` of `d`: the key is set (`isset`). */
  predicate Reads(d: map<string, Json>, x: Field) {
    IsSet(d, x.Key())
  }

  /** What `setData` leaves in field `x` when it acts on it, in `Get`'s
      terms, or the error it raises. */
  function Take(x: Field, d: map<string, Json>, rt: Runtime): Result<Json, PhpError> {
    match x
    case Id => (match AsStr(Read(d, "id"), "Charge::$id") case Failure(e) => Failure(e) case Success(s) => Success(JString(s)))
    case Amount => (match AsInt(Read(d, "amount"), "Charge::$amount") case Failure(e) => Failure(e) case Success(s) => Success(JInt(s)))
    case Currency => (match AsStr(Read(d, "currency"), "Charge::$currency") case Failure(e) => Failure(e) case Success(s) => Success(JString(s)))
    case Status => (match AsStr(Read(d, "status"), "Charge::$status") case Failure(e) => Failure(e) case Success(s) => Success(JString(s)))
    case CreatedAt => (match NewDate(rt, Read(d, "createdAt"), DateTarget) case Failure(e) => Failure(e) case Success(s) => Success(JString(s.atom)))
  }

  /** A key `setData` acts on and stops at. */
  predicate Refused(d: map<string, Json>, x: Field, rt: Runtime) {
    Reads(d, x) && Take(x, d, rt).Failure?
  }

  /** One `if (isset($data[key])) { ... }` block of `setData`. */
  function Step(f: ChargeFields, d: map<string, Json>, x: Field, rt: Runtime): (r: Update<ChargeFields>)
    ensures !Reads(d, x) ==> r == Updated(f)
    ensures Reads(d, x) && r.Updated? ==> Take(x, d, rt) == Success(r.fields.Get(x))
    ensures Reads(d, x) && r.Stopped? ==> Take(x, d, rt) == Failure(r.error)
    ensures r.Stopped? ==> r.fields == f
    ensures forall y: Field :: y != x ==> Same(r.fields, f, y)
    ensures Reads(d, x) && Take(x, d, rt) == Success(f.Get(x)) ==> r == Updated(f)
  {
    if !Reads(d, x) then Updated(f)
    else match x
      case Id =>
        (match AsStr(Read(d, "id"), "Charge::$id")
          case Failure(e) => Stopped(f, e)
          case Success(s) => Updated(f.(id := Some(s))))
      case Amount =>
        (match AsInt(Read(d, "amount"), "Charge::$amount")
          case Failure(e) => Stopped(f, e)
          case Success(s) => Updated(f.(amount := Some(s))))
      case Currency =>
        (match AsStr(Read(d, "currency"), "Charge::$currency")
          case Failure(e) => Stopped(f, e)
          case Success(s) => Updated(f.(currency := Some(s))))
      case Status =>
        (match AsStr(Read(d, "status"), "Charge::$status")
          case Failure(e) => Stopped(f, e)
          case Success(s) => Updated(f.(status := Some(s))))
      case CreatedAt =>
        (match NewDate(rt, Read(d, "createdAt"), DateTarget)
          case Failure(e) => Stopped(f, e)
          case Success(s) => Updated(f.(createdAt := Some(s))))
  }

  /** `setData($data)` on an object in state `f`. */
  function Apply(f: ChargeFields, d: map<string, Json>, rt: Runtime): Update<ChargeFields> {
    Fold(Step, f, d, Order, rt)
  }

  class Charge {
    var id: Option<string>
    var amount: Option<Int64>
    var currency: Option<string>
    var status: Option<string>
    var createdAt: Option<DateTime>

    function Fields(): ChargeFields
      reads this
    {
      ChargeFields(id, amount, currency, status, createdAt)
    }

    /** An object in state `f`; `New` is the PHP constructor. */
    constructor (f: ChargeFields)
      ensures Fields() == f
    {
      id := f.id;
      amount := f.amount;
      currency := f.currency;
      status := f.status;
      createdAt := f.createdAt;
    }

    /** One guarded assignment of `setData`. */
    method Assign(x: Field, data: map<string, Json>, rt: Runtime) returns (r: Result<(), PhpError>)
      modifies this
      ensures Fields() == Step(old(Fields()), data, x, rt).fields
      ensures r.Failure? <==> Step(old(Fields()), data, x, rt).Stopped?
      ensures r.Failure? ==> r.error == Step(old(Fields()), data, x, rt).error
    {
      if Reads(data, x) {
        match x
        case Id =>
          var s :- AsStr(Read(data, "id"), "Charge::$id");
          id := Some(s);
        case Amount =>
          var s :- AsInt(Read(data, "amount"), "Charge::$amount");
          amount := Some(s);
        case Currency =>
          var s :- AsStr(Read(data, "currency"), "Charge::$currency");
          currency := Some(s);
        case Status =>
          var s :- AsStr(Read(data, "status"), "Charge::$status");
          status := Some(s);
        case CreatedAt =>
          var s :- NewDate(rt, Read(data, "createdAt"), DateTarget);
          createdAt := Some(s);
      }
      return Success(());
    }

    /** The blocks for the keys of `xs`, one after the other, up to the
        first error. */
    method AssignAll(xs: seq<Field>, data: map<string, Json>, rt: Runtime) returns (r: Result<(), PhpError>)
      modifies this
      ensures Fields() == Fold(Step, old(Fields()), data, xs, rt).fields
      ensures r.Failure? <==> Fold(Step, old(Fields()), data, xs, rt).Stopped?
      ensures r.Failure? ==> r.error == Fold(Step, old(Fields()), data, xs, rt).error
      decreases |xs|
    {
      if xs == [] {
        return Success(());
      }
      r := Assign(xs[0], data, rt);
      if r.Failure? {
        return;
      }
      r := AssignAll(xs[1..], data, rt);
    }

    /** `setData($data)`: every block, in the order of the source. */
    method SetData(data: map<string, Json>, rt: Runtime) returns (r: Result<(), PhpError>)
      modifies this
      ensures Fields() == Apply(old(Fields()), data, rt).fields
      ensures r.Failure? <==> Apply(old(Fields()), data, rt).Stopped?
      ensures r.Failure? ==> r.error == Apply(old(Fields()), data, rt).error
    {
      r := AssignAll(Order, data, rt);
    }
  }

  // ---------------------------------------------------------------------------
  // Properties of setData

  lemma OrderIsComplete(x: Field)
    ensures x in Order
  {
  }

  /** A field whose key `setData` does not act on keeps its value, even
      when `setData` stops early. */
  lemma ApplyKeepsUnread(f: ChargeFields, d: map<string, Json>, x: Field, rt: Runtime)
    requires !Reads(d, x)
    ensures Apply(f, d, rt).fields.Get(x) == f.Get(x)
  {
    var P := (g: ChargeFields) => g.Get(x) == f.Get(x);
    StepKeepsUnread(d, x, rt, f.Get(x), P);
    FoldKeeps(Step, f, d, Order, rt, P);
  }

  /** No step changes a field whose key `setData` does not act on. */
  lemma StepKeepsUnread(d: map<string, Json>, x: Field, rt: Runtime, v: Json, P: ChargeFields -> bool)
    requires !Reads(d, x)
    requires forall g :: P(g) <==> g.Get(x) == v
    ensures forall g, y :: y in Order && P(g) ==> P(Step(g, d, y, rt).fields)
  {
    forall g, y | y in Order && P(g)
      ensures P(Step(g, d, y, rt).fields)
    {
      if y != x {
        SameGet(Step(g, d, y, rt).fields, g, x);
      }
    }
  }

  /** When `setData` completes, each field it acts on holds what `Take`
      says. */
  lemma ApplyStoresRead(f: ChargeFields, d: map<string, Json>, x: Field, rt: Runtime)
    requires Reads(d, x) && Apply(f, d, rt).Updated?
    ensures Take(x, d, rt) == Success(Apply(f, d, rt).fields.Get(x))
  {
    OrderIsComplete(x);
    var P := (g: ChargeFields) => Take(x, d, rt) == Success(g.Get(x));
    StepStoresRead(d, x, rt, P);
    FoldEstablishes(Step, f, d, Order, rt, x, P);
  }

  /** The step for `x` establishes what `Take` says, and the other steps
      keep it. */
  lemma StepStoresRead(d: map<string, Json>, x: Field, rt: Runtime, P: ChargeFields -> bool)
    requires Reads(d, x)
    requires forall g :: P(g) <==> Take(x, d, rt) == Success(g.Get(x))
    ensures forall g :: Step(g, d, x, rt).Updated? ==> P(Step(g, d, x, rt).fields)
    ensures forall g, y :: y != x && P(g) ==> P(Step(g, d, y, rt).fields)
  {
    forall g, y | y != x && P(g)
      ensures P(Step(g, d, y, rt).fields)
    {
      SameGet(Step(g, d, y, rt).fields, g, x);
    }
  }

  /** `setData` stops exactly when some key it acts on is refused, and
      with the error of the first such key in its order. */
  lemma ApplyStops(f: ChargeFields, d: map<string, Json>, rt: Runtime)
    ensures Apply(f, d, rt).Stopped? <==> exists x: Field :: Refused(d, x, rt)
    ensures Apply(f, d, rt).Stopped? ==>
      exists i :: 0 <= i < |Order| && Refused(d, Order[i], rt) &&
        (forall j :: 0 <= j < i ==> !Refused(d, Order[j], rt)) &&
        Apply(f, d, rt).error == Take(Order[i], d, rt).error
  {
    FoldStops(Step, f, d, Order, rt, (y: Field) => Refused(d, y, rt), (y: Field) => Take(y, d, rt));
    if x: Field :| Refused(d, x, rt) {
      OrderIsComplete(x);
    }
  }

  /** An empty array changes nothing. */
  lemma ApplyEmpty(f: ChargeFields, rt: Runtime)
    ensures Apply(f, map[], rt) == Updated(f)
  {
    FoldNoOp(Step, f, map[], Order, rt);
  }

  /** Applying the same data twice is applying it once. */
  lemma ApplyIdempotent(f: ChargeFields, d: map<string, Json>, rt: Runtime)
    requires Apply(f, d, rt).Updated?
    ensures Apply(Apply(f, d, rt).fields, d, rt) == Apply(f, d, rt)
  {
    var g := Apply(f, d, rt).fields;
    ApplyStops(f, d, rt);
    forall x | x in Order
      ensures Step(g, d, x, rt) == Updated(g)
    {
      if Reads(d, x) {
        ApplyStoresRead(f, d, x, rt);
      }
    }
    FoldNoOp(Step, g, d, Order, rt);
  }

  /** A Charge as `new Charge()` leaves it: everything null. */
  const Blank := ChargeFields(None, None, None, None, None)

  /** `(new Charge())->setData($v)` as an expression: `$v` must be an array;
      the fresh object is filled and then discarded, and since `setData`
      returns nothing the expression's value is null. */
  function SetDataOnNew(v: Json, rt: Runtime): (r: Result<Option<ChargeFields>, PhpError>)
    ensures !IsArray(v) ==> r == Failure(TypeError("Charge::setData(): Argument #1 ($data)"))
    ensures IsArray(v) ==> (r.Failure? <==> exists x: Field :: Refused(Entries(v), x, rt))
    ensures r.Success? ==> r.value.None?
  {
    if !IsArray(v) then Failure(TypeError("Charge::setData(): Argument #1 ($data)"))
    else
      ApplyStops(Blank, Entries(v), rt);
      match Apply(Blank, Entries(v), rt)
      case Updated(_) => Success(None)
      case Stopped(_, e) => Failure(e)
  }

  /** Feeding `toArray()` back to `setData` reproduces the object: null
      properties are not set, and every other value is taken back as it is (a date, when the runtime reads its ATOM rendering back). */
  lemma ToArrayRoundTrip(f: ChargeFields, rt: Runtime)
    requires ReadsAtomBack(rt)
    ensures Apply(f, f.ToArray(), rt) == Updated(f)
  {
    var d := f.ToArray();
    forall x | x in Order
      ensures Step(f, d, x, rt) == Updated(f)
    {
      assert d[x.Key()] == f.Get(x);
      if f.createdAt.Some? {
        assert rt.construct(f.createdAt.value.atom) == Some(f.createdAt.value);
      }
    }
    FoldNoOp(Step, f, d, Order, rt);
  }
}
