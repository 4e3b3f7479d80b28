/**
 * `App\Models\Product\Recurring`, declared beside `Price`: the billing
 * period of a recurring price. Both properties are non-nullable, so the
 * constructor's defaults (an empty interval and a null count) make
 * `new Recurring()` fail.
 */
module Recurring {
  import opened Php
  import opened Setter

  /** The state of a Recurring object. */
  datatype RecurringFields = RecurringFields(
    interval: string,
    intervalCount: Int64)
  {
    /** Field `x` as JSON: what `toArray` shows of it. */
    function Get(x: Field): Json {
      match x
      case Interval => JString(interval)
      case IntervalCount => JInt(intervalCount)
    }

    /** `toArray()`: both keys. */
    function ToArray(): (m: map<string, Json>)
      ensures m.Keys == {"interval", "intervalCount"}
      ensures forall x: Field :: m[x.Key()] == Get(x)
    {
      map["interval" := JString(interval), "intervalCount" := JInt(intervalCount)]
    }
  }

  /** The keys `setData` looks at. */
  datatype Field = Interval | IntervalCount {
    function Key(): string {
      match this
      case Interval => "interval"
      case IntervalCount => "intervalCount"
    }
  }

  /** The order in which `setData` visits them. */
  const Order: seq<Field> := [Interval, IntervalCount]

  /** `g` and `f` hold the same value in field `x`. */
  predicate Same(g: RecurringFields, f: RecurringFields, x: Field) {
    match x
    case Interval => g.interval == f.interval
    case IntervalCount => g.intervalCount == f.intervalCount
  }

  lemma SameGet(g: RecurringFields, f: RecurringFields, x: Field)
    requires Same(g, f, x)
    ensures g.Get(x) == f.Get(x)
  {
  }

  /** `setData` acts on key `x` of `d`: the key is set (`isset`). */
  predicate Reads(d: map<string, Json>, x: Field) {
    IsSet(d, x.Key())
  }

  /** What `setData` leaves in field `x` when it acts on it, in `Get`'s
      terms, or the error it raises. */
  function Take(x: Field, d: map<string, Json>, rt: Runtime): Result<Json, PhpError> {
    match x
    case Interval => (match AsStr(Read(d, "interval"), "Recurring::$interval") case Failure(e) => Failure(e) case Success(s) => Success(JString(s)))
    case IntervalCount => (match AsInt(Read(d, "intervalCount"), "Recurring::$intervalCount") case Failure(e) => Failure(e) case Success(s) => Success(JInt(s)))
  }

  /** A key `setData` acts on and stops at. */
  predicate Refused(d: map<string, Json>, x: Field, rt: Runtime) {
    Reads(d, x) && Take(x, d, rt).Failure?
  }

  /** One `if (isset($data[key])) { ... }` block of `setData`. */
  function Step(f: RecurringFields, d: map<string, Json>, x: Field, rt: Runtime): (r: Update<RecurringFields>)
    ensures !Reads(d, x) ==> r == Updated(f)
    ensures Reads(d, x) && r.Updated? ==> Take(x, d, rt) == Success(r.fields.Get(x))
    ensures Reads(d, x) && r.Stopped? ==> Take(x, d, rt) == Failure(r.error)
    ensures r.Stopped? ==> r.fields == f
    ensures forall y: Field :: y != x ==> Same(r.fields, f, y)
    ensures Reads(d, x) && Take(x, d, rt) == Success(f.Get(x)) ==> r == Updated(f)
  {
    if !Reads(d, x) then Updated(f)
    else match x
      case Interval =>
        (match AsStr(Read(d, "interval"), "Recurring::$interval")
          case Failure(e) => Stopped(f, e)
          case Success(s) => Updated(f.(interval := s)))
      case IntervalCount =>
        (match AsInt(Read(d, "intervalCount"), "Recurring::$intervalCount")
          case Failure(e) => Stopped(f, e)
          case Success(s) => Updated(f.(intervalCount := s)))
  }

  /** `setData($data)` on an object in state `f`. */
  function Apply(f: RecurringFields, d: map<string, Json>, rt: Runtime): Update<RecurringFields> {
    Fold(Step, f, d, Order, rt)
  }

  class Recurring {
    var interval: string
    var intervalCount: Int64

    function Fields(): RecurringFields
      reads this
    {
      RecurringFields(interval, intervalCount)
    }

    /** An object in state `f`; `New` is the PHP constructor. */
    constructor (f: RecurringFields)
      ensures Fields() == f
    {
      interval := f.interval;
      intervalCount := f.intervalCount;
    }

    /** One guarded assignment of `setData`. */
    method Assign(x: Field, data: map<string, Json>, rt: Runtime) returns (r: Result<(), PhpError>)
      modifies this
      ensures Fields() == Step(old(Fields()), data, x, rt).fields
      ensures r.Failure? <==> Step(old(Fields()), data, x, rt).Stopped?
      ensures r.Failure? ==> r.error == Step(old(Fields()), data, x, rt).error
    {
      if Reads(data, x) {
        match x
        case Interval =>
          var s :- AsStr(Read(data, "interval"), "Recurring::$interval");
          interval := s;
        case IntervalCount =>
          var s :- AsInt(Read(data, "intervalCount"), "Recurring::$intervalCount");
          intervalCount := s;
      }
      return Success(());
    }

    /** The blocks for the keys of `xs`, one after the other, up to the
        first error. */
    method AssignAll(xs: seq<Field>, data: map<string, Json>, rt: Runtime) returns (r: Result<(), PhpError>)
      modifies this
      ensures Fields() == Fold(Step, old(Fields()), data, xs, rt).fields
      ensures r.Failure? <==> Fold(Step, old(Fields()), data, xs, rt).Stopped?
      ensures r.Failure? ==> r.error == Fold(Step, old(Fields()), data, xs, rt).error
      decreases |xs|
    {
      if xs == [] {
        return Success(());
      }
      r := Assign(xs[0], data, rt);
      if r.Failure? {
        return;
      }
      r := AssignAll(xs[1..], data, rt);
    }

    /** `setData($data)`: every block, in the order of the source. */
    method SetData(data: map<string, Json>, rt: Runtime) returns (r: Result<(), PhpError>)
      modifies this
      ensures Fields() == Apply(old(Fields()), data, rt).fields
      ensures r.Failure? <==> Apply(old(Fields()), data, rt).Stopped?
      ensures r.Failure? ==> r.error == Apply(old(Fields()), data, rt).error
    {
      r := AssignAll(Order, data, rt);
    }
  }

  // ---------------------------------------------------------------------------
  // Properties of setData

  lemma OrderIsComplete(x: Field)
    ensures x in Order
  {
  }

  /** A field whose key `setData` does not act on keeps its value, even
      when `setData` stops early. */
  lemma ApplyKeepsUnread(f: RecurringFields, d: map<string, Json>, x: Field, rt: Runtime)
    requires !Reads(d, x)
    ensures Apply(f, d, rt).fields.Get(x) == f.Get(x)
  {
    var P := (g: RecurringFields) => g.Get(x) == f.Get(x);
    StepKeepsUnread(d, x, rt, f.Get(x), P);
    FoldKeeps(Step, f, d, Order, rt, P);
  }

  /** No step changes a field whose key `setData` does not act on. */
  lemma StepKeepsUnread(d: map<string, Json>, x: Field, rt: Runtime, v: Json, P: RecurringFields -> bool)
    requires !Reads(d, x)
    requires forall g :: P(g) <==> g.Get(x) == v
    ensures forall g, y :: y in Order && P(g) ==> P(Step(g, d, y, rt).fields)
  {
    forall g, y | y in Order && P(g)
      ensures P(Step(g, d, y, rt).fields)
    {
      if y != x {
        SameGet(Step(g, d, y, rt).fields, g, x);
      }
    }
  }

  /** When `setData` completes, each field it acts on holds what `Take`
      says. */
  lemma ApplyStoresRead(f: RecurringFields, d: map<string, Json>, x: Field, rt: Runtime)
    requires Reads(d, x) && Apply(f, d, rt).Updated?
    ensures Take(x, d, rt) == Success(Apply(f, d, rt).fields.Get(x))
  {
    OrderIsComplete(x);
    var P := (g: RecurringFields) => Take(x, d, rt) == Success(g.Get(x));
    StepStoresRead(d, x, rt, P);
    FoldEstablishes(Step, f, d, Order, rt, x, P);
  }

  /** The step for `x` establishes what `Take` says, and the other steps
      keep it. */
  lemma StepStoresRead(d: map<string, Json>, x: Field, rt: Runtime, P: RecurringFields -> bool)
    requires Reads(d, x)
    requires forall g :: P(g) <==> Take(x, d, rt) == Success(g.Get(x))
    ensures forall g :: Step(g, d, x, rt).Updated? ==> P(Step(g, d, x, rt).fields)
    ensures forall g, y :: y != x && P(g) ==> P(Step(g, d, y, rt).fields)
  {
    forall g, y | y != x && P(g)
      ensures P(Step(g, d, y, rt).fields)
    {
      SameGet(Step(g, d, y, rt).fields, g, x);
    }
  }

  /** `setData` stops exactly when some key it acts on is refused, and
      with the error of the first such key in its order. */
  lemma ApplyStops(f: RecurringFields, d: map<string, Json>, rt: Runtime)
    ensures Apply(f, d, rt).Stopped? <==> exists x: Field :: Refused(d, x, rt)
    ensures Apply(f, d, rt).Stopped? ==>
      exists i :: 0 <= i < |Order| && Refused(d, Order[i], rt) &&
        (forall j :: 0 <= j < i ==> !Refused(d, Order[j], rt)) &&
        Apply(f, d, rt).error == Take(Order[i], d, rt).error
  {
    FoldStops(Step, f, d, Order, rt, (y: Field) => Refused(d, y, rt), (y: Field) => Take(y, d, rt));
    if x: Field :| Refused(d, x, rt) {
      OrderIsComplete(x);
    }
  }

  /** An empty array changes nothing. */
  lemma ApplyEmpty(f: RecurringFields, rt: Runtime)
    ensures Apply(f, map[], rt) == Updated(f)
  {
    FoldNoOp(Step, f, map[], Order, rt);
  }

  /** Applying the same data twice is applying it once. */
  lemma ApplyIdempotent(f: RecurringFields, d: map<string, Json>, rt: Runtime)
    requires Apply(f, d, rt).Updated?
    ensures Apply(Apply(f, d, rt).fields, d, rt) == Apply(f, d, rt)
  {
    var g := Apply(f, d, rt).fields;
    ApplyStops(f, d, rt);
    forall x | x in Order
      ensures Step(g, d, x, rt) == Updated(g)
    {
      if Reads(d, x) {
        ApplyStoresRead(f, d, x, rt);
      }
    }
    FoldNoOp(Step, g, d, Order, rt);
  }

  /** `new Recurring($interval, $intervalCount)` on decoded values: both
      arguments are checked against `?string` and `?int` first, then stored in
      the non-nullable properties, where null is refused. */
  function New(interval: Json := JString(""), intervalCount: Json := JNull): (r: Result<RecurringFields, PhpError>)
    ensures r.Success? <==> ToStr(interval).Some? && ToInt(intervalCount).Some?
    ensures r.Success? ==> Some(r.value.interval) == ToStr(interval) && Some(r.value.intervalCount) == ToInt(intervalCount)
    ensures ToNullableStr(interval).None? ==> r == Failure(TypeError("Recurring::__construct(): Argument #1 ($interval)"))
    ensures interval.JNull? ==>
      r == Failure(if ToNullableInt(intervalCount).None? then TypeError("Recurring::__construct(): Argument #2 ($intervalCount)")
                   else TypeError("Recurring::$interval"))
  {
    var i :- AsNullableStr(interval, "Recurring::__construct(): Argument #1 ($interval)");
    var n :- AsNullableInt(intervalCount, "Recurring::__construct(): Argument #2 ($intervalCount)");
    if i.None? then Failure(TypeError("Recurring::$interval"))
    else if n.None? then Failure(TypeError("Recurring::$intervalCount"))
    else Success(RecurringFields(i.value, n.value))
  }

  /** `new Recurring()` fails on its null count. */
  lemma NewDefaultFails()
    ensures New() == Failure(TypeError("Recurring::$intervalCount"))
  {
  }

  /** Feeding `toArray()` back to `setData` reproduces the object. */
  lemma ToArrayRoundTrip(f: RecurringFields, rt: Runtime)
    ensures Apply(f, f.ToArray(), rt) == Updated(f)
  {
    var d := f.ToArray();
    forall x | x in Order
      ensures Step(f, d, x, rt) == Updated(f)
    {
      assert d[x.Key()] == f.Get(x);
    }
    FoldNoOp(Step, f, d, Order, rt);
  }

  /** A Recurring's own array is accepted by the constructor and gives the
      same object back. */
  lemma NewFromToArray(f: RecurringFields)
    ensures New(f.ToArray()["interval"], f.ToArray()["intervalCount"]) == Success(f)
  {
  }
}
