/**
 * `ONVO\Models\DeliveryEstimate`, declared beside `ShippingRate`: the
 * delivery window of a shipping rate. All four properties are non-nullable,
 * so the constructor's null defaults for the two values make
 * `new DeliveryEstimate()` fail.
 */
module DeliveryEstimate {
  import opened Php
  import opened Setter

  /** The state of a DeliveryEstimate object. */
  datatype DeliveryEstimateFields = DeliveryEstimateFields(
    minimumUnit: string,
    minimumValue: Int64,
    maximumUnit: string,
    maximumValue: Int64)
  {
    /** Field `x` as JSON: what `toArray` shows of it. */
    function Get(x: Field): Json {
      match x
      case MinimumUnit => JString(minimumUnit)
      case MinimumValue => JInt(minimumValue)
      case MaximumUnit => JString(maximumUnit)
      case MaximumValue => JInt(maximumValue)
    }

    /** `toArray()`: all four keys. */
    function ToArray(): (m: map<string, Json>)
      ensures m.Keys == {"minimumUnit", "minimumValue", "maximumUnit", "maximumValue"}
      ensures forall x: Field :: m[x.Key()] == Get(x)
    {
      map["minimumUnit" := JString(minimumUnit), "minimumValue" := JInt(minimumValue),
          "maximumUnit" := JString(maximumUnit), "maximumValue" := JInt(maximumValue)]
    }
  }

  /** The keys `setData` looks at. */
  datatype Field = MinimumUnit | MinimumValue | MaximumUnit | MaximumValue {
    function Key(): string {
      match this
      case MinimumUnit => "minimumUnit"
      case MinimumValue => "minimumValue"
      case MaximumUnit => "maximumUnit"
      case MaximumValue => "maximumValue"
    }
  }

  /** The order in which `setData` visits them. */
  const Order: seq<Field> := [MinimumUnit, MinimumValue, MaximumUnit, MaximumValue]

  /** `g` and `f` hold the same value in field `x`. */
  predicate Same(g: DeliveryEstimateFields, f: DeliveryEstimateFields, x: Field) {
    match x
    case MinimumUnit => g.minimumUnit == f.minimumUnit
    case MinimumValue => g.minimumValue == f.minimumValue
    case MaximumUnit => g.maximumUnit == f.maximumUnit
    case MaximumValue => g.maximumValue == f.maximumValue
  }

  lemma SameGet(g: DeliveryEstimateFields, f: DeliveryEstimateFields, x: Field)
    requires Same(g, f, x)
    ensures g.Get(x) == f.Get(x)
  {
  }

  /** `setData` acts on key `x` of `d`: the key is set (`isset`). */
  predicate Reads(d: map<string, Json>, x: Field) {
    IsSet(d, x.Key())
  }

  /** What `setData` leaves in field `x` when it acts on it, in `Get`'s
      terms, or the error it raises. */
  function Take(x: Field, d: map<string, Json>, rt: Runtime): Result<Json, PhpError> {
    match x
    case MinimumUnit => (match AsStr(Read(d, "minimumUnit"), "DeliveryEstimate::$minimumUnit") case Failure(e) => Failure(e) case Success(s) => Success(JString(s)))
    case MinimumValue => (match AsInt(Read(d, "minimumValue"), "DeliveryEstimate::$minimumValue") case Failure(e) => Failure(e) case Success(s) => Success(JInt(s)))
    case MaximumUnit => (match AsStr(Read(d, "maximumUnit"), "DeliveryEstimate::$maximumUnit") case Failure(e) => Failure(e) case Success(s) => Success(JString(s)))
    case MaximumValue => (match AsInt(Read(d, "maximumValue"), "DeliveryEstimate::$maximumValue") case Failure(e) => Failure(e) case Success(s) => Success(JInt(s)))
  }

  /** A key `setData` acts on and stops at. */
  predicate Refused(d: map<string, Json>, x: Field, rt: Runtime) {
    Reads(d, x) && Take(x, d, rt).Failure?
  }

  /** One `if (isset($data[key])) { ... }` block of `setData`. */
  function Step(f: DeliveryEstimateFields, d: map<string, Json>, x: Field, rt: Runtime): (r: Update<DeliveryEstimateFields>)
    ensures !Reads(d, x) ==> r == Updated(f)
    ensures Reads(d, x) && r.Updated? ==> Take(x, d, rt) == Success(r.fields.Get(x))
    ensures Reads(d, x) && r.Stopped? ==> Take(x, d, rt) == Failure(r.error)
    ensures r.Stopped? ==> r.fields == f
    ensures forall y: Field :: y != x ==> Same(r.fields, f, y)
    ensures Reads(d, x) && Take(x, d, rt) == Success(f.Get(x)) ==> r == Updated(f)
  {
    if !Reads(d, x) then Updated(f)
    else match x
      case MinimumUnit =>
        (match AsStr(Read(d, "minimumUnit"), "DeliveryEstimate::$minimumUnit")
          case Failure(e) => Stopped(f, e)
          case Success(s) => Updated(f.(minimumUnit := s)))
      case MinimumValue =>
        (match AsInt(Read(d, "minimumValue"), "DeliveryEstimate::$minimumValue")
          case Failure(e) => Stopped(f, e)
          case Success(s) => Updated(f.(minimumValue := s)))
      case MaximumUnit =>
        (match AsStr(Read(d, "maximumUnit"), "DeliveryEstimate::$maximumUnit")
          case Failure(e) => Stopped(f, e)
          case Success(s) => Updated(f.(maximumUnit := s)))
      case MaximumValue =>
        (match AsInt(Read(d, "maximumValue"), "DeliveryEstimate::$maximumValue")
          case Failure(e) => Stopped(f, e)
          case Success(s) => Updated(f.(maximumValue := s)))
  }

  /** `setData($data)` on an object in state `f`. */
  function Apply(f: DeliveryEstimateFields, d: map<string, Json>, rt: Runtime): Update<DeliveryEstimateFields> {
    Fold(Step, f, d, Order, rt)
  }

  class DeliveryEstimate {
    var minimumUnit: string
    var minimumValue: Int64
    var maximumUnit: string
    var maximumValue: Int64

    function Fields(): DeliveryEstimateFields
      reads this
    {
      DeliveryEstimateFields(minimumUnit, minimumValue, maximumUnit, maximumValue)
    }

    /** An object in state `f`; `New` is the PHP constructor. */
    constructor (f: DeliveryEstimateFields)
      ensures Fields() == f
    {
      minimumUnit := f.minimumUnit;
      minimumValue := f.minimumValue;
      maximumUnit := f.maximumUnit;
      maximumValue := f.maximumValue;
    }

    /** One guarded assignment of `setData`. */
    method Assign(x: Field, data: map<string, Json>, rt: Runtime) returns (r: Result<(), PhpError>)
      modifies this
      ensures Fields() == Step(old(Fields()), data, x, rt).fields
      ensures r.Failure? <==> Step(old(Fields()), data, x, rt).Stopped?
      ensures r.Failure? ==> r.error == Step(old(Fields()), data, x, rt).error
    {
      if Reads(data, x) {
        match x
        case MinimumUnit =>
          var s :- AsStr(Read(data, "minimumUnit"), "DeliveryEstimate::$minimumUnit");
          minimumUnit := s;
        case MinimumValue =>
          var s :- AsInt(Read(data, "minimumValue"), "DeliveryEstimate::$minimumValue");
          minimumValue := s;
        case MaximumUnit =>
          var s :- AsStr(Read(data, "maximumUnit"), "DeliveryEstimate::$maximumUnit");
          maximumUnit := s;
        case MaximumValue =>
          var s :- AsInt(Read(data, "maximumValue"), "DeliveryEstimate::$maximumValue");
          maximumValue := s;
      }
      return Success(());
    }

    /** The blocks for the keys of `xs`, one after the other, up to the
        first error. */
    method AssignAll(xs: seq<Field>, data: map<string, Json>, rt: Runtime) returns (r: Result<(), PhpError>)
      modifies this
      ensures Fields() == Fold(Step, old(Fields()), data, xs, rt).fields
      ensures r.Failure? <==> Fold(Step, old(Fields()), data, xs, rt).Stopped?
      ensures r.Failure? ==> r.error == Fold(Step, old(Fields()), data, xs, rt).error
      decreases |xs|
    {
      if xs == [] {
        return Success(());
      }
      r := Assign(xs[0], data, rt);
      if r.Failure? {
        return;
      }
      r := AssignAll(xs[1..], data, rt);
    }

    /** `setData($data)`: every block, in the order of the source. */
    method SetData(data: map<string, Json>, rt: Runtime) returns (r: Result<(), PhpError>)
      modifies this
      ensures Fields() == Apply(old(Fields()), data, rt).fields
      ensures r.Failure? <==> Apply(old(Fields()), data, rt).Stopped?
      ensures r.Failure? ==> r.error == Apply(old(Fields()), data, rt).error
    {
      r := AssignAll(Order, data, rt);
    }
  }

  // ---------------------------------------------------------------------------
  // Properties of setData

  lemma OrderIsComplete(x: Field)
    ensures x in Order
  {
  }

  /** A field whose key `setData` does not act on keeps its value, even
      when `setData` stops early. */
  lemma ApplyKeepsUnread(f: DeliveryEstimateFields, d: map<string, Json>, x: Field, rt: Runtime)
    requires !Reads(d, x)
    ensures Apply(f, d, rt).fields.Get(x) == f.Get(x)
  {
    var P := (g: DeliveryEstimateFields) => g.Get(x) == f.Get(x);
    StepKeepsUnread(d, x, rt, f.Get(x), P);
    FoldKeeps(Step, f, d, Order, rt, P);
  }

  /** No step changes a field whose key `setData` does not act on. */
  lemma StepKeepsUnread(d: map<string, Json>, x: Field, rt: Runtime, v: Json, P: DeliveryEstimateFields -> bool)
    requires !Reads(d, x)
    requires forall g :: P(g) <==> g.Get(x) == v
    ensures forall g, y :: y in Order && P(g) ==> P(Step(g, d, y, rt).fields)
  {
    forall g, y | y in Order && P(g)
      ensures P(Step(g, d, y, rt).fields)
    {
      if y != x {
        SameGet(Step(g, d, y, rt).fields, g, x);
      }
    }
  }

  /** When `setData` completes, each field it acts on holds what `Take`
      says. */
  lemma ApplyStoresRead(f: DeliveryEstimateFields, d: map<string, Json>, x: Field, rt: Runtime)
    requires Reads(d, x) && Apply(f, d, rt).Updated?
    ensures Take(x, d, rt) == Success(Apply(f, d, rt).fields.Get(x))
  {
    OrderIsComplete(x);
    var P := (g: DeliveryEstimateFields) => Take(x, d, rt) == Success(g.Get(x));
    StepStoresRead(d, x, rt, P);
    FoldEstablishes(Step, f, d, Order, rt, x, P);
  }

  /** The step for `x` establishes what `Take` says, and the other steps
      keep it. */
  lemma StepStoresRead(d: map<string, Json>, x: Field, rt: Runtime, P: DeliveryEstimateFields -> bool)
    requires Reads(d, x)
    requires forall g :: P(g) <==> Take(x, d, rt) == Success(g.Get(x))
    ensures forall g :: Step(g, d, x, rt).Updated? ==> P(Step(g, d, x, rt).fields)
    ensures forall g, y :: y != x && P(g) ==> P(Step(g, d, y, rt).fields)
  {
    forall g, y | y != x && P(g)
      ensures P(Step(g, d, y, rt).fields)
    {
      SameGet(Step(g, d, y, rt).fields, g, x);
    }
  }

  /** `setData` stops exactly when some key it acts on is refused, and
      with the error of the first such key in its order. */
  lemma ApplyStops(f: DeliveryEstimateFields, d: map<string, Json>, rt: Runtime)
    ensures Apply(f, d, rt).Stopped? <==> exists x: Field :: Refused(d, x, rt)
    ensures Apply(f, d, rt).Stopped? ==>
      exists i :: 0 <= i < |Order| && Refused(d, Order[i], rt) &&
        (forall j :: 0 <= j < i ==> !Refused(d, Order[j], rt)) &&
        Apply(f, d, rt).error == Take(Order[i], d, rt).error
  {
    FoldStops(Step, f, d, Order, rt, (y: Field) => Refused(d, y, rt), (y: Field) => Take(y, d, rt));
    if x: Field :| Refused(d, x, rt) {
      OrderIsComplete(x);
    }
  }

  /** An empty array changes nothing. */
  lemma ApplyEmpty(f: DeliveryEstimateFields, rt: Runtime)
    ensures Apply(f, map[], rt) == Updated(f)
  {
    FoldNoOp(Step, f, map[], Order, rt);
  }

  /** Applying the same data twice is applying it once. */
  lemma ApplyIdempotent(f: DeliveryEstimateFields, d: map<string, Json>, rt: Runtime)
    requires Apply(f, d, rt).Updated?
    ensures Apply(Apply(f, d, rt).fields, d, rt) == Apply(f, d, rt)
  {
    var g := Apply(f, d, rt).fields;
    ApplyStops(f, d, rt);
    forall x | x in Order
      ensures Step(g, d, x, rt) == Updated(g)
    {
      if Reads(d, x) {
        ApplyStoresRead(f, d, x, rt);
      }
    }
    FoldNoOp(Step, g, d, Order, rt);
  }

  /** `new DeliveryEstimate(...)` on decoded values: the four arguments are
      checked against `?string`/`?int` first, in order, then stored in the
      non-nullable properties, in order, where null is refused. */
  function New(minimumUnit: Json := JString(""), minimumValue: Json := JNull, maximumUnit: Json := JString(""),
               maximumValue: Json := JNull): (r: Result<DeliveryEstimateFields, PhpError>)
    ensures r.Success? <==>
      ToStr(minimumUnit).Some? && ToInt(minimumValue).Some? && ToStr(maximumUnit).Some? && ToInt(maximumValue).Some?
    ensures r.Success? ==>
      Some(r.value.minimumUnit) == ToStr(minimumUnit) && Some(r.value.minimumValue) == ToInt(minimumValue) &&
      Some(r.value.maximumUnit) == ToStr(maximumUnit) && Some(r.value.maximumValue) == ToInt(maximumValue)
    ensures ToNullableStr(minimumUnit).None? ==>
      r == Failure(TypeError("DeliveryEstimate::__construct(): Argument #1 ($minimumUnit)"))
  {
    var minUnit :- AsNullableStr(minimumUnit, "DeliveryEstimate::__construct(): Argument #1 ($minimumUnit)");
    var minValue :- AsNullableInt(minimumValue, "DeliveryEstimate::__construct(): Argument #2 ($minimumValue)");
    var maxUnit :- AsNullableStr(maximumUnit, "DeliveryEstimate::__construct(): Argument #3 ($maximumUnit)");
    var maxValue :- AsNullableInt(maximumValue, "DeliveryEstimate::__construct(): Argument #4 ($maximumValue)");
    if minUnit.None? then Failure(TypeError("DeliveryEstimate::$minimumUnit"))
    else if minValue.None? then Failure(TypeError("DeliveryEstimate::$minimumValue"))
    else if maxUnit.None? then Failure(TypeError("DeliveryEstimate::$maximumUnit"))
    else if maxValue.None? then Failure(TypeError("DeliveryEstimate::$maximumValue"))
    else Success(DeliveryEstimateFields(minUnit.value, minValue.value, maxUnit.value, maxValue.value))
  }

  /** `new DeliveryEstimate()` fails on its null minimum value. */
  lemma NewDefaultFails()
    ensures New() == Failure(TypeError("DeliveryEstimate::$minimumValue"))
  {
  }

  /** An estimate's own array is accepted by the constructor and gives the
      same estimate back. */
  lemma NewFromToArray(f: DeliveryEstimateFields)
    ensures var a := f.ToArray();
      New(a["minimumUnit"], a["minimumValue"], a["maximumUnit"], a["maximumValue"]) == Success(f)
  {
  }

  /** Feeding `toArray()` back to `setData` reproduces the object. */
  lemma ToArrayRoundTrip(f: DeliveryEstimateFields, rt: Runtime)
    ensures Apply(f, f.ToArray(), rt) == Updated(f)
  {
    var d := f.ToArray();
    forall x | x in Order
      ensures Step(f, d, x, rt) == Updated(f)
    {
      assert d[x.Key()] == f.Get(x);
    }
    FoldNoOp(Step, f, d, Order, rt);
  }
}
