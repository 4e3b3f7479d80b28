/**
 * `ONVO\Models\PaymentMethod\MobileNumber` (in `AlternativePayments.php`): a
 * masked number that is always present, and three optional details that
 * `toArray` shows only when non-null.
 */
module MobileNumber {
  import opened Php
  import opened Setter

  /** The state of a MobileNumber object. `maskedNumber` is declared `string`. */
  datatype MobileNumberFields = MobileNumberFields(
    maskedNumber: string,
    identification: Option<string>,
    identificationType: Option<Int64>,
    number: Option<string>)
  {
    /** Field `x` as JSON: what `toArray` shows of it. */
    function Get(x: Field): Json {
      match x
      case MaskedNumber => JString(maskedNumber)
      case Identification => OptStr(identification)
      case IdentificationType => OptInt(identificationType)
      case Number => OptStr(number)
    }

    /** `toArray()`: `maskedNumber` always, each other key only when its field
        is non-null. */
    function ToArray(): (m: map<string, Json>)
      ensures "maskedNumber" in m && m.Keys <= {"maskedNumber", "identification", "identificationType", "number"}
      ensures "identification" in m <==> identification.Some?
      ensures "identificationType" in m <==> identificationType.Some?
      ensures "number" in m <==> number.Some?
      ensures forall x: Field :: x.Key() in m ==> m[x.Key()] == Get(x)
    {
      var data := map["maskedNumber" := JString(maskedNumber)];
      var data := if identification.Some? then data["identification" := JString(identification.value)] else data;
      var data := if identificationType.Some? then data["identificationType" := JInt(identificationType.value)] else data;
      if number.Some? then data["number" := JString(number.value)] else data
    }
  }

  /** The keys `setData` looks at. */
  datatype Field = MaskedNumber | Identification | IdentificationType | Number {
    function Key(): string {
      match this
      case MaskedNumber => "maskedNumber"
      case Identification => "identification"
      case IdentificationType => "identificationType"
      case Number => "number"
    }
  }

  /** The order in which `setData` visits them. */
  const Order: seq<Field> := [MaskedNumber, Identification, IdentificationType, Number]

  /** `g` and `f` hold the same value in field `x`. */
  predicate Same(g: MobileNumberFields, f: MobileNumberFields, x: Field) {
    match x
    case MaskedNumber => g.maskedNumber == f.maskedNumber
    case Identification => g.identification == f.identification
    case IdentificationType => g.identificationType == f.identificationType
    case Number => g.number == f.number
  }

  lemma SameGet(g: MobileNumberFields, f: MobileNumberFields, x: Field)
    requires Same(g, f, x)
    ensures g.Get(x) == f.Get(x)
  {
  }

  /** `setData` acts on key `x` of `d`: the key is set (`isset`). */
  predicate Reads(d: map<string, Json>, x: Field) {
    IsSet(d, x.Key())
  }

  /** What `setData` leaves in field `x` when it acts on it, in `Get`'s
      terms, or the error it raises. */
  function Take(x: Field, d: map<string, Json>, rt: Runtime): Result<Json, PhpError> {
    match x
    case MaskedNumber => (match AsStr(Read(d, "maskedNumber"), "MobileNumber::$maskedNumber") case Failure(e) => Failure(e) case Success(s) => Success(JString(s)))
    case Identification => (match AsStr(Read(d, "identification"), "MobileNumber::$identification") case Failure(e) => Failure(e) case Success(s) => Success(JString(s)))
    case IdentificationType => (match AsInt(Read(d, "identificationType"), "MobileNumber::$identificationType") case Failure(e) => Failure(e) case Success(s) => Success(JInt(s)))
    case Number => (match AsStr(Read(d, "number"), "MobileNumber::$number") case Failure(e) => Failure(e) case Success(s) => Success(JString(s)))
  }

  /** A key `setData` acts on and stops at. */
  predicate Refused(d: map<string, Json>, x: Field, rt: Runtime) {
    Reads(d, x) && Take(x, d, rt).Failure?
  }

  /** One `if (isset($data[key])) { ... }` block of `setData`. */
  function Step(f: MobileNumberFields, d: map<string, Json>, x: Field, rt: Runtime): (r: Update<MobileNumberFields>)
    ensures !Reads(d, x) ==> r == Updated(f)
    ensures Reads(d, x) && r.Updated? ==> Take(x, d, rt) == Success(r.fields.Get(x))
    ensures Reads(d, x) && r.Stopped? ==> Take(x, d, rt) == Failure(r.error)
    ensures r.Stopped? ==> r.fields == f
    ensures forall y: Field :: y != x ==> Same(r.fields, f, y)
    ensures Reads(d, x) && Take(x, d, rt) == Success(f.Get(x)) ==> r == Updated(f)
  {
    if !Reads(d, x) then Updated(f)
    else match x
      case MaskedNumber =>
        (match AsStr(Read(d, "maskedNumber"), "MobileNumber::$maskedNumber")
          case Failure(e) => Stopped(f, e)
          case Success(s) => Updated(f.(maskedNumber := s)))
      case Identification =>
        (match AsStr(Read(d, "identification"), "MobileNumber::$identification")
          case Failure(e) => Stopped(f, e)
          case Success(s) => Updated(f.(identification := Some(s))))
      case IdentificationType =>
        (match AsInt(Read(d, "identificationType"), "MobileNumber::$identificationType")
          case Failure(e) => Stopped(f, e)
          case Success(s) => Updated(f.(identificationType := Some(s))))
      case Number =>
        (match AsStr(Read(d, "number"), "MobileNumber::$number")
          case Failure(e) => Stopped(f, e)
          case Success(s) => Updated(f.(number := Some(s))))
  }

  /** `setData($data)` on an object in state `f`. */
  function Apply(f: MobileNumberFields, d: map<string, Json>, rt: Runtime): Update<MobileNumberFields> {
    Fold(Step, f, d, Order, rt)
  }

  class MobileNumber {
    var maskedNumber: string
    var identification: Option<string>
    var identificationType: Option<Int64>
    var number: Option<string>

    function Fields(): MobileNumberFields
      reads this
    {
      MobileNumberFields(maskedNumber, identification, identificationType, number)
    }

    /** An object in state `f`; `New` is the PHP constructor. */
    constructor (f: MobileNumberFields)
      ensures Fields() == f
    {
      maskedNumber := f.maskedNumber;
      identification := f.identification;
      identificationType := f.identificationType;
      number := f.number;
    }

    /** One guarded assignment of `setData`. */
    method Assign(x: Field, data: map<string, Json>, rt: Runtime) returns (r: Result<(), PhpError>)
      modifies this
      ensures Fields() == Step(old(Fields()), data, x, rt).fields
      ensures r.Failure? <==> Step(old(Fields()), data, x, rt).Stopped?
      ensures r.Failure? ==> r.error == Step(old(Fields()), data, x, rt).error
    {
      if Reads(data, x) {
        match x
        case MaskedNumber =>
          var s :- AsStr(Read(data, "maskedNumber"), "MobileNumber::$maskedNumber");
          maskedNumber := s;
        case Identification =>
          var s :- AsStr(Read(data, "identification"), "MobileNumber::$identification");
          identification := Some(s);
        case IdentificationType =>
          var s :- AsInt(Read(data, "identificationType"), "MobileNumber::$identificationType");
          identificationType := Some(s);
        case Number =>
          var s :- AsStr(Read(data, "number"), "MobileNumber::$number");
          number := Some(s);
      }
      return Success(());
    }

    /** The blocks for the keys of `xs`, one after the other, up to the
        first error. */
    method AssignAll(xs: seq<Field>, data: map<string, Json>, rt: Runtime) returns (r: Result<(), PhpError>)
      modifies this
      ensures Fields() == Fold(Step, old(Fields()), data, xs, rt).fields
      ensures r.Failure? <==> Fold(Step, old(Fields()), data, xs, rt).Stopped?
      ensures r.Failure? ==> r.error == Fold(Step, old(Fields()), data, xs, rt).error
      decreases |xs|
    {
      if xs == [] {
        return Success(());
      }
      r := Assign(xs[0], data, rt);
      if r.Failure? {
        return;
      }
      r := AssignAll(xs[1..], data, rt);
    }

    /** `setData($data)`: every block, in the order of the source. */
    method SetData(data: map<string, Json>, rt: Runtime) returns (r: Result<(), PhpError>)
      modifies this
      ensures Fields() == Apply(old(Fields()), data, rt).fields
      ensures r.Failure? <==> Apply(old(Fields()), data, rt).Stopped?
      ensures r.Failure? ==> r.error == Apply(old(Fields()), data, rt).error
    {
      r := AssignAll(Order, data, rt);
    }
  }

  // ---------------------------------------------------------------------------
  // Properties of setData

  lemma OrderIsComplete(x: Field)
    ensures x in Order
  {
  }

  /** A field whose key `setData` does not act on keeps its value, even
      when `setData` stops early. */
  lemma ApplyKeepsUnread(f: MobileNumberFields, d: map<string, Json>, x: Field, rt: Runtime)
    requires !Reads(d, x)
    ensures Apply(f, d, rt).fields.Get(x) == f.Get(x)
  {
    var P := (g: MobileNumberFields) => g.Get(x) == f.Get(x);
    StepKeepsUnread(d, x, rt, f.Get(x), P);
    FoldKeeps(Step, f, d, Order, rt, P);
  }

  /** No step changes a field whose key `setData` does not act on. */
  lemma StepKeepsUnread(d: map<string, Json>, x: Field, rt: Runtime, v: Json, P: MobileNumberFields -> bool)
    requires !Reads(d, x)
    requires forall g :: P(g) <==> g.Get(x) == v
    ensures forall g, y :: y in Order && P(g) ==> P(Step(g, d, y, rt).fields)
  {
    forall g, y | y in Order && P(g)
      ensures P(Step(g, d, y, rt).fields)
    {
      if y != x {
        SameGet(Step(g, d, y, rt).fields, g, x);
      }
    }
  }

  /** When `setData` completes, each field it acts on holds what `Take`
      says. */
  lemma ApplyStoresRead(f: MobileNumberFields, d: map<string, Json>, x: Field, rt: Runtime)
    requires Reads(d, x) && Apply(f, d, rt).Updated?
    ensures Take(x, d, rt) == Success(Apply(f, d, rt).fields.Get(x))
  {
    OrderIsComplete(x);
    var P := (g: MobileNumberFields) => Take(x, d, rt) == Success(g.Get(x));
    StepStoresRead(d, x, rt, P);
    FoldEstablishes(Step, f, d, Order, rt, x, P);
  }

  /** The step for `x` establishes what `Take` says, and the other steps
      keep it. */
  lemma StepStoresRead(d: map<string, Json>, x: Field, rt: Runtime, P: MobileNumberFields -> bool)
    requires Reads(d, x)
    requires forall g :: P(g) <==> Take(x, d, rt) == Success(g.Get(x))
    ensures forall g :: Step(g, d, x, rt).Updated? ==> P(Step(g, d, x, rt).fields)
    ensures forall g, y :: y != x && P(g) ==> P(Step(g, d, y, rt).fields)
  {
    forall g, y | y != x && P(g)
      ensures P(Step(g, d, y, rt).fields)
    {
      SameGet(Step(g, d, y, rt).fields, g, x);
    }
  }

  /** `setData` stops exactly when some key it acts on is refused, and
      with the error of the first such key in its order. */
  lemma ApplyStops(f: MobileNumberFields, d: map<string, Json>, rt: Runtime)
    ensures Apply(f, d, rt).Stopped? <==> exists x: Field :: Refused(d, x, rt)
    ensures Apply(f, d, rt).Stopped? ==>
      exists i :: 0 <= i < |Order| && Refused(d, Order[i], rt) &&
        (forall j :: 0 <= j < i ==> !Refused(d, Order[j], rt)) &&
        Apply(f, d, rt).error == Take(Order[i], d, rt).error
  {
    FoldStops(Step, f, d, Order, rt, (y: Field) => Refused(d, y, rt), (y: Field) => Take(y, d, rt));
    if x: Field :| Refused(d, x, rt) {
      OrderIsComplete(x);
    }
  }

  /** An empty array changes nothing. */
  lemma ApplyEmpty(f: MobileNumberFields, rt: Runtime)
    ensures Apply(f, map[], rt) == Updated(f)
  {
    FoldNoOp(Step, f, map[], Order, rt);
  }

  /** Applying the same data twice is applying it once. */
  lemma ApplyIdempotent(f: MobileNumberFields, d: map<string, Json>, rt: Runtime)
    requires Apply(f, d, rt).Updated?
    ensures Apply(Apply(f, d, rt).fields, d, rt) == Apply(f, d, rt)
  {
    var g := Apply(f, d, rt).fields;
    ApplyStops(f, d, rt);
    forall x | x in Order
      ensures Step(g, d, x, rt) == Updated(g)
    {
      if Reads(d, x) {
        ApplyStoresRead(f, d, x, rt);
      }
    }
    FoldNoOp(Step, g, d, Order, rt);
  }

  /** The object `new MobileNumber()` makes. */
  const Default := MobileNumberFields("", None, None, None)

  /** `new MobileNumber($maskedNumber, $identification, $identificationType,
      $number)`: only a null masked number is refused. */
  function New(maskedNumber: Option<string> := Some(""), identification: Option<string> := None,
               identificationType: Option<Int64> := None, number: Option<string> := None): (r: Result<MobileNumberFields, PhpError>)
    ensures r.Failure? <==> maskedNumber.None?
    ensures r.Failure? ==> r.error == TypeError("MobileNumber::$maskedNumber")
    ensures r.Success? ==> r.value.maskedNumber == maskedNumber.value && r.value.identification == identification &&
                           r.value.identificationType == identificationType && r.value.number == number
  {
    if maskedNumber.None? then Failure(TypeError("MobileNumber::$maskedNumber"))
    else Success(MobileNumberFields(maskedNumber.value, identification, identificationType, number))
  }

  /** `new MobileNumber()` succeeds, with an empty masked number and nothing
      else, so its `toArray()` is the single key `maskedNumber`. */
  lemma NewDefault()
    ensures New() == Success(Default)
    ensures Default.ToArray() == map["maskedNumber" := JString("")]
  {
  }

  /** Feeding `toArray()` back to `setData` reproduces the object. */
  lemma ToArrayRoundTrip(f: MobileNumberFields, rt: Runtime)
    ensures Apply(f, f.ToArray(), rt) == Updated(f)
  {
    var d := f.ToArray();
    forall x | x in Order
      ensures Step(f, d, x, rt) == Updated(f)
    {
      if x.Key() in d {
        assert d[x.Key()] == f.Get(x);
      }
    }
    FoldNoOp(Step, f, d, Order, rt);
  }
}
