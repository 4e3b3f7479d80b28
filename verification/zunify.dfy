/**
 * `ONVO\Models\PaymentMethod\Zunify` (in `AlternativePayments.php`): a pin
 * and a phone number, both non-nullable but defaulting to null, so
 * `new Zunify()` fails.
 */
module Zunify {
  import opened Php
  import opened Setter

  /** The state of a Zunify object. */
  datatype ZunifyFields = ZunifyFields(
    pin: string,
    phoneNumber: string)
  {
    /** Field `x` as JSON: what `toArray` shows of it. */
    function Get(x: Field): Json {
      match x
      case Pin => JString(pin)
      case PhoneNumber => JString(phoneNumber)
    }

    /** `toArray()`: exactly `pin` and `phoneNumber`. */
    function ToArray(): (m: map<string, Json>)
      ensures m.Keys == {"pin", "phoneNumber"}
      ensures forall x: Field :: m[x.Key()] == Get(x)
    {
      map["pin" := JString(pin), "phoneNumber" := JString(phoneNumber)]
    }
  }

  /** The keys `setData` looks at. */
  datatype Field = Pin | PhoneNumber {
    function Key(): string {
      match this
      case Pin => "pin"
      case PhoneNumber => "phoneNumber"
    }
  }

  /** The order in which `setData` visits them. */
  const Order: seq<Field> := [Pin, PhoneNumber]

  /** `g` and `f` hold the same value in field `x`. */
  predicate Same(g: ZunifyFields, f: ZunifyFields, x: Field) {
    match x
    case Pin => g.pin == f.pin
    case PhoneNumber => g.phoneNumber == f.phoneNumber
  }

  lemma SameGet(g: ZunifyFields, f: ZunifyFields, x: Field)
    requires Same(g, f, x)
    ensures g.Get(x) == f.Get(x)
  {
  }

  /** `setData` acts on key `x` of `d`: the key is set (`isset`). */
  predicate Reads(d: map<string, Json>, x: Field) {
    IsSet(d, x.Key())
  }

  /** What `setData` leaves in field `x` when it acts on it, in `Get`'s
      terms, or the error it raises. */
  function Take(x: Field, d: map<string, Json>, rt: Runtime): Result<Json, PhpError> {
    match x
    case Pin => (match AsStr(Read(d, "pin"), "Zunify::$pin") case Failure(e) => Failure(e) case Success(s) => Success(JString(s)))
    case PhoneNumber => (match AsStr(Read(d, "phoneNumber"), "Zunify::$phoneNumber") case Failure(e) => Failure(e) case Success(s) => Success(JString(s)))
  }

  /** A key `setData` acts on and stops at. */
  predicate Refused(d: map<string, Json>, x: Field, rt: Runtime) {
    Reads(d, x) && Take(x, d, rt).Failure?
  }

  /** One `if (isset($data[key])) { ... }` block of `setData`. */
  function Step(f: ZunifyFields, d: map<string, Json>, x: Field, rt: Runtime): (r: Update<ZunifyFields>)
    ensures !Reads(d, x) ==> r == Updated(f)
    ensures Reads(d, x) && r.Updated? ==> Take(x, d, rt) == Success(r.fields.Get(x))
    ensures Reads(d, x) && r.Stopped? ==> Take(x, d, rt) == Failure(r.error)
    ensures r.Stopped? ==> r.fields == f
    ensures forall y: Field :: y != x ==> Same(r.fields, f, y)
    ensures Reads(d, x) && Take(x, d, rt) == Success(f.Get(x)) ==> r == Updated(f)
  {
    if !Reads(d, x) then Updated(f)
    else match x
      case Pin =>
        (match AsStr(Read(d, "pin"), "Zunify::$pin")
          case Failure(e) => Stopped(f, e)
          case Success(s) => Updated(f.(pin := s)))
      case PhoneNumber =>
        (match AsStr(Read(d, "phoneNumber"), "Zunify::$phoneNumber")
          case Failure(e) => Stopped(f, e)
          case Success(s) => Updated(f.(phoneNumber := s)))
  }

  /** `setData($data)` on an object in state `f`. */
  function Apply(f: ZunifyFields, d: map<string, Json>, rt: Runtime): Update<ZunifyFields> {
    Fold(Step, f, d, Order, rt)
  }

  class Zunify {
    var pin: string
    var phoneNumber: string

    function Fields(): ZunifyFields
      reads this
    {
      ZunifyFields(pin, phoneNumber)
    }

    /** An object in state `f`; `New` is the PHP constructor. */
    constructor (f: ZunifyFields)
      ensures Fields() == f
    {
      pin := f.pin;
      phoneNumber := f.phoneNumber;
    }

    /** One guarded assignment of `setData`. */
    method Assign(x: Field, data: map<string, Json>, rt: Runtime) returns (r: Result<(), PhpError>)
      modifies this
      ensures Fields() == Step(old(Fields()), data, x, rt).fields
      ensures r.Failure? <==> Step(old(Fields()), data, x, rt).Stopped?
      ensures r.Failure? ==> r.error == Step(old(Fields()), data, x, rt).error
    {
      if Reads(data, x) {
        match x
        case Pin =>
          var s :- AsStr(Read(data, "pin"), "Zunify::$pin");
          pin := s;
        case PhoneNumber =>
          var s :- AsStr(Read(data, "phoneNumber"), "Zunify::$phoneNumber");
          phoneNumber := s;
      }
      return Success(());
    }

    /** The blocks for the keys of `xs`, one after the other, up to the
        first error. */
    method AssignAll(xs: seq<Field>, data: map<string, Json>, rt: Runtime) returns (r: Result<(), PhpError>)
      modifies this
      ensures Fields() == Fold(Step, old(Fields()), data, xs, rt).fields
      ensures r.Failure? <==> Fold(Step, old(Fields()), data, xs, rt).Stopped?
      ensures r.Failure? ==> r.error == Fold(Step, old(Fields()), data, xs, rt).error
      decreases |xs|
    {
      if xs == [] {
        return Success(());
      }
      r := Assign(xs[0], data, rt);
      if r.Failure? {
        return;
      }
      r := AssignAll(xs[1..], data, rt);
    }

    /** `setData($data)`: every block, in the order of the source. */
    method SetData(data: map<string, Json>, rt: Runtime) returns (r: Result<(), PhpError>)
      modifies this
      ensures Fields() == Apply(old(Fields()), data, rt).fields
      ensures r.Failure? <==> Apply(old(Fields()), data, rt).Stopped?
      ensures r.Failure? ==> r.error == Apply(old(Fields()), data, rt).error
    {
      r := AssignAll(Order, data, rt);
    }
  }

  // ---------------------------------------------------------------------------
  // Properties of setData

  lemma OrderIsComplete(x: Field)
    ensures x in Order
  {
  }

  /** A field whose key `setData` does not act on keeps its value, even
      when `setData` stops early. */
  lemma ApplyKeepsUnread(f: ZunifyFields, d: map<string, Json>, x: Field, rt: Runtime)
    requires !Reads(d, x)
    ensures Apply(f, d, rt).fields.Get(x) == f.Get(x)
  {
    var P := (g: ZunifyFields) => g.Get(x) == f.Get(x);
    StepKeepsUnread(d, x, rt, f.Get(x), P);
    FoldKeeps(Step, f, d, Order, rt, P);
  }

  /** No step changes a field whose key `setData` does not act on. */
  lemma StepKeepsUnread(d: map<string, Json>, x: Field, rt: Runtime, v: Json, P: ZunifyFields -> bool)
    requires !Reads(d, x)
    requires forall g :: P(g) <==> g.Get(x) == v
    ensures forall g, y :: y in Order && P(g) ==> P(Step(g, d, y, rt).fields)
  {
    forall g, y | y in Order && P(g)
      ensures P(Step(g, d, y, rt).fields)
    {
      if y != x {
        SameGet(Step(g, d, y, rt).fields, g, x);
      }
    }
  }

  /** When `setData` completes, each field it acts on holds what `Take`
      says. */
  lemma ApplyStoresRead(f: ZunifyFields, d: map<string, Json>, x: Field, rt: Runtime)
    requires Reads(d, x) && Apply(f, d, rt).Updated?
    ensures Take(x, d, rt) == Success(Apply(f, d, rt).fields.Get(x))
  {
    OrderIsComplete(x);
    var P := (g: ZunifyFields) => Take(x, d, rt) == Success(g.Get(x));
    StepStoresRead(d, x, rt, P);
    FoldEstablishes(Step, f, d, Order, rt, x, P);
  }

  /** The step for `x` establishes what `Take` says, and the other steps
      keep it. */
  lemma StepStoresRead(d: map<string, Json>, x: Field, rt: Runtime, P: ZunifyFields -> bool)
    requires Reads(d, x)
    requires forall g :: P(g) <==> Take(x, d, rt) == Success(g.Get(x))
    ensures forall g :: Step(g, d, x, rt).Updated? ==> P(Step(g, d, x, rt).fields)
    ensures forall g, y :: y != x && P(g) ==> P(Step(g, d, y, rt).fields)
  {
    forall g, y | y != x && P(g)
      ensures P(Step(g, d, y, rt).fields)
    {
      SameGet(Step(g, d, y, rt).fields, g, x);
    }
  }

  /** `setData` stops exactly when some key it acts on is refused, and
      with the error of the first such key in its order. */
  lemma ApplyStops(f: ZunifyFields, d: map<string, Json>, rt: Runtime)
    ensures Apply(f, d, rt).Stopped? <==> exists x: Field :: Refused(d, x, rt)
    ensures Apply(f, d, rt).Stopped? ==>
      exists i :: 0 <= i < |Order| && Refused(d, Order[i], rt) &&
        (forall j :: 0 <= j < i ==> !Refused(d, Order[j], rt)) &&
        Apply(f, d, rt).error == Take(Order[i], d, rt).error
  {
    FoldStops(Step, f, d, Order, rt, (y: Field) => Refused(d, y, rt), (y: Field) => Take(y, d, rt));
    if x: Field :| Refused(d, x, rt) {
      OrderIsComplete(x);
    }
  }

  /** An empty array changes nothing. */
  lemma ApplyEmpty(f: ZunifyFields, rt: Runtime)
    ensures Apply(f, map[], rt) == Updated(f)
  {
    FoldNoOp(Step, f, map[], Order, rt);
  }

  /** Applying the same data twice is applying it once. */
  lemma ApplyIdempotent(f: ZunifyFields, d: map<string, Json>, rt: Runtime)
    requires Apply(f, d, rt).Updated?
    ensures Apply(Apply(f, d, rt).fields, d, rt) == Apply(f, d, rt)
  {
    var g := Apply(f, d, rt).fields;
    ApplyStops(f, d, rt);
    forall x | x in Order
      ensures Step(g, d, x, rt) == Updated(g)
    {
      if Reads(d, x) {
        ApplyStoresRead(f, d, x, rt);
      }
    }
    FoldNoOp(Step, g, d, Order, rt);
  }

  /** `new Zunify($pin, $phoneNumber)`: a null in either is a TypeError,
      `pin` first. */
  function New(pin: Option<string> := None, phoneNumber: Option<string> := None): (r: Result<ZunifyFields, PhpError>)
    ensures r.Success? <==> pin.Some? && phoneNumber.Some?
    ensures pin.None? ==> r == Failure(TypeError("Zunify::$pin"))
    ensures pin.Some? && phoneNumber.None? ==> r == Failure(TypeError("Zunify::$phoneNumber"))
    ensures r.Success? ==> r.value == ZunifyFields(pin.value, phoneNumber.value)
  {
    if pin.None? then Failure(TypeError("Zunify::$pin"))
    else if phoneNumber.None? then Failure(TypeError("Zunify::$phoneNumber"))
    else Success(ZunifyFields(pin.value, phoneNumber.value))
  }

  /** Feeding `toArray()` back to `setData` reproduces the object. */
  lemma ToArrayRoundTrip(f: ZunifyFields, rt: Runtime)
    ensures Apply(f, f.ToArray(), rt) == Updated(f)
  {
    var d := f.ToArray();
    forall x | x in Order
      ensures Step(f, d, x, rt) == Updated(f)
    {
      assert d[x.Key()] == f.Get(x);
    }
    FoldNoOp(Step, f, d, Order, rt);
  }
}
