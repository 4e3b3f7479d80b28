/**
 * `ONVO\Models\PaymentMethod\Billing`: a non-null address, a name and four
 * optional strings. `setData` looks at `address`, `name` and `phone` only,
 * and for `address` it first runs `new Address()`, whose null country is
 * refused: a set `address` key always stops `setData` there.
 */
module Billing {
  import opened Php
  import opened Setter
  import AddressModel = Address

  /** The state of a Billing object. `address` and `name` are declared non-nullable. */
  datatype BillingFields = BillingFields(
    address: AddressModel.AddressFields,
    name: string,
    phone: Option<string>,
    email: Option<string>,
    idType: Option<string>,
    idNumber: Option<string>)
  {
    /** Field `x` as JSON: what `toArray` shows of it. */
    function Get(x: Field): Json {
      match x
      case Address => JObject(address.ToArray())
      case Name => JString(name)
      case Phone => OptStr(phone)
    }

    /** `toArray()`: all six keys, the address as its own `toArray()`. */
    function ToArray(): (m: map<string, Json>)
      ensures m.Keys == {"address", "name", "phone", "email", "idType", "idNumber"}
      ensures forall x: Field :: m[x.Key()] == Get(x)
      ensures m["email"] == OptStr(email) && m["idType"] == OptStr(idType) && m["idNumber"] == OptStr(idNumber)
    {
      map["address" := JObject(address.ToArray()), "name" := JString(name), "phone" := OptStr(phone),
          "email" := OptStr(email), "idType" := OptStr(idType), "idNumber" := OptStr(idNumber)]
    }
  }

  /** The keys `setData` looks at. */
  datatype Field = Address | Name | Phone {
    function Key(): string {
      match this
      case Address => "address"
      case Name => "name"
      case Phone => "phone"
    }
  }

  /** The order in which `setData` visits them. */
  const Order: seq<Field> := [Address, Name, Phone]

  /** `g` and `f` hold the same value in field `x`. */
  predicate Same(g: BillingFields, f: BillingFields, x: Field) {
    match x
    case Address => g.address == f.address
    case Name => g.name == f.name
    case Phone => g.phone == f.phone
  }

  lemma SameGet(g: BillingFields, f: BillingFields, x: Field)
    requires Same(g, f, x)
    ensures g.Get(x) == f.Get(x)
  {
  }

  /** `setData` acts on key `x` of `d`: the key is set (`isset`). */
  predicate Reads(d: map<string, Json>, x: Field) {
    IsSet(d, x.Key())
  }

  /** What `setData` leaves in field `x` when it acts on it, in `Get`'s
      terms, or the error it raises. */
  function Take(x: Field, d: map<string, Json>, rt: Runtime): Result<Json, PhpError> {
    match x
    case Address => Failure(AddressModel.New().error)
    case Name => (match AsStr(Read(d, "name"), "Billing::$name") case Failure(e) => Failure(e) case Success(s) => Success(JString(s)))
    case Phone => (match AsStr(Read(d, "phone"), "Billing::$phone") case Failure(e) => Failure(e) case Success(s) => Success(JString(s)))
  }

  /** A key `setData` acts on and stops at. */
  predicate Refused(d: map<string, Json>, x: Field, rt: Runtime) {
    Reads(d, x) && Take(x, d, rt).Failure?
  }

  /** One `if (isset($data[key])) { ... }` block of `setData`. */
  function Step(f: BillingFields, d: map<string, Json>, x: Field, rt: Runtime): (r: Update<BillingFields>)
    ensures !Reads(d, x) ==> r == Updated(f)
    ensures Reads(d, x) && r.Updated? ==> Take(x, d, rt) == Success(r.fields.Get(x))
    ensures Reads(d, x) && r.Stopped? ==> Take(x, d, rt) == Failure(r.error)
    ensures r.Stopped? ==> r.fields == f
    ensures forall y: Field :: y != x ==> Same(r.fields, f, y)
    ensures r.fields.email == f.email && r.fields.idType == f.idType && r.fields.idNumber == f.idNumber
    ensures Reads(d, x) && Take(x, d, rt) == Success(f.Get(x)) ==> r == Updated(f)
  {
    if !Reads(d, x) then Updated(f)
    else match x
      case Address => Stopped(f, AddressModel.New().error)
      case Name =>
        (match AsStr(Read(d, "name"), "Billing::$name")
          case Failure(e) => Stopped(f, e)
          case Success(s) => Updated(f.(name := s)))
      case Phone =>
        (match AsStr(Read(d, "phone"), "Billing::$phone")
          case Failure(e) => Stopped(f, e)
          case Success(s) => Updated(f.(phone := Some(s))))
  }

  /** `setData($data)` on an object in state `f`. */
  function Apply(f: BillingFields, d: map<string, Json>, rt: Runtime): Update<BillingFields> {
    Fold(Step, f, d, Order, rt)
  }

  class Billing {
    var address: AddressModel.AddressFields
    var name: string
    var phone: Option<string>
    var email: Option<string>
    var idType: Option<string>
    var idNumber: Option<string>

    function Fields(): BillingFields
      reads this
    {
      BillingFields(address, name, phone, email, idType, idNumber)
    }

    /** An object in state `f`; `New` is the PHP constructor. */
    constructor (f: BillingFields)
      ensures Fields() == f
    {
      address := f.address;
      name := f.name;
      phone := f.phone;
      email := f.email;
      idType := f.idType;
      idNumber := f.idNumber;
    }

    /** One guarded assignment of `setData`. */
    method Assign(x: Field, data: map<string, Json>, rt: Runtime) returns (r: Result<(), PhpError>)
      modifies this
      ensures Fields() == Step(old(Fields()), data, x, rt).fields
      ensures r.Failure? <==> Step(old(Fields()), data, x, rt).Stopped?
      ensures r.Failure? ==> r.error == Step(old(Fields()), data, x, rt).error
    {
      if Reads(data, x) {
        match x
        case Address =>
          // `new Address()` throws before the nested `setData` runs.
          var made := AddressModel.New();
          return Failure(made.error);
        case Name =>
          var s :- AsStr(Read(data, "name"), "Billing::$name");
          name := s;
        case Phone =>
          var s :- AsStr(Read(data, "phone"), "Billing::$phone");
          phone := Some(s);
      }
      return Success(());
    }

    /** The blocks for the keys of `xs`, one after the other, up to the
        first error. */
    method AssignAll(xs: seq<Field>, data: map<string, Json>, rt: Runtime) returns (r: Result<(), PhpError>)
      modifies this
      ensures Fields() == Fold(Step, old(Fields()), data, xs, rt).fields
      ensures r.Failure? <==> Fold(Step, old(Fields()), data, xs, rt).Stopped?
      ensures r.Failure? ==> r.error == Fold(Step, old(Fields()), data, xs, rt).error
      decreases |xs|
    {
      if xs == [] {
        return Success(());
      }
      r := Assign(xs[0], data, rt);
      if r.Failure? {
        return;
      }
      r := AssignAll(xs[1..], data, rt);
    }

    /** `setData($data)`: every block, in the order of the source. */
    method SetData(data: map<string, Json>, rt: Runtime) returns (r: Result<(), PhpError>)
      modifies this
      ensures Fields() == Apply(old(Fields()), data, rt).fields
      ensures r.Failure? <==> Apply(old(Fields()), data, rt).Stopped?
      ensures r.Failure? ==> r.error == Apply(old(Fields()), data, rt).error
    {
      r := AssignAll(Order, data, rt);
    }
  }

  // ---------------------------------------------------------------------------
  // Properties of setData

  lemma OrderIsComplete(x: Field)
    ensures x in Order
  {
  }

  /** A field whose key `setData` does not act on keeps its value, even
      when `setData` stops early. */
  lemma ApplyKeepsUnread(f: BillingFields, d: map<string, Json>, x: Field, rt: Runtime)
    requires !Reads(d, x)
    ensures Apply(f, d, rt).fields.Get(x) == f.Get(x)
  {
    var P := (g: BillingFields) => g.Get(x) == f.Get(x);
    StepKeepsUnread(d, x, rt, f.Get(x), P);
    FoldKeeps(Step, f, d, Order, rt, P);
  }

  /** No step changes a field whose key `setData` does not act on. */
  lemma StepKeepsUnread(d: map<string, Json>, x: Field, rt: Runtime, v: Json, P: BillingFields -> bool)
    requires !Reads(d, x)
    requires forall g :: P(g) <==> g.Get(x) == v
    ensures forall g, y :: y in Order && P(g) ==> P(Step(g, d, y, rt).fields)
  {
    forall g, y | y in Order && P(g)
      ensures P(Step(g, d, y, rt).fields)
    {
      if y != x {
        SameGet(Step(g, d, y, rt).fields, g, x);
      }
    }
  }

  /** `setData` never writes `email`, `idType`, `idNumber`. */
  lemma ApplyKeepsOthers(f: BillingFields, d: map<string, Json>, rt: Runtime)
    ensures Apply(f, d, rt).fields.email == f.email && Apply(f, d, rt).fields.idType == f.idType && Apply(f, d, rt).fields.idNumber == f.idNumber
  {
    var P := (g: BillingFields) => g.email == f.email && g.idType == f.idType && g.idNumber == f.idNumber;
    StepKeepsOthers(f, d, rt, P);
    FoldKeeps(Step, f, d, Order, rt, P);
  }

  /** No step writes them. */
  lemma StepKeepsOthers(f: BillingFields, d: map<string, Json>, rt: Runtime, P: BillingFields -> bool)
    requires forall g :: P(g) <==> g.email == f.email && g.idType == f.idType && g.idNumber == f.idNumber
    ensures forall g, y :: y in Order && P(g) ==> P(Step(g, d, y, rt).fields)
  {
  }

  /** When `setData` completes, each field it acts on holds what `Take`
      says. */
  lemma ApplyStoresRead(f: BillingFields, d: map<string, Json>, x: Field, rt: Runtime)
    requires Reads(d, x) && Apply(f, d, rt).Updated?
    ensures Take(x, d, rt) == Success(Apply(f, d, rt).fields.Get(x))
  {
    OrderIsComplete(x);
    var P := (g: BillingFields) => Take(x, d, rt) == Success(g.Get(x));
    StepStoresRead(d, x, rt, P);
    FoldEstablishes(Step, f, d, Order, rt, x, P);
  }

  /** The step for `x` establishes what `Take` says, and the other steps
      keep it. */
  lemma StepStoresRead(d: map<string, Json>, x: Field, rt: Runtime, P: BillingFields -> bool)
    requires Reads(d, x)
    requires forall g :: P(g) <==> Take(x, d, rt) == Success(g.Get(x))
    ensures forall g :: Step(g, d, x, rt).Updated? ==> P(Step(g, d, x, rt).fields)
    ensures forall g, y :: y != x && P(g) ==> P(Step(g, d, y, rt).fields)
  {
    forall g, y | y != x && P(g)
      ensures P(Step(g, d, y, rt).fields)
    {
      SameGet(Step(g, d, y, rt).fields, g, x);
    }
  }

  /** `setData` stops exactly when some key it acts on is refused, and
      with the error of the first such key in its order. */
  lemma ApplyStops(f: BillingFields, d: map<string, Json>, rt: Runtime)
    ensures Apply(f, d, rt).Stopped? <==> exists x: Field :: Refused(d, x, rt)
    ensures Apply(f, d, rt).Stopped? ==>
      exists i :: 0 <= i < |Order| && Refused(d, Order[i], rt) &&
        (forall j :: 0 <= j < i ==> !Refused(d, Order[j], rt)) &&
        Apply(f, d, rt).error == Take(Order[i], d, rt).error
  {
    FoldStops(Step, f, d, Order, rt, (y: Field) => Refused(d, y, rt), (y: Field) => Take(y, d, rt));
    if x: Field :| Refused(d, x, rt) {
      OrderIsComplete(x);
    }
  }

  /** An empty array changes nothing. */
  lemma ApplyEmpty(f: BillingFields, rt: Runtime)
    ensures Apply(f, map[], rt) == Updated(f)
  {
    FoldNoOp(Step, f, map[], Order, rt);
  }

  /** Applying the same data twice is applying it once. */
  lemma ApplyIdempotent(f: BillingFields, d: map<string, Json>, rt: Runtime)
    requires Apply(f, d, rt).Updated?
    ensures Apply(Apply(f, d, rt).fields, d, rt) == Apply(f, d, rt)
  {
    var g := Apply(f, d, rt).fields;
    ApplyStops(f, d, rt);
    forall x | x in Order
      ensures Step(g, d, x, rt) == Updated(g)
    {
      if Reads(d, x) {
        ApplyStoresRead(f, d, x, rt);
      }
    }
    FoldNoOp(Step, g, d, Order, rt);
  }

  /** `new Billing($address, $name, $phone, $email, $idType, $idNumber)`: a
      null address (the default) or a null name is a TypeError, in the order
      of the assignments. */
  function New(address: Option<AddressModel.AddressFields> := None, name: Option<string> := Some(""),
               phone: Option<string> := None, email: Option<string> := None, idType: Option<string> := None,
               idNumber: Option<string> := None): (r: Result<BillingFields, PhpError>)
    ensures r.Failure? <==> address.None? || name.None?
    ensures address.None? ==> r == Failure(TypeError("Billing::$address"))
    ensures address.Some? && name.None? ==> r == Failure(TypeError("Billing::$name"))
    ensures r.Success? ==> r.value.address == address.value && r.value.name == name.value && r.value.phone == phone &&
                           r.value.email == email && r.value.idType == idType && r.value.idNumber == idNumber
  {
    if address.None? then Failure(TypeError("Billing::$address"))
    else if name.None? then Failure(TypeError("Billing::$name"))
    else Success(BillingFields(address.value, name.value, phone, email, idType, idNumber))
  }

  /** `new Billing()` fails; given an address, the name defaults to "" and the
      rest to null. */
  lemma NewDefaults(a: AddressModel.AddressFields)
    ensures New() == Failure(TypeError("Billing::$address"))
    ensures New(Some(a)) == Success(BillingFields(a, "", None, None, None, None))
  {
  }

  /** A set `address` key stops `setData` at its first block, before `name`
      and `phone`, with the error of `new Address()`. */
  lemma AddressKeyStops(f: BillingFields, d: map<string, Json>, rt: Runtime)
    requires IsSet(d, "address")
    ensures Apply(f, d, rt) == Stopped(f, TypeError("Address::$country"))
  {
    AddressModel.NewDefaultFails();
    assert Order[0] == Address;
    assert Step(f, d, Address, rt) == Stopped(f, TypeError("Address::$country"));
  }

  /** `toArray()` always carries `address`, so `setData` refuses its own
      output. */
  lemma ToArrayRefused(f: BillingFields, rt: Runtime)
    ensures Apply(f, f.ToArray(), rt) == Stopped(f, TypeError("Address::$country"))
  {
    AddressKeyStops(f, f.ToArray(), rt);
  }
}
