/**
 * `ONVO\Models\Address`: six text fields, filled positionally by the
 * constructor and key by key by `setData`, and a fixed six-key `toArray`.
 */
module Address {
  import opened Php
  import opened Setter

  /** The state of an Address object. `country` is declared `string`, so it never holds null. */
  datatype AddressFields = AddressFields(
    city: Option<string>,
    country: string,
    line1: Option<string>,
    line2: Option<string>,
    postalCode: Option<string>,
    state: Option<string>)
  {
    /** Field `x` as JSON: what `toArray` shows of it. */
    function Get(x: Field): Json {
      match x
      case City => OptStr(city)
      case Country => JString(country)
      case Line1 => OptStr(line1)
      case Line2 => OptStr(line2)
      case PostalCode => OptStr(postalCode)
      case State => OptStr(state)
    }

    /** `toArray()`: all six keys, nulls included. */
    function ToArray(): (m: map<string, Json>)
      ensures m.Keys == {"city", "country", "line1", "line2", "postalCode", "state"}
      ensures forall x: Field :: m[x.Key()] == Get(x)
    {
      map["city" := OptStr(city), "country" := JString(country), "line1" := OptStr(line1),
          "line2" := OptStr(line2), "postalCode" := OptStr(postalCode), "state" := OptStr(state)]
    }
  }

  /** The keys `setData` looks at. */
  datatype Field = City | Country | Line1 | Line2 | PostalCode | State {
    function Key(): string {
      match this
      case City => "city"
      case Country => "country"
      case Line1 => "line1"
      case Line2 => "line2"
      case PostalCode => "postalCode"
      case State => "state"
    }
  }

  /** The order in which `setData` visits them. */
  const Order: seq<Field> := [City, Country, Line1, Line2, PostalCode, State]

  /** `g` and `f` hold the same value in field `x`. */
  predicate Same(g: AddressFields, f: AddressFields, x: Field) {
    match x
    case City => g.city == f.city
    case Country => g.country == f.country
    case Line1 => g.line1 == f.line1
    case Line2 => g.line2 == f.line2
    case PostalCode => g.postalCode == f.postalCode
    case State => g.state == f.state
  }

  lemma SameGet(g: AddressFields, f: AddressFields, x: Field)
    requires Same(g, f, x)
    ensures g.Get(x) == f.Get(x)
  {
  }

  /** `setData` acts on key `x` of `d`: the key is set (`isset`). */
  predicate Reads(d: map<string, Json>, x: Field) {
    IsSet(d, x.Key())
  }

  /** What `setData` leaves in field `x` when it acts on it, in `Get`'s
      terms, or the error it raises. */
  function Take(x: Field, d: map<string, Json>, rt: Runtime): Result<Json, PhpError> {
    match x
    case City => (match AsStr(Read(d, "city"), "Address::$city") case Failure(e) => Failure(e) case Success(s) => Success(JString(s)))
    case Country => (match AsStr(Read(d, "country"), "Address::$country") case Failure(e) => Failure(e) case Success(s) => Success(JString(s)))
    case Line1 => (match AsStr(Read(d, "line1"), "Address::$line1") case Failure(e) => Failure(e) case Success(s) => Success(JString(s)))
    case Line2 => (match AsStr(Read(d, "line2"), "Address::$line2") case Failure(e) => Failure(e) case Success(s) => Success(JString(s)))
    case PostalCode => (match AsStr(Read(d, "postalCode"), "Address::$postalCode") case Failure(e) => Failure(e) case Success(s) => Success(JString(s)))
    case State => (match AsStr(Read(d, "state"), "Address::$state") case Failure(e) => Failure(e) case Success(s) => Success(JString(s)))
  }

  /** A key `setData` acts on and stops at. */
  predicate Refused(d: map<string, Json>, x: Field, rt: Runtime) {
    Reads(d, x) && Take(x, d, rt).Failure?
  }

  /** One `if (isset($data[key])) { ... }` block of `setData`. */
  function Step(f: AddressFields, d: map<string, Json>, x: Field, rt: Runtime): (r: Update<AddressFields>)
    ensures !Reads(d, x) ==> r == Updated(f)
    ensures Reads(d, x) && r.Updated? ==> Take(x, d, rt) == Success(r.fields.Get(x))
    ensures Reads(d, x) && r.Stopped? ==> Take(x, d, rt) == Failure(r.error)
    ensures r.Stopped? ==> r.fields == f
    ensures forall y: Field :: y != x ==> Same(r.fields, f, y)
    ensures Reads(d, x) && Take(x, d, rt) == Success(f.Get(x)) ==> r == Updated(f)
  {
    if !Reads(d, x) then Updated(f)
    else match x
      case City =>
        (match AsStr(Read(d, "city"), "Address::$city")
          case Failure(e) => Stopped(f, e)
          case Success(s) => Updated(f.(city := Some(s))))
      case Country =>
        (match AsStr(Read(d, "country"), "Address::$country")
          case Failure(e) => Stopped(f, e)
          case Success(s) => Updated(f.(country := s)))
      case Line1 =>
        (match AsStr(Read(d, "line1"), "Address::$line1")
          case Failure(e) => Stopped(f, e)
          case Success(s) => Updated(f.(line1 := Some(s))))
      case Line2 =>
        (match AsStr(Read(d, "line2"), "Address::$line2")
          case Failure(e) => Stopped(f, e)
          case Success(s) => Updated(f.(line2 := Some(s))))
      case PostalCode =>
        (match AsStr(Read(d, "postalCode"), "Address::$postalCode")
          case Failure(e) => Stopped(f, e)
          case Success(s) => Updated(f.(postalCode := Some(s))))
      case State =>
        (match AsStr(Read(d, "state"), "Address::$state")
          case Failure(e) => Stopped(f, e)
          case Success(s) => Updated(f.(state := Some(s))))
  }

  /** `setData($data)` on an object in state `f`. */
  function Apply(f: AddressFields, d: map<string, Json>, rt: Runtime): Update<AddressFields> {
    Fold(Step, f, d, Order, rt)
  }

  class Address {
    var city: Option<string>
    var country: string
    var line1: Option<string>
    var line2: Option<string>
    var postalCode: Option<string>
    var state: Option<string>

    function Fields(): AddressFields
      reads this
    {
      AddressFields(city, country, line1, line2, postalCode, state)
    }

    /** An object in state `f`; `New` is the PHP constructor. */
    constructor (f: AddressFields)
      ensures Fields() == f
    {
      city := f.city;
      country := f.country;
      line1 := f.line1;
      line2 := f.line2;
      postalCode := f.postalCode;
      state := f.state;
    }

    /** One guarded assignment of `setData`. */
    method Assign(x: Field, data: map<string, Json>, rt: Runtime) returns (r: Result<(), PhpError>)
      modifies this
      ensures Fields() == Step(old(Fields()), data, x, rt).fields
      ensures r.Failure? <==> Step(old(Fields()), data, x, rt).Stopped?
      ensures r.Failure? ==> r.error == Step(old(Fields()), data, x, rt).error
    {
      if Reads(data, x) {
        match x
        case City =>
          var s :- AsStr(Read(data, "city"), "Address::$city");
          city := Some(s);
        case Country =>
          var s :- AsStr(Read(data, "country"), "Address::$country");
          country := s;
        case Line1 =>
          var s :- AsStr(Read(data, "line1"), "Address::$line1");
          line1 := Some(s);
        case Line2 =>
          var s :- AsStr(Read(data, "line2"), "Address::$line2");
          line2 := Some(s);
        case PostalCode =>
          var s :- AsStr(Read(data, "postalCode"), "Address::$postalCode");
          postalCode := Some(s);
        case State =>
          var s :- AsStr(Read(data, "state"), "Address::$state");
          state := Some(s);
      }
      return Success(());
    }

    /** The blocks for the keys of `xs`, one after the other, up to the
        first error. */
    method AssignAll(xs: seq<Field>, data: map<string, Json>, rt: Runtime) returns (r: Result<(), PhpError>)
      modifies this
      ensures Fields() == Fold(Step, old(Fields()), data, xs, rt).fields
      ensures r.Failure? <==> Fold(Step, old(Fields()), data, xs, rt).Stopped?
      ensures r.Failure? ==> r.error == Fold(Step, old(Fields()), data, xs, rt).error
      decreases |xs|
    {
      if xs == [] {
        return Success(());
      }
      r := Assign(xs[0], data, rt);
      if r.Failure? {
        return;
      }
      r := AssignAll(xs[1..], data, rt);
    }

    /** `setData($data)`: every block, in the order of the source. */
    method SetData(data: map<string, Json>, rt: Runtime) returns (r: Result<(), PhpError>)
      modifies this
      ensures Fields() == Apply(old(Fields()), data, rt).fields
      ensures r.Failure? <==> Apply(old(Fields()), data, rt).Stopped?
      ensures r.Failure? ==> r.error == Apply(old(Fields()), data, rt).error
    {
      r := AssignAll(Order, data, rt);
    }
  }

  // ---------------------------------------------------------------------------
  // Properties of setData

  lemma OrderIsComplete(x: Field)
    ensures x in Order
  {
  }

  /** A field whose key `setData` does not act on keeps its value, even
      when `setData` stops early. */
  lemma ApplyKeepsUnread(f: AddressFields, d: map<string, Json>, x: Field, rt: Runtime)
    requires !Reads(d, x)
    ensures Apply(f, d, rt).fields.Get(x) == f.Get(x)
  {
    var P := (g: AddressFields) => g.Get(x) == f.Get(x);
    StepKeepsUnread(d, x, rt, f.Get(x), P);
    FoldKeeps(Step, f, d, Order, rt, P);
  }

  /** No step changes a field whose key `setData` does not act on. */
  lemma StepKeepsUnread(d: map<string, Json>, x: Field, rt: Runtime, v: Json, P: AddressFields -> bool)
    requires !Reads(d, x)
    requires forall g :: P(g) <==> g.Get(x) == v
    ensures forall g, y :: y in Order && P(g) ==> P(Step(g, d, y, rt).fields)
  {
    forall g, y | y in Order && P(g)
      ensures P(Step(g, d, y, rt).fields)
    {
      if y != x {
        SameGet(Step(g, d, y, rt).fields, g, x);
      }
    }
  }

  /** When `setData` completes, each field it acts on holds what `Take`
      says. */
  lemma ApplyStoresRead(f: AddressFields, d: map<string, Json>, x: Field, rt: Runtime)
    requires Reads(d, x) && Apply(f, d, rt).Updated?
    ensures Take(x, d, rt) == Success(Apply(f, d, rt).fields.Get(x))
  {
    OrderIsComplete(x);
    var P := (g: AddressFields) => Take(x, d, rt) == Success(g.Get(x));
    StepStoresRead(d, x, rt, P);
    FoldEstablishes(Step, f, d, Order, rt, x, P);
  }

  /** The step for `x` establishes what `Take` says, and the other steps
      keep it. */
  lemma StepStoresRead(d: map<string, Json>, x: Field, rt: Runtime, P: AddressFields -> bool)
    requires Reads(d, x)
    requires forall g :: P(g) <==> Take(x, d, rt) == Success(g.Get(x))
    ensures forall g :: Step(g, d, x, rt).Updated? ==> P(Step(g, d, x, rt).fields)
    ensures forall g, y :: y != x && P(g) ==> P(Step(g, d, y, rt).fields)
  {
    forall g, y | y != x && P(g)
      ensures P(Step(g, d, y, rt).fields)
    {
      SameGet(Step(g, d, y, rt).fields, g, x);
    }
  }

  /** `setData` stops exactly when some key it acts on is refused, and
      with the error of the first such key in its order. */
  lemma ApplyStops(f: AddressFields, d: map<string, Json>, rt: Runtime)
    ensures Apply(f, d, rt).Stopped? <==> exists x: Field :: Refused(d, x, rt)
    ensures Apply(f, d, rt).Stopped? ==>
      exists i :: 0 <= i < |Order| && Refused(d, Order[i], rt) &&
        (forall j :: 0 <= j < i ==> !Refused(d, Order[j], rt)) &&
        Apply(f, d, rt).error == Take(Order[i], d, rt).error
  {
    FoldStops(Step, f, d, Order, rt, (y: Field) => Refused(d, y, rt), (y: Field) => Take(y, d, rt));
    if x: Field :| Refused(d, x, rt) {
      OrderIsComplete(x);
    }
  }

  /** An empty array changes nothing. */
  lemma ApplyEmpty(f: AddressFields, rt: Runtime)
    ensures Apply(f, map[], rt) == Updated(f)
  {
    FoldNoOp(Step, f, map[], Order, rt);
  }

  /** Applying the same data twice is applying it once. */
  lemma ApplyIdempotent(f: AddressFields, d: map<string, Json>, rt: Runtime)
    requires Apply(f, d, rt).Updated?
    ensures Apply(Apply(f, d, rt).fields, d, rt) == Apply(f, d, rt)
  {
    var g := Apply(f, d, rt).fields;
    ApplyStops(f, d, rt);
    forall x | x in Order
      ensures Step(g, d, x, rt) == Updated(g)
    {
      if Reads(d, x) {
        ApplyStoresRead(f, d, x, rt);
      }
    }
    FoldNoOp(Step, g, d, Order, rt);
  }

  /** `new Address($city, $country, $line1, $line2, $postalCode, $state)`:
      the arguments land in the fields of the same names, in that order, and
      a null country (the default) is a TypeError, so `new Address()` always
      fails. */
  function New(city: Option<string> := None, country: Option<string> := None, line1: Option<string> := None,
               line2: Option<string> := None, postalCode: Option<string> := None,
               state: Option<string> := None): (r: Result<AddressFields, PhpError>)
    ensures r.Failure? <==> country.None?
    ensures r.Failure? ==> r.error == TypeError("Address::$country")
    ensures r.Success? ==> r.value.city == city && Some(r.value.country) == country && r.value.line1 == line1 &&
                           r.value.line2 == line2 && r.value.postalCode == postalCode && r.value.state == state
  {
    if country.None? then Failure(TypeError("Address::$country"))
    else Success(AddressFields(city, country.value, line1, line2, postalCode, state))
  }

  /** `new Address()`, as `setData` of the classes holding an address runs
      it. */
  lemma NewDefaultFails()
    ensures New() == Failure(TypeError("Address::$country"))
  {
  }

  /** `setData` refuses exactly the arrays: every property is text. */
  lemma RefusedIsArray(d: map<string, Json>, x: Field, rt: Runtime)
    ensures Refused(d, x, rt) <==> IsSet(d, x.Key()) && IsArray(d[x.Key()])
  {
  }

  /** Feeding `toArray()` back to `setData` reproduces the object. */
  lemma ToArrayRoundTrip(f: AddressFields, rt: Runtime)
    ensures Apply(f, f.ToArray(), rt) == Updated(f)
  {
    var d := f.ToArray();
    forall x | x in Order
      ensures Step(f, d, x, rt) == Updated(f)
    {
      assert d[x.Key()] == f.Get(x);
    }
    FoldNoOp(Step, f, d, Order, rt);
  }
}
