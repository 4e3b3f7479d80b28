/**
 * `ONVO\Models\ShippingRate`: a shipping rate. `amount`, `currency` and
 * `displayName` are non-nullable. `setData` copies the set keys in order,
 * parsing the two dates and building a `DeliveryEstimate` from the four
 * entries of `deliveryEstimate`.
 */
module ShippingRate {
  import opened Php
  import opened Setter
  import EstimateModel = DeliveryEstimate

  /** The state of a ShippingRate object. */
  datatype ShippingRateFields = ShippingRateFields(
    id: Option<string>,
    createdAt: Option<DateTime>,
    amount: Int64,
    currency: string,
    displayName: string,
    isActive: Option<bool>,
    deliveryEstimate: Option<EstimateModel.DeliveryEstimateFields>,
    updatedAt: Option<DateTime>)
  {
    /** Field `x` as JSON: what `toArray` shows of it. */
    function Get(x: Field): Json {
      match x
      case Id => OptStr(id)
      case CreatedAt => OptDate(createdAt)
      case Amount => JInt(amount)
      case Currency => JString(currency)
      case DisplayName => JString(displayName)
      case IsActive => OptBool(isActive)
      case DeliveryEstimate => ShownEstimate(deliveryEstimate)
      case UpdatedAt => OptDate(updatedAt)
    }

    /** `toArray(false)`: every property under its own key, as `Get` shows
        it. */
    function ToArray(): (m: map<string, Json>)
      ensures forall x: Field :: x.Key() in m && m[x.Key()] == Get(x)
      ensures forall k :: k in m ==> exists x: Field :: x.Key() == k
    {
      KeyInjective();
      map x: Field | x in Order :: x.Key() := Get(x)
    }

    /** `toArray(true)`, the body of a create request: the properties
        `NewShows` picks, as `Get` shows them. */
    function ToNewArray(): (m: map<string, Json>)
      ensures forall x: Field :: x.Key() in m <==> NewShows(x)
      ensures forall x: Field :: x.Key() in m ==> m[x.Key()] == Get(x)
      ensures forall k :: k in m ==> exists x: Field :: x.Key() == k
    {
      KeyInjective();
      map x: Field | x in Order && NewShows(x) :: x.Key() := Get(x)
    }

    /** `toUpdateArray()`: the same properties as `toArray(true)`. Its
        tests differ in form only: each of the five request properties when
        not null, and the three non-nullable ones never are; so `NewShows`
        picks them too. */
    function ToUpdateArray(): (m: map<string, Json>)
      ensures forall x: Field :: x.Key() in m <==> NewShows(x)
      ensures forall x: Field :: x.Key() in m ==> m[x.Key()] == Get(x)
      ensures forall k :: k in m ==> exists x: Field :: x.Key() == k
    {
      KeyInjective();
      map x: Field | x in Order && NewShows(x) :: x.Key() := Get(x)
    }

    /** The keys of `toArray(true)`: amount, currency and display name always
        (nulls cannot occur); the flag and the estimate when non-null. */
    predicate NewShows(x: Field) {
      match x
      case Amount => true
      case Currency => true
      case DisplayName => true
      case IsActive => isActive.Some?
      case DeliveryEstimate => deliveryEstimate.Some?
      case _ => false
    }
  }

  /** The keys `setData` looks at. */
  datatype Field = Id | CreatedAt | Amount | Currency | DisplayName | IsActive | DeliveryEstimate | UpdatedAt {
    function Key(): string {
      match this
      case Id => "id"
      case CreatedAt => "createdAt"
      case Amount => "amount"
      case Currency => "currency"
      case DisplayName => "displayName"
      case IsActive => "isActive"
      case DeliveryEstimate => "deliveryEstimate"
      case UpdatedAt => "updatedAt"
    }
  }

  /** The order in which `setData` visits them. */
  const Order: seq<Field> := [Id, CreatedAt, Amount, Currency, DisplayName, IsActive, DeliveryEstimate, UpdatedAt]

  /** `g` and `f` hold the same value in field `x`. */
  predicate Same(g: ShippingRateFields, f: ShippingRateFields, x: Field) {
    match x
    case Id => g.id == f.id
    case CreatedAt => g.createdAt == f.createdAt
    case Amount => g.amount == f.amount
    case Currency => g.currency == f.currency
    case DisplayName => g.displayName == f.displayName
    case IsActive => g.isActive == f.isActive
    case DeliveryEstimate => g.deliveryEstimate == f.deliveryEstimate
    case UpdatedAt => g.updatedAt == f.updatedAt
  }

  /** `f` with field `x` taken from `g`. */
  function Overwrite(f: ShippingRateFields, x: Field, g: ShippingRateFields): ShippingRateFields {
    match x
    case Id => f.(id := g.id)
    case CreatedAt => f.(createdAt := g.createdAt)
    case Amount => f.(amount := g.amount)
    case Currency => f.(currency := g.currency)
    case DisplayName => f.(displayName := g.displayName)
    case IsActive => f.(isActive := g.isActive)
    case DeliveryEstimate => f.(deliveryEstimate := g.deliveryEstimate)
    case UpdatedAt => f.(updatedAt := g.updatedAt)
  }

  /** A state that differs from `f` at most in field `x` agrees with it
      on every other field. */
  lemma OverwriteSame(f: ShippingRateFields, g: ShippingRateFields, x: Field)
    requires g == Overwrite(f, x, g)
    ensures forall y: Field :: y != x ==> Same(g, f, y)
  {
  }

  lemma SameGet(g: ShippingRateFields, f: ShippingRateFields, x: Field)
    requires Same(g, f, x)
    ensures g.Get(x) == f.Get(x)
  {
  }

  /** `setData` acts on key `x` of `d`: the key is set (`isset`). */
  predicate Reads(d: map<string, Json>, x: Field) {
    IsSet(d, x.Key())
  }

  /** What `setData` leaves in field `x` when it acts on it, in `Get`'s
      terms, or the error it raises. */
  function Take(x: Field, d: map<string, Json>, rt: Runtime): Result<Json, PhpError> {
    match x
    case Id => (match AsStr(Read(d, "id"), "ShippingRate::$id") case Failure(e) => Failure(e) case Success(s) => Success(JString(s)))
    case CreatedAt => (match NewDate(rt, Read(d, "createdAt"), DateTarget) case Failure(e) => Failure(e) case Success(s) => Success(JString(s.atom)))
    case Amount => (match AsInt(Read(d, "amount"), "ShippingRate::$amount") case Failure(e) => Failure(e) case Success(s) => Success(JInt(s)))
    case Currency => (match AsStr(Read(d, "currency"), "ShippingRate::$currency") case Failure(e) => Failure(e) case Success(s) => Success(JString(s)))
    case DisplayName => (match AsStr(Read(d, "displayName"), "ShippingRate::$displayName") case Failure(e) => Failure(e) case Success(s) => Success(JString(s)))
    case IsActive => (match AsBool(Read(d, "isActive"), "ShippingRate::$isActive") case Failure(e) => Failure(e) case Success(s) => Success(JBool(s)))
    case DeliveryEstimate =>
      (match EstimateModel.New(ReadIn(Read(d, "deliveryEstimate"), "minimumUnit"), ReadIn(Read(d, "deliveryEstimate"), "minimumValue"), ReadIn(Read(d, "deliveryEstimate"), "maximumUnit"), ReadIn(Read(d, "deliveryEstimate"), "maximumValue"))
       case Failure(e) => Failure(e)
       case Success(o) => Success(ShownEstimate(Some(o))))
    case UpdatedAt => (match NewDate(rt, Read(d, "updatedAt"), DateTarget) case Failure(e) => Failure(e) case Success(s) => Success(JString(s.atom)))
  }

  /** A key `setData` acts on and stops at. */
  predicate Refused(d: map<string, Json>, x: Field, rt: Runtime) {
    Reads(d, x) && Take(x, d, rt).Failure?
  }

  /** One `if (isset($data[key])) { ... }` block of `setData`. */
  function Step(f: ShippingRateFields, d: map<string, Json>, x: Field, rt: Runtime): (r: Update<ShippingRateFields>)
    ensures !Reads(d, x) ==> r == Updated(f)
    ensures Reads(d, x) && r.Updated? ==> Take(x, d, rt) == Success(r.fields.Get(x))
    ensures Reads(d, x) && r.Stopped? ==> Take(x, d, rt) == Failure(r.error)
    ensures r.Stopped? ==> r.fields == f
    ensures r.fields == Overwrite(f, x, r.fields)
  {
    if !Reads(d, x) then Updated(f)
    else match x
      case Id =>
        (match AsStr(Read(d, "id"), "ShippingRate::$id")
          case Failure(e) => Stopped(f, e)
          case Success(s) => Updated(f.(id := Some(s))))
      case CreatedAt =>
        (match NewDate(rt, Read(d, "createdAt"), DateTarget)
          case Failure(e) => Stopped(f, e)
          case Success(s) => Updated(f.(createdAt := Some(s))))
      case Amount =>
        (match AsInt(Read(d, "amount"), "ShippingRate::$amount")
          case Failure(e) => Stopped(f, e)
          case Success(s) => Updated(f.(amount := s)))
      case Currency =>
        (match AsStr(Read(d, "currency"), "ShippingRate::$currency")
          case Failure(e) => Stopped(f, e)
          case Success(s) => Updated(f.(currency := s)))
      case DisplayName =>
        (match AsStr(Read(d, "displayName"), "ShippingRate::$displayName")
          case Failure(e) => Stopped(f, e)
          case Success(s) => Updated(f.(displayName := s)))
      case IsActive =>
        (match AsBool(Read(d, "isActive"), "ShippingRate::$isActive")
          case Failure(e) => Stopped(f, e)
          case Success(s) => Updated(f.(isActive := Some(s))))
      case DeliveryEstimate =>
        (match EstimateModel.New(ReadIn(Read(d, "deliveryEstimate"), "minimumUnit"), ReadIn(Read(d, "deliveryEstimate"), "minimumValue"), ReadIn(Read(d, "deliveryEstimate"), "maximumUnit"), ReadIn(Read(d, "deliveryEstimate"), "maximumValue"))
          case Failure(e) => Stopped(f, e)
          case Success(o) => Updated(f.(deliveryEstimate := Some(o))))
      case UpdatedAt =>
        (match NewDate(rt, Read(d, "updatedAt"), DateTarget)
          case Failure(e) => Stopped(f, e)
          case Success(s) => Updated(f.(updatedAt := Some(s))))
  }

  /** `setData($data)` on an object in state `f`. */
  function Apply(f: ShippingRateFields, d: map<string, Json>, rt: Runtime): Update<ShippingRateFields> {
    Fold(Step, f, d, Order, rt)
  }

  class ShippingRate {
    var id: Option<string>
    var createdAt: Option<DateTime>
    var amount: Int64
    var currency: string
    var displayName: string
    var isActive: Option<bool>
    var deliveryEstimate: Option<EstimateModel.DeliveryEstimateFields>
    var updatedAt: Option<DateTime>

    function Fields(): ShippingRateFields
      reads this
    {
      ShippingRateFields(id, createdAt, amount, currency, displayName, isActive, deliveryEstimate, updatedAt)
    }

    /** An object in state `f`; `New` is the PHP constructor. */
    constructor (f: ShippingRateFields)
      ensures Fields() == f
    {
      id := f.id;
      createdAt := f.createdAt;
      amount := f.amount;
      currency := f.currency;
      displayName := f.displayName;
      isActive := f.isActive;
      deliveryEstimate := f.deliveryEstimate;
      updatedAt := f.updatedAt;
    }

    /** One guarded assignment of `setData`. */
    method Assign(x: Field, data: map<string, Json>, rt: Runtime) returns (r: Result<(), PhpError>)
      modifies this
      ensures Fields() == Step(old(Fields()), data, x, rt).fields
      ensures r.Failure? <==> Step(old(Fields()), data, x, rt).Stopped?
      ensures r.Failure? ==> r.error == Step(old(Fields()), data, x, rt).error
    {
      if Reads(data, x) {
        match x
        case Id =>
          var s :- AsStr(Read(data, "id"), "ShippingRate::$id");
          id := Some(s);
        case CreatedAt =>
          var s :- NewDate(rt, Read(data, "createdAt"), DateTarget);
          createdAt := Some(s);
        case Amount =>
          var s :- AsInt(Read(data, "amount"), "ShippingRate::$amount");
          amount := s;
        case Currency =>
          var s :- AsStr(Read(data, "currency"), "ShippingRate::$currency");
          currency := s;
        case DisplayName =>
          var s :- AsStr(Read(data, "displayName"), "ShippingRate::$displayName");
          displayName := s;
        case IsActive =>
          var s :- AsBool(Read(data, "isActive"), "ShippingRate::$isActive");
          isActive := Some(s);
        case DeliveryEstimate =>
          var v := Read(data, "deliveryEstimate");
          var o :- EstimateModel.New(ReadIn(v, "minimumUnit"), ReadIn(v, "minimumValue"), ReadIn(v, "maximumUnit"),
                                     ReadIn(v, "maximumValue"));
          deliveryEstimate := Some(o);
        case UpdatedAt =>
          var s :- NewDate(rt, Read(data, "updatedAt"), DateTarget);
          updatedAt := Some(s);
      }
      return Success(());
    }

    /** The blocks for the keys of `xs`, one after the other, up to the
        first error. */
    method AssignAll(xs: seq<Field>, data: map<string, Json>, rt: Runtime) returns (r: Result<(), PhpError>)
      modifies this
      ensures Fields() == Fold(Step, old(Fields()), data, xs, rt).fields
      ensures r.Failure? <==> Fold(Step, old(Fields()), data, xs, rt).Stopped?
      ensures r.Failure? ==> r.error == Fold(Step, old(Fields()), data, xs, rt).error
      decreases |xs|
    {
      if xs == [] {
        return Success(());
      }
      r := Assign(xs[0], data, rt);
      if r.Failure? {
        return;
      }
      r := AssignAll(xs[1..], data, rt);
    }

    /** `setData($data)`: every block, in the order of the source. */
    method SetData(data: map<string, Json>, rt: Runtime) returns (r: Result<(), PhpError>)
      modifies this
      ensures Fields() == Apply(old(Fields()), data, rt).fields
      ensures r.Failure? <==> Apply(old(Fields()), data, rt).Stopped?
      ensures r.Failure? ==> r.error == Apply(old(Fields()), data, rt).error
    {
      r := AssignAll(Order, data, rt);
    }
  }

  // ---------------------------------------------------------------------------
  // Properties of setData

  lemma OrderIsComplete(x: Field)
    ensures x in Order
  {
  }

  /** A field whose key `setData` does not act on keeps its value, even
      when `setData` stops early. */
  lemma ApplyKeepsUnread(f: ShippingRateFields, d: map<string, Json>, x: Field, rt: Runtime)
    requires !Reads(d, x)
    ensures Apply(f, d, rt).fields.Get(x) == f.Get(x)
  {
    var P := (g: ShippingRateFields) => g.Get(x) == f.Get(x);
    StepKeepsUnread(d, x, rt, f.Get(x), P);
    FoldKeeps(Step, f, d, Order, rt, P);
  }

  /** No step changes a field whose key `setData` does not act on. */
  lemma StepKeepsUnread(d: map<string, Json>, x: Field, rt: Runtime, v: Json, P: ShippingRateFields -> bool)
    requires !Reads(d, x)
    requires forall g :: P(g) <==> g.Get(x) == v
    ensures forall g, y :: y in Order && P(g) ==> P(Step(g, d, y, rt).fields)
  {
    forall g, y | y in Order && P(g)
      ensures P(Step(g, d, y, rt).fields)
    {
      if y != x {
        OverwriteSame(g, Step(g, d, y, rt).fields, y);
        SameGet(Step(g, d, y, rt).fields, g, x);
      }
    }
  }

  /** When `setData` completes, each field it acts on holds what `Take`
      says. */
  lemma ApplyStoresRead(f: ShippingRateFields, d: map<string, Json>, x: Field, rt: Runtime)
    requires Reads(d, x) && Apply(f, d, rt).Updated?
    ensures Take(x, d, rt) == Success(Apply(f, d, rt).fields.Get(x))
  {
    OrderIsComplete(x);
    var P := (g: ShippingRateFields) => Take(x, d, rt) == Success(g.Get(x));
    StepStoresRead(d, x, rt, P);
    FoldEstablishes(Step, f, d, Order, rt, x, P);
  }

  /** The step for `x` establishes what `Take` says, and the other steps
      keep it. */
  lemma StepStoresRead(d: map<string, Json>, x: Field, rt: Runtime, P: ShippingRateFields -> bool)
    requires Reads(d, x)
    requires forall g :: P(g) <==> Take(x, d, rt) == Success(g.Get(x))
    ensures forall g :: Step(g, d, x, rt).Updated? ==> P(Step(g, d, x, rt).fields)
    ensures forall g, y :: y != x && P(g) ==> P(Step(g, d, y, rt).fields)
  {
    forall g, y | y != x && P(g)
      ensures P(Step(g, d, y, rt).fields)
    {
      OverwriteSame(g, Step(g, d, y, rt).fields, y);
      SameGet(Step(g, d, y, rt).fields, g, x);
    }
  }

  /** `setData` stops exactly when some key it acts on is refused, and
      with the error of the first such key in its order. */
  lemma ApplyStops(f: ShippingRateFields, d: map<string, Json>, rt: Runtime)
    ensures Apply(f, d, rt).Stopped? <==> exists x: Field :: Refused(d, x, rt)
    ensures Apply(f, d, rt).Stopped? ==>
      exists i :: 0 <= i < |Order| && Refused(d, Order[i], rt) &&
        (forall j :: 0 <= j < i ==> !Refused(d, Order[j], rt)) &&
        Apply(f, d, rt).error == Take(Order[i], d, rt).error
  {
    FoldStops(Step, f, d, Order, rt, (y: Field) => Refused(d, y, rt), (y: Field) => Take(y, d, rt));
    if x: Field :| Refused(d, x, rt) {
      OrderIsComplete(x);
    }
  }

  /** An empty array changes nothing. */
  lemma ApplyEmpty(f: ShippingRateFields, rt: Runtime)
    ensures Apply(f, map[], rt) == Updated(f)
  {
    FoldNoOp(Step, f, map[], Order, rt);
  }

  /** `$this->deliveryEstimate?->toArray()` */
  function ShownEstimate(o: Option<EstimateModel.DeliveryEstimateFields>): (r: Json)
    ensures r.JNull? <==> o.None?
  {
    if o.Some? then JObject(o.value.ToArray()) else JNull
  }

  /** `new ShippingRate(...)` with typed arguments: they are stored in the
      order of the constructor body, and a null reaching `amount`,
      `currency` or `displayName` is refused there. `new ShippingRate()`
      fails on `amount`. */
  function New(amount: Option<Int64> := None, currency: Option<string> := Some(""),
               displayName: Option<string> := Some(""), isActive: Option<bool> := Some(true),
               deliveryEstimate: Option<EstimateModel.DeliveryEstimateFields> := None, id: Option<string> := None,
               createdAt: Option<DateTime> := None, updatedAt: Option<DateTime> := None): (r: Result<ShippingRateFields, PhpError>)
    ensures r.Success? <==> amount.Some? && currency.Some? && displayName.Some?
    ensures amount.None? ==> r == Failure(TypeError("ShippingRate::$amount"))
    ensures r.Success? ==>
      r.value.id == id && r.value.createdAt == createdAt && r.value.amount == amount.value &&
      r.value.currency == currency.value && r.value.displayName == displayName.value && r.value.isActive == isActive &&
      r.value.deliveryEstimate == deliveryEstimate && r.value.updatedAt == updatedAt
  {
    if amount.None? then Failure(TypeError("ShippingRate::$amount"))
    else if currency.None? then Failure(TypeError("ShippingRate::$currency"))
    else if displayName.None? then Failure(TypeError("ShippingRate::$displayName"))
    else Success(ShippingRateFields(id, createdAt, amount.value, currency.value, displayName.value, isActive,
                                    deliveryEstimate, updatedAt))
  }

  /** `toUpdateArray()` and `toArray(true)` build the same array: their
      tests differ in form only. */
  lemma UpdateArrayIsNewArray(f: ShippingRateFields)
    ensures f.ToUpdateArray() == f.ToNewArray()
  {
  }

  /** Distinct properties have distinct keys. */
  lemma KeyInjective()
    ensures forall x: Field, y: Field :: x.Key() == y.Key() ==> x == y
  {
  }

  /** The `deliveryEstimate` block builds the estimate from the four
      entries of the array; a value that is not an array reads them all as
      null, passes the nullable argument types and fails on the minimum
      unit. */
  lemma EstimateFromEntries(d: map<string, Json>, rt: Runtime)
    requires Reads(d, DeliveryEstimate) && !IsArray(d["deliveryEstimate"])
    ensures Take(DeliveryEstimate, d, rt) == Failure(TypeError("DeliveryEstimate::$minimumUnit"))
  {
  }
}
