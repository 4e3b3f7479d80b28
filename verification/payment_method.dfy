/**
 * `ONVO\Models\PaymentMethod\PaymentMethod`: a payment method of one of
 * three types (`card`, `mobile_number`, `zunify`) with its billing details.
 * `setData` copies the set keys in order; the nested `billing`, `card` and
 * `zunify` objects are built with `new X()` first, whose defaults are refused,
 * while `mobileNumber` is built, stored, and then filled by its own
 * `setData`. Nested objects are held as values.
 */
module PaymentMethod {
  import opened Php
  import opened Setter
  import BillingModel = Billing
  import CardModel = Card
  import MobileNumberModel = MobileNumber
  import ZunifyModel = Zunify

  /** The state of a PaymentMethod object. `methodType` is the property `type`. */
  datatype PaymentMethodFields = PaymentMethodFields(
    id: string,
    billing: Option<BillingModel.BillingFields>,
    card: Option<CardModel.CardFields>,
    createdAt: DateTime,
    customerId: Option<string>,
    mobileNumber: Option<MobileNumberModel.MobileNumberFields>,
    zunify: Option<ZunifyModel.ZunifyFields>,
    mode: string,
    status: string,
    methodType: string,
    updatedAt: DateTime)
  {
    /** Field `x` as JSON: what `toArray` shows of it. */
    function Get(x: Field): Json {
      match x
      case Id => JString(id)
      case Billing => (match billing case None => JNull case Some(o) => JObject(o.ToArray()))
      case Card => (match card case None => JNull case Some(o) => JObject(o.ToArray()))
      case CreatedAt => JString(createdAt.atom)
      case CustomerId => OptStr(customerId)
      case MobileNumber => (match mobileNumber case None => JNull case Some(o) => JObject(o.ToArray()))
      case Zunify => (match zunify case None => JNull case Some(o) => JObject(o.ToArray()))
      case Mode => JString(mode)
      case Status => JString(status)
      case Type => JString(methodType)
      case UpdatedAt => JString(updatedAt.atom)
    }

    /** `toArray(false)`: the eleven keys, nested objects as their own
        `toArray()` or null. */
    function ToArray(): (m: map<string, Json>)
      ensures m.Keys == {"id", "billing", "card", "createdAt", "customerId", "mobileNumber", "zunify", "mode",
                         "status", "type", "updatedAt"}
    {
      map["id" := Get(Id), "billing" := Get(Billing), "card" := Get(Card), "createdAt" := Get(CreatedAt),
          "customerId" := Get(CustomerId), "mobileNumber" := Get(MobileNumber), "zunify" := Get(Zunify),
          "mode" := Get(Mode), "status" := Get(Status), "type" := Get(Type), "updatedAt" := Get(UpdatedAt)]
    }

    /** `toArray(true)`: the shape `NewArrayShape` describes, filled with the
        nested objects' own `toArray()`. */
    function ToNewArray(): (m: map<string, Json>)
      ensures "type" in m && m["type"] == JString(methodType)
      ensures "billing" in m <==> billing.Some?
      ensures "customerId" in m <==> customerId.Some?
      ensures "card" in m <==> methodType == "card" && card.Some?
      ensures "mobileNumber" in m <==> methodType == "mobile_number" && mobileNumber.Some?
      ensures "zunify" in m <==> methodType == "zunify" && zunify.Some?
    {
      NewArrayShape(methodType, if billing.Some? then Some(JObject(billing.value.ToArray())) else None, customerId,
                    if card.Some? then Some(JObject(card.value.ToArray())) else None,
                    if mobileNumber.Some? then Some(JObject(mobileNumber.value.ToArray())) else None,
                    if zunify.Some? then Some(JObject(zunify.value.ToArray())) else None)
    }

    /** `toUpdateArray()`: the billing details cut down to address, name and
        phone, and, for a card with a cvv, that cvv alone. */
    function ToUpdateArray(): (m: map<string, Json>)
      ensures m.Keys <= {"billing", "card"}
      ensures "billing" in m <==> billing.Some?
      ensures "billing" in m ==>
        m["billing"].JObject? && m["billing"].fields.Keys == {"address", "name", "phone"} &&
        forall k :: k in m["billing"].fields ==> m["billing"].fields[k] == billing.value.ToArray()[k]
      ensures "card" in m <==> methodType == "card" && card.Some? && card.value.cvv.Some?
      ensures "card" in m ==> m["card"] == JObject(map["cvv" := JString(card.value.cvv.value)])
    {
      var data := map[];
      var data := if billing.Some? then
        data["billing" := JObject(map["address" := JObject(billing.value.address.ToArray()),
                                      "name" := JString(billing.value.name),
                                      "phone" := OptStr(billing.value.phone)])]
        else data;
      if methodType == "card" && card.Some? && card.value.cvv.Some? then
        data["card" := JObject(map["cvv" := JString(card.value.cvv.value)])]
      else data
    }
  }

  /** The keys `setData` looks at. */
  datatype Field = Id | Billing | Card | CreatedAt | CustomerId | MobileNumber | Zunify | Mode | Status | Type | UpdatedAt {
    function Key(): string {
      match this
      case Id => "id"
      case Billing => "billing"
      case Card => "card"
      case CreatedAt => "createdAt"
      case CustomerId => "customerId"
      case MobileNumber => "mobileNumber"
      case Zunify => "zunify"
      case Mode => "mode"
      case Status => "status"
      case Type => "type"
      case UpdatedAt => "updatedAt"
    }
  }

  /** The order in which `setData` visits them. */
  const Order: seq<Field> := [Id, Billing, Card, CreatedAt, CustomerId, MobileNumber, Zunify, Mode, Status, Type, UpdatedAt]

  /** `g` and `f` hold the same value in field `x`. */
  predicate Same(g: PaymentMethodFields, f: PaymentMethodFields, x: Field) {
    match x
    case Id => g.id == f.id
    case Billing => g.billing == f.billing
    case Card => g.card == f.card
    case CreatedAt => g.createdAt == f.createdAt
    case CustomerId => g.customerId == f.customerId
    case MobileNumber => g.mobileNumber == f.mobileNumber
    case Zunify => g.zunify == f.zunify
    case Mode => g.mode == f.mode
    case Status => g.status == f.status
    case Type => g.methodType == f.methodType
    case UpdatedAt => g.updatedAt == f.updatedAt
  }

  lemma SameGet(g: PaymentMethodFields, f: PaymentMethodFields, x: Field)
    requires Same(g, f, x)
    ensures g.Get(x) == f.Get(x)
  {
  }

  /** `setData` acts on key `x` of `d`: the key is set (`isset`). */
  predicate Reads(d: map<string, Json>, x: Field) {
    IsSet(d, x.Key())
  }

  /** What `setData` leaves in field `x` when it acts on it, in `Get`'s
      terms, or the error it raises. */
  function Take(x: Field, d: map<string, Json>, rt: Runtime): Result<Json, PhpError> {
    match x
    case Id => (match AsStr(Read(d, "id"), "PaymentMethod::$id") case Failure(e) => Failure(e) case Success(s) => Success(JString(s)))
    case Billing => Failure(BillingModel.New().error)
    case Card => Failure(CardModel.New().error)
    case CreatedAt => (match NewDate(rt, Read(d, "createdAt"), DateTarget) case Failure(e) => Failure(e) case Success(s) => Success(JString(s.atom)))
    case CustomerId => (match AsStr(Read(d, "customerId"), "PaymentMethod::$customerId") case Failure(e) => Failure(e) case Success(s) => Success(JString(s)))
    case MobileNumber =>
      (if !IsArray(Read(d, "mobileNumber")) then Failure(TypeError("MobileNumber::setData(): Argument #1 ($data)"))
       else match MobileNumberModel.Apply(MobileNumberModel.Default, Entries(Read(d, "mobileNumber")), rt)
         case Updated(o) => Success(JObject(o.ToArray()))
         case Stopped(_, e) => Failure(e))
    case Zunify => Failure(ZunifyModel.New().error)
    case Mode => (match AsStr(Read(d, "mode"), "PaymentMethod::$mode") case Failure(e) => Failure(e) case Success(s) => Success(JString(s)))
    case Status => (match AsStr(Read(d, "status"), "PaymentMethod::$status") case Failure(e) => Failure(e) case Success(s) => Success(JString(s)))
    case Type => (match AsStr(Read(d, "type"), "PaymentMethod::$type") case Failure(e) => Failure(e) case Success(s) => Success(JString(s)))
    case UpdatedAt => (match NewDate(rt, Read(d, "updatedAt"), DateTarget) case Failure(e) => Failure(e) case Success(s) => Success(JString(s.atom)))
  }

  /** A key `setData` acts on and stops at. */
  predicate Refused(d: map<string, Json>, x: Field, rt: Runtime) {
    Reads(d, x) && Take(x, d, rt).Failure?
  }

  /** The block of `setData` for `id`. */
  function StoreId(f: PaymentMethodFields, d: map<string, Json>, rt: Runtime): (r: Update<PaymentMethodFields>)
    requires Reads(d, Id)
    ensures r.Updated? ==> Take(Id, d, rt) == Success(r.fields.Get(Id))
    ensures r.Stopped? ==> Take(Id, d, rt) == Failure(r.error)
    ensures r.Stopped? ==> r.fields == f
    ensures r.fields == f.(id := r.fields.id)
  {
    (match AsStr(Read(d, "id"), "PaymentMethod::$id")
      case Failure(e) => Stopped(f, e)
      case Success(s) => Updated(f.(id := s)))
  }

  /** The block of `setData` for `billing`. */
  function StoreBilling(f: PaymentMethodFields, d: map<string, Json>, rt: Runtime): (r: Update<PaymentMethodFields>)
    requires Reads(d, Billing)
    ensures r.Updated? ==> Take(Billing, d, rt) == Success(r.fields.Get(Billing))
    ensures r.Stopped? ==> Take(Billing, d, rt) == Failure(r.error)
    ensures r.Stopped? ==> r.fields == f
    ensures r.fields == f.(billing := r.fields.billing)
  {
    Stopped(f, BillingModel.New().error)
  }

  /** The block of `setData` for `card`. */
  function StoreCard(f: PaymentMethodFields, d: map<string, Json>, rt: Runtime): (r: Update<PaymentMethodFields>)
    requires Reads(d, Card)
    ensures r.Updated? ==> Take(Card, d, rt) == Success(r.fields.Get(Card))
    ensures r.Stopped? ==> Take(Card, d, rt) == Failure(r.error)
    ensures r.Stopped? ==> r.fields == f
    ensures r.fields == f.(card := r.fields.card)
  {
    Stopped(f, CardModel.New().error)
  }

  /** The block of `setData` for `createdAt`. */
  function StoreCreatedAt(f: PaymentMethodFields, d: map<string, Json>, rt: Runtime): (r: Update<PaymentMethodFields>)
    requires Reads(d, CreatedAt)
    ensures r.Updated? ==> Take(CreatedAt, d, rt) == Success(r.fields.Get(CreatedAt))
    ensures r.Stopped? ==> Take(CreatedAt, d, rt) == Failure(r.error)
    ensures r.Stopped? ==> r.fields == f
    ensures r.fields == f.(createdAt := r.fields.createdAt)
  {
    (match NewDate(rt, Read(d, "createdAt"), DateTarget)
      case Failure(e) => Stopped(f, e)
      case Success(s) => Updated(f.(createdAt := s)))
  }

  /** The block of `setData` for `customerId`. */
  function StoreCustomerId(f: PaymentMethodFields, d: map<string, Json>, rt: Runtime): (r: Update<PaymentMethodFields>)
    requires Reads(d, CustomerId)
    ensures r.Updated? ==> Take(CustomerId, d, rt) == Success(r.fields.Get(CustomerId))
    ensures r.Stopped? ==> Take(CustomerId, d, rt) == Failure(r.error)
    ensures r.Stopped? ==> r.fields == f
    ensures r.fields == f.(customerId := r.fields.customerId)
  {
    (match AsStr(Read(d, "customerId"), "PaymentMethod::$customerId")
      case Failure(e) => Stopped(f, e)
      case Success(s) => Updated(f.(customerId := Some(s))))
  }

  /** The block of `setData` for `mobileNumber`. */
  function StoreMobileNumber(f: PaymentMethodFields, d: map<string, Json>, rt: Runtime): (r: Update<PaymentMethodFields>)
    requires Reads(d, MobileNumber)
    ensures r.Updated? ==> Take(MobileNumber, d, rt) == Success(r.fields.Get(MobileNumber))
    ensures r.Stopped? ==> Take(MobileNumber, d, rt) == Failure(r.error)
    ensures r.fields == f.(mobileNumber := r.fields.mobileNumber)
  {
    if !IsArray(Read(d, "mobileNumber")) then
      Stopped(f.(mobileNumber := Some(MobileNumberModel.Default)), TypeError("MobileNumber::setData(): Argument #1 ($data)"))
    else match MobileNumberModel.Apply(MobileNumberModel.Default, Entries(Read(d, "mobileNumber")), rt)
      case Updated(o) => Updated(f.(mobileNumber := Some(o)))
      case Stopped(o, e) => Stopped(f.(mobileNumber := Some(o)), e)
  }

  /** The block of `setData` for `zunify`. */
  function StoreZunify(f: PaymentMethodFields, d: map<string, Json>, rt: Runtime): (r: Update<PaymentMethodFields>)
    requires Reads(d, Zunify)
    ensures r.Updated? ==> Take(Zunify, d, rt) == Success(r.fields.Get(Zunify))
    ensures r.Stopped? ==> Take(Zunify, d, rt) == Failure(r.error)
    ensures r.Stopped? ==> r.fields == f
    ensures r.fields == f.(zunify := r.fields.zunify)
  {
    Stopped(f, ZunifyModel.New().error)
  }

  /** The block of `setData` for `mode`. */
  function StoreMode(f: PaymentMethodFields, d: map<string, Json>, rt: Runtime): (r: Update<PaymentMethodFields>)
    requires Reads(d, Mode)
    ensures r.Updated? ==> Take(Mode, d, rt) == Success(r.fields.Get(Mode))
    ensures r.Stopped? ==> Take(Mode, d, rt) == Failure(r.error)
    ensures r.Stopped? ==> r.fields == f
    ensures r.fields == f.(mode := r.fields.mode)
  {
    (match AsStr(Read(d, "mode"), "PaymentMethod::$mode")
      case Failure(e) => Stopped(f, e)
      case Success(s) => Updated(f.(mode := s)))
  }

  /** The block of `setData` for `status`. */
  function StoreStatus(f: PaymentMethodFields, d: map<string, Json>, rt: Runtime): (r: Update<PaymentMethodFields>)
    requires Reads(d, Status)
    ensures r.Updated? ==> Take(Status, d, rt) == Success(r.fields.Get(Status))
    ensures r.Stopped? ==> Take(Status, d, rt) == Failure(r.error)
    ensures r.Stopped? ==> r.fields == f
    ensures r.fields == f.(status := r.fields.status)
  {
    (match AsStr(Read(d, "status"), "PaymentMethod::$status")
      case Failure(e) => Stopped(f, e)
      case Success(s) => Updated(f.(status := s)))
  }

  /** The block of `setData` for `type`. */
  function StoreType(f: PaymentMethodFields, d: map<string, Json>, rt: Runtime): (r: Update<PaymentMethodFields>)
    requires Reads(d, Type)
    ensures r.Updated? ==> Take(Type, d, rt) == Success(r.fields.Get(Type))
    ensures r.Stopped? ==> Take(Type, d, rt) == Failure(r.error)
    ensures r.Stopped? ==> r.fields == f
    ensures r.fields == f.(methodType := r.fields.methodType)
  {
    (match AsStr(Read(d, "type"), "PaymentMethod::$type")
      case Failure(e) => Stopped(f, e)
      case Success(s) => Updated(f.(methodType := s)))
  }

  /** The block of `setData` for `updatedAt`. */
  function StoreUpdatedAt(f: PaymentMethodFields, d: map<string, Json>, rt: Runtime): (r: Update<PaymentMethodFields>)
    requires Reads(d, UpdatedAt)
    ensures r.Updated? ==> Take(UpdatedAt, d, rt) == Success(r.fields.Get(UpdatedAt))
    ensures r.Stopped? ==> Take(UpdatedAt, d, rt) == Failure(r.error)
    ensures r.Stopped? ==> r.fields == f
    ensures r.fields == f.(updatedAt := r.fields.updatedAt)
  {
    (match NewDate(rt, Read(d, "updatedAt"), DateTarget)
      case Failure(e) => Stopped(f, e)
      case Success(s) => Updated(f.(updatedAt := s)))
  }

  /** One `if (isset($data[key])) { ... }` block of `setData`. */
  function Step(f: PaymentMethodFields, d: map<string, Json>, x: Field, rt: Runtime): (r: Update<PaymentMethodFields>)
    ensures !Reads(d, x) ==> r == Updated(f)
    ensures Reads(d, x) && r.Updated? ==> Take(x, d, rt) == Success(r.fields.Get(x))
    ensures Reads(d, x) && r.Stopped? ==> Take(x, d, rt) == Failure(r.error)
    ensures r.Stopped? && x != MobileNumber ==> r.fields == f
    ensures forall y: Field :: y != x ==> Same(r.fields, f, y)
  {
    if !Reads(d, x) then Updated(f)
    else match x
      case Id => StoreId(f, d, rt)
      case Billing => StoreBilling(f, d, rt)
      case Card => StoreCard(f, d, rt)
      case CreatedAt => StoreCreatedAt(f, d, rt)
      case CustomerId => StoreCustomerId(f, d, rt)
      case MobileNumber => StoreMobileNumber(f, d, rt)
      case Zunify => StoreZunify(f, d, rt)
      case Mode => StoreMode(f, d, rt)
      case Status => StoreStatus(f, d, rt)
      case Type => StoreType(f, d, rt)
      case UpdatedAt => StoreUpdatedAt(f, d, rt)
  }

  /** `setData($data)` on an object in state `f`. */
  function Apply(f: PaymentMethodFields, d: map<string, Json>, rt: Runtime): Update<PaymentMethodFields> {
    Fold(Step, f, d, Order, rt)
  }

  class PaymentMethod {
    var id: string
    var billing: Option<BillingModel.BillingFields>
    var card: Option<CardModel.CardFields>
    var createdAt: DateTime
    var customerId: Option<string>
    var mobileNumber: Option<MobileNumberModel.MobileNumberFields>
    var zunify: Option<ZunifyModel.ZunifyFields>
    var mode: string
    var status: string
    var methodType: string
    var updatedAt: DateTime

    function Fields(): PaymentMethodFields
      reads this
    {
      PaymentMethodFields(id, billing, card, createdAt, customerId, mobileNumber, zunify, mode, status, methodType, updatedAt)
    }

    /** An object in state `f`; `New` is the PHP constructor. */
    constructor (f: PaymentMethodFields)
      ensures Fields() == f
    {
      id := f.id;
      billing := f.billing;
      card := f.card;
      createdAt := f.createdAt;
      customerId := f.customerId;
      mobileNumber := f.mobileNumber;
      zunify := f.zunify;
      mode := f.mode;
      status := f.status;
      methodType := f.methodType;
      updatedAt := f.updatedAt;
    }

    /** One guarded assignment of `setData`. */
    method Assign(x: Field, data: map<string, Json>, rt: Runtime) returns (r: Result<(), PhpError>)
      modifies this
      ensures Fields() == Step(old(Fields()), data, x, rt).fields
      ensures r.Failure? <==> Step(old(Fields()), data, x, rt).Stopped?
      ensures r.Failure? ==> r.error == Step(old(Fields()), data, x, rt).error
    {
      if !Reads(data, x) {
        return Success(());
      }
      if x == Id || x == Billing || x == Card || x == CreatedAt || x == CustomerId || x == MobileNumber || x == Zunify || x == Mode {
        r := AssignPart1(x, data, rt);
      } else {
        r := AssignPart2(x, data, rt);
      }
    }

    /** The blocks for `id`, `billing`, `card`, `createdAt`, `customerId`, `mobileNumber`, `zunify`, `mode`. */
    method AssignPart1(x: Field, data: map<string, Json>, rt: Runtime) returns (r: Result<(), PhpError>)
      requires Reads(data, x)
      requires x == Id || x == Billing || x == Card || x == CreatedAt || x == CustomerId || x == MobileNumber || x == Zunify || x == Mode
      modifies this
      ensures Fields() == Step(old(Fields()), data, x, rt).fields
      ensures r.Failure? <==> Step(old(Fields()), data, x, rt).Stopped?
      ensures r.Failure? ==> r.error == Step(old(Fields()), data, x, rt).error
    {
      if x == Id {
        r := AssignId(data, rt);
      } else if x == Billing {
        r := AssignBilling(data, rt);
      } else if x == Card {
        r := AssignCard(data, rt);
      } else if x == CreatedAt {
        r := AssignCreatedAt(data, rt);
      } else if x == CustomerId {
        r := AssignCustomerId(data, rt);
      } else if x == MobileNumber {
        r := AssignMobileNumber(data, rt);
      } else if x == Zunify {
        r := AssignZunify(data, rt);
      } else {
        r := AssignMode(data, rt);
      }
    }

    /** The blocks for `status`, `type`, `updatedAt`. */
    method AssignPart2(x: Field, data: map<string, Json>, rt: Runtime) returns (r: Result<(), PhpError>)
      requires Reads(data, x)
      requires x == Status || x == Type || x == UpdatedAt
      modifies this
      ensures Fields() == Step(old(Fields()), data, x, rt).fields
      ensures r.Failure? <==> Step(old(Fields()), data, x, rt).Stopped?
      ensures r.Failure? ==> r.error == Step(old(Fields()), data, x, rt).error
    {
      if x == Status {
        r := AssignStatus(data, rt);
      } else if x == Type {
        r := AssignType(data, rt);
      } else {
        r := AssignUpdatedAt(data, rt);
      }
    }

    /** The block for `id`. */
    method AssignId(data: map<string, Json>, rt: Runtime) returns (r: Result<(), PhpError>)
      requires Reads(data, Id)
      modifies this
      ensures Fields() == StoreId(old(Fields()), data, rt).fields
      ensures r.Failure? <==> StoreId(old(Fields()), data, rt).Stopped?
      ensures r.Failure? ==> r.error == StoreId(old(Fields()), data, rt).error
    {
      var s :- AsStr(Read(data, "id"), "PaymentMethod::$id");
      id := s;
      return Success(());
    }

    /** The block for `billing`. */
    method AssignBilling(data: map<string, Json>, rt: Runtime) returns (r: Result<(), PhpError>)
      requires Reads(data, Billing)
      modifies this
      ensures Fields() == StoreBilling(old(Fields()), data, rt).fields
      ensures r.Failure? <==> StoreBilling(old(Fields()), data, rt).Stopped?
      ensures r.Failure? ==> r.error == StoreBilling(old(Fields()), data, rt).error
    {
      // `new Billing()` throws before the nested `setData` runs.
      var made := BillingModel.New();
      return Failure(made.error);
      return Success(());
    }

    /** The block for `card`. */
    method AssignCard(data: map<string, Json>, rt: Runtime) returns (r: Result<(), PhpError>)
      requires Reads(data, Card)
      modifies this
      ensures Fields() == StoreCard(old(Fields()), data, rt).fields
      ensures r.Failure? <==> StoreCard(old(Fields()), data, rt).Stopped?
      ensures r.Failure? ==> r.error == StoreCard(old(Fields()), data, rt).error
    {
      // `new Card()` throws before the nested `setData` runs.
      var made := CardModel.New();
      return Failure(made.error);
      return Success(());
    }

    /** The block for `createdAt`. */
    method AssignCreatedAt(data: map<string, Json>, rt: Runtime) returns (r: Result<(), PhpError>)
      requires Reads(data, CreatedAt)
      modifies this
      ensures Fields() == StoreCreatedAt(old(Fields()), data, rt).fields
      ensures r.Failure? <==> StoreCreatedAt(old(Fields()), data, rt).Stopped?
      ensures r.Failure? ==> r.error == StoreCreatedAt(old(Fields()), data, rt).error
    {
      var s :- NewDate(rt, Read(data, "createdAt"), DateTarget);
      createdAt := s;
      return Success(());
    }

    /** The block for `customerId`. */
    method AssignCustomerId(data: map<string, Json>, rt: Runtime) returns (r: Result<(), PhpError>)
      requires Reads(data, CustomerId)
      modifies this
      ensures Fields() == StoreCustomerId(old(Fields()), data, rt).fields
      ensures r.Failure? <==> StoreCustomerId(old(Fields()), data, rt).Stopped?
      ensures r.Failure? ==> r.error == StoreCustomerId(old(Fields()), data, rt).error
    {
      var s :- AsStr(Read(data, "customerId"), "PaymentMethod::$customerId");
      customerId := Some(s);
      return Success(());
    }

    /** The block for `mobileNumber`. */
    method AssignMobileNumber(data: map<string, Json>, rt: Runtime) returns (r: Result<(), PhpError>)
      requires Reads(data, MobileNumber)
      modifies this
      ensures Fields() == StoreMobileNumber(old(Fields()), data, rt).fields
      ensures r.Failure? <==> StoreMobileNumber(old(Fields()), data, rt).Stopped?
      ensures r.Failure? ==> r.error == StoreMobileNumber(old(Fields()), data, rt).error
    {
      // The new object is stored first, then filled in place.
      var made := new MobileNumberModel.MobileNumber(MobileNumberModel.Default);
      mobileNumber := Some(made.Fields());
      var v := Read(data, "mobileNumber");
      if !IsArray(v) {
        return Failure(TypeError("MobileNumber::setData(): Argument #1 ($data)"));
      }
      var res := made.SetData(Entries(v), rt);
      mobileNumber := Some(made.Fields());
      if res.Failure? {
        return Failure(res.error);
      }
      return Success(());
    }

    /** The block for `zunify`. */
    method AssignZunify(data: map<string, Json>, rt: Runtime) returns (r: Result<(), PhpError>)
      requires Reads(data, Zunify)
      modifies this
      ensures Fields() == StoreZunify(old(Fields()), data, rt).fields
      ensures r.Failure? <==> StoreZunify(old(Fields()), data, rt).Stopped?
      ensures r.Failure? ==> r.error == StoreZunify(old(Fields()), data, rt).error
    {
      // `new Zunify()` throws before the nested `setData` runs.
      var made := ZunifyModel.New();
      return Failure(made.error);
      return Success(());
    }

    /** The block for `mode`. */
    method AssignMode(data: map<string, Json>, rt: Runtime) returns (r: Result<(), PhpError>)
      requires Reads(data, Mode)
      modifies this
      ensures Fields() == StoreMode(old(Fields()), data, rt).fields
      ensures r.Failure? <==> StoreMode(old(Fields()), data, rt).Stopped?
      ensures r.Failure? ==> r.error == StoreMode(old(Fields()), data, rt).error
    {
      var s :- AsStr(Read(data, "mode"), "PaymentMethod::$mode");
      mode := s;
      return Success(());
    }

    /** The block for `status`. */
    method AssignStatus(data: map<string, Json>, rt: Runtime) returns (r: Result<(), PhpError>)
      requires Reads(data, Status)
      modifies this
      ensures Fields() == StoreStatus(old(Fields()), data, rt).fields
      ensures r.Failure? <==> StoreStatus(old(Fields()), data, rt).Stopped?
      ensures r.Failure? ==> r.error == StoreStatus(old(Fields()), data, rt).error
    {
      var s :- AsStr(Read(data, "status"), "PaymentMethod::$status");
      status := s;
      return Success(());
    }

    /** The block for `type`. */
    method AssignType(data: map<string, Json>, rt: Runtime) returns (r: Result<(), PhpError>)
      requires Reads(data, Type)
      modifies this
      ensures Fields() == StoreType(old(Fields()), data, rt).fields
      ensures r.Failure? <==> StoreType(old(Fields()), data, rt).Stopped?
      ensures r.Failure? ==> r.error == StoreType(old(Fields()), data, rt).error
    {
      var s :- AsStr(Read(data, "type"), "PaymentMethod::$type");
      methodType := s;
      return Success(());
    }

    /** The block for `updatedAt`. */
    method AssignUpdatedAt(data: map<string, Json>, rt: Runtime) returns (r: Result<(), PhpError>)
      requires Reads(data, UpdatedAt)
      modifies this
      ensures Fields() == StoreUpdatedAt(old(Fields()), data, rt).fields
      ensures r.Failure? <==> StoreUpdatedAt(old(Fields()), data, rt).Stopped?
      ensures r.Failure? ==> r.error == StoreUpdatedAt(old(Fields()), data, rt).error
    {
      var s :- NewDate(rt, Read(data, "updatedAt"), DateTarget);
      updatedAt := s;
      return Success(());
    }

    /** The blocks for the keys of `xs`, one after the other, up to the
        first error. */
    method AssignAll(xs: seq<Field>, data: map<string, Json>, rt: Runtime) returns (r: Result<(), PhpError>)
      modifies this
      ensures Fields() == Fold(Step, old(Fields()), data, xs, rt).fields
      ensures r.Failure? <==> Fold(Step, old(Fields()), data, xs, rt).Stopped?
      ensures r.Failure? ==> r.error == Fold(Step, old(Fields()), data, xs, rt).error
      decreases |xs|
    {
      if xs == [] {
        return Success(());
      }
      r := Assign(xs[0], data, rt);
      if r.Failure? {
        return;
      }
      r := AssignAll(xs[1..], data, rt);
    }

    /** `setData($data)`: every block, in the order of the source. */
    method SetData(data: map<string, Json>, rt: Runtime) returns (r: Result<(), PhpError>)
      modifies this
      ensures Fields() == Apply(old(Fields()), data, rt).fields
      ensures r.Failure? <==> Apply(old(Fields()), data, rt).Stopped?
      ensures r.Failure? ==> r.error == Apply(old(Fields()), data, rt).error
    {
      r := AssignAll(Order, data, rt);
    }
  }

  // ---------------------------------------------------------------------------
  // Properties of setData

  lemma OrderIsComplete(x: Field)
    ensures x in Order
  {
  }

  /** A field whose key `setData` does not act on keeps its value, even
      when `setData` stops early. */
  lemma ApplyKeepsUnread(f: PaymentMethodFields, d: map<string, Json>, x: Field, rt: Runtime)
    requires !Reads(d, x)
    ensures Apply(f, d, rt).fields.Get(x) == f.Get(x)
  {
    var P := (g: PaymentMethodFields) => g.Get(x) == f.Get(x);
    StepKeepsUnread(d, x, rt, f.Get(x), P);
    FoldKeeps(Step, f, d, Order, rt, P);
  }

  /** No step changes a field whose key `setData` does not act on. */
  lemma StepKeepsUnread(d: map<string, Json>, x: Field, rt: Runtime, v: Json, P: PaymentMethodFields -> bool)
    requires !Reads(d, x)
    requires forall g :: P(g) <==> g.Get(x) == v
    ensures forall g, y :: y in Order && P(g) ==> P(Step(g, d, y, rt).fields)
  {
    forall g, y | y in Order && P(g)
      ensures P(Step(g, d, y, rt).fields)
    {
      if y != x {
        SameGet(Step(g, d, y, rt).fields, g, x);
      }
    }
  }

  /** When `setData` completes, each field it acts on holds what `Take`
      says. */
  lemma ApplyStoresRead(f: PaymentMethodFields, d: map<string, Json>, x: Field, rt: Runtime)
    requires Reads(d, x) && Apply(f, d, rt).Updated?
    ensures Take(x, d, rt) == Success(Apply(f, d, rt).fields.Get(x))
  {
    OrderIsComplete(x);
    var P := (g: PaymentMethodFields) => Take(x, d, rt) == Success(g.Get(x));
    StepStoresRead(d, x, rt, P);
    FoldEstablishes(Step, f, d, Order, rt, x, P);
  }

  /** The step for `x` establishes what `Take` says, and the other steps
      keep it. */
  lemma StepStoresRead(d: map<string, Json>, x: Field, rt: Runtime, P: PaymentMethodFields -> bool)
    requires Reads(d, x)
    requires forall g :: P(g) <==> Take(x, d, rt) == Success(g.Get(x))
    ensures forall g :: Step(g, d, x, rt).Updated? ==> P(Step(g, d, x, rt).fields)
    ensures forall g, y :: y != x && P(g) ==> P(Step(g, d, y, rt).fields)
  {
    forall g, y | y != x && P(g)
      ensures P(Step(g, d, y, rt).fields)
    {
      SameGet(Step(g, d, y, rt).fields, g, x);
    }
  }

  /** `setData` stops exactly when some key it acts on is refused, and
      with the error of the first such key in its order. */
  lemma ApplyStops(f: PaymentMethodFields, d: map<string, Json>, rt: Runtime)
    ensures Apply(f, d, rt).Stopped? <==> exists x: Field :: Refused(d, x, rt)
    ensures Apply(f, d, rt).Stopped? ==>
      exists i :: 0 <= i < |Order| && Refused(d, Order[i], rt) &&
        (forall j :: 0 <= j < i ==> !Refused(d, Order[j], rt)) &&
        Apply(f, d, rt).error == Take(Order[i], d, rt).error
  {
    FoldStops(Step, f, d, Order, rt, (y: Field) => Refused(d, y, rt), (y: Field) => Take(y, d, rt));
    if x: Field :| Refused(d, x, rt) {
      OrderIsComplete(x);
    }
  }

  /** An empty array changes nothing. */
  lemma ApplyEmpty(f: PaymentMethodFields, rt: Runtime)
    ensures Apply(f, map[], rt) == Updated(f)
  {
    FoldNoOp(Step, f, map[], Order, rt);
  }

  /** `toArray(true)` of a payment method: `type`; `billing` and `customerId`
      when given; then, by `type`, the card, the mobile number or the Zunify
      account, when given. Any other type adds nothing more, and at most one
      of the three appears. */
  function NewArrayShape(methodType: string, billing: Option<Json>, customerId: Option<string>, card: Option<Json>,
                         mobileNumber: Option<Json>, zunify: Option<Json>): (m: map<string, Json>)
    ensures m.Keys <= {"type", "billing", "customerId", "card", "mobileNumber", "zunify"}
    ensures "type" in m && m["type"] == JString(methodType)
    ensures "billing" in m <==> billing.Some?
    ensures "billing" in m ==> m["billing"] == billing.value
    ensures "customerId" in m <==> customerId.Some?
    ensures "customerId" in m ==> m["customerId"] == JString(customerId.value)
    ensures "card" in m <==> methodType == "card" && card.Some?
    ensures "card" in m ==> m["card"] == card.value
    ensures "mobileNumber" in m <==> methodType == "mobile_number" && mobileNumber.Some?
    ensures "mobileNumber" in m ==> m["mobileNumber"] == mobileNumber.value
    ensures "zunify" in m <==> methodType == "zunify" && zunify.Some?
    ensures "zunify" in m ==> m["zunify"] == zunify.value
    ensures !("card" in m && "mobileNumber" in m) && !("card" in m && "zunify" in m) &&
            !("mobileNumber" in m && "zunify" in m)
  {
    var data := map["type" := JString(methodType)];
    var data := if billing.Some? then data["billing" := billing.value] else data;
    var data := if customerId.Some? then data["customerId" := JString(customerId.value)] else data;
    if methodType == "card" then
      (if card.Some? then data["card" := card.value] else data)
    else if methodType == "mobile_number" then
      (if mobileNumber.Some? then data["mobileNumber" := mobileNumber.value] else data)
    else if methodType == "zunify" then
      (if zunify.Some? then data["zunify" := zunify.value] else data)
    else data
  }


  /** `new PaymentMethod(...)`: the four text properties refuse null, in the
      order they are assigned; a missing `createdAt` or `updatedAt` is the
      current time `now`. */
  function New(now: DateTime, id: Option<string> := Some(""), createdAt: Option<DateTime> := None,
               mode: Option<string> := Some(""), status: Option<string> := Some(""),
               methodType: Option<string> := Some(""), updatedAt: Option<DateTime> := None,
               billing: Option<BillingModel.BillingFields> := None, card: Option<CardModel.CardFields> := None,
               customerId: Option<string> := None, mobileNumber: Option<MobileNumberModel.MobileNumberFields> := None,
               zunify: Option<ZunifyModel.ZunifyFields> := None): (r: Result<PaymentMethodFields, PhpError>)
    ensures r.Success? <==> id.Some? && mode.Some? && status.Some? && methodType.Some?
    ensures id.None? ==> r == Failure(TypeError("PaymentMethod::$id"))
    ensures id.Some? && mode.None? ==> r == Failure(TypeError("PaymentMethod::$mode"))
    ensures id.Some? && mode.Some? && status.None? ==> r == Failure(TypeError("PaymentMethod::$status"))
    ensures id.Some? && mode.Some? && status.Some? && methodType.None? ==> r == Failure(TypeError("PaymentMethod::$type"))
    ensures r.Success? ==>
      r.value.createdAt == (if createdAt.Some? then createdAt.value else now) &&
      r.value.updatedAt == (if updatedAt.Some? then updatedAt.value else now) &&
      Some(r.value.id) == id && Some(r.value.mode) == mode && Some(r.value.status) == status &&
      Some(r.value.methodType) == methodType && r.value.billing == billing && r.value.card == card &&
      r.value.customerId == customerId && r.value.mobileNumber == mobileNumber && r.value.zunify == zunify
  {
    if id.None? then Failure(TypeError("PaymentMethod::$id"))
    else if mode.None? then Failure(TypeError("PaymentMethod::$mode"))
    else if status.None? then Failure(TypeError("PaymentMethod::$status"))
    else if methodType.None? then Failure(TypeError("PaymentMethod::$type"))
    else
      Success(PaymentMethodFields(id.value, billing, card, if createdAt.Some? then createdAt.value else now,
                                  customerId, mobileNumber, zunify, mode.value, status.value, methodType.value,
                                  if updatedAt.Some? then updatedAt.value else now))
  }

  /** The nested `billing`, `card` and `zunify` blocks always stop `setData`:
      their default constructors refuse null. */
  lemma NestedDefaultsRefused(d: map<string, Json>, rt: Runtime)
    ensures IsSet(d, "billing") ==> Refused(d, Billing, rt) && Take(Billing, d, rt) == Failure(TypeError("Billing::$address"))
    ensures IsSet(d, "card") ==> Refused(d, Card, rt) && Take(Card, d, rt) == Failure(TypeError("Card::$expMonth"))
    ensures IsSet(d, "zunify") ==> Refused(d, Zunify, rt) && Take(Zunify, d, rt) == Failure(TypeError("Zunify::$pin"))
  {
  }

  /** A `mobileNumber` array is applied to a fresh `new MobileNumber()`,
      which the property holds before the nested `setData` runs: whether
      that completes or raises, the field holds exactly what the nested
      `setData` makes of the default object, and the block raises exactly
      when it does, with its error. A value that is not an array leaves the
      default object there and raises the `setData` TypeError. */
  lemma MobileNumberFromDefault(f: PaymentMethodFields, d: map<string, Json>, rt: Runtime)
    requires IsSet(d, "mobileNumber")
    ensures MobileNumberModel.New() == Success(MobileNumberModel.Default)
    ensures IsArray(d["mobileNumber"]) ==>
      var inner := MobileNumberModel.Apply(MobileNumberModel.Default, Entries(d["mobileNumber"]), rt);
      && Step(f, d, MobileNumber, rt).fields.mobileNumber == Some(inner.fields)
      && (Step(f, d, MobileNumber, rt).Stopped? <==> inner.Stopped?)
      && (inner.Stopped? ==> Step(f, d, MobileNumber, rt).error == inner.error)
    ensures !IsArray(d["mobileNumber"]) ==>
      Step(f, d, MobileNumber, rt) ==
      Stopped(f.(mobileNumber := Some(MobileNumberModel.Default)), TypeError("MobileNumber::setData(): Argument #1 ($data)"))
    ensures Step(f, d, MobileNumber, rt).fields == f.(mobileNumber := Step(f, d, MobileNumber, rt).fields.mobileNumber)
  {
    MobileNumberModel.NewDefault();
  }

  /** A type that is none of the three adds no payment key. */
  lemma OtherTypeAddsNoMethod(f: PaymentMethodFields)
    requires f.methodType !in {"card", "mobile_number", "zunify"}
    ensures f.ToNewArray().Keys <= {"type", "billing", "customerId"}
  {
  }
}
