/**
 * `ONVO\Models\PaymentIntent`: a payment. Every property is nullable; the
 * constructor only stores its (already typed) arguments, which is the class
 * constructor here. `setData` copies the set keys in order, parsing the two
 * dates. For `charges`, `lastPaymentError` and `nextAction` it stores the
 * value of `(new X())->setData(...)`, which is null: the nested objects are
 * filled, can fail, and are then dropped, so those keys clear their
 * properties (`charges` becomes an array of nulls of the same shape).
 * `exchangeRate` is a float and is kept as the JSON it was given.
 */
module PaymentIntent {
  import opened Php
  import opened Setter
  import opened Arrays
  import ChargeModel = Charge
  import PaymentErrorModel = PaymentError
  import NextActionModel = NextAction

  /** The state of a PaymentIntent object. A null `exchangeRate` or `metadata` is `JNull`. */
  datatype PaymentIntentFields = PaymentIntentFields(
    id: Option<string>,
    amount: Option<Int64>,
    baseAmount: Option<Int64>,
    exchangeRate: Json,
    capturableAmount: Option<Int64>,
    receivedAmount: Option<Int64>,
    captureMethod: Option<string>,
    currency: Option<string>,
    createdAt: Option<DateTime>,
    customerId: Option<string>,
    description: Option<string>,
    charges: Option<Mapped<Option<ChargeModel.ChargeFields>>>,
    lastPaymentError: Option<PaymentErrorModel.PaymentErrorFields>,
    mode: Option<string>,
    status: Option<string>,
    updatedAt: Option<DateTime>,
    metadata: Json,
    officeId: Option<string>,
    onBehalfOf: Option<string>,
    nextAction: Option<NextActionModel.NextActionFields>)
  {
    /** Field `x` as JSON: what `toArray` shows of it. */
    function Get(x: Field): Json {
      match x
      case Id => OptStr(id)
      case Amount => OptInt(amount)
      case BaseAmount => OptInt(baseAmount)
      case ExchangeRate => exchangeRate
      case CapturableAmount => OptInt(capturableAmount)
      case ReceivedAmount => OptInt(receivedAmount)
      case CaptureMethod => OptStr(captureMethod)
      case Currency => OptStr(currency)
      case CreatedAt => OptDate(createdAt)
      case CustomerId => OptStr(customerId)
      case Description => OptStr(description)
      case Charges => ShownCharges(charges)
      case LastPaymentError => ShownError(lastPaymentError)
      case Mode => OptStr(mode)
      case Status => OptStr(status)
      case UpdatedAt => OptDate(updatedAt)
      case Metadata => metadata
      case OfficeId => OptStr(officeId)
      case OnBehalfOf => OptStr(onBehalfOf)
      case NextAction => ShownNextAction(nextAction)
    }

    /** `toArray(false)`: every property under its own key, as `Get` shows it.
        Each element of `charges` is asked for its `toArray()`, so a null
        element makes the call fail. */
    function ToArray(): (r: Result<map<string, Json>, PhpError>)
      ensures r.Success? <==> charges.None? || NoNullCharge(charges.value)
      ensures r.Success? ==> forall x: Field :: x.Key() in r.value && r.value[x.Key()] == Get(x)
      ensures r.Success? ==> forall k :: k in r.value ==> exists x: Field :: x.Key() == k
      ensures r.Failure? ==> r.error == NullCall("toArray")
    {
      if charges.Some? && !NoNullCharge(charges.value) then Failure(NullCall("toArray"))
      else
        KeyInjective();
        Success(map x: Field | x in Order :: x.Key() := Get(x))
    }

    /** `toArray(true)`, the body of a create request: the eight request
        properties, nulls included. */
    function ToNewArray(): (m: map<string, Json>)
      ensures forall x: Field :: x.Key() in m <==> InRequest(x)
      ensures forall x: Field :: x.Key() in m ==> m[x.Key()] == Get(x)
      ensures forall k :: k in m ==> exists x: Field :: x.Key() == k
    {
      KeyInjective();
      map x: Field | x in Order && InRequest(x) :: x.Key() := Get(x)
    }

    /** `toUpdateArray()`: the request properties that are not null. */
    function ToUpdateArray(): (m: map<string, Json>)
      ensures forall x: Field :: x.Key() in m <==> InRequest(x) && Get(x) != JNull
      ensures forall x: Field :: x.Key() in m ==> m[x.Key()] == Get(x)
      ensures forall k :: k in m ==> exists x: Field :: x.Key() == k
    {
      KeyInjective();
      map x: Field | x in Order && InRequest(x) && Get(x) != JNull :: x.Key() := Get(x)
    }
  }

  /** The keys `setData` looks at. */
  datatype Field = Id | Amount | BaseAmount | ExchangeRate | CapturableAmount | ReceivedAmount | CaptureMethod | Currency | CreatedAt | CustomerId | Description | Charges | LastPaymentError | Mode | Status | UpdatedAt | Metadata | OfficeId | OnBehalfOf | NextAction {
    function Key(): string {
      match this
      case Id => "id"
      case Amount => "amount"
      case BaseAmount => "baseAmount"
      case ExchangeRate => "exchangeRate"
      case CapturableAmount => "capturableAmount"
      case ReceivedAmount => "receivedAmount"
      case CaptureMethod => "captureMethod"
      case Currency => "currency"
      case CreatedAt => "createdAt"
      case CustomerId => "customerId"
      case Description => "description"
      case Charges => "charges"
      case LastPaymentError => "lastPaymentError"
      case Mode => "mode"
      case Status => "status"
      case UpdatedAt => "updatedAt"
      case Metadata => "metadata"
      case OfficeId => "officeId"
      case OnBehalfOf => "onBehalfOf"
      case NextAction => "nextAction"
    }
  }

  /** The order in which `setData` visits them. */
  const Order: seq<Field> := [Id, Amount, BaseAmount, ExchangeRate, CapturableAmount, ReceivedAmount, CaptureMethod, Currency, CreatedAt, CustomerId, Description, Charges, LastPaymentError, Mode, Status, UpdatedAt, Metadata, OfficeId, OnBehalfOf, NextAction]

  /** `g` and `f` hold the same value in field `x`. */
  predicate Same(g: PaymentIntentFields, f: PaymentIntentFields, x: Field) {
    match x
    case Id => g.id == f.id
    case Amount => g.amount == f.amount
    case BaseAmount => g.baseAmount == f.baseAmount
    case ExchangeRate => g.exchangeRate == f.exchangeRate
    case CapturableAmount => g.capturableAmount == f.capturableAmount
    case ReceivedAmount => g.receivedAmount == f.receivedAmount
    case CaptureMethod => g.captureMethod == f.captureMethod
    case Currency => g.currency == f.currency
    case CreatedAt => g.createdAt == f.createdAt
    case CustomerId => g.customerId == f.customerId
    case Description => g.description == f.description
    case Charges => g.charges == f.charges
    case LastPaymentError => g.lastPaymentError == f.lastPaymentError
    case Mode => g.mode == f.mode
    case Status => g.status == f.status
    case UpdatedAt => g.updatedAt == f.updatedAt
    case Metadata => g.metadata == f.metadata
    case OfficeId => g.officeId == f.officeId
    case OnBehalfOf => g.onBehalfOf == f.onBehalfOf
    case NextAction => g.nextAction == f.nextAction
  }

  /** `f` with field `x` taken from `g`. */
  function Overwrite(f: PaymentIntentFields, x: Field, g: PaymentIntentFields): PaymentIntentFields {
    match x
    case Id => f.(id := g.id)
    case Amount => f.(amount := g.amount)
    case BaseAmount => f.(baseAmount := g.baseAmount)
    case ExchangeRate => f.(exchangeRate := g.exchangeRate)
    case CapturableAmount => f.(capturableAmount := g.capturableAmount)
    case ReceivedAmount => f.(receivedAmount := g.receivedAmount)
    case CaptureMethod => f.(captureMethod := g.captureMethod)
    case Currency => f.(currency := g.currency)
    case CreatedAt => f.(createdAt := g.createdAt)
    case CustomerId => f.(customerId := g.customerId)
    case Description => f.(description := g.description)
    case Charges => f.(charges := g.charges)
    case LastPaymentError => f.(lastPaymentError := g.lastPaymentError)
    case Mode => f.(mode := g.mode)
    case Status => f.(status := g.status)
    case UpdatedAt => f.(updatedAt := g.updatedAt)
    case Metadata => f.(metadata := g.metadata)
    case OfficeId => f.(officeId := g.officeId)
    case OnBehalfOf => f.(onBehalfOf := g.onBehalfOf)
    case NextAction => f.(nextAction := g.nextAction)
  }

  /** A state that differs from `f` at most in field `x` agrees with it
      on every other field. */
  lemma OverwriteSame(f: PaymentIntentFields, g: PaymentIntentFields, x: Field)
    requires g == Overwrite(f, x, g)
    ensures forall y: Field :: y != x ==> Same(g, f, y)
  {
  }

  lemma SameGet(g: PaymentIntentFields, f: PaymentIntentFields, x: Field)
    requires Same(g, f, x)
    ensures g.Get(x) == f.Get(x)
  {
  }

  /** `setData` acts on key `x` of `d`: the key is set (`isset`). */
  predicate Reads(d: map<string, Json>, x: Field) {
    IsSet(d, x.Key())
  }

  /** What `setData` leaves in field `x` when it acts on it, in `Get`'s
      terms, or the error it raises. */
  function Take(x: Field, d: map<string, Json>, rt: Runtime): Result<Json, PhpError> {
    match x
    case Id => TakeId(d, rt)
    case Amount => TakeAmount(d, rt)
    case BaseAmount => TakeBaseAmount(d, rt)
    case ExchangeRate => TakeExchangeRate(d, rt)
    case CapturableAmount => TakeCapturableAmount(d, rt)
    case ReceivedAmount => TakeReceivedAmount(d, rt)
    case CaptureMethod => TakeCaptureMethod(d, rt)
    case Currency => TakeCurrency(d, rt)
    case CreatedAt => TakeCreatedAt(d, rt)
    case CustomerId => TakeCustomerId(d, rt)
    case Description => TakeDescription(d, rt)
    case Charges => TakeCharges(d, rt)
    case LastPaymentError => TakeLastPaymentError(d, rt)
    case Mode => TakeMode(d, rt)
    case Status => TakeStatus(d, rt)
    case UpdatedAt => TakeUpdatedAt(d, rt)
    case Metadata => TakeMetadata(d, rt)
    case OfficeId => TakeOfficeId(d, rt)
    case OnBehalfOf => TakeOnBehalfOf(d, rt)
    case NextAction => TakeNextAction(d, rt)
  }

  /** What the block for `id` leaves in its field, or its error. */
  function TakeId(d: map<string, Json>, rt: Runtime): Result<Json, PhpError> {
    (match AsStr(Read(d, "id"), "PaymentIntent::$id") case Failure(e) => Failure(e) case Success(s) => Success(JString(s)))
  }

  /** What the block for `amount` leaves in its field, or its error. */
  function TakeAmount(d: map<string, Json>, rt: Runtime): Result<Json, PhpError> {
    (match AsInt(Read(d, "amount"), "PaymentIntent::$amount") case Failure(e) => Failure(e) case Success(s) => Success(JInt(s)))
  }

  /** What the block for `baseAmount` leaves in its field, or its error. */
  function TakeBaseAmount(d: map<string, Json>, rt: Runtime): Result<Json, PhpError> {
    (match AsInt(Read(d, "baseAmount"), "PaymentIntent::$baseAmount") case Failure(e) => Failure(e) case Success(s) => Success(JInt(s)))
  }

  /** What the block for `exchangeRate` leaves in its field, or its error. */
  function TakeExchangeRate(d: map<string, Json>, rt: Runtime): Result<Json, PhpError> {
    AsFloat(Read(d, "exchangeRate"), "PaymentIntent::$exchangeRate")
  }

  /** What the block for `capturableAmount` leaves in its field, or its error. */
  function TakeCapturableAmount(d: map<string, Json>, rt: Runtime): Result<Json, PhpError> {
    (match AsInt(Read(d, "capturableAmount"), "PaymentIntent::$capturableAmount") case Failure(e) => Failure(e) case Success(s) => Success(JInt(s)))
  }

  /** What the block for `receivedAmount` leaves in its field, or its error. */
  function TakeReceivedAmount(d: map<string, Json>, rt: Runtime): Result<Json, PhpError> {
    (match AsInt(Read(d, "receivedAmount"), "PaymentIntent::$receivedAmount") case Failure(e) => Failure(e) case Success(s) => Success(JInt(s)))
  }

  /** What the block for `captureMethod` leaves in its field, or its error. */
  function TakeCaptureMethod(d: map<string, Json>, rt: Runtime): Result<Json, PhpError> {
    (match AsStr(Read(d, "captureMethod"), "PaymentIntent::$captureMethod") case Failure(e) => Failure(e) case Success(s) => Success(JString(s)))
  }

  /** What the block for `currency` leaves in its field, or its error. */
  function TakeCurrency(d: map<string, Json>, rt: Runtime): Result<Json, PhpError> {
    (match AsStr(Read(d, "currency"), "PaymentIntent::$currency") case Failure(e) => Failure(e) case Success(s) => Success(JString(s)))
  }

  /** What the block for `createdAt` leaves in its field, or its error. */
  function TakeCreatedAt(d: map<string, Json>, rt: Runtime): Result<Json, PhpError> {
    (match NewDate(rt, Read(d, "createdAt"), DateTarget) case Failure(e) => Failure(e) case Success(s) => Success(JString(s.atom)))
  }

  /** What the block for `customerId` leaves in its field, or its error. */
  function TakeCustomerId(d: map<string, Json>, rt: Runtime): Result<Json, PhpError> {
    (match AsStr(Read(d, "customerId"), "PaymentIntent::$customerId") case Failure(e) => Failure(e) case Success(s) => Success(JString(s)))
  }

  /** What the block for `description` leaves in its field, or its error. */
  function TakeDescription(d: map<string, Json>, rt: Runtime): Result<Json, PhpError> {
    (match AsStr(Read(d, "description"), "PaymentIntent::$description") case Failure(e) => Failure(e) case Success(s) => Success(JString(s)))
  }

  /** What the block for `charges` leaves in its field, or its error. */
  function TakeCharges(d: map<string, Json>, rt: Runtime): Result<Json, PhpError> {
    (match ChargesFrom(Read(d, "charges"), rt) case Failure(e) => Failure(e) case Success(m) => Success(ShownCharges(Some(m))))
  }

  /** What the block for `lastPaymentError` leaves in its field, or its error. */
  function TakeLastPaymentError(d: map<string, Json>, rt: Runtime): Result<Json, PhpError> {
    (match PaymentErrorModel.SetDataOnNew(Read(d, "lastPaymentError"), rt) case Failure(e) => Failure(e) case Success(o) => Success(ShownError(o)))
  }

  /** What the block for `mode` leaves in its field, or its error. */
  function TakeMode(d: map<string, Json>, rt: Runtime): Result<Json, PhpError> {
    (match AsStr(Read(d, "mode"), "PaymentIntent::$mode") case Failure(e) => Failure(e) case Success(s) => Success(JString(s)))
  }

  /** What the block for `status` leaves in its field, or its error. */
  function TakeStatus(d: map<string, Json>, rt: Runtime): Result<Json, PhpError> {
    (match AsStr(Read(d, "status"), "PaymentIntent::$status") case Failure(e) => Failure(e) case Success(s) => Success(JString(s)))
  }

  /** What the block for `updatedAt` leaves in its field, or its error. */
  function TakeUpdatedAt(d: map<string, Json>, rt: Runtime): Result<Json, PhpError> {
    (match NewDate(rt, Read(d, "updatedAt"), DateTarget) case Failure(e) => Failure(e) case Success(s) => Success(JString(s.atom)))
  }

  /** What the block for `metadata` leaves in its field, or its error. */
  function TakeMetadata(d: map<string, Json>, rt: Runtime): Result<Json, PhpError> {
    AsArray(Read(d, "metadata"), "PaymentIntent::$metadata")
  }

  /** What the block for `officeId` leaves in its field, or its error. */
  function TakeOfficeId(d: map<string, Json>, rt: Runtime): Result<Json, PhpError> {
    (match AsStr(Read(d, "officeId"), "PaymentIntent::$officeId") case Failure(e) => Failure(e) case Success(s) => Success(JString(s)))
  }

  /** What the block for `onBehalfOf` leaves in its field, or its error. */
  function TakeOnBehalfOf(d: map<string, Json>, rt: Runtime): Result<Json, PhpError> {
    (match AsStr(Read(d, "onBehalfOf"), "PaymentIntent::$onBehalfOf") case Failure(e) => Failure(e) case Success(s) => Success(JString(s)))
  }

  /** What the block for `nextAction` leaves in its field, or its error. */
  function TakeNextAction(d: map<string, Json>, rt: Runtime): Result<Json, PhpError> {
    (match NextActionModel.SetDataOnNew(Read(d, "nextAction"), rt) case Failure(e) => Failure(e) case Success(o) => Success(ShownNextAction(o)))
  }

  /** A key `setData` acts on and stops at. */
  predicate Refused(d: map<string, Json>, x: Field, rt: Runtime) {
    Reads(d, x) && Take(x, d, rt).Failure?
  }

  /** The block of `setData` for `id`, once the key is set. */
  function StoreId(f: PaymentIntentFields, d: map<string, Json>, rt: Runtime): Update<PaymentIntentFields> {
    (match AsStr(Read(d, "id"), "PaymentIntent::$id")
      case Failure(e) => Stopped(f, e)
      case Success(s) => Updated(f.(id := Some(s))))
  }

  /** The block of `setData` for `amount`, once the key is set. */
  function StoreAmount(f: PaymentIntentFields, d: map<string, Json>, rt: Runtime): Update<PaymentIntentFields> {
    (match AsInt(Read(d, "amount"), "PaymentIntent::$amount")
      case Failure(e) => Stopped(f, e)
      case Success(s) => Updated(f.(amount := Some(s))))
  }

  /** The block of `setData` for `baseAmount`, once the key is set. */
  function StoreBaseAmount(f: PaymentIntentFields, d: map<string, Json>, rt: Runtime): Update<PaymentIntentFields> {
    (match AsInt(Read(d, "baseAmount"), "PaymentIntent::$baseAmount")
      case Failure(e) => Stopped(f, e)
      case Success(s) => Updated(f.(baseAmount := Some(s))))
  }

  /** The block of `setData` for `exchangeRate`, once the key is set. */
  function StoreExchangeRate(f: PaymentIntentFields, d: map<string, Json>, rt: Runtime): Update<PaymentIntentFields> {
    (match AsFloat(Read(d, "exchangeRate"), "PaymentIntent::$exchangeRate")
      case Failure(e) => Stopped(f, e)
      case Success(s) => Updated(f.(exchangeRate := s)))
  }

  /** The block of `setData` for `capturableAmount`, once the key is set. */
  function StoreCapturableAmount(f: PaymentIntentFields, d: map<string, Json>, rt: Runtime): Update<PaymentIntentFields> {
    (match AsInt(Read(d, "capturableAmount"), "PaymentIntent::$capturableAmount")
      case Failure(e) => Stopped(f, e)
      case Success(s) => Updated(f.(capturableAmount := Some(s))))
  }

  /** The block of `setData` for `receivedAmount`, once the key is set. */
  function StoreReceivedAmount(f: PaymentIntentFields, d: map<string, Json>, rt: Runtime): Update<PaymentIntentFields> {
    (match AsInt(Read(d, "receivedAmount"), "PaymentIntent::$receivedAmount")
      case Failure(e) => Stopped(f, e)
      case Success(s) => Updated(f.(receivedAmount := Some(s))))
  }

  /** The block of `setData` for `captureMethod`, once the key is set. */
  function StoreCaptureMethod(f: PaymentIntentFields, d: map<string, Json>, rt: Runtime): Update<PaymentIntentFields> {
    (match AsStr(Read(d, "captureMethod"), "PaymentIntent::$captureMethod")
      case Failure(e) => Stopped(f, e)
      case Success(s) => Updated(f.(captureMethod := Some(s))))
  }

  /** The block of `setData` for `currency`, once the key is set. */
  function StoreCurrency(f: PaymentIntentFields, d: map<string, Json>, rt: Runtime): Update<PaymentIntentFields> {
    (match AsStr(Read(d, "currency"), "PaymentIntent::$currency")
      case Failure(e) => Stopped(f, e)
      case Success(s) => Updated(f.(currency := Some(s))))
  }

  /** The block of `setData` for `createdAt`, once the key is set. */
  function StoreCreatedAt(f: PaymentIntentFields, d: map<string, Json>, rt: Runtime): Update<PaymentIntentFields> {
    (match NewDate(rt, Read(d, "createdAt"), DateTarget)
      case Failure(e) => Stopped(f, e)
      case Success(s) => Updated(f.(createdAt := Some(s))))
  }

  /** The block of `setData` for `customerId`, once the key is set. */
  function StoreCustomerId(f: PaymentIntentFields, d: map<string, Json>, rt: Runtime): Update<PaymentIntentFields> {
    (match AsStr(Read(d, "customerId"), "PaymentIntent::$customerId")
      case Failure(e) => Stopped(f, e)
      case Success(s) => Updated(f.(customerId := Some(s))))
  }

  /** The block of `setData` for `description`, once the key is set. */
  function StoreDescription(f: PaymentIntentFields, d: map<string, Json>, rt: Runtime): Update<PaymentIntentFields> {
    (match AsStr(Read(d, "description"), "PaymentIntent::$description")
      case Failure(e) => Stopped(f, e)
      case Success(s) => Updated(f.(description := Some(s))))
  }

  /** The block of `setData` for `charges`, once the key is set. */
  function StoreCharges(f: PaymentIntentFields, d: map<string, Json>, rt: Runtime): Update<PaymentIntentFields> {
    (match ChargesFrom(Read(d, "charges"), rt)
      case Failure(e) => Stopped(f, e)
      case Success(m) => Updated(f.(charges := Some(m))))
  }

  /** The block of `setData` for `lastPaymentError`, once the key is set. */
  function StoreLastPaymentError(f: PaymentIntentFields, d: map<string, Json>, rt: Runtime): Update<PaymentIntentFields> {
    (match PaymentErrorModel.SetDataOnNew(Read(d, "lastPaymentError"), rt)
      case Failure(e) => Stopped(f, e)
      case Success(o) => Updated(f.(lastPaymentError := o)))
  }

  /** The block of `setData` for `mode`, once the key is set. */
  function StoreMode(f: PaymentIntentFields, d: map<string, Json>, rt: Runtime): Update<PaymentIntentFields> {
    (match AsStr(Read(d, "mode"), "PaymentIntent::$mode")
      case Failure(e) => Stopped(f, e)
      case Success(s) => Updated(f.(mode := Some(s))))
  }

  /** The block of `setData` for `status`, once the key is set. */
  function StoreStatus(f: PaymentIntentFields, d: map<string, Json>, rt: Runtime): Update<PaymentIntentFields> {
    (match AsStr(Read(d, "status"), "PaymentIntent::$status")
      case Failure(e) => Stopped(f, e)
      case Success(s) => Updated(f.(status := Some(s))))
  }

  /** The block of `setData` for `updatedAt`, once the key is set. */
  function StoreUpdatedAt(f: PaymentIntentFields, d: map<string, Json>, rt: Runtime): Update<PaymentIntentFields> {
    (match NewDate(rt, Read(d, "updatedAt"), DateTarget)
      case Failure(e) => Stopped(f, e)
      case Success(s) => Updated(f.(updatedAt := Some(s))))
  }

  /** The block of `setData` for `metadata`, once the key is set. */
  function StoreMetadata(f: PaymentIntentFields, d: map<string, Json>, rt: Runtime): Update<PaymentIntentFields> {
    (match AsArray(Read(d, "metadata"), "PaymentIntent::$metadata")
      case Failure(e) => Stopped(f, e)
      case Success(s) => Updated(f.(metadata := s)))
  }

  /** The block of `setData` for `officeId`, once the key is set. */
  function StoreOfficeId(f: PaymentIntentFields, d: map<string, Json>, rt: Runtime): Update<PaymentIntentFields> {
    (match AsStr(Read(d, "officeId"), "PaymentIntent::$officeId")
      case Failure(e) => Stopped(f, e)
      case Success(s) => Updated(f.(officeId := Some(s))))
  }

  /** The block of `setData` for `onBehalfOf`, once the key is set. */
  function StoreOnBehalfOf(f: PaymentIntentFields, d: map<string, Json>, rt: Runtime): Update<PaymentIntentFields> {
    (match AsStr(Read(d, "onBehalfOf"), "PaymentIntent::$onBehalfOf")
      case Failure(e) => Stopped(f, e)
      case Success(s) => Updated(f.(onBehalfOf := Some(s))))
  }

  /** The block of `setData` for `nextAction`, once the key is set. */
  function StoreNextAction(f: PaymentIntentFields, d: map<string, Json>, rt: Runtime): Update<PaymentIntentFields> {
    (match NextActionModel.SetDataOnNew(Read(d, "nextAction"), rt)
      case Failure(e) => Stopped(f, e)
      case Success(o) => Updated(f.(nextAction := o)))
  }

  /** The fields `Assign` hands on to `AssignLater`. */
  predicate Later(x: Field) {
    x.Description? || x.Charges? || x.LastPaymentError? || x.Mode? || x.Status? || x.UpdatedAt? || x.Metadata? || x.OfficeId? || x.OnBehalfOf? || x.NextAction?
  }

  /** One `if (isset($data[key])) { ... }` block of `setData`. */
  function Step(f: PaymentIntentFields, d: map<string, Json>, x: Field, rt: Runtime): Update<PaymentIntentFields> {
    if !Reads(d, x) then Updated(f)
    else match x
      case Id => StoreId(f, d, rt)
      case Amount => StoreAmount(f, d, rt)
      case BaseAmount => StoreBaseAmount(f, d, rt)
      case ExchangeRate => StoreExchangeRate(f, d, rt)
      case CapturableAmount => StoreCapturableAmount(f, d, rt)
      case ReceivedAmount => StoreReceivedAmount(f, d, rt)
      case CaptureMethod => StoreCaptureMethod(f, d, rt)
      case Currency => StoreCurrency(f, d, rt)
      case CreatedAt => StoreCreatedAt(f, d, rt)
      case CustomerId => StoreCustomerId(f, d, rt)
      case Description => StoreDescription(f, d, rt)
      case Charges => StoreCharges(f, d, rt)
      case LastPaymentError => StoreLastPaymentError(f, d, rt)
      case Mode => StoreMode(f, d, rt)
      case Status => StoreStatus(f, d, rt)
      case UpdatedAt => StoreUpdatedAt(f, d, rt)
      case Metadata => StoreMetadata(f, d, rt)
      case OfficeId => StoreOfficeId(f, d, rt)
      case OnBehalfOf => StoreOnBehalfOf(f, d, rt)
      case NextAction => StoreNextAction(f, d, rt)
  }

  /** The block for `id` stores what `Take` says or stops with its
      error, and touches no other field. */
  lemma StoreIdFacts(f: PaymentIntentFields, d: map<string, Json>, rt: Runtime)
    ensures StoreId(f, d, rt).Updated? ==> TakeId(d, rt) == Success(OptStr(StoreId(f, d, rt).fields.id))
    ensures StoreId(f, d, rt).Stopped? ==> TakeId(d, rt) == Failure(StoreId(f, d, rt).error)
    ensures StoreId(f, d, rt).Stopped? ==> StoreId(f, d, rt).fields == f
    ensures StoreId(f, d, rt).fields == f.(id := StoreId(f, d, rt).fields.id)
  {
  }

  /** The block for `amount` stores what `Take` says or stops with its
      error, and touches no other field. */
  lemma StoreAmountFacts(f: PaymentIntentFields, d: map<string, Json>, rt: Runtime)
    ensures StoreAmount(f, d, rt).Updated? ==> TakeAmount(d, rt) == Success(OptInt(StoreAmount(f, d, rt).fields.amount))
    ensures StoreAmount(f, d, rt).Stopped? ==> TakeAmount(d, rt) == Failure(StoreAmount(f, d, rt).error)
    ensures StoreAmount(f, d, rt).Stopped? ==> StoreAmount(f, d, rt).fields == f
    ensures StoreAmount(f, d, rt).fields == f.(amount := StoreAmount(f, d, rt).fields.amount)
  {
  }

  /** The block for `baseAmount` stores what `Take` says or stops with its
      error, and touches no other field. */
  lemma StoreBaseAmountFacts(f: PaymentIntentFields, d: map<string, Json>, rt: Runtime)
    ensures StoreBaseAmount(f, d, rt).Updated? ==> TakeBaseAmount(d, rt) == Success(OptInt(StoreBaseAmount(f, d, rt).fields.baseAmount))
    ensures StoreBaseAmount(f, d, rt).Stopped? ==> TakeBaseAmount(d, rt) == Failure(StoreBaseAmount(f, d, rt).error)
    ensures StoreBaseAmount(f, d, rt).Stopped? ==> StoreBaseAmount(f, d, rt).fields == f
    ensures StoreBaseAmount(f, d, rt).fields == f.(baseAmount := StoreBaseAmount(f, d, rt).fields.baseAmount)
  {
  }

  /** The block for `exchangeRate` stores what `Take` says or stops with its
      error, and touches no other field. */
  lemma StoreExchangeRateFacts(f: PaymentIntentFields, d: map<string, Json>, rt: Runtime)
    ensures StoreExchangeRate(f, d, rt).Updated? ==> TakeExchangeRate(d, rt) == Success(StoreExchangeRate(f, d, rt).fields.exchangeRate)
    ensures StoreExchangeRate(f, d, rt).Stopped? ==> TakeExchangeRate(d, rt) == Failure(StoreExchangeRate(f, d, rt).error)
    ensures StoreExchangeRate(f, d, rt).Stopped? ==> StoreExchangeRate(f, d, rt).fields == f
    ensures StoreExchangeRate(f, d, rt).fields == f.(exchangeRate := StoreExchangeRate(f, d, rt).fields.exchangeRate)
  {
  }

  /** The block for `capturableAmount` stores what `Take` says or stops with its
      error, and touches no other field. */
  lemma StoreCapturableAmountFacts(f: PaymentIntentFields, d: map<string, Json>, rt: Runtime)
    ensures StoreCapturableAmount(f, d, rt).Updated? ==> TakeCapturableAmount(d, rt) == Success(OptInt(StoreCapturableAmount(f, d, rt).fields.capturableAmount))
    ensures StoreCapturableAmount(f, d, rt).Stopped? ==> TakeCapturableAmount(d, rt) == Failure(StoreCapturableAmount(f, d, rt).error)
    ensures StoreCapturableAmount(f, d, rt).Stopped? ==> StoreCapturableAmount(f, d, rt).fields == f
    ensures StoreCapturableAmount(f, d, rt).fields == f.(capturableAmount := StoreCapturableAmount(f, d, rt).fields.capturableAmount)
  {
  }

  /** The block for `receivedAmount` stores what `Take` says or stops with its
      error, and touches no other field. */
  lemma StoreReceivedAmountFacts(f: PaymentIntentFields, d: map<string, Json>, rt: Runtime)
    ensures StoreReceivedAmount(f, d, rt).Updated? ==> TakeReceivedAmount(d, rt) == Success(OptInt(StoreReceivedAmount(f, d, rt).fields.receivedAmount))
    ensures StoreReceivedAmount(f, d, rt).Stopped? ==> TakeReceivedAmount(d, rt) == Failure(StoreReceivedAmount(f, d, rt).error)
    ensures StoreReceivedAmount(f, d, rt).Stopped? ==> StoreReceivedAmount(f, d, rt).fields == f
    ensures StoreReceivedAmount(f, d, rt).fields == f.(receivedAmount := StoreReceivedAmount(f, d, rt).fields.receivedAmount)
  {
  }

  /** The block for `captureMethod` stores what `Take` says or stops with its
      error, and touches no other field. */
  lemma StoreCaptureMethodFacts(f: PaymentIntentFields, d: map<string, Json>, rt: Runtime)
    ensures StoreCaptureMethod(f, d, rt).Updated? ==> TakeCaptureMethod(d, rt) == Success(OptStr(StoreCaptureMethod(f, d, rt).fields.captureMethod))
    ensures StoreCaptureMethod(f, d, rt).Stopped? ==> TakeCaptureMethod(d, rt) == Failure(StoreCaptureMethod(f, d, rt).error)
    ensures StoreCaptureMethod(f, d, rt).Stopped? ==> StoreCaptureMethod(f, d, rt).fields == f
    ensures StoreCaptureMethod(f, d, rt).fields == f.(captureMethod := StoreCaptureMethod(f, d, rt).fields.captureMethod)
  {
  }

  /** The block for `currency` stores what `Take` says or stops with its
      error, and touches no other field. */
  lemma StoreCurrencyFacts(f: PaymentIntentFields, d: map<string, Json>, rt: Runtime)
    ensures StoreCurrency(f, d, rt).Updated? ==> TakeCurrency(d, rt) == Success(OptStr(StoreCurrency(f, d, rt).fields.currency))
    ensures StoreCurrency(f, d, rt).Stopped? ==> TakeCurrency(d, rt) == Failure(StoreCurrency(f, d, rt).error)
    ensures StoreCurrency(f, d, rt).Stopped? ==> StoreCurrency(f, d, rt).fields == f
    ensures StoreCurrency(f, d, rt).fields == f.(currency := StoreCurrency(f, d, rt).fields.currency)
  {
  }

  /** The block for `createdAt` stores what `Take` says or stops with its
      error, and touches no other field. */
  lemma StoreCreatedAtFacts(f: PaymentIntentFields, d: map<string, Json>, rt: Runtime)
    ensures StoreCreatedAt(f, d, rt).Updated? ==> TakeCreatedAt(d, rt) == Success(OptDate(StoreCreatedAt(f, d, rt).fields.createdAt))
    ensures StoreCreatedAt(f, d, rt).Stopped? ==> TakeCreatedAt(d, rt) == Failure(StoreCreatedAt(f, d, rt).error)
    ensures StoreCreatedAt(f, d, rt).Stopped? ==> StoreCreatedAt(f, d, rt).fields == f
    ensures StoreCreatedAt(f, d, rt).fields == f.(createdAt := StoreCreatedAt(f, d, rt).fields.createdAt)
  {
  }

  /** The block for `customerId` stores what `Take` says or stops with its
      error, and touches no other field. */
  lemma StoreCustomerIdFacts(f: PaymentIntentFields, d: map<string, Json>, rt: Runtime)
    ensures StoreCustomerId(f, d, rt).Updated? ==> TakeCustomerId(d, rt) == Success(OptStr(StoreCustomerId(f, d, rt).fields.customerId))
    ensures StoreCustomerId(f, d, rt).Stopped? ==> TakeCustomerId(d, rt) == Failure(StoreCustomerId(f, d, rt).error)
    ensures StoreCustomerId(f, d, rt).Stopped? ==> StoreCustomerId(f, d, rt).fields == f
    ensures StoreCustomerId(f, d, rt).fields == f.(customerId := StoreCustomerId(f, d, rt).fields.customerId)
  {
  }

  /** The block for `description` stores what `Take` says or stops with its
      error, and touches no other field. */
  lemma StoreDescriptionFacts(f: PaymentIntentFields, d: map<string, Json>, rt: Runtime)
    ensures StoreDescription(f, d, rt).Updated? ==> TakeDescription(d, rt) == Success(OptStr(StoreDescription(f, d, rt).fields.description))
    ensures StoreDescription(f, d, rt).Stopped? ==> TakeDescription(d, rt) == Failure(StoreDescription(f, d, rt).error)
    ensures StoreDescription(f, d, rt).Stopped? ==> StoreDescription(f, d, rt).fields == f
    ensures StoreDescription(f, d, rt).fields == f.(description := StoreDescription(f, d, rt).fields.description)
  {
  }

  /** The block for `charges` stores what `Take` says or stops with its
      error, and touches no other field. */
  lemma StoreChargesFacts(f: PaymentIntentFields, d: map<string, Json>, rt: Runtime)
    ensures StoreCharges(f, d, rt).Updated? ==> TakeCharges(d, rt) == Success(ShownCharges(StoreCharges(f, d, rt).fields.charges))
    ensures StoreCharges(f, d, rt).Stopped? ==> TakeCharges(d, rt) == Failure(StoreCharges(f, d, rt).error)
    ensures StoreCharges(f, d, rt).Stopped? ==> StoreCharges(f, d, rt).fields == f
    ensures StoreCharges(f, d, rt).fields == f.(charges := StoreCharges(f, d, rt).fields.charges)
  {
  }

  /** The block for `lastPaymentError` stores what `Take` says or stops with its
      error, and touches no other field. */
  lemma StoreLastPaymentErrorFacts(f: PaymentIntentFields, d: map<string, Json>, rt: Runtime)
    ensures StoreLastPaymentError(f, d, rt).Updated? ==> TakeLastPaymentError(d, rt) == Success(ShownError(StoreLastPaymentError(f, d, rt).fields.lastPaymentError))
    ensures StoreLastPaymentError(f, d, rt).Stopped? ==> TakeLastPaymentError(d, rt) == Failure(StoreLastPaymentError(f, d, rt).error)
    ensures StoreLastPaymentError(f, d, rt).Stopped? ==> StoreLastPaymentError(f, d, rt).fields == f
    ensures StoreLastPaymentError(f, d, rt).fields == f.(lastPaymentError := StoreLastPaymentError(f, d, rt).fields.lastPaymentError)
  {
  }

  /** The block for `mode` stores what `Take` says or stops with its
      error, and touches no other field. */
  lemma StoreModeFacts(f: PaymentIntentFields, d: map<string, Json>, rt: Runtime)
    ensures StoreMode(f, d, rt).Updated? ==> TakeMode(d, rt) == Success(OptStr(StoreMode(f, d, rt).fields.mode))
    ensures StoreMode(f, d, rt).Stopped? ==> TakeMode(d, rt) == Failure(StoreMode(f, d, rt).error)
    ensures StoreMode(f, d, rt).Stopped? ==> StoreMode(f, d, rt).fields == f
    ensures StoreMode(f, d, rt).fields == f.(mode := StoreMode(f, d, rt).fields.mode)
  {
  }

  /** The block for `status` stores what `Take` says or stops with its
      error, and touches no other field. */
  lemma StoreStatusFacts(f: PaymentIntentFields, d: map<string, Json>, rt: Runtime)
    ensures StoreStatus(f, d, rt).Updated? ==> TakeStatus(d, rt) == Success(OptStr(StoreStatus(f, d, rt).fields.status))
    ensures StoreStatus(f, d, rt).Stopped? ==> TakeStatus(d, rt) == Failure(StoreStatus(f, d, rt).error)
    ensures StoreStatus(f, d, rt).Stopped? ==> StoreStatus(f, d, rt).fields == f
    ensures StoreStatus(f, d, rt).fields == f.(status := StoreStatus(f, d, rt).fields.status)
  {
  }

  /** The block for `updatedAt` stores what `Take` says or stops with its
      error, and touches no other field. */
  lemma StoreUpdatedAtFacts(f: PaymentIntentFields, d: map<string, Json>, rt: Runtime)
    ensures StoreUpdatedAt(f, d, rt).Updated? ==> TakeUpdatedAt(d, rt) == Success(OptDate(StoreUpdatedAt(f, d, rt).fields.updatedAt))
    ensures StoreUpdatedAt(f, d, rt).Stopped? ==> TakeUpdatedAt(d, rt) == Failure(StoreUpdatedAt(f, d, rt).error)
    ensures StoreUpdatedAt(f, d, rt).Stopped? ==> StoreUpdatedAt(f, d, rt).fields == f
    ensures StoreUpdatedAt(f, d, rt).fields == f.(updatedAt := StoreUpdatedAt(f, d, rt).fields.updatedAt)
  {
  }

  /** The block for `metadata` stores what `Take` says or stops with its
      error, and touches no other field. */
  lemma StoreMetadataFacts(f: PaymentIntentFields, d: map<string, Json>, rt: Runtime)
    ensures StoreMetadata(f, d, rt).Updated? ==> TakeMetadata(d, rt) == Success(StoreMetadata(f, d, rt).fields.metadata)
    ensures StoreMetadata(f, d, rt).Stopped? ==> TakeMetadata(d, rt) == Failure(StoreMetadata(f, d, rt).error)
    ensures StoreMetadata(f, d, rt).Stopped? ==> StoreMetadata(f, d, rt).fields == f
    ensures StoreMetadata(f, d, rt).fields == f.(metadata := StoreMetadata(f, d, rt).fields.metadata)
  {
  }

  /** The block for `officeId` stores what `Take` says or stops with its
      error, and touches no other field. */
  lemma StoreOfficeIdFacts(f: PaymentIntentFields, d: map<string, Json>, rt: Runtime)
    ensures StoreOfficeId(f, d, rt).Updated? ==> TakeOfficeId(d, rt) == Success(OptStr(StoreOfficeId(f, d, rt).fields.officeId))
    ensures StoreOfficeId(f, d, rt).Stopped? ==> TakeOfficeId(d, rt) == Failure(StoreOfficeId(f, d, rt).error)
    ensures StoreOfficeId(f, d, rt).Stopped? ==> StoreOfficeId(f, d, rt).fields == f
    ensures StoreOfficeId(f, d, rt).fields == f.(officeId := StoreOfficeId(f, d, rt).fields.officeId)
  {
  }

  /** The block for `onBehalfOf` stores what `Take` says or stops with its
      error, and touches no other field. */
  lemma StoreOnBehalfOfFacts(f: PaymentIntentFields, d: map<string, Json>, rt: Runtime)
    ensures StoreOnBehalfOf(f, d, rt).Updated? ==> TakeOnBehalfOf(d, rt) == Success(OptStr(StoreOnBehalfOf(f, d, rt).fields.onBehalfOf))
    ensures StoreOnBehalfOf(f, d, rt).Stopped? ==> TakeOnBehalfOf(d, rt) == Failure(StoreOnBehalfOf(f, d, rt).error)
    ensures StoreOnBehalfOf(f, d, rt).Stopped? ==> StoreOnBehalfOf(f, d, rt).fields == f
    ensures StoreOnBehalfOf(f, d, rt).fields == f.(onBehalfOf := StoreOnBehalfOf(f, d, rt).fields.onBehalfOf)
  {
  }

  /** The block for `nextAction` stores what `Take` says or stops with its
      error, and touches no other field. */
  lemma StoreNextActionFacts(f: PaymentIntentFields, d: map<string, Json>, rt: Runtime)
    ensures StoreNextAction(f, d, rt).Updated? ==> TakeNextAction(d, rt) == Success(ShownNextAction(StoreNextAction(f, d, rt).fields.nextAction))
    ensures StoreNextAction(f, d, rt).Stopped? ==> TakeNextAction(d, rt) == Failure(StoreNextAction(f, d, rt).error)
    ensures StoreNextAction(f, d, rt).Stopped? ==> StoreNextAction(f, d, rt).fields == f
    ensures StoreNextAction(f, d, rt).fields == f.(nextAction := StoreNextAction(f, d, rt).fields.nextAction)
  {
  }

  /** What one block does: nothing unless it acts on its key; then it
      stores what `Take` says or stops with its error, and it never
      touches another field. */
  lemma StepFacts(f: PaymentIntentFields, d: map<string, Json>, x: Field, rt: Runtime)
    ensures !Reads(d, x) ==> Step(f, d, x, rt) == Updated(f)
    ensures Reads(d, x) && Step(f, d, x, rt).Updated? ==> Take(x, d, rt) == Success(Step(f, d, x, rt).fields.Get(x))
    ensures Reads(d, x) && Step(f, d, x, rt).Stopped? ==> Take(x, d, rt) == Failure(Step(f, d, x, rt).error)
    ensures Step(f, d, x, rt).Stopped? ==> Step(f, d, x, rt).fields == f
    ensures forall y: Field :: y != x ==> Same(Step(f, d, x, rt).fields, f, y)
  {
    if x == Id || x == Amount || x == BaseAmount || x == ExchangeRate {
      StepFacts1(f, d, x, rt);
    } else if x == CapturableAmount || x == ReceivedAmount || x == CaptureMethod || x == Currency {
      StepFacts2(f, d, x, rt);
    } else if x == CreatedAt || x == CustomerId || x == Description || x == Charges {
      StepFacts3(f, d, x, rt);
    } else if x == LastPaymentError || x == Mode || x == Status || x == UpdatedAt {
      StepFacts4(f, d, x, rt);
    } else {
      StepFacts5(f, d, x, rt);
    }
    OverwriteSame(f, Step(f, d, x, rt).fields, x);
  }

  /** `StepFacts` for the keys Id to ExchangeRate. */
  lemma StepFacts1(f: PaymentIntentFields, d: map<string, Json>, x: Field, rt: Runtime)
    requires x == Id || x == Amount || x == BaseAmount || x == ExchangeRate
    ensures !Reads(d, x) ==> Step(f, d, x, rt) == Updated(f)
    ensures Reads(d, x) && Step(f, d, x, rt).Updated? ==> Take(x, d, rt) == Success(Step(f, d, x, rt).fields.Get(x))
    ensures Reads(d, x) && Step(f, d, x, rt).Stopped? ==> Take(x, d, rt) == Failure(Step(f, d, x, rt).error)
    ensures Step(f, d, x, rt).Stopped? ==> Step(f, d, x, rt).fields == f
    ensures Step(f, d, x, rt).fields == Overwrite(f, x, Step(f, d, x, rt).fields)
  {
    match x
    case Id => StoreIdFacts(f, d, rt);
    case Amount => StoreAmountFacts(f, d, rt);
    case BaseAmount => StoreBaseAmountFacts(f, d, rt);
    case ExchangeRate => StoreExchangeRateFacts(f, d, rt);
  }

  /** `StepFacts` for the keys CapturableAmount to Currency. */
  lemma StepFacts2(f: PaymentIntentFields, d: map<string, Json>, x: Field, rt: Runtime)
    requires x == CapturableAmount || x == ReceivedAmount || x == CaptureMethod || x == Currency
    ensures !Reads(d, x) ==> Step(f, d, x, rt) == Updated(f)
    ensures Reads(d, x) && Step(f, d, x, rt).Updated? ==> Take(x, d, rt) == Success(Step(f, d, x, rt).fields.Get(x))
    ensures Reads(d, x) && Step(f, d, x, rt).Stopped? ==> Take(x, d, rt) == Failure(Step(f, d, x, rt).error)
    ensures Step(f, d, x, rt).Stopped? ==> Step(f, d, x, rt).fields == f
    ensures Step(f, d, x, rt).fields == Overwrite(f, x, Step(f, d, x, rt).fields)
  {
    match x
    case CapturableAmount => StoreCapturableAmountFacts(f, d, rt);
    case ReceivedAmount => StoreReceivedAmountFacts(f, d, rt);
    case CaptureMethod => StoreCaptureMethodFacts(f, d, rt);
    case Currency => StoreCurrencyFacts(f, d, rt);
  }

  /** `StepFacts` for the keys CreatedAt to Charges. */
  lemma StepFacts3(f: PaymentIntentFields, d: map<string, Json>, x: Field, rt: Runtime)
    requires x == CreatedAt || x == CustomerId || x == Description || x == Charges
    ensures !Reads(d, x) ==> Step(f, d, x, rt) == Updated(f)
    ensures Reads(d, x) && Step(f, d, x, rt).Updated? ==> Take(x, d, rt) == Success(Step(f, d, x, rt).fields.Get(x))
    ensures Reads(d, x) && Step(f, d, x, rt).Stopped? ==> Take(x, d, rt) == Failure(Step(f, d, x, rt).error)
    ensures Step(f, d, x, rt).Stopped? ==> Step(f, d, x, rt).fields == f
    ensures Step(f, d, x, rt).fields == Overwrite(f, x, Step(f, d, x, rt).fields)
  {
    match x
    case CreatedAt => StoreCreatedAtFacts(f, d, rt);
    case CustomerId => StoreCustomerIdFacts(f, d, rt);
    case Description => StoreDescriptionFacts(f, d, rt);
    case Charges => StoreChargesFacts(f, d, rt);
  }

  /** `StepFacts` for the keys LastPaymentError to UpdatedAt. */
  lemma StepFacts4(f: PaymentIntentFields, d: map<string, Json>, x: Field, rt: Runtime)
    requires x == LastPaymentError || x == Mode || x == Status || x == UpdatedAt
    ensures !Reads(d, x) ==> Step(f, d, x, rt) == Updated(f)
    ensures Reads(d, x) && Step(f, d, x, rt).Updated? ==> Take(x, d, rt) == Success(Step(f, d, x, rt).fields.Get(x))
    ensures Reads(d, x) && Step(f, d, x, rt).Stopped? ==> Take(x, d, rt) == Failure(Step(f, d, x, rt).error)
    ensures Step(f, d, x, rt).Stopped? ==> Step(f, d, x, rt).fields == f
    ensures Step(f, d, x, rt).fields == Overwrite(f, x, Step(f, d, x, rt).fields)
  {
    match x
    case LastPaymentError => StoreLastPaymentErrorFacts(f, d, rt);
    case Mode => StoreModeFacts(f, d, rt);
    case Status => StoreStatusFacts(f, d, rt);
    case UpdatedAt => StoreUpdatedAtFacts(f, d, rt);
  }

  /** `StepFacts` for the keys Metadata to NextAction. */
  lemma StepFacts5(f: PaymentIntentFields, d: map<string, Json>, x: Field, rt: Runtime)
    requires x == Metadata || x == OfficeId || x == OnBehalfOf || x == NextAction
    ensures !Reads(d, x) ==> Step(f, d, x, rt) == Updated(f)
    ensures Reads(d, x) && Step(f, d, x, rt).Updated? ==> Take(x, d, rt) == Success(Step(f, d, x, rt).fields.Get(x))
    ensures Reads(d, x) && Step(f, d, x, rt).Stopped? ==> Take(x, d, rt) == Failure(Step(f, d, x, rt).error)
    ensures Step(f, d, x, rt).Stopped? ==> Step(f, d, x, rt).fields == f
    ensures Step(f, d, x, rt).fields == Overwrite(f, x, Step(f, d, x, rt).fields)
  {
    match x
    case Metadata => StoreMetadataFacts(f, d, rt);
    case OfficeId => StoreOfficeIdFacts(f, d, rt);
    case OnBehalfOf => StoreOnBehalfOfFacts(f, d, rt);
    case NextAction => StoreNextActionFacts(f, d, rt);
  }

  /** `setData($data)` on an object in state `f`. */
  function Apply(f: PaymentIntentFields, d: map<string, Json>, rt: Runtime): Update<PaymentIntentFields> {
    Fold(Step, f, d, Order, rt)
  }

  class PaymentIntent {
    var id: Option<string>
    var amount: Option<Int64>
    var baseAmount: Option<Int64>
    var exchangeRate: Json
    var capturableAmount: Option<Int64>
    var receivedAmount: Option<Int64>
    var captureMethod: Option<string>
    var currency: Option<string>
    var createdAt: Option<DateTime>
    var customerId: Option<string>
    var description: Option<string>
    var charges: Option<Mapped<Option<ChargeModel.ChargeFields>>>
    var lastPaymentError: Option<PaymentErrorModel.PaymentErrorFields>
    var mode: Option<string>
    var status: Option<string>
    var updatedAt: Option<DateTime>
    var metadata: Json
    var officeId: Option<string>
    var onBehalfOf: Option<string>
    var nextAction: Option<NextActionModel.NextActionFields>

    function Fields(): PaymentIntentFields
      reads this
    {
      PaymentIntentFields(id, amount, baseAmount, exchangeRate, capturableAmount, receivedAmount, captureMethod, currency, createdAt, customerId, description, charges, lastPaymentError, mode, status, updatedAt, metadata, officeId, onBehalfOf, nextAction)
    }

    /** An object in state `f`; `New` is the PHP constructor. */
    constructor (f: PaymentIntentFields)
      ensures Fields() == f
    {
      id := f.id;
      amount := f.amount;
      baseAmount := f.baseAmount;
      exchangeRate := f.exchangeRate;
      capturableAmount := f.capturableAmount;
      receivedAmount := f.receivedAmount;
      captureMethod := f.captureMethod;
      currency := f.currency;
      createdAt := f.createdAt;
      customerId := f.customerId;
      description := f.description;
      charges := f.charges;
      lastPaymentError := f.lastPaymentError;
      mode := f.mode;
      status := f.status;
      updatedAt := f.updatedAt;
      metadata := f.metadata;
      officeId := f.officeId;
      onBehalfOf := f.onBehalfOf;
      nextAction := f.nextAction;
    }

    /** One guarded assignment of `setData`. */
    method Assign(x: Field, data: map<string, Json>, rt: Runtime) returns (r: Result<(), PhpError>)
      modifies this
      ensures Fields() == Step(old(Fields()), data, x, rt).fields
      ensures r.Failure? <==> Step(old(Fields()), data, x, rt).Stopped?
      ensures r.Failure? ==> r.error == Step(old(Fields()), data, x, rt).error
    {
      if !Reads(data, x) {
        return Success(());
      }
      if Later(x) {
        r := AssignLater(x, data, rt);
      } else {
        r := AssignEarlier(x, data, rt);
      }
    }

    /** The blocks up to the one `AssignLater` starts with. */
    method AssignEarlier(x: Field, data: map<string, Json>, rt: Runtime) returns (r: Result<(), PhpError>)
      requires Reads(data, x) && !Later(x)
      modifies this
      ensures Fields() == Step(old(Fields()), data, x, rt).fields
      ensures r.Failure? <==> Step(old(Fields()), data, x, rt).Stopped?
      ensures r.Failure? ==> r.error == Step(old(Fields()), data, x, rt).error
    {
      match x
      case Id => r := AssignId(data, rt);
      case Amount => r := AssignAmount(data, rt);
      case BaseAmount => r := AssignBaseAmount(data, rt);
      case ExchangeRate => r := AssignExchangeRate(data, rt);
      case CapturableAmount => r := AssignCapturableAmount(data, rt);
      case ReceivedAmount => r := AssignReceivedAmount(data, rt);
      case CaptureMethod => r := AssignCaptureMethod(data, rt);
      case Currency => r := AssignCurrency(data, rt);
      case CreatedAt => r := AssignCreatedAt(data, rt);
      case CustomerId => r := AssignCustomerId(data, rt);
      case _ => assert false;
    }

    /** The blocks from `description` on. */
    method AssignLater(x: Field, data: map<string, Json>, rt: Runtime) returns (r: Result<(), PhpError>)
      requires Reads(data, x) && Later(x)
      modifies this
      ensures Fields() == Step(old(Fields()), data, x, rt).fields
      ensures r.Failure? <==> Step(old(Fields()), data, x, rt).Stopped?
      ensures r.Failure? ==> r.error == Step(old(Fields()), data, x, rt).error
    {
      match x
      case Description => r := AssignDescription(data, rt);
      case Charges => r := AssignCharges(data, rt);
      case LastPaymentError => r := AssignLastPaymentError(data, rt);
      case Mode => r := AssignMode(data, rt);
      case Status => r := AssignStatus(data, rt);
      case UpdatedAt => r := AssignUpdatedAt(data, rt);
      case Metadata => r := AssignMetadata(data, rt);
      case OfficeId => r := AssignOfficeId(data, rt);
      case OnBehalfOf => r := AssignOnBehalfOf(data, rt);
      case NextAction => r := AssignNextAction(data, rt);
      case _ => assert false;
    }

    /** The block for `id`. */
    method AssignId(data: map<string, Json>, rt: Runtime) returns (r: Result<(), PhpError>)
      modifies this
      ensures Fields() == StoreId(old(Fields()), data, rt).fields
      ensures r.Failure? <==> StoreId(old(Fields()), data, rt).Stopped?
      ensures r.Failure? ==> r.error == StoreId(old(Fields()), data, rt).error
    {
      var s :- AsStr(Read(data, "id"), "PaymentIntent::$id");
      id := Some(s);
      return Success(());
    }

    /** The block for `amount`. */
    method AssignAmount(data: map<string, Json>, rt: Runtime) returns (r: Result<(), PhpError>)
      modifies this
      ensures Fields() == StoreAmount(old(Fields()), data, rt).fields
      ensures r.Failure? <==> StoreAmount(old(Fields()), data, rt).Stopped?
      ensures r.Failure? ==> r.error == StoreAmount(old(Fields()), data, rt).error
    {
      var s :- AsInt(Read(data, "amount"), "PaymentIntent::$amount");
      amount := Some(s);
      return Success(());
    }

    /** The block for `baseAmount`. */
    method AssignBaseAmount(data: map<string, Json>, rt: Runtime) returns (r: Result<(), PhpError>)
      modifies this
      ensures Fields() == StoreBaseAmount(old(Fields()), data, rt).fields
      ensures r.Failure? <==> StoreBaseAmount(old(Fields()), data, rt).Stopped?
      ensures r.Failure? ==> r.error == StoreBaseAmount(old(Fields()), data, rt).error
    {
      var s :- AsInt(Read(data, "baseAmount"), "PaymentIntent::$baseAmount");
      baseAmount := Some(s);
      return Success(());
    }

    /** The block for `exchangeRate`. */
    method AssignExchangeRate(data: map<string, Json>, rt: Runtime) returns (r: Result<(), PhpError>)
      modifies this
      ensures Fields() == StoreExchangeRate(old(Fields()), data, rt).fields
      ensures r.Failure? <==> StoreExchangeRate(old(Fields()), data, rt).Stopped?
      ensures r.Failure? ==> r.error == StoreExchangeRate(old(Fields()), data, rt).error
    {
      var s :- AsFloat(Read(data, "exchangeRate"), "PaymentIntent::$exchangeRate");
      exchangeRate := s;
      return Success(());
    }

    /** The block for `capturableAmount`. */
    method AssignCapturableAmount(data: map<string, Json>, rt: Runtime) returns (r: Result<(), PhpError>)
      modifies this
      ensures Fields() == StoreCapturableAmount(old(Fields()), data, rt).fields
      ensures r.Failure? <==> StoreCapturableAmount(old(Fields()), data, rt).Stopped?
      ensures r.Failure? ==> r.error == StoreCapturableAmount(old(Fields()), data, rt).error
    {
      var s :- AsInt(Read(data, "capturableAmount"), "PaymentIntent::$capturableAmount");
      capturableAmount := Some(s);
      return Success(());
    }

    /** The block for `receivedAmount`. */
    method AssignReceivedAmount(data: map<string, Json>, rt: Runtime) returns (r: Result<(), PhpError>)
      modifies this
      ensures Fields() == StoreReceivedAmount(old(Fields()), data, rt).fields
      ensures r.Failure? <==> StoreReceivedAmount(old(Fields()), data, rt).Stopped?
      ensures r.Failure? ==> r.error == StoreReceivedAmount(old(Fields()), data, rt).error
    {
      var s :- AsInt(Read(data, "receivedAmount"), "PaymentIntent::$receivedAmount");
      receivedAmount := Some(s);
      return Success(());
    }

    /** The block for `captureMethod`. */
    method AssignCaptureMethod(data: map<string, Json>, rt: Runtime) returns (r: Result<(), PhpError>)
      modifies this
      ensures Fields() == StoreCaptureMethod(old(Fields()), data, rt).fields
      ensures r.Failure? <==> StoreCaptureMethod(old(Fields()), data, rt).Stopped?
      ensures r.Failure? ==> r.error == StoreCaptureMethod(old(Fields()), data, rt).error
    {
      var s :- AsStr(Read(data, "captureMethod"), "PaymentIntent::$captureMethod");
      captureMethod := Some(s);
      return Success(());
    }

    /** The block for `currency`. */
    method AssignCurrency(data: map<string, Json>, rt: Runtime) returns (r: Result<(), PhpError>)
      modifies this
      ensures Fields() == StoreCurrency(old(Fields()), data, rt).fields
      ensures r.Failure? <==> StoreCurrency(old(Fields()), data, rt).Stopped?
      ensures r.Failure? ==> r.error == StoreCurrency(old(Fields()), data, rt).error
    {
      var s :- AsStr(Read(data, "currency"), "PaymentIntent::$currency");
      currency := Some(s);
      return Success(());
    }

    /** The block for `createdAt`. */
    method AssignCreatedAt(data: map<string, Json>, rt: Runtime) returns (r: Result<(), PhpError>)
      modifies this
      ensures Fields() == StoreCreatedAt(old(Fields()), data, rt).fields
      ensures r.Failure? <==> StoreCreatedAt(old(Fields()), data, rt).Stopped?
      ensures r.Failure? ==> r.error == StoreCreatedAt(old(Fields()), data, rt).error
    {
      var s :- NewDate(rt, Read(data, "createdAt"), DateTarget);
      createdAt := Some(s);
      return Success(());
    }

    /** The block for `customerId`. */
    method AssignCustomerId(data: map<string, Json>, rt: Runtime) returns (r: Result<(), PhpError>)
      modifies this
      ensures Fields() == StoreCustomerId(old(Fields()), data, rt).fields
      ensures r.Failure? <==> StoreCustomerId(old(Fields()), data, rt).Stopped?
      ensures r.Failure? ==> r.error == StoreCustomerId(old(Fields()), data, rt).error
    {
      var s :- AsStr(Read(data, "customerId"), "PaymentIntent::$customerId");
      customerId := Some(s);
      return Success(());
    }

    /** The block for `description`. */
    method AssignDescription(data: map<string, Json>, rt: Runtime) returns (r: Result<(), PhpError>)
      modifies this
      ensures Fields() == StoreDescription(old(Fields()), data, rt).fields
      ensures r.Failure? <==> StoreDescription(old(Fields()), data, rt).Stopped?
      ensures r.Failure? ==> r.error == StoreDescription(old(Fields()), data, rt).error
    {
      var s :- AsStr(Read(data, "description"), "PaymentIntent::$description");
      description := Some(s);
      return Success(());
    }

    /** The block for `charges`. */
    method AssignCharges(data: map<string, Json>, rt: Runtime) returns (r: Result<(), PhpError>)
      modifies this
      ensures Fields() == StoreCharges(old(Fields()), data, rt).fields
      ensures r.Failure? <==> StoreCharges(old(Fields()), data, rt).Stopped?
      ensures r.Failure? ==> r.error == StoreCharges(old(Fields()), data, rt).error
    {
      var mapped :- ChargesFrom(Read(data, "charges"), rt);
      charges := Some(mapped);
      return Success(());
    }

    /** The block for `lastPaymentError`. */
    method AssignLastPaymentError(data: map<string, Json>, rt: Runtime) returns (r: Result<(), PhpError>)
      modifies this
      ensures Fields() == StoreLastPaymentError(old(Fields()), data, rt).fields
      ensures r.Failure? <==> StoreLastPaymentError(old(Fields()), data, rt).Stopped?
      ensures r.Failure? ==> r.error == StoreLastPaymentError(old(Fields()), data, rt).error
    {
      var o :- PaymentErrorModel.SetDataOnNew(Read(data, "lastPaymentError"), rt);
      lastPaymentError := o;
      return Success(());
    }

    /** The block for `mode`. */
    method AssignMode(data: map<string, Json>, rt: Runtime) returns (r: Result<(), PhpError>)
      modifies this
      ensures Fields() == StoreMode(old(Fields()), data, rt).fields
      ensures r.Failure? <==> StoreMode(old(Fields()), data, rt).Stopped?
      ensures r.Failure? ==> r.error == StoreMode(old(Fields()), data, rt).error
    {
      var s :- AsStr(Read(data, "mode"), "PaymentIntent::$mode");
      mode := Some(s);
      return Success(());
    }

    /** The block for `status`. */
    method AssignStatus(data: map<string, Json>, rt: Runtime) returns (r: Result<(), PhpError>)
      modifies this
      ensures Fields() == StoreStatus(old(Fields()), data, rt).fields
      ensures r.Failure? <==> StoreStatus(old(Fields()), data, rt).Stopped?
      ensures r.Failure? ==> r.error == StoreStatus(old(Fields()), data, rt).error
    {
      var s :- AsStr(Read(data, "status"), "PaymentIntent::$status");
      status := Some(s);
      return Success(());
    }

    /** The block for `updatedAt`. */
    method AssignUpdatedAt(data: map<string, Json>, rt: Runtime) returns (r: Result<(), PhpError>)
      modifies this
      ensures Fields() == StoreUpdatedAt(old(Fields()), data, rt).fields
      ensures r.Failure? <==> StoreUpdatedAt(old(Fields()), data, rt).Stopped?
      ensures r.Failure? ==> r.error == StoreUpdatedAt(old(Fields()), data, rt).error
    {
      var s :- NewDate(rt, Read(data, "updatedAt"), DateTarget);
      updatedAt := Some(s);
      return Success(());
    }

    /** The block for `metadata`. */
    method AssignMetadata(data: map<string, Json>, rt: Runtime) returns (r: Result<(), PhpError>)
      modifies this
      ensures Fields() == StoreMetadata(old(Fields()), data, rt).fields
      ensures r.Failure? <==> StoreMetadata(old(Fields()), data, rt).Stopped?
      ensures r.Failure? ==> r.error == StoreMetadata(old(Fields()), data, rt).error
    {
      var s :- AsArray(Read(data, "metadata"), "PaymentIntent::$metadata");
      metadata := s;
      return Success(());
    }

    /** The block for `officeId`. */
    method AssignOfficeId(data: map<string, Json>, rt: Runtime) returns (r: Result<(), PhpError>)
      modifies this
      ensures Fields() == StoreOfficeId(old(Fields()), data, rt).fields
      ensures r.Failure? <==> StoreOfficeId(old(Fields()), data, rt).Stopped?
      ensures r.Failure? ==> r.error == StoreOfficeId(old(Fields()), data, rt).error
    {
      var s :- AsStr(Read(data, "officeId"), "PaymentIntent::$officeId");
      officeId := Some(s);
      return Success(());
    }

    /** The block for `onBehalfOf`. */
    method AssignOnBehalfOf(data: map<string, Json>, rt: Runtime) returns (r: Result<(), PhpError>)
      modifies this
      ensures Fields() == StoreOnBehalfOf(old(Fields()), data, rt).fields
      ensures r.Failure? <==> StoreOnBehalfOf(old(Fields()), data, rt).Stopped?
      ensures r.Failure? ==> r.error == StoreOnBehalfOf(old(Fields()), data, rt).error
    {
      var s :- AsStr(Read(data, "onBehalfOf"), "PaymentIntent::$onBehalfOf");
      onBehalfOf := Some(s);
      return Success(());
    }

    /** The block for `nextAction`. */
    method AssignNextAction(data: map<string, Json>, rt: Runtime) returns (r: Result<(), PhpError>)
      modifies this
      ensures Fields() == StoreNextAction(old(Fields()), data, rt).fields
      ensures r.Failure? <==> StoreNextAction(old(Fields()), data, rt).Stopped?
      ensures r.Failure? ==> r.error == StoreNextAction(old(Fields()), data, rt).error
    {
      var o :- NextActionModel.SetDataOnNew(Read(data, "nextAction"), rt);
      nextAction := o;
      return Success(());
    }

    /** The blocks for the keys of `xs`, one after the other, up to the
        first error. */
    method AssignAll(xs: seq<Field>, data: map<string, Json>, rt: Runtime) returns (r: Result<(), PhpError>)
      modifies this
      ensures Fields() == Fold(Step, old(Fields()), data, xs, rt).fields
      ensures r.Failure? <==> Fold(Step, old(Fields()), data, xs, rt).Stopped?
      ensures r.Failure? ==> r.error == Fold(Step, old(Fields()), data, xs, rt).error
      decreases |xs|
    {
      if xs == [] {
        return Success(());
      }
      r := Assign(xs[0], data, rt);
      if r.Failure? {
        return;
      }
      r := AssignAll(xs[1..], data, rt);
    }

    /** `setData($data)`: every block, in the order of the source. */
    method SetData(data: map<string, Json>, rt: Runtime) returns (r: Result<(), PhpError>)
      modifies this
      ensures Fields() == Apply(old(Fields()), data, rt).fields
      ensures r.Failure? <==> Apply(old(Fields()), data, rt).Stopped?
      ensures r.Failure? ==> r.error == Apply(old(Fields()), data, rt).error
    {
      r := AssignAll(Order, data, rt);
    }
  }

  // ---------------------------------------------------------------------------
  // Properties of setData

  lemma OrderIsComplete(x: Field)
    ensures x in Order
  {
  }

  /** A field whose key `setData` does not act on keeps its value, even
      when `setData` stops early. */
  lemma ApplyKeepsUnread(f: PaymentIntentFields, d: map<string, Json>, x: Field, rt: Runtime)
    requires !Reads(d, x)
    ensures Apply(f, d, rt).fields.Get(x) == f.Get(x)
  {
    var P := (g: PaymentIntentFields) => g.Get(x) == f.Get(x);
    StepKeepsUnread(d, x, rt, f.Get(x), P);
    FoldKeeps(Step, f, d, Order, rt, P);
  }

  /** No step changes a field whose key `setData` does not act on. */
  lemma StepKeepsUnread(d: map<string, Json>, x: Field, rt: Runtime, v: Json, P: PaymentIntentFields -> bool)
    requires !Reads(d, x)
    requires forall g :: P(g) <==> g.Get(x) == v
    ensures forall g, y :: y in Order && P(g) ==> P(Step(g, d, y, rt).fields)
  {
    forall g, y | y in Order && P(g)
      ensures P(Step(g, d, y, rt).fields)
    {
      StepFacts(g, d, y, rt);
      if y != x {
        SameGet(Step(g, d, y, rt).fields, g, x);
      }
    }
  }

  /** When `setData` completes, each field it acts on holds what `Take`
      says. */
  lemma ApplyStoresRead(f: PaymentIntentFields, d: map<string, Json>, x: Field, rt: Runtime)
    requires Reads(d, x) && Apply(f, d, rt).Updated?
    ensures Take(x, d, rt) == Success(Apply(f, d, rt).fields.Get(x))
  {
    OrderIsComplete(x);
    var P := (g: PaymentIntentFields) => Take(x, d, rt) == Success(g.Get(x));
    StepStoresRead(d, x, rt, P);
    ApplyEstablishes(f, d, x, rt, P);
  }

  /** `FoldEstablishes` for `setData`'s own steps. */
  lemma ApplyEstablishes(f: PaymentIntentFields, d: map<string, Json>, x: Field, rt: Runtime, P: PaymentIntentFields -> bool)
    requires x in Order
    requires forall g :: Step(g, d, x, rt).Updated? ==> P(Step(g, d, x, rt).fields)
    requires forall g, y :: y != x && P(g) ==> P(Step(g, d, y, rt).fields)
    ensures Apply(f, d, rt).Updated? ==> P(Apply(f, d, rt).fields)
  {
    FoldEstablishes(Step, f, d, Order, rt, x, P);
  }

  /** The step for `x` establishes what `Take` says, and the other steps
      keep it. */
  lemma StepStoresRead(d: map<string, Json>, x: Field, rt: Runtime, P: PaymentIntentFields -> bool)
    requires Reads(d, x)
    requires forall g :: P(g) <==> Take(x, d, rt) == Success(g.Get(x))
    ensures forall g :: Step(g, d, x, rt).Updated? ==> P(Step(g, d, x, rt).fields)
    ensures forall g, y :: y != x && P(g) ==> P(Step(g, d, y, rt).fields)
  {
    forall g
      ensures Step(g, d, x, rt).Updated? ==> P(Step(g, d, x, rt).fields)
    {
      StepFacts(g, d, x, rt);
    }
    forall g, y | y != x && P(g)
      ensures P(Step(g, d, y, rt).fields)
    {
      StepFacts(g, d, y, rt);
      SameGet(Step(g, d, y, rt).fields, g, x);
    }
  }

  /** `setData` stops exactly when some key it acts on is refused, and
      with the error of the first such key in its order. */
  lemma ApplyStops(f: PaymentIntentFields, d: map<string, Json>, rt: Runtime)
    ensures Apply(f, d, rt).Stopped? <==> exists x: Field :: Refused(d, x, rt)
    ensures Apply(f, d, rt).Stopped? ==>
      exists i :: 0 <= i < |Order| && Refused(d, Order[i], rt) &&
        (forall j :: 0 <= j < i ==> !Refused(d, Order[j], rt)) &&
        Apply(f, d, rt).error == Take(Order[i], d, rt).error
  {
    forall g, y: Field
      ensures Step(g, d, y, rt).Stopped? <==> Refused(d, y, rt)
      ensures Refused(d, y, rt) ==> Step(g, d, y, rt).error == Take(y, d, rt).error
    {
      StepFacts(g, d, y, rt);
    }
    FoldStops(Step, f, d, Order, rt, (y: Field) => Refused(d, y, rt), (y: Field) => Take(y, d, rt));
    if x: Field :| Refused(d, x, rt) {
      OrderIsComplete(x);
    }
  }

  /** An empty array changes nothing. */
  lemma ApplyEmpty(f: PaymentIntentFields, rt: Runtime)
    ensures Apply(f, map[], rt) == Updated(f)
  {
    FoldNoOp(Step, f, map[], Order, rt);
  }

  /** The properties of a create or update request. */
  predicate InRequest(x: Field) {
    match x
    case Amount => true
    case CaptureMethod => true
    case Currency => true
    case CustomerId => true
    case Description => true
    case Metadata => true
    case OfficeId => true
    case OnBehalfOf => true
    case _ => false
  }

  /** Distinct properties have distinct keys. */
  lemma KeyInjective()
    ensures forall x: Field, y: Field :: x.Key() == y.Key() ==> x == y
  {
  }

  /** Every element of the charges array is a Charge object. */
  predicate NoNullCharge(m: Mapped<Option<ChargeModel.ChargeFields>>) {
    match m
    case MappedList(cs) => forall i :: 0 <= i < |cs| ==> cs[i].Some?
    case MappedKeys(e) => forall k :: k in e ==> e[k].Some?
  }

  /** One element of the charges array as JSON: its `toArray()`, or null. */
  function ShownCharge(c: Option<ChargeModel.ChargeFields>): (r: Json)
    ensures r.JNull? <==> c.None?
  {
    if c.Some? then JObject(c.value.ToArray()) else JNull
  }

  /** The charges as the object holds them: an array of the elements as
      `ShownCharge` gives them (what `toArray` shows when none is null), or
      null. */
  function ShownCharges(cs: Option<Mapped<Option<ChargeModel.ChargeFields>>>): (r: Json)
    ensures r.JNull? <==> cs.None?
  {
    if cs.Some? then Project(cs.value, ShownCharge) else JNull
  }

  /** `$this->lastPaymentError?->toArray()` */
  function ShownError(o: Option<PaymentErrorModel.PaymentErrorFields>): (r: Json)
    ensures r.JNull? <==> o.None?
  {
    if o.Some? then JObject(o.value.ToArray()) else JNull
  }

  /** `$this->nextAction?->toArray()` */
  function ShownNextAction(o: Option<NextActionModel.NextActionFields>): (r: Json)
    ensures r.JNull? <==> o.None?
  {
    if o.Some? then JObject(o.value.ToArray()) else JNull
  }

  /** `array_map(fn($c) => (new Charge())->setData($c), $v)`: every element
      goes through a fresh Charge, and each comes out null. */
  function ChargesFrom(v: Json, rt: Runtime): (r: Result<Mapped<Option<ChargeModel.ChargeFields>>, PhpError>)
    ensures !IsArray(v) ==> r == Failure(TypeError("array_map(): Argument #2 ($array)"))
    ensures v.JList? ==>
      (r.Success? <==> forall i :: 0 <= i < |v.items| ==> ChargeModel.SetDataOnNew(v.items[i], rt).Success?)
    ensures v.JObject? ==>
      (r.Success? <==> forall k :: k in v.fields ==> ChargeModel.SetDataOnNew(v.fields[k], rt).Success?)
    ensures r.Success? ==> AllNull(r.value)
    ensures v.JList? && r.Success? ==> r.value.MappedList? && |r.value.elems| == |v.items|
    ensures v.JObject? && r.Success? ==> r.value.MappedKeys? && r.value.entries.Keys == v.fields.Keys
  {
    ArrayMap(v, (c: Json) => ChargeModel.SetDataOnNew(c, rt), rt)
  }

  /** Every element of a charges array is null. */
  predicate AllNull(m: Mapped<Option<ChargeModel.ChargeFields>>) {
    match m
    case MappedList(cs) => forall i :: 0 <= i < |cs| ==> cs[i].None?
    case MappedKeys(e) => forall k :: k in e ==> e[k].None?
  }

  /** Two charges arrays that show the same are the same. */
  lemma ShownChargesInjective(a: Option<Mapped<Option<ChargeModel.ChargeFields>>>,
                              b: Option<Mapped<Option<ChargeModel.ChargeFields>>>)
    requires ShownCharges(a) == ShownCharges(b)
    ensures a.Some? <==> b.Some?
    ensures a.Some? ==> (AllNull(a.value) <==> AllNull(b.value)) && (a.value.NonEmpty() <==> b.value.NonEmpty())
  {
    if a.Some? && b.Some? {
      match a.value
      case MappedList(xs) =>
        assert b.value.MappedList?;
        assert |xs| == |b.value.elems|;
        assert forall i :: 0 <= i < |xs| ==> (xs[i].None? <==> ShownCharge(xs[i]).JNull?);
        assert forall i :: 0 <= i < |xs| ==> ShownCharge(xs[i]) == ShownCharge(b.value.elems[i]);
      case MappedKeys(e) =>
        assert b.value.MappedKeys?;
        assert e.Keys == b.value.entries.Keys;
        assert forall k :: k in e ==> ShownCharge(e[k]) == ShownCharge(b.value.entries[k]);
        if e != map[] {
          var k :| k in e;
          assert k in b.value.entries;
        }
    }
  }

  /** After a completed `setData` that reads a non-empty `charges` array,
      the object holds only nulls there, so `toArray()` fails. */
  lemma ApplyBreaksToArray(f: PaymentIntentFields, d: map<string, Json>, rt: Runtime)
    requires Reads(d, Charges) && Apply(f, d, rt).Updated?
    requires d["charges"] != JList([]) && d["charges"] != JObject(map[])
    ensures Apply(f, d, rt).fields.ToArray() == Failure(NullCall("toArray"))
  {
    ApplyStoresRead(f, d, Charges, rt);
    var g := Apply(f, d, rt).fields;
    var m := ChargesFrom(Read(d, "charges"), rt).value;
    ShownChargesInjective(Some(m), g.charges);
    assert AllNull(m);
    assert m.NonEmpty() by {
      if m.MappedList? {
        assert d["charges"].JList? && |m.elems| == |d["charges"].items|;
      } else {
        var k :| k in d["charges"].fields;
        assert k in m.entries;
      }
    }
    assert !NoNullCharge(g.charges.value) by {
      match g.charges.value
      case MappedList(cs) =>
        assert cs[0].None?;
      case MappedKeys(e) =>
        var k :| k in e;
        assert e[k].None?;
    }
  }

  /** A completed `setData` that reads `lastPaymentError` or `nextAction`
      leaves that property null, whatever the object held and whatever the
      array gave. */
  lemma ApplyClearsNested(f: PaymentIntentFields, d: map<string, Json>, rt: Runtime)
    requires Apply(f, d, rt).Updated?
    ensures Reads(d, LastPaymentError) ==> Apply(f, d, rt).fields.lastPaymentError.None?
    ensures Reads(d, NextAction) ==> Apply(f, d, rt).fields.nextAction.None?
  {
    if Reads(d, LastPaymentError) {
      ApplyStoresRead(f, d, LastPaymentError, rt);
    }
    if Reads(d, NextAction) {
      ApplyStoresRead(f, d, NextAction, rt);
    }
  }

  /** `toUpdateArray()` is `toArray(true)` without its null values. */
  lemma UpdateArrayDropsNulls(f: PaymentIntentFields)
    ensures forall k :: k in f.ToUpdateArray() <==> k in f.ToNewArray() && f.ToNewArray()[k] != JNull
    ensures forall k :: k in f.ToUpdateArray() ==> f.ToUpdateArray()[k] == f.ToNewArray()[k]
  {
    forall k | k in f.ToNewArray()
      ensures k in f.ToUpdateArray() <==> f.ToNewArray()[k] != JNull
    {
      var x: Field :| x.Key() == k;
    }
  }
}
