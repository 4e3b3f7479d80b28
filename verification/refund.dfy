/**
 * `ONVO\Models\Refund`: a refund of a payment intent. Only
 * `paymentIntentId` is non-nullable; the constructor defaults it to the
 * empty string and `reason` to `requested_by_customer`. `setData` copies
 * the set keys in its own order (not the constructor's), parsing the two
 * dates.
 */
module Refund {
  import opened Php
  import opened Setter

  /** The state of a Refund object. */
  datatype RefundFields = RefundFields(
    id: Option<string>,
    amount: Option<Int64>,
    currency: Option<string>,
    createdAt: Option<DateTime>,
    paymentIntentId: string,
    description: Option<string>,
    mode: Option<string>,
    status: Option<string>,
    reason: Option<string>,
    updatedAt: Option<DateTime>,
    failureReason: Option<string>)
  {
    /** Field `x` as JSON: what `toArray` shows of it. */
    function Get(x: Field): Json {
      match x
      case Id => OptStr(id)
      case Amount => OptInt(amount)
      case Currency => OptStr(currency)
      case CreatedAt => OptDate(createdAt)
      case PaymentIntentId => JString(paymentIntentId)
      case Description => OptStr(description)
      case Mode => OptStr(mode)
      case Status => OptStr(status)
      case Reason => OptStr(reason)
      case UpdatedAt => OptDate(updatedAt)
      case FailureReason => OptStr(failureReason)
    }

    /** `toArray($newRefund)`, for a flag tested for truthiness: the four
        request keys (nulls included) when it is truthy, every property
        otherwise. */
    function ToArray(newRefund: Json): (m: map<string, Json>)
      ensures !Empty(newRefund) ==> m.Keys == {"amount", "paymentIntentId", "description", "reason"}
      ensures Empty(newRefund) ==> forall x: Field :: x.Key() in m
      ensures Empty(newRefund) ==> forall k :: k in m ==> exists x: Field :: x.Key() == k
      ensures forall x: Field :: x.Key() in m ==> m[x.Key()] == Get(x)
    {
      if BoolCast(newRefund) then
        map["amount" := Get(Amount), "paymentIntentId" := Get(PaymentIntentId), "description" := Get(Description),
            "reason" := Get(Reason)]
      else
        KeyInjective();
        map x: Field | x in Order :: x.Key() := Get(x)
    }
  }

  /** The keys `setData` looks at. */
  datatype Field = Id | Amount | Currency | CreatedAt | PaymentIntentId | Description | Mode | Status | Reason | UpdatedAt | FailureReason {
    function Key(): string {
      match this
      case Id => "id"
      case Amount => "amount"
      case Currency => "currency"
      case CreatedAt => "createdAt"
      case PaymentIntentId => "paymentIntentId"
      case Description => "description"
      case Mode => "mode"
      case Status => "status"
      case Reason => "reason"
      case UpdatedAt => "updatedAt"
      case FailureReason => "failureReason"
    }
  }

  /** The order in which `setData` visits them. */
  const Order: seq<Field> := [Id, Amount, Currency, CreatedAt, PaymentIntentId, Description, Mode, Status, Reason, UpdatedAt, FailureReason]

  /** `g` and `f` hold the same value in field `x`. */
  predicate Same(g: RefundFields, f: RefundFields, x: Field) {
    match x
    case Id => g.id == f.id
    case Amount => g.amount == f.amount
    case Currency => g.currency == f.currency
    case CreatedAt => g.createdAt == f.createdAt
    case PaymentIntentId => g.paymentIntentId == f.paymentIntentId
    case Description => g.description == f.description
    case Mode => g.mode == f.mode
    case Status => g.status == f.status
    case Reason => g.reason == f.reason
    case UpdatedAt => g.updatedAt == f.updatedAt
    case FailureReason => g.failureReason == f.failureReason
  }

  lemma SameGet(g: RefundFields, f: RefundFields, x: Field)
    requires Same(g, f, x)
    ensures g.Get(x) == f.Get(x)
  {
  }

  /** `setData` acts on key `x` of `d`: the key is set (`isset`). */
  predicate Reads(d: map<string, Json>, x: Field) {
    IsSet(d, x.Key())
  }

  /** What `setData` leaves in field `x` when it acts on it, in `Get`'s
      terms, or the error it raises. */
  function Take(x: Field, d: map<string, Json>, rt: Runtime): Result<Json, PhpError> {
    match x
    case Id => TakeId(d, rt)
    case Amount => TakeAmount(d, rt)
    case Currency => TakeCurrency(d, rt)
    case CreatedAt => TakeCreatedAt(d, rt)
    case PaymentIntentId => TakePaymentIntentId(d, rt)
    case Description => TakeDescription(d, rt)
    case Mode => TakeMode(d, rt)
    case Status => TakeStatus(d, rt)
    case Reason => TakeReason(d, rt)
    case UpdatedAt => TakeUpdatedAt(d, rt)
    case FailureReason => TakeFailureReason(d, rt)
  }

  /** What the block for `id` leaves in its field, or its error. */
  function TakeId(d: map<string, Json>, rt: Runtime): Result<Json, PhpError> {
    (match AsStr(Read(d, "id"), "Refund::$id") case Failure(e) => Failure(e) case Success(s) => Success(JString(s)))
  }

  /** What the block for `amount` leaves in its field, or its error. */
  function TakeAmount(d: map<string, Json>, rt: Runtime): Result<Json, PhpError> {
    (match AsInt(Read(d, "amount"), "Refund::$amount") case Failure(e) => Failure(e) case Success(s) => Success(JInt(s)))
  }

  /** What the block for `currency` leaves in its field, or its error. */
  function TakeCurrency(d: map<string, Json>, rt: Runtime): Result<Json, PhpError> {
    (match AsStr(Read(d, "currency"), "Refund::$currency") case Failure(e) => Failure(e) case Success(s) => Success(JString(s)))
  }

  /** What the block for `createdAt` leaves in its field, or its error. */
  function TakeCreatedAt(d: map<string, Json>, rt: Runtime): Result<Json, PhpError> {
    (match NewDate(rt, Read(d, "createdAt"), DateTarget) case Failure(e) => Failure(e) case Success(s) => Success(JString(s.atom)))
  }

  /** What the block for `paymentIntentId` leaves in its field, or its error. */
  function TakePaymentIntentId(d: map<string, Json>, rt: Runtime): Result<Json, PhpError> {
    (match AsStr(Read(d, "paymentIntentId"), "Refund::$paymentIntentId") case Failure(e) => Failure(e) case Success(s) => Success(JString(s)))
  }

  /** What the block for `description` leaves in its field, or its error. */
  function TakeDescription(d: map<string, Json>, rt: Runtime): Result<Json, PhpError> {
    (match AsStr(Read(d, "description"), "Refund::$description") case Failure(e) => Failure(e) case Success(s) => Success(JString(s)))
  }

  /** What the block for `mode` leaves in its field, or its error. */
  function TakeMode(d: map<string, Json>, rt: Runtime): Result<Json, PhpError> {
    (match AsStr(Read(d, "mode"), "Refund::$mode") case Failure(e) => Failure(e) case Success(s) => Success(JString(s)))
  }

  /** What the block for `status` leaves in its field, or its error. */
  function TakeStatus(d: map<string, Json>, rt: Runtime): Result<Json, PhpError> {
    (match AsStr(Read(d, "status"), "Refund::$status") case Failure(e) => Failure(e) case Success(s) => Success(JString(s)))
  }

  /** What the block for `reason` leaves in its field, or its error. */
  function TakeReason(d: map<string, Json>, rt: Runtime): Result<Json, PhpError> {
    (match AsStr(Read(d, "reason"), "Refund::$reason") case Failure(e) => Failure(e) case Success(s) => Success(JString(s)))
  }

  /** What the block for `updatedAt` leaves in its field, or its error. */
  function TakeUpdatedAt(d: map<string, Json>, rt: Runtime): Result<Json, PhpError> {
    (match NewDate(rt, Read(d, "updatedAt"), DateTarget) case Failure(e) => Failure(e) case Success(s) => Success(JString(s.atom)))
  }

  /** What the block for `failureReason` leaves in its field, or its error. */
  function TakeFailureReason(d: map<string, Json>, rt: Runtime): Result<Json, PhpError> {
    (match AsStr(Read(d, "failureReason"), "Refund::$failureReason") case Failure(e) => Failure(e) case Success(s) => Success(JString(s)))
  }

  /** A key `setData` acts on and stops at. */
  predicate Refused(d: map<string, Json>, x: Field, rt: Runtime) {
    Reads(d, x) && Take(x, d, rt).Failure?
  }

  /** The block of `setData` for `id`, once the key is set. */
  function StoreId(f: RefundFields, d: map<string, Json>, rt: Runtime): Update<RefundFields> {
    (match AsStr(Read(d, "id"), "Refund::$id")
      case Failure(e) => Stopped(f, e)
      case Success(s) => Updated(f.(id := Some(s))))
  }

  /** The block of `setData` for `amount`, once the key is set. */
  function StoreAmount(f: RefundFields, d: map<string, Json>, rt: Runtime): Update<RefundFields> {
    (match AsInt(Read(d, "amount"), "Refund::$amount")
      case Failure(e) => Stopped(f, e)
      case Success(s) => Updated(f.(amount := Some(s))))
  }

  /** The block of `setData` for `currency`, once the key is set. */
  function StoreCurrency(f: RefundFields, d: map<string, Json>, rt: Runtime): Update<RefundFields> {
    (match AsStr(Read(d, "currency"), "Refund::$currency")
      case Failure(e) => Stopped(f, e)
      case Success(s) => Updated(f.(currency := Some(s))))
  }

  /** The block of `setData` for `createdAt`, once the key is set. */
  function StoreCreatedAt(f: RefundFields, d: map<string, Json>, rt: Runtime): Update<RefundFields> {
    (match NewDate(rt, Read(d, "createdAt"), DateTarget)
      case Failure(e) => Stopped(f, e)
      case Success(s) => Updated(f.(createdAt := Some(s))))
  }

  /** The block of `setData` for `paymentIntentId`, once the key is set. */
  function StorePaymentIntentId(f: RefundFields, d: map<string, Json>, rt: Runtime): Update<RefundFields> {
    (match AsStr(Read(d, "paymentIntentId"), "Refund::$paymentIntentId")
      case Failure(e) => Stopped(f, e)
      case Success(s) => Updated(f.(paymentIntentId := s)))
  }

  /** The block of `setData` for `description`, once the key is set. */
  function StoreDescription(f: RefundFields, d: map<string, Json>, rt: Runtime): Update<RefundFields> {
    (match AsStr(Read(d, "description"), "Refund::$description")
      case Failure(e) => Stopped(f, e)
      case Success(s) => Updated(f.(description := Some(s))))
  }

  /** The block of `setData` for `mode`, once the key is set. */
  function StoreMode(f: RefundFields, d: map<string, Json>, rt: Runtime): Update<RefundFields> {
    (match AsStr(Read(d, "mode"), "Refund::$mode")
      case Failure(e) => Stopped(f, e)
      case Success(s) => Updated(f.(mode := Some(s))))
  }

  /** The block of `setData` for `status`, once the key is set. */
  function StoreStatus(f: RefundFields, d: map<string, Json>, rt: Runtime): Update<RefundFields> {
    (match AsStr(Read(d, "status"), "Refund::$status")
      case Failure(e) => Stopped(f, e)
      case Success(s) => Updated(f.(status := Some(s))))
  }

  /** The block of `setData` for `reason`, once the key is set. */
  function StoreReason(f: RefundFields, d: map<string, Json>, rt: Runtime): Update<RefundFields> {
    (match AsStr(Read(d, "reason"), "Refund::$reason")
      case Failure(e) => Stopped(f, e)
      case Success(s) => Updated(f.(reason := Some(s))))
  }

  /** The block of `setData` for `updatedAt`, once the key is set. */
  function StoreUpdatedAt(f: RefundFields, d: map<string, Json>, rt: Runtime): Update<RefundFields> {
    (match NewDate(rt, Read(d, "updatedAt"), DateTarget)
      case Failure(e) => Stopped(f, e)
      case Success(s) => Updated(f.(updatedAt := Some(s))))
  }

  /** The block of `setData` for `failureReason`, once the key is set. */
  function StoreFailureReason(f: RefundFields, d: map<string, Json>, rt: Runtime): Update<RefundFields> {
    (match AsStr(Read(d, "failureReason"), "Refund::$failureReason")
      case Failure(e) => Stopped(f, e)
      case Success(s) => Updated(f.(failureReason := Some(s))))
  }

  /** One `if (isset($data[key])) { ... }` block of `setData`. */
  function Step(f: RefundFields, d: map<string, Json>, x: Field, rt: Runtime): Update<RefundFields> {
    if !Reads(d, x) then Updated(f)
    else match x
      case Id => StoreId(f, d, rt)
      case Amount => StoreAmount(f, d, rt)
      case Currency => StoreCurrency(f, d, rt)
      case CreatedAt => StoreCreatedAt(f, d, rt)
      case PaymentIntentId => StorePaymentIntentId(f, d, rt)
      case Description => StoreDescription(f, d, rt)
      case Mode => StoreMode(f, d, rt)
      case Status => StoreStatus(f, d, rt)
      case Reason => StoreReason(f, d, rt)
      case UpdatedAt => StoreUpdatedAt(f, d, rt)
      case FailureReason => StoreFailureReason(f, d, rt)
  }

  /** The block for `id` stores what `Take` says or stops with its
      error, and touches no other field. */
  lemma StoreIdFacts(f: RefundFields, d: map<string, Json>, rt: Runtime)
    ensures StoreId(f, d, rt).Updated? ==> TakeId(d, rt) == Success(OptStr(StoreId(f, d, rt).fields.id))
    ensures StoreId(f, d, rt).Stopped? ==> TakeId(d, rt) == Failure(StoreId(f, d, rt).error)
    ensures StoreId(f, d, rt).Stopped? ==> StoreId(f, d, rt).fields == f
    ensures StoreId(f, d, rt).fields == f.(id := StoreId(f, d, rt).fields.id)
  {
  }

  /** The block for `amount` stores what `Take` says or stops with its
      error, and touches no other field. */
  lemma StoreAmountFacts(f: RefundFields, d: map<string, Json>, rt: Runtime)
    ensures StoreAmount(f, d, rt).Updated? ==> TakeAmount(d, rt) == Success(OptInt(StoreAmount(f, d, rt).fields.amount))
    ensures StoreAmount(f, d, rt).Stopped? ==> TakeAmount(d, rt) == Failure(StoreAmount(f, d, rt).error)
    ensures StoreAmount(f, d, rt).Stopped? ==> StoreAmount(f, d, rt).fields == f
    ensures StoreAmount(f, d, rt).fields == f.(amount := StoreAmount(f, d, rt).fields.amount)
  {
  }

  /** The block for `currency` stores what `Take` says or stops with its
      error, and touches no other field. */
  lemma StoreCurrencyFacts(f: RefundFields, d: map<string, Json>, rt: Runtime)
    ensures StoreCurrency(f, d, rt).Updated? ==> TakeCurrency(d, rt) == Success(OptStr(StoreCurrency(f, d, rt).fields.currency))
    ensures StoreCurrency(f, d, rt).Stopped? ==> TakeCurrency(d, rt) == Failure(StoreCurrency(f, d, rt).error)
    ensures StoreCurrency(f, d, rt).Stopped? ==> StoreCurrency(f, d, rt).fields == f
    ensures StoreCurrency(f, d, rt).fields == f.(currency := StoreCurrency(f, d, rt).fields.currency)
  {
  }

  /** The block for `createdAt` stores what `Take` says or stops with its
      error, and touches no other field. */
  lemma StoreCreatedAtFacts(f: RefundFields, d: map<string, Json>, rt: Runtime)
    ensures StoreCreatedAt(f, d, rt).Updated? ==> TakeCreatedAt(d, rt) == Success(OptDate(StoreCreatedAt(f, d, rt).fields.createdAt))
    ensures StoreCreatedAt(f, d, rt).Stopped? ==> TakeCreatedAt(d, rt) == Failure(StoreCreatedAt(f, d, rt).error)
    ensures StoreCreatedAt(f, d, rt).Stopped? ==> StoreCreatedAt(f, d, rt).fields == f
    ensures StoreCreatedAt(f, d, rt).fields == f.(createdAt := StoreCreatedAt(f, d, rt).fields.createdAt)
  {
  }

  /** The block for `paymentIntentId` stores what `Take` says or stops with its
      error, and touches no other field. */
  lemma StorePaymentIntentIdFacts(f: RefundFields, d: map<string, Json>, rt: Runtime)
    ensures StorePaymentIntentId(f, d, rt).Updated? ==> TakePaymentIntentId(d, rt) == Success(JString(StorePaymentIntentId(f, d, rt).fields.paymentIntentId))
    ensures StorePaymentIntentId(f, d, rt).Stopped? ==> TakePaymentIntentId(d, rt) == Failure(StorePaymentIntentId(f, d, rt).error)
    ensures StorePaymentIntentId(f, d, rt).Stopped? ==> StorePaymentIntentId(f, d, rt).fields == f
    ensures StorePaymentIntentId(f, d, rt).fields == f.(paymentIntentId := StorePaymentIntentId(f, d, rt).fields.paymentIntentId)
  {
  }

  /** The block for `description` stores what `Take` says or stops with its
      error, and touches no other field. */
  lemma StoreDescriptionFacts(f: RefundFields, d: map<string, Json>, rt: Runtime)
    ensures StoreDescription(f, d, rt).Updated? ==> TakeDescription(d, rt) == Success(OptStr(StoreDescription(f, d, rt).fields.description))
    ensures StoreDescription(f, d, rt).Stopped? ==> TakeDescription(d, rt) == Failure(StoreDescription(f, d, rt).error)
    ensures StoreDescription(f, d, rt).Stopped? ==> StoreDescription(f, d, rt).fields == f
    ensures StoreDescription(f, d, rt).fields == f.(description := StoreDescription(f, d, rt).fields.description)
  {
  }

  /** The block for `mode` stores what `Take` says or stops with its
      error, and touches no other field. */
  lemma StoreModeFacts(f: RefundFields, d: map<string, Json>, rt: Runtime)
    ensures StoreMode(f, d, rt).Updated? ==> TakeMode(d, rt) == Success(OptStr(StoreMode(f, d, rt).fields.mode))
    ensures StoreMode(f, d, rt).Stopped? ==> TakeMode(d, rt) == Failure(StoreMode(f, d, rt).error)
    ensures StoreMode(f, d, rt).Stopped? ==> StoreMode(f, d, rt).fields == f
    ensures StoreMode(f, d, rt).fields == f.(mode := StoreMode(f, d, rt).fields.mode)
  {
  }

  /** The block for `status` stores what `Take` says or stops with its
      error, and touches no other field. */
  lemma StoreStatusFacts(f: RefundFields, d: map<string, Json>, rt: Runtime)
    ensures StoreStatus(f, d, rt).Updated? ==> TakeStatus(d, rt) == Success(OptStr(StoreStatus(f, d, rt).fields.status))
    ensures StoreStatus(f, d, rt).Stopped? ==> TakeStatus(d, rt) == Failure(StoreStatus(f, d, rt).error)
    ensures StoreStatus(f, d, rt).Stopped? ==> StoreStatus(f, d, rt).fields == f
    ensures StoreStatus(f, d, rt).fields == f.(status := StoreStatus(f, d, rt).fields.status)
  {
  }

  /** The block for `reason` stores what `Take` says or stops with its
      error, and touches no other field. */
  lemma StoreReasonFacts(f: RefundFields, d: map<string, Json>, rt: Runtime)
    ensures StoreReason(f, d, rt).Updated? ==> TakeReason(d, rt) == Success(OptStr(StoreReason(f, d, rt).fields.reason))
    ensures StoreReason(f, d, rt).Stopped? ==> TakeReason(d, rt) == Failure(StoreReason(f, d, rt).error)
    ensures StoreReason(f, d, rt).Stopped? ==> StoreReason(f, d, rt).fields == f
    ensures StoreReason(f, d, rt).fields == f.(reason := StoreReason(f, d, rt).fields.reason)
  {
  }

  /** The block for `updatedAt` stores what `Take` says or stops with its
      error, and touches no other field. */
  lemma StoreUpdatedAtFacts(f: RefundFields, d: map<string, Json>, rt: Runtime)
    ensures StoreUpdatedAt(f, d, rt).Updated? ==> TakeUpdatedAt(d, rt) == Success(OptDate(StoreUpdatedAt(f, d, rt).fields.updatedAt))
    ensures StoreUpdatedAt(f, d, rt).Stopped? ==> TakeUpdatedAt(d, rt) == Failure(StoreUpdatedAt(f, d, rt).error)
    ensures StoreUpdatedAt(f, d, rt).Stopped? ==> StoreUpdatedAt(f, d, rt).fields == f
    ensures StoreUpdatedAt(f, d, rt).fields == f.(updatedAt := StoreUpdatedAt(f, d, rt).fields.updatedAt)
  {
  }

  /** The block for `failureReason` stores what `Take` says or stops with its
      error, and touches no other field. */
  lemma StoreFailureReasonFacts(f: RefundFields, d: map<string, Json>, rt: Runtime)
    ensures StoreFailureReason(f, d, rt).Updated? ==> TakeFailureReason(d, rt) == Success(OptStr(StoreFailureReason(f, d, rt).fields.failureReason))
    ensures StoreFailureReason(f, d, rt).Stopped? ==> TakeFailureReason(d, rt) == Failure(StoreFailureReason(f, d, rt).error)
    ensures StoreFailureReason(f, d, rt).Stopped? ==> StoreFailureReason(f, d, rt).fields == f
    ensures StoreFailureReason(f, d, rt).fields == f.(failureReason := StoreFailureReason(f, d, rt).fields.failureReason)
  {
  }

  /** What one block does: nothing unless it acts on its key; then it
      stores what `Take` says or stops with its error, and it never
      touches another field. */
  lemma StepFacts(f: RefundFields, d: map<string, Json>, x: Field, rt: Runtime)
    ensures !Reads(d, x) ==> Step(f, d, x, rt) == Updated(f)
    ensures Reads(d, x) && Step(f, d, x, rt).Updated? ==> Take(x, d, rt) == Success(Step(f, d, x, rt).fields.Get(x))
    ensures Reads(d, x) && Step(f, d, x, rt).Stopped? ==> Take(x, d, rt) == Failure(Step(f, d, x, rt).error)
    ensures Step(f, d, x, rt).Stopped? ==> Step(f, d, x, rt).fields == f
    ensures forall y: Field :: y != x ==> Same(Step(f, d, x, rt).fields, f, y)
  {
    match x
    case Id => StoreIdFacts(f, d, rt);
    case Amount => StoreAmountFacts(f, d, rt);
    case Currency => StoreCurrencyFacts(f, d, rt);
    case CreatedAt => StoreCreatedAtFacts(f, d, rt);
    case PaymentIntentId => StorePaymentIntentIdFacts(f, d, rt);
    case Description => StoreDescriptionFacts(f, d, rt);
    case Mode => StoreModeFacts(f, d, rt);
    case Status => StoreStatusFacts(f, d, rt);
    case Reason => StoreReasonFacts(f, d, rt);
    case UpdatedAt => StoreUpdatedAtFacts(f, d, rt);
    case FailureReason => StoreFailureReasonFacts(f, d, rt);
  }

  /** `setData($data)` on an object in state `f`. */
  function Apply(f: RefundFields, d: map<string, Json>, rt: Runtime): Update<RefundFields> {
    Fold(Step, f, d, Order, rt)
  }

  class Refund {
    var id: Option<string>
    var amount: Option<Int64>
    var currency: Option<string>
    var createdAt: Option<DateTime>
    var paymentIntentId: string
    var description: Option<string>
    var mode: Option<string>
    var status: Option<string>
    var reason: Option<string>
    var updatedAt: Option<DateTime>
    var failureReason: Option<string>

    function Fields(): RefundFields
      reads this
    {
      RefundFields(id, amount, currency, createdAt, paymentIntentId, description, mode, status, reason, updatedAt, failureReason)
    }

    /** An object in state `f`; `New` is the PHP constructor. */
    constructor (f: RefundFields)
      ensures Fields() == f
    {
      id := f.id;
      amount := f.amount;
      currency := f.currency;
      createdAt := f.createdAt;
      paymentIntentId := f.paymentIntentId;
      description := f.description;
      mode := f.mode;
      status := f.status;
      reason := f.reason;
      updatedAt := f.updatedAt;
      failureReason := f.failureReason;
    }

    /** One guarded assignment of `setData`. */
    method Assign(x: Field, data: map<string, Json>, rt: Runtime) returns (r: Result<(), PhpError>)
      modifies this
      ensures Fields() == Step(old(Fields()), data, x, rt).fields
      ensures r.Failure? <==> Step(old(Fields()), data, x, rt).Stopped?
      ensures r.Failure? ==> r.error == Step(old(Fields()), data, x, rt).error
    {
      if !Reads(data, x) {
        return Success(());
      }
      match x
      case Id => r := AssignId(data, rt);
      case Amount => r := AssignAmount(data, rt);
      case Currency => r := AssignCurrency(data, rt);
      case CreatedAt => r := AssignCreatedAt(data, rt);
      case PaymentIntentId => r := AssignPaymentIntentId(data, rt);
      case Description => r := AssignDescription(data, rt);
      case Mode => r := AssignMode(data, rt);
      case Status => r := AssignStatus(data, rt);
      case Reason => r := AssignReason(data, rt);
      case UpdatedAt => r := AssignUpdatedAt(data, rt);
      case FailureReason => r := AssignFailureReason(data, rt);
    }

    /** The block for `id`. */
    method AssignId(data: map<string, Json>, rt: Runtime) returns (r: Result<(), PhpError>)
      modifies this
      ensures Fields() == StoreId(old(Fields()), data, rt).fields
      ensures r.Failure? <==> StoreId(old(Fields()), data, rt).Stopped?
      ensures r.Failure? ==> r.error == StoreId(old(Fields()), data, rt).error
    {
      var s :- AsStr(Read(data, "id"), "Refund::$id");
      id := Some(s);
      return Success(());
    }

    /** The block for `amount`. */
    method AssignAmount(data: map<string, Json>, rt: Runtime) returns (r: Result<(), PhpError>)
      modifies this
      ensures Fields() == StoreAmount(old(Fields()), data, rt).fields
      ensures r.Failure? <==> StoreAmount(old(Fields()), data, rt).Stopped?
      ensures r.Failure? ==> r.error == StoreAmount(old(Fields()), data, rt).error
    {
      var s :- AsInt(Read(data, "amount"), "Refund::$amount");
      amount := Some(s);
      return Success(());
    }

    /** The block for `currency`. */
    method AssignCurrency(data: map<string, Json>, rt: Runtime) returns (r: Result<(), PhpError>)
      modifies this
      ensures Fields() == StoreCurrency(old(Fields()), data, rt).fields
      ensures r.Failure? <==> StoreCurrency(old(Fields()), data, rt).Stopped?
      ensures r.Failure? ==> r.error == StoreCurrency(old(Fields()), data, rt).error
    {
      var s :- AsStr(Read(data, "currency"), "Refund::$currency");
      currency := Some(s);
      return Success(());
    }

    /** The block for `createdAt`. */
    method AssignCreatedAt(data: map<string, Json>, rt: Runtime) returns (r: Result<(), PhpError>)
      modifies this
      ensures Fields() == StoreCreatedAt(old(Fields()), data, rt).fields
      ensures r.Failure? <==> StoreCreatedAt(old(Fields()), data, rt).Stopped?
      ensures r.Failure? ==> r.error == StoreCreatedAt(old(Fields()), data, rt).error
    {
      var s :- NewDate(rt, Read(data, "createdAt"), DateTarget);
      createdAt := Some(s);
      return Success(());
    }

    /** The block for `paymentIntentId`. */
    method AssignPaymentIntentId(data: map<string, Json>, rt: Runtime) returns (r: Result<(), PhpError>)
      modifies this
      ensures Fields() == StorePaymentIntentId(old(Fields()), data, rt).fields
      ensures r.Failure? <==> StorePaymentIntentId(old(Fields()), data, rt).Stopped?
      ensures r.Failure? ==> r.error == StorePaymentIntentId(old(Fields()), data, rt).error
    {
      var s :- AsStr(Read(data, "paymentIntentId"), "Refund::$paymentIntentId");
      paymentIntentId := s;
      return Success(());
    }

    /** The block for `description`. */
    method AssignDescription(data: map<string, Json>, rt: Runtime) returns (r: Result<(), PhpError>)
      modifies this
      ensures Fields() == StoreDescription(old(Fields()), data, rt).fields
      ensures r.Failure? <==> StoreDescription(old(Fields()), data, rt).Stopped?
      ensures r.Failure? ==> r.error == StoreDescription(old(Fields()), data, rt).error
    {
      var s :- AsStr(Read(data, "description"), "Refund::$description");
      description := Some(s);
      return Success(());
    }

    /** The block for `mode`. */
    method AssignMode(data: map<string, Json>, rt: Runtime) returns (r: Result<(), PhpError>)
      modifies this
      ensures Fields() == StoreMode(old(Fields()), data, rt).fields
      ensures r.Failure? <==> StoreMode(old(Fields()), data, rt).Stopped?
      ensures r.Failure? ==> r.error == StoreMode(old(Fields()), data, rt).error
    {
      var s :- AsStr(Read(data, "mode"), "Refund::$mode");
      mode := Some(s);
      return Success(());
    }

    /** The block for `status`. */
    method AssignStatus(data: map<string, Json>, rt: Runtime) returns (r: Result<(), PhpError>)
      modifies this
      ensures Fields() == StoreStatus(old(Fields()), data, rt).fields
      ensures r.Failure? <==> StoreStatus(old(Fields()), data, rt).Stopped?
      ensures r.Failure? ==> r.error == StoreStatus(old(Fields()), data, rt).error
    {
      var s :- AsStr(Read(data, "status"), "Refund::$status");
      status := Some(s);
      return Success(());
    }

    /** The block for `reason`. */
    method AssignReason(data: map<string, Json>, rt: Runtime) returns (r: Result<(), PhpError>)
      modifies this
      ensures Fields() == StoreReason(old(Fields()), data, rt).fields
      ensures r.Failure? <==> StoreReason(old(Fields()), data, rt).Stopped?
      ensures r.Failure? ==> r.error == StoreReason(old(Fields()), data, rt).error
    {
      var s :- AsStr(Read(data, "reason"), "Refund::$reason");
      reason := Some(s);
      return Success(());
    }

    /** The block for `updatedAt`. */
    method AssignUpdatedAt(data: map<string, Json>, rt: Runtime) returns (r: Result<(), PhpError>)
      modifies this
      ensures Fields() == StoreUpdatedAt(old(Fields()), data, rt).fields
      ensures r.Failure? <==> StoreUpdatedAt(old(Fields()), data, rt).Stopped?
      ensures r.Failure? ==> r.error == StoreUpdatedAt(old(Fields()), data, rt).error
    {
      var s :- NewDate(rt, Read(data, "updatedAt"), DateTarget);
      updatedAt := Some(s);
      return Success(());
    }

    /** The block for `failureReason`. */
    method AssignFailureReason(data: map<string, Json>, rt: Runtime) returns (r: Result<(), PhpError>)
      modifies this
      ensures Fields() == StoreFailureReason(old(Fields()), data, rt).fields
      ensures r.Failure? <==> StoreFailureReason(old(Fields()), data, rt).Stopped?
      ensures r.Failure? ==> r.error == StoreFailureReason(old(Fields()), data, rt).error
    {
      var s :- AsStr(Read(data, "failureReason"), "Refund::$failureReason");
      failureReason := Some(s);
      return Success(());
    }

    /** The blocks for the keys of `xs`, one after the other, up to the
        first error. */
    method AssignAll(xs: seq<Field>, data: map<string, Json>, rt: Runtime) returns (r: Result<(), PhpError>)
      modifies this
      ensures Fields() == Fold(Step, old(Fields()), data, xs, rt).fields
      ensures r.Failure? <==> Fold(Step, old(Fields()), data, xs, rt).Stopped?
      ensures r.Failure? ==> r.error == Fold(Step, old(Fields()), data, xs, rt).error
      decreases |xs|
    {
      if xs == [] {
        return Success(());
      }
      r := Assign(xs[0], data, rt);
      if r.Failure? {
        return;
      }
      r := AssignAll(xs[1..], data, rt);
    }

    /** `setData($data)`: every block, in the order of the source. */
    method SetData(data: map<string, Json>, rt: Runtime) returns (r: Result<(), PhpError>)
      modifies this
      ensures Fields() == Apply(old(Fields()), data, rt).fields
      ensures r.Failure? <==> Apply(old(Fields()), data, rt).Stopped?
      ensures r.Failure? ==> r.error == Apply(old(Fields()), data, rt).error
    {
      r := AssignAll(Order, data, rt);
    }
  }

  // ---------------------------------------------------------------------------
  // Properties of setData

  lemma OrderIsComplete(x: Field)
    ensures x in Order
  {
  }

  /** A field whose key `setData` does not act on keeps its value, even
      when `setData` stops early. */
  lemma ApplyKeepsUnread(f: RefundFields, d: map<string, Json>, x: Field, rt: Runtime)
    requires !Reads(d, x)
    ensures Apply(f, d, rt).fields.Get(x) == f.Get(x)
  {
    var P := (g: RefundFields) => g.Get(x) == f.Get(x);
    StepKeepsUnread(d, x, rt, f.Get(x), P);
    FoldKeeps(Step, f, d, Order, rt, P);
  }

  /** No step changes a field whose key `setData` does not act on. */
  lemma StepKeepsUnread(d: map<string, Json>, x: Field, rt: Runtime, v: Json, P: RefundFields -> bool)
    requires !Reads(d, x)
    requires forall g :: P(g) <==> g.Get(x) == v
    ensures forall g, y :: y in Order && P(g) ==> P(Step(g, d, y, rt).fields)
  {
    forall g, y | y in Order && P(g)
      ensures P(Step(g, d, y, rt).fields)
    {
      StepFacts(g, d, y, rt);
      if y != x {
        SameGet(Step(g, d, y, rt).fields, g, x);
      }
    }
  }

  /** When `setData` completes, each field it acts on holds what `Take`
      says. */
  lemma ApplyStoresRead(f: RefundFields, d: map<string, Json>, x: Field, rt: Runtime)
    requires Reads(d, x) && Apply(f, d, rt).Updated?
    ensures Take(x, d, rt) == Success(Apply(f, d, rt).fields.Get(x))
  {
    OrderIsComplete(x);
    var P := (g: RefundFields) => Take(x, d, rt) == Success(g.Get(x));
    StepStoresRead(d, x, rt, P);
    FoldEstablishes(Step, f, d, Order, rt, x, P);
  }

  /** The step for `x` establishes what `Take` says, and the other steps
      keep it. */
  lemma StepStoresRead(d: map<string, Json>, x: Field, rt: Runtime, P: RefundFields -> bool)
    requires Reads(d, x)
    requires forall g :: P(g) <==> Take(x, d, rt) == Success(g.Get(x))
    ensures forall g :: Step(g, d, x, rt).Updated? ==> P(Step(g, d, x, rt).fields)
    ensures forall g, y :: y != x && P(g) ==> P(Step(g, d, y, rt).fields)
  {
    forall g
      ensures Step(g, d, x, rt).Updated? ==> P(Step(g, d, x, rt).fields)
    {
      StepFacts(g, d, x, rt);
    }
    forall g, y | y != x && P(g)
      ensures P(Step(g, d, y, rt).fields)
    {
      StepFacts(g, d, y, rt);
      SameGet(Step(g, d, y, rt).fields, g, x);
    }
  }

  /** `setData` stops exactly when some key it acts on is refused, and
      with the error of the first such key in its order. */
  lemma ApplyStops(f: RefundFields, d: map<string, Json>, rt: Runtime)
    ensures Apply(f, d, rt).Stopped? <==> exists x: Field :: Refused(d, x, rt)
    ensures Apply(f, d, rt).Stopped? ==>
      exists i :: 0 <= i < |Order| && Refused(d, Order[i], rt) &&
        (forall j :: 0 <= j < i ==> !Refused(d, Order[j], rt)) &&
        Apply(f, d, rt).error == Take(Order[i], d, rt).error
  {
    forall g, y: Field
      ensures Step(g, d, y, rt).Stopped? <==> Refused(d, y, rt)
      ensures Refused(d, y, rt) ==> Step(g, d, y, rt).error == Take(y, d, rt).error
    {
      StepFacts(g, d, y, rt);
    }
    FoldStops(Step, f, d, Order, rt, (y: Field) => Refused(d, y, rt), (y: Field) => Take(y, d, rt));
    if x: Field :| Refused(d, x, rt) {
      OrderIsComplete(x);
    }
  }

  /** An empty array changes nothing. */
  lemma ApplyEmpty(f: RefundFields, rt: Runtime)
    ensures Apply(f, map[], rt) == Updated(f)
  {
    FoldNoOp(Step, f, map[], Order, rt);
  }

  /** Distinct properties have distinct keys. */
  lemma KeyInjective()
    ensures forall x: Field, y: Field :: x.Key() == y.Key() ==> x == y
  {
  }

  /** `new Refund(...)` with typed arguments, stored as given; only a null
      `paymentIntentId` is refused. */
  function New(id: Option<string> := None, paymentIntentId: Option<string> := Some(""), amount: Option<Int64> := None,
               currency: Option<string> := None, createdAt: Option<DateTime> := None,
               description: Option<string> := None, mode: Option<string> := None, status: Option<string> := None,
               reason: Option<string> := Some("requested_by_customer"), updatedAt: Option<DateTime> := None,
               failureReason: Option<string> := None): (r: Result<RefundFields, PhpError>)
    ensures r.Failure? <==> paymentIntentId.None?
    ensures r.Failure? ==> r.error == TypeError("Refund::$paymentIntentId")
    ensures r.Success? ==>
      r.value.id == id && r.value.amount == amount && r.value.currency == currency && r.value.createdAt == createdAt &&
      r.value.paymentIntentId == paymentIntentId.value && r.value.description == description && r.value.mode == mode &&
      r.value.status == status && r.value.reason == reason && r.value.updatedAt == updatedAt &&
      r.value.failureReason == failureReason
  {
    if paymentIntentId.None? then Failure(TypeError("Refund::$paymentIntentId"))
    else Success(RefundFields(id, amount, currency, createdAt, paymentIntentId.value, description, mode, status, reason,
                              updatedAt, failureReason))
  }

  /** `new Refund()`: an empty payment intent id, the default reason, and
      null elsewhere; its create request carries exactly those two values
      and two nulls. */
  lemma NewDefaults()
    ensures New() == Success(RefundFields(None, None, None, None, "", None, None, None, Some("requested_by_customer"),
                                          None, None))
    ensures New().value.ToArray(JBool(true)) ==
      map["amount" := JNull, "paymentIntentId" := JString(""), "description" := JNull,
          "reason" := JString("requested_by_customer")]
  {
  }

  /** Each block of `setData`, given an array that shows its property as
      the object does, stores what is already there. */
  lemma StepKeepsShown(f: RefundFields, d: map<string, Json>, x: Field, rt: Runtime)
    requires ReadsAtomBack(rt)
    requires x.Key() in d && d[x.Key()] == f.Get(x)
    ensures Step(f, d, x, rt) == Updated(f)
  {
    match x
    case CreatedAt =>
      if f.createdAt.Some? {
        assert rt.construct(f.createdAt.value.atom) == Some(f.createdAt.value);
      }
    case UpdatedAt =>
      if f.updatedAt.Some? {
        assert rt.construct(f.updatedAt.value.atom) == Some(f.updatedAt.value);
      }
    case _ =>
  }

  /** Feeding `toArray(false)` back to `setData` reproduces the object, when
      the runtime reads each ATOM rendering back as the same date. */
  lemma ToArrayRoundTrip(f: RefundFields, rt: Runtime)
    requires ReadsAtomBack(rt)
    ensures Apply(f, f.ToArray(JBool(false)), rt) == Updated(f)
  {
    forall x | x in Order
      ensures Step(f, f.ToArray(JBool(false)), x, rt) == Updated(f)
    {
      StepKeepsShown(f, f.ToArray(JBool(false)), x, rt);
    }
    FoldNoOp(Step, f, f.ToArray(JBool(false)), Order, rt);
  }
}
