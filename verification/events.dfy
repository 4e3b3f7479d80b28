/**
 * Webhook events: the three shared value objects, the seven event variants,
 * the required-field check every variant runs first, and `BaseEvent`, which
 * stores the event's type and raw data and then validates them.
 */
module Events {
  import opened Php

  // ---------------------------------------------------------------------------
  // Errors

  /** What a variant's `validate()` throws: the InvalidArgumentException for
      a missing required key (its message names the key and the event type),
      or a PHP runtime failure while copying the fields. */
  datatype EventError =
    | MissingField(field: string, eventType: string)
    | Raised(error: PhpError)

  // ---------------------------------------------------------------------------
  // Value objects

  datatype Customer = Customer(id: string, name: string, phone: string, email: string)

  /** `pairs` is the array given to `Metadata::fromArray`, unchanged. */
  datatype Metadata = Metadata(pairs: Json)

  datatype ErrorDetail = ErrorDetail(
    message: string,
    code: Option<string>,
    errorType: Option<string>,
    paymentMethodType: Option<string>,
    createdAt: DateTime)

  /** `$x->prop = $v` for a `string` property. */
  function StrAt(d: map<string, Json>, key: string, target: string): (r: Result<string, PhpError>)
    ensures r.Success? <==> ToStr(Read(d, key)).Some?
    ensures r.Success? ==> ToStr(Read(d, key)) == Some(r.value)
    ensures r.Failure? ==> r.error == TypeError(target)
  {
    match ToStr(Read(d, key))
    case Some(s) => Success(s)
    case None => Failure(TypeError(target))
  }

  /** `$x->prop = $d[key] ?? null` for a `?string` property. */
  function NullableStrAt(d: map<string, Json>, key: string, target: string): (r: Result<Option<string>, PhpError>)
    ensures !IsSet(d, key) ==> r == Success(None)
    ensures IsSet(d, key) && r.Success? ==> r.value.Some? && ToStr(d[key]) == r.value
    ensures r.Failure? <==> IsSet(d, key) && IsArray(d[key])
  {
    var v := Read(d, key);
    if v.JNull? then Success(None)
    else match ToStr(v)
      case Some(s) => Success(Some(s))
      case None => Failure(TypeError(target))
  }

  /** `new \DateTime($d[key])` */
  function DateAt(d: map<string, Json>, key: string, rt: Runtime): Result<DateTime, PhpError> {
    NewDate(rt, Read(d, key), DateTarget)
  }

  /** `isset($d[key]) ? new \DateTime($d[key]) : null` */
  function OptionalDateAt(d: map<string, Json>, key: string, rt: Runtime): (r: Result<Option<DateTime>, PhpError>)
    ensures !IsSet(d, key) ==> r == Success(None)
    ensures IsSet(d, key) ==> (r.Success? <==> DateAt(d, key, rt).Success?)
    ensures IsSet(d, key) && r.Success? ==> r.value == Some(DateAt(d, key, rt).value)
  {
    if !IsSet(d, key) then Success(None)
    else
      var t :- DateAt(d, key, rt);
      Success(Some(t))
  }

  /** `Customer::fromArray(array $data)`: all four properties are `string`
      and have no default, so a missing or null entry is a TypeError. */
  function CustomerFromArray(v: Json): (r: Result<Customer, PhpError>)
    ensures !IsArray(v) ==> r == Failure(TypeError("Customer::fromArray(): Argument #1 ($data)"))
    ensures r.Success? ==>
      && ToStr(ReadIn(v, "id")) == Some(r.value.id)
      && ToStr(ReadIn(v, "name")) == Some(r.value.name)
      && ToStr(ReadIn(v, "phone")) == Some(r.value.phone)
      && ToStr(ReadIn(v, "email")) == Some(r.value.email)
    ensures IsArray(v) ==> (r.Success? <==>
      && ToStr(ReadIn(v, "id")).Some? && ToStr(ReadIn(v, "name")).Some?
      && ToStr(ReadIn(v, "phone")).Some? && ToStr(ReadIn(v, "email")).Some?)
  {
    if !IsArray(v) then Failure(TypeError("Customer::fromArray(): Argument #1 ($data)"))
    else
      var d := Entries(v);
      var id :- StrAt(d, "id", "Customer::$id");
      var name :- StrAt(d, "name", "Customer::$name");
      var phone :- StrAt(d, "phone", "Customer::$phone");
      var email :- StrAt(d, "email", "Customer::$email");
      Success(Customer(id, name, phone, email))
  }

  /** `Metadata::fromArray(array $data)` keeps the array as it is. */
  function MetadataFromArray(v: Json): (r: Result<Metadata, PhpError>)
    ensures r.Success? <==> IsArray(v)
    ensures r.Success? ==> r.value.pairs == v
  {
    if IsArray(v) then Success(Metadata(v))
    else Failure(TypeError("Metadata::fromArray(): Argument #1 ($data)"))
  }

  /** `ErrorDetail::fromArray(array $data)`. `message` has no default, so a
      missing one is a TypeError; a missing `createdAt` reaches
      `new \DateTime(null)`, i.e. `DateTime("")`, which the runtime reads as
      the current time. */
  function ErrorDetailFromArray(v: Json, rt: Runtime): (r: Result<ErrorDetail, PhpError>)
    ensures !IsArray(v) ==> r == Failure(TypeError("ErrorDetail::fromArray(): Argument #1 ($data)"))
    ensures IsArray(v) && ToStr(ReadIn(v, "message")).None? ==> r == Failure(TypeError("ErrorDetail::$message"))
    ensures IsArray(v) ==> (r.Success? <==>
      && ToStr(ReadIn(v, "message")).Some?
      && !(IsSet(Entries(v), "code") && IsArray(Entries(v)["code"]))
      && !(IsSet(Entries(v), "type") && IsArray(Entries(v)["type"]))
      && !(IsSet(Entries(v), "paymentMethodType") && IsArray(Entries(v)["paymentMethodType"]))
      && DateAt(Entries(v), "createdAt", rt).Success?)
    ensures r.Success? ==>
      && ToStr(ReadIn(v, "message")) == Some(r.value.message)
      && (r.value.code.None? <==> ReadIn(v, "code").JNull?)
      && (r.value.code.Some? ==> ToStr(ReadIn(v, "code")) == r.value.code)
      && (r.value.errorType.None? <==> ReadIn(v, "type").JNull?)
      && (r.value.errorType.Some? ==> ToStr(ReadIn(v, "type")) == r.value.errorType)
      && (r.value.paymentMethodType.None? <==> ReadIn(v, "paymentMethodType").JNull?)
      && (r.value.paymentMethodType.Some? ==> ToStr(ReadIn(v, "paymentMethodType")) == r.value.paymentMethodType)
      && DateAt(Entries(v), "createdAt", rt) == Success(r.value.createdAt)
  {
    if !IsArray(v) then Failure(TypeError("ErrorDetail::fromArray(): Argument #1 ($data)"))
    else
      var d := Entries(v);
      var message :- StrAt(d, "message", "ErrorDetail::$message");
      var code :- NullableStrAt(d, "code", "ErrorDetail::$code");
      var errorType :- NullableStrAt(d, "type", "ErrorDetail::$type");
      var paymentMethodType :- NullableStrAt(d, "paymentMethodType", "ErrorDetail::$paymentMethodType");
      var createdAt :- DateAt(d, "createdAt", rt);
      Success(ErrorDetail(message, code, errorType, paymentMethodType, createdAt))
  }

  /** `!empty($d[key]) ? X::fromArray($d[key]) : null` */
  function OptionalCustomerAt(d: map<string, Json>, key: string): (r: Result<Option<Customer>, PhpError>)
    ensures Empty(Read(d, key)) ==> r == Success(None)
    ensures !Empty(Read(d, key)) ==> (r.Success? <==> CustomerFromArray(d[key]).Success?)
    ensures !Empty(Read(d, key)) && r.Success? ==> r.value == Some(CustomerFromArray(d[key]).value)
  {
    if Empty(Read(d, key)) then Success(None)
    else
      var c :- CustomerFromArray(d[key]);
      Success(Some(c))
  }

  /** `!empty($d[key]) ? Metadata::fromArray($d[key]) : null` */
  function OptionalMetadataAt(d: map<string, Json>, key: string): (r: Result<Option<Metadata>, PhpError>)
    ensures Empty(Read(d, key)) ==> r == Success(None)
    ensures !Empty(Read(d, key)) ==> (r.Success? <==> IsArray(d[key]))
    ensures !Empty(Read(d, key)) && r.Success? ==> r.value == Some(Metadata(d[key]))
  {
    if Empty(Read(d, key)) then Success(None)
    else
      var m :- MetadataFromArray(d[key]);
      Success(Some(m))
  }

  // ---------------------------------------------------------------------------
  // Required keys

  /** Whether a required key passes the variant's check: `isset` when nulls
      count as missing, `array_key_exists` otherwise. */
  predicate Present(d: map<string, Json>, key: string, nullIsMissing: bool) {
    if nullIsMissing then IsSet(d, key) else key in d
  }

  /** The first key of `required`, in order, that fails the check. */
  function FirstMissing(d: map<string, Json>, required: seq<string>, nullIsMissing: bool): (r: Option<string>)
    ensures r.None? <==> forall i :: 0 <= i < |required| ==> Present(d, required[i], nullIsMissing)
    ensures r.Some? ==> r.value in required && !Present(d, r.value, nullIsMissing)
  {
    if required == [] then None
    else if !Present(d, required[0], nullIsMissing) then Some(required[0])
    else FirstMissing(d, required[1..], nullIsMissing)
  }

  /** The `foreach` over the required keys that opens every `validate()`:
      stops at, and reports, the first key that fails the check. */
  method CheckRequired(d: map<string, Json>, required: seq<string>, nullIsMissing: bool) returns (missing: Option<string>)
    ensures missing == FirstMissing(d, required, nullIsMissing)
  {
    var i := 0;
    while i < |required|
      invariant 0 <= i <= |required|
      invariant FirstMissing(d, required[i..], nullIsMissing) == FirstMissing(d, required, nullIsMissing)
    {
      if !Present(d, required[i], nullIsMissing) {
        return Some(required[i]);
      }
      assert required[i..][1..] == required[i + 1..];
      i := i + 1;
    }
    assert required[i..] == [];
    return None;
  }

  /** The key reported is the first one in the list that fails the check,
      whatever follows it. */
  lemma {:induction false} FirstMissingIsFirst(d: map<string, Json>, required: seq<string>, nullIsMissing: bool, k: nat)
    requires k < |required|
    requires !Present(d, required[k], nullIsMissing)
    requires forall i :: 0 <= i < k ==> Present(d, required[i], nullIsMissing)
    ensures FirstMissing(d, required, nullIsMissing) == Some(required[k])
  {
    if k > 0 {
      assert Present(d, required[0], nullIsMissing);
      FirstMissingIsFirst(d, required[1..], nullIsMissing, k - 1);
    }
  }

  /** When `f` is the only required key that fails the check, it is the one
      reported, wherever it stands in the list. */
  lemma {:induction false} OnlyMissingIsReported(d: map<string, Json>, required: seq<string>, nullIsMissing: bool, f: string)
    requires f in required && !Present(d, f, nullIsMissing)
    requires forall g :: g in required && g != f ==> Present(d, g, nullIsMissing)
    ensures FirstMissing(d, required, nullIsMissing) == Some(f)
  {
    if required[0] != f {
      assert f in required[1..];
      assert forall g :: g in required[1..] ==> g in required;
      OnlyMissingIsReported(d, required[1..], nullIsMissing, f);
    }
  }

  // ---------------------------------------------------------------------------
  // The seven variants

  datatype PaymentIntentSucceeded = PaymentIntentSucceeded(
    id: string, accountId: string, currency: string, amount: Int64, status: string,
    confirmationAttempts: Int64, description: string, createdAt: DateTime,
    customer: Customer, metadata: Option<Metadata>)

  datatype PaymentIntentFailed = PaymentIntentFailed(
    id: string, accountId: string, currency: string, status: string,
    customer: Option<Customer>, metadata: Option<Metadata>, error: ErrorDetail)

  datatype PaymentIntentDeferred = PaymentIntentDeferred(
    id: string, mode: string, currency: string, status: string, confirmationAttempts: Int64,
    description: string, createdAt: DateTime, amount: Int64, baseAmount: Int64,
    paymentMethodId: string, customerId: string, accountId: string)

  datatype SubscriptionRenewalSucceeded = SubscriptionRenewalSucceeded(
    mode: string, status: string, currency: string, description: string, total: Int64,
    periodStart: Option<DateTime>, periodEnd: Option<DateTime>,
    subscriptionId: string, paymentIntentId: string, customerId: string)

  datatype SubscriptionRenewalFailed = SubscriptionRenewalFailed(
    accountId: string, subscriptionId: string, paymentIntentId: Option<string>, currency: string,
    invoiceStatus: string, subscriptionStatus: string, attemptCount: Option<Int64>,
    invoicePeriodStart: DateTime, invoicePeriodEnd: DateTime, periodStart: DateTime, periodEnd: DateTime,
    nextPaymentAttempt: Option<DateTime>, lastPaymentAttempt: DateTime,
    customer: Option<Customer>, error: ErrorDetail)

  datatype CheckoutSessionSucceeded = CheckoutSessionSucceeded(
    mode: string, paymentStatus: string, currency: string, url: string, amountTotal: Int64,
    createdAt: Option<DateTime>, metadata: Option<Metadata>, customer: Option<Customer>,
    lineItems: Json)

  datatype MobileTransferReceived = MobileTransferReceived(
    amount: Int64, currency: string, description: Option<string>, SINPERefNumber: string,
    originId: string, originName: string, originPhone: Option<string>, authorizationDate: DateTime)

  /** The event classes `WebhookService` can instantiate. */
  datatype EventKind =
    | PaymentIntentSucceededEvent
    | PaymentIntentFailedEvent
    | PaymentIntentDeferredEvent
    | SubscriptionRenewalSucceededEvent
    | SubscriptionRenewalFailedEvent
    | CheckoutSessionSucceededEvent
    | MobileTransferReceivedEvent
  {
    /** The event name each class writes into its "missing field" message. */
    function Name(): string {
      match this
      case PaymentIntentSucceededEvent => "payment-intent.succeeded"
      case PaymentIntentFailedEvent => "payment-intent.failed"
      case PaymentIntentDeferredEvent => "payment-intent.deferred"
      case SubscriptionRenewalSucceededEvent => "subscription.renewal.succeeded"
      case SubscriptionRenewalFailedEvent => "subscription.renewal.failed"
      case CheckoutSessionSucceededEvent => "checkout-session.succeeded"
      case MobileTransferReceivedEvent => "mobile-transfer.received"
    }

    /** The keys `validate()` checks, in its order. */
    function Required(): seq<string> {
      match this
      case PaymentIntentSucceededEvent =>
        ["id", "accountId", "currency", "amount", "status", "confirmationAttempts", "description", "createdAt", "customer"]
      case PaymentIntentFailedEvent =>
        ["id", "accountId", "currency", "status", "error"]
      case PaymentIntentDeferredEvent =>
        ["id", "mode", "currency", "status", "confirmationAttempts", "description", "createdAt", "amount",
         "baseAmount", "paymentMethodId", "customerId", "accountId"]
      case SubscriptionRenewalSucceededEvent =>
        ["mode", "status", "currency", "description", "total", "subscriptionId", "paymentIntentId", "customerId"]
      case SubscriptionRenewalFailedEvent =>
        ["accountId", "subscriptionId", "currency", "invoiceStatus", "subscriptionStatus", "invoicePeriodStart",
         "invoicePeriodEnd", "periodStart", "periodEnd", "lastPaymentAttempt", "error"]
      case CheckoutSessionSucceededEvent =>
        ["mode", "paymentStatus", "currency", "url", "amountTotal"]
      case MobileTransferReceivedEvent =>
        ["amount", "currency", "SINPERefNumber", "originId", "originName", "authorizationDate"]
    }

    /** Only PaymentIntentSucceededEvent checks with `isset`. */
    predicate NullIsMissing() {
      this == PaymentIntentSucceededEvent
    }
  }

  /** The typed fields of a validated event. */
  datatype EventBody =
    | PISucceeded(paymentIntentSucceeded: PaymentIntentSucceeded)
    | PIFailed(paymentIntentFailed: PaymentIntentFailed)
    | PIDeferred(paymentIntentDeferred: PaymentIntentDeferred)
    | SRSucceeded(subscriptionRenewalSucceeded: SubscriptionRenewalSucceeded)
    | SRFailed(subscriptionRenewalFailed: SubscriptionRenewalFailed)
    | CSSucceeded(checkoutSessionSucceeded: CheckoutSessionSucceeded)
    | MTReceived(mobileTransferReceived: MobileTransferReceived)

  // ---------------------------------------------------------------------------
  // Field copying, variant by variant (the part of `validate()` after the
  // required-key loop)

  function BuildPaymentIntentSucceeded(d: map<string, Json>, rt: Runtime): (r: Result<PaymentIntentSucceeded, PhpError>)
    ensures r.Success? <==>
      && ToStr(Read(d, "id")).Some? && ToStr(Read(d, "accountId")).Some? && ToStr(Read(d, "currency")).Some?
      && ToStr(Read(d, "status")).Some? && ToStr(Read(d, "description")).Some?
      && DateAt(d, "createdAt", rt).Success? && CustomerFromArray(Read(d, "customer")).Success?
      && (Empty(Read(d, "metadata")) || IsArray(d["metadata"]))
    ensures r.Success? ==>
      && ToStr(Read(d, "id")) == Some(r.value.id)
      && ToStr(Read(d, "accountId")) == Some(r.value.accountId)
      && ToStr(Read(d, "currency")) == Some(r.value.currency)
      && r.value.amount == IntCast(Read(d, "amount"))
      && ToStr(Read(d, "status")) == Some(r.value.status)
      && r.value.confirmationAttempts == IntCast(Read(d, "confirmationAttempts"))
      && ToStr(Read(d, "description")) == Some(r.value.description)
      && DateAt(d, "createdAt", rt) == Success(r.value.createdAt)
      && CustomerFromArray(Read(d, "customer")) == Success(r.value.customer)
      && (r.value.metadata.Some? <==> !Empty(Read(d, "metadata")))
      && (r.value.metadata.Some? ==> r.value.metadata.value.pairs == Read(d, "metadata"))
  {
    var id :- StrAt(d, "id", "PaymentIntentSucceededEvent::$id");
    var accountId :- StrAt(d, "accountId", "PaymentIntentSucceededEvent::$accountId");
    var currency :- StrAt(d, "currency", "PaymentIntentSucceededEvent::$currency");
    var amount := IntCast(Read(d, "amount"));
    var status :- StrAt(d, "status", "PaymentIntentSucceededEvent::$status");
    var confirmationAttempts := IntCast(Read(d, "confirmationAttempts"));
    var description :- StrAt(d, "description", "PaymentIntentSucceededEvent::$description");
    var createdAt :- DateAt(d, "createdAt", rt);
    var customer :- CustomerFromArray(Read(d, "customer"));
    var metadata :- OptionalMetadataAt(d, "metadata");
    Success(PaymentIntentSucceeded(id, accountId, currency, amount, status, confirmationAttempts,
                                   description, createdAt, customer, metadata))
  }

  function BuildPaymentIntentFailed(d: map<string, Json>, rt: Runtime): (r: Result<PaymentIntentFailed, PhpError>)
    ensures r.Success? <==>
      && ToStr(Read(d, "id")).Some? && ToStr(Read(d, "accountId")).Some? && ToStr(Read(d, "currency")).Some?
      && ToStr(Read(d, "status")).Some?
      && (Empty(Read(d, "customer")) || CustomerFromArray(d["customer"]).Success?)
      && (Empty(Read(d, "metadata")) || IsArray(d["metadata"]))
      && ErrorDetailFromArray(Read(d, "error"), rt).Success?
    ensures r.Success? ==>
      && ToStr(Read(d, "id")) == Some(r.value.id)
      && ToStr(Read(d, "accountId")) == Some(r.value.accountId)
      && ToStr(Read(d, "currency")) == Some(r.value.currency)
      && ToStr(Read(d, "status")) == Some(r.value.status)
      && (r.value.customer.None? <==> Empty(Read(d, "customer")))
      && (r.value.customer.Some? ==> CustomerFromArray(d["customer"]) == Success(r.value.customer.value))
      && (r.value.metadata.None? <==> Empty(Read(d, "metadata")))
      && (r.value.metadata.Some? ==> r.value.metadata.value.pairs == d["metadata"])
      && ErrorDetailFromArray(Read(d, "error"), rt) == Success(r.value.error)
  {
    var id :- StrAt(d, "id", "PaymentIntentFailedEvent::$id");
    var accountId :- StrAt(d, "accountId", "PaymentIntentFailedEvent::$accountId");
    var currency :- StrAt(d, "currency", "PaymentIntentFailedEvent::$currency");
    var status :- StrAt(d, "status", "PaymentIntentFailedEvent::$status");
    var customer :- OptionalCustomerAt(d, "customer");
    var metadata :- OptionalMetadataAt(d, "metadata");
    var error :- ErrorDetailFromArray(Read(d, "error"), rt);
    Success(PaymentIntentFailed(id, accountId, currency, status, customer, metadata, error))
  }

  function BuildPaymentIntentDeferred(d: map<string, Json>, rt: Runtime): (r: Result<PaymentIntentDeferred, PhpError>)
    ensures r.Success? <==>
      && ToStr(Read(d, "id")).Some? && ToStr(Read(d, "mode")).Some? && ToStr(Read(d, "currency")).Some?
      && ToStr(Read(d, "status")).Some? && ToStr(Read(d, "description")).Some?
      && DateAt(d, "createdAt", rt).Success?
      && ToStr(Read(d, "paymentMethodId")).Some? && ToStr(Read(d, "customerId")).Some?
      && ToStr(Read(d, "accountId")).Some?
    ensures r.Success? ==>
      && ToStr(Read(d, "id")) == Some(r.value.id)
      && ToStr(Read(d, "mode")) == Some(r.value.mode)
      && ToStr(Read(d, "currency")) == Some(r.value.currency)
      && ToStr(Read(d, "status")) == Some(r.value.status)
      && r.value.confirmationAttempts == IntCast(Read(d, "confirmationAttempts"))
      && ToStr(Read(d, "description")) == Some(r.value.description)
      && DateAt(d, "createdAt", rt) == Success(r.value.createdAt)
      && r.value.amount == IntCast(Read(d, "amount"))
      && r.value.baseAmount == IntCast(Read(d, "baseAmount"))
      && ToStr(Read(d, "paymentMethodId")) == Some(r.value.paymentMethodId)
      && ToStr(Read(d, "customerId")) == Some(r.value.customerId)
      && ToStr(Read(d, "accountId")) == Some(r.value.accountId)
  {
    var id :- StrAt(d, "id", "PaymentIntentDeferredEvent::$id");
    var mode :- StrAt(d, "mode", "PaymentIntentDeferredEvent::$mode");
    var currency :- StrAt(d, "currency", "PaymentIntentDeferredEvent::$currency");
    var status :- StrAt(d, "status", "PaymentIntentDeferredEvent::$status");
    var confirmationAttempts := IntCast(Read(d, "confirmationAttempts"));
    var description :- StrAt(d, "description", "PaymentIntentDeferredEvent::$description");
    var createdAt :- DateAt(d, "createdAt", rt);
    var amount := IntCast(Read(d, "amount"));
    var baseAmount := IntCast(Read(d, "baseAmount"));
    var paymentMethodId :- StrAt(d, "paymentMethodId", "PaymentIntentDeferredEvent::$paymentMethodId");
    var customerId :- StrAt(d, "customerId", "PaymentIntentDeferredEvent::$customerId");
    var accountId :- StrAt(d, "accountId", "PaymentIntentDeferredEvent::$accountId");
    Success(PaymentIntentDeferred(id, mode, currency, status, confirmationAttempts, description, createdAt,
                                  amount, baseAmount, paymentMethodId, customerId, accountId))
  }

  function BuildSubscriptionRenewalSucceeded(d: map<string, Json>, rt: Runtime): (r: Result<SubscriptionRenewalSucceeded, PhpError>)
    ensures r.Success? <==>
      && ToStr(Read(d, "mode")).Some? && ToStr(Read(d, "status")).Some? && ToStr(Read(d, "currency")).Some?
      && ToStr(Read(d, "description")).Some?
      && (IsSet(d, "periodStart") ==> DateAt(d, "periodStart", rt).Success?)
      && (IsSet(d, "periodEnd") ==> DateAt(d, "periodEnd", rt).Success?)
      && ToStr(Read(d, "subscriptionId")).Some? && ToStr(Read(d, "paymentIntentId")).Some?
      && ToStr(Read(d, "customerId")).Some?
    ensures r.Success? ==>
      && ToStr(Read(d, "mode")) == Some(r.value.mode)
      && ToStr(Read(d, "status")) == Some(r.value.status)
      && ToStr(Read(d, "currency")) == Some(r.value.currency)
      && ToStr(Read(d, "description")) == Some(r.value.description)
      && r.value.total == IntCast(Read(d, "total"))
      && (r.value.periodStart.None? <==> !IsSet(d, "periodStart"))
      && (r.value.periodStart.Some? ==> DateAt(d, "periodStart", rt) == Success(r.value.periodStart.value))
      && (r.value.periodEnd.None? <==> !IsSet(d, "periodEnd"))
      && (r.value.periodEnd.Some? ==> DateAt(d, "periodEnd", rt) == Success(r.value.periodEnd.value))
      && ToStr(Read(d, "subscriptionId")) == Some(r.value.subscriptionId)
      && ToStr(Read(d, "paymentIntentId")) == Some(r.value.paymentIntentId)
      && ToStr(Read(d, "customerId")) == Some(r.value.customerId)
  {
    var mode :- StrAt(d, "mode", "SubscriptionRenewalSucceededEvent::$mode");
    var status :- StrAt(d, "status", "SubscriptionRenewalSucceededEvent::$status");
    var currency :- StrAt(d, "currency", "SubscriptionRenewalSucceededEvent::$currency");
    var description :- StrAt(d, "description", "SubscriptionRenewalSucceededEvent::$description");
    var total := IntCast(Read(d, "total"));
    var periodStart :- OptionalDateAt(d, "periodStart", rt);
    var periodEnd :- OptionalDateAt(d, "periodEnd", rt);
    var subscriptionId :- StrAt(d, "subscriptionId", "SubscriptionRenewalSucceededEvent::$subscriptionId");
    var paymentIntentId :- StrAt(d, "paymentIntentId", "SubscriptionRenewalSucceededEvent::$paymentIntentId");
    var customerId :- StrAt(d, "customerId", "SubscriptionRenewalSucceededEvent::$customerId");
    Success(SubscriptionRenewalSucceeded(mode, status, currency, description, total, periodStart, periodEnd,
                                         subscriptionId, paymentIntentId, customerId))
  }

  function BuildSubscriptionRenewalFailed(d: map<string, Json>, rt: Runtime): (r: Result<SubscriptionRenewalFailed, PhpError>)
    ensures r.Success? <==>
      && ToStr(Read(d, "accountId")).Some? && ToStr(Read(d, "subscriptionId")).Some?
      && !(IsSet(d, "paymentIntentId") && IsArray(d["paymentIntentId"]))
      && ToStr(Read(d, "currency")).Some? && ToStr(Read(d, "invoiceStatus")).Some?
      && ToStr(Read(d, "subscriptionStatus")).Some?
      && DateAt(d, "invoicePeriodStart", rt).Success? && DateAt(d, "invoicePeriodEnd", rt).Success?
      && DateAt(d, "periodStart", rt).Success? && DateAt(d, "periodEnd", rt).Success?
      && (IsSet(d, "nextPaymentAttempt") ==> DateAt(d, "nextPaymentAttempt", rt).Success?)
      && DateAt(d, "lastPaymentAttempt", rt).Success?
      && (Empty(Read(d, "customer")) || CustomerFromArray(d["customer"]).Success?)
      && ErrorDetailFromArray(Read(d, "error"), rt).Success?
    ensures r.Success? ==>
      && ToStr(Read(d, "accountId")) == Some(r.value.accountId)
      && ToStr(Read(d, "subscriptionId")) == Some(r.value.subscriptionId)
      && (r.value.paymentIntentId.None? <==> !IsSet(d, "paymentIntentId"))
      && (r.value.paymentIntentId.Some? ==> ToStr(d["paymentIntentId"]) == r.value.paymentIntentId)
      && ToStr(Read(d, "currency")) == Some(r.value.currency)
      && ToStr(Read(d, "invoiceStatus")) == Some(r.value.invoiceStatus)
      && ToStr(Read(d, "subscriptionStatus")) == Some(r.value.subscriptionStatus)
      && (r.value.attemptCount.None? <==> !IsSet(d, "attemptCount"))
      && (r.value.attemptCount.Some? ==> r.value.attemptCount.value == IntCast(d["attemptCount"]))
      && DateAt(d, "invoicePeriodStart", rt) == Success(r.value.invoicePeriodStart)
      && DateAt(d, "invoicePeriodEnd", rt) == Success(r.value.invoicePeriodEnd)
      && DateAt(d, "periodStart", rt) == Success(r.value.periodStart)
      && DateAt(d, "periodEnd", rt) == Success(r.value.periodEnd)
      && (r.value.nextPaymentAttempt.None? <==> !IsSet(d, "nextPaymentAttempt"))
      && (r.value.nextPaymentAttempt.Some? ==>
            DateAt(d, "nextPaymentAttempt", rt) == Success(r.value.nextPaymentAttempt.value))
      && DateAt(d, "lastPaymentAttempt", rt) == Success(r.value.lastPaymentAttempt)
      && (r.value.customer.None? <==> Empty(Read(d, "customer")))
      && (r.value.customer.Some? ==> CustomerFromArray(d["customer"]) == Success(r.value.customer.value))
      && ErrorDetailFromArray(Read(d, "error"), rt) == Success(r.value.error)
  {
    var accountId :- StrAt(d, "accountId", "SubscriptionRenewalFailedEvent::$accountId");
    var subscriptionId :- StrAt(d, "subscriptionId", "SubscriptionRenewalFailedEvent::$subscriptionId");
    var paymentIntentId :- NullableStrAt(d, "paymentIntentId", "SubscriptionRenewalFailedEvent::$paymentIntentId");
    var currency :- StrAt(d, "currency", "SubscriptionRenewalFailedEvent::$currency");
    var invoiceStatus :- StrAt(d, "invoiceStatus", "SubscriptionRenewalFailedEvent::$invoiceStatus");
    var subscriptionStatus :- StrAt(d, "subscriptionStatus", "SubscriptionRenewalFailedEvent::$subscriptionStatus");
    var attemptCount := if IsSet(d, "attemptCount") then Some(IntCast(d["attemptCount"])) else None;
    var invoicePeriodStart :- DateAt(d, "invoicePeriodStart", rt);
    var invoicePeriodEnd :- DateAt(d, "invoicePeriodEnd", rt);
    var periodStart :- DateAt(d, "periodStart", rt);
    var periodEnd :- DateAt(d, "periodEnd", rt);
    var nextPaymentAttempt :- OptionalDateAt(d, "nextPaymentAttempt", rt);
    var lastPaymentAttempt :- DateAt(d, "lastPaymentAttempt", rt);
    var customer :- OptionalCustomerAt(d, "customer");
    var error :- ErrorDetailFromArray(Read(d, "error"), rt);
    Success(SubscriptionRenewalFailed(accountId, subscriptionId, paymentIntentId, currency, invoiceStatus,
                                      subscriptionStatus, attemptCount, invoicePeriodStart, invoicePeriodEnd,
                                      periodStart, periodEnd, nextPaymentAttempt, lastPaymentAttempt,
                                      customer, error))
  }

  function BuildCheckoutSessionSucceeded(d: map<string, Json>, rt: Runtime): (r: Result<CheckoutSessionSucceeded, PhpError>)
    ensures r.Success? <==>
      && ToStr(Read(d, "mode")).Some? && ToStr(Read(d, "paymentStatus")).Some?
      && ToStr(Read(d, "currency")).Some? && ToStr(Read(d, "url")).Some?
      && (IsSet(d, "createdAt") ==> DateAt(d, "createdAt", rt).Success?)
      && (Empty(Read(d, "metadata")) || IsArray(d["metadata"]))
      && (Empty(Read(d, "customer")) || CustomerFromArray(d["customer"]).Success?)
      && (IsSet(d, "lineItems") ==> IsArray(d["lineItems"]))
    ensures r.Success? ==>
      && ToStr(Read(d, "mode")) == Some(r.value.mode)
      && ToStr(Read(d, "paymentStatus")) == Some(r.value.paymentStatus)
      && ToStr(Read(d, "currency")) == Some(r.value.currency)
      && ToStr(Read(d, "url")) == Some(r.value.url)
      && r.value.amountTotal == IntCast(Read(d, "amountTotal"))
      && (r.value.createdAt.None? <==> !IsSet(d, "createdAt"))
      && (r.value.createdAt.Some? ==> DateAt(d, "createdAt", rt) == Success(r.value.createdAt.value))
      && (r.value.metadata.None? <==> Empty(Read(d, "metadata")))
      && (r.value.metadata.Some? ==> r.value.metadata.value.pairs == d["metadata"])
      && (r.value.customer.None? <==> Empty(Read(d, "customer")))
      && (r.value.customer.Some? ==> CustomerFromArray(d["customer"]) == Success(r.value.customer.value))
      && r.value.lineItems == (if IsSet(d, "lineItems") then d["lineItems"] else JList([]))
    ensures IsSet(d, "lineItems") && !IsArray(d["lineItems"]) ==> r.Failure?
  {
    var mode :- StrAt(d, "mode", "CheckoutSessionSucceededEvent::$mode");
    var paymentStatus :- StrAt(d, "paymentStatus", "CheckoutSessionSucceededEvent::$paymentStatus");
    var currency :- StrAt(d, "currency", "CheckoutSessionSucceededEvent::$currency");
    var url :- StrAt(d, "url", "CheckoutSessionSucceededEvent::$url");
    var amountTotal := IntCast(Read(d, "amountTotal"));
    var createdAt :- OptionalDateAt(d, "createdAt", rt);
    var metadata :- OptionalMetadataAt(d, "metadata");
    var customer :- OptionalCustomerAt(d, "customer");
    var lineItems := if IsSet(d, "lineItems") then d["lineItems"] else JList([]);
    if !IsArray(lineItems) then Failure(TypeError("CheckoutSessionSucceededEvent::$lineItems"))
    else
      Success(CheckoutSessionSucceeded(mode, paymentStatus, currency, url, amountTotal, createdAt,
                                       metadata, customer, lineItems))
  }

  function BuildMobileTransferReceived(d: map<string, Json>, rt: Runtime): (r: Result<MobileTransferReceived, PhpError>)
    ensures r.Success? <==>
      && ToStr(Read(d, "currency")).Some?
      && !(IsSet(d, "description") && IsArray(d["description"]))
      && ToStr(Read(d, "SINPERefNumber")).Some? && ToStr(Read(d, "originId")).Some?
      && ToStr(Read(d, "originName")).Some?
      && !(IsSet(d, "originPhone") && IsArray(d["originPhone"]))
      && DateAt(d, "authorizationDate", rt).Success?
    ensures r.Success? ==>
      && r.value.amount == IntCast(Read(d, "amount"))
      && ToStr(Read(d, "currency")) == Some(r.value.currency)
      && (r.value.description.None? <==> !IsSet(d, "description"))
      && (r.value.description.Some? ==> ToStr(d["description"]) == r.value.description)
      && ToStr(Read(d, "SINPERefNumber")) == Some(r.value.SINPERefNumber)
      && ToStr(Read(d, "originId")) == Some(r.value.originId)
      && ToStr(Read(d, "originName")) == Some(r.value.originName)
      && (r.value.originPhone.None? <==> !IsSet(d, "originPhone"))
      && (r.value.originPhone.Some? ==> ToStr(d["originPhone"]) == r.value.originPhone)
      && DateAt(d, "authorizationDate", rt) == Success(r.value.authorizationDate)
  {
    var amount := IntCast(Read(d, "amount"));
    var currency :- StrAt(d, "currency", "MobileTransferReceivedEvent::$currency");
    var description :- NullableStrAt(d, "description", "MobileTransferReceivedEvent::$description");
    var sinpe :- StrAt(d, "SINPERefNumber", "MobileTransferReceivedEvent::$SINPERefNumber");
    var originId :- StrAt(d, "originId", "MobileTransferReceivedEvent::$originId");
    var originName :- StrAt(d, "originName", "MobileTransferReceivedEvent::$originName");
    var originPhone :- NullableStrAt(d, "originPhone", "MobileTransferReceivedEvent::$originPhone");
    var authorizationDate :- DateAt(d, "authorizationDate", rt);
    Success(MobileTransferReceived(amount, currency, description, sinpe, originId, originName,
                                   originPhone, authorizationDate))
  }

  /** The copying phase of `kind`'s `validate()`. */
  function Build(kind: EventKind, d: map<string, Json>, rt: Runtime): Result<EventBody, PhpError> {
    match kind
    case PaymentIntentSucceededEvent =>
      var e :- BuildPaymentIntentSucceeded(d, rt); Success(PISucceeded(e))
    case PaymentIntentFailedEvent =>
      var e :- BuildPaymentIntentFailed(d, rt); Success(PIFailed(e))
    case PaymentIntentDeferredEvent =>
      var e :- BuildPaymentIntentDeferred(d, rt); Success(PIDeferred(e))
    case SubscriptionRenewalSucceededEvent =>
      var e :- BuildSubscriptionRenewalSucceeded(d, rt); Success(SRSucceeded(e))
    case SubscriptionRenewalFailedEvent =>
      var e :- BuildSubscriptionRenewalFailed(d, rt); Success(SRFailed(e))
    case CheckoutSessionSucceededEvent =>
      var e :- BuildCheckoutSessionSucceeded(d, rt); Success(CSSucceeded(e))
    case MobileTransferReceivedEvent =>
      var e :- BuildMobileTransferReceived(d, rt); Success(MTReceived(e))
  }

  /** Everything `kind`'s `validate()` does to the raw data: the required-key
      check, then the copying. */
  function ValidateData(kind: EventKind, d: map<string, Json>, rt: Runtime): (r: Result<EventBody, EventError>)
    ensures FirstMissing(d, kind.Required(), kind.NullIsMissing()).Some? ==>
      r == Failure(MissingField(FirstMissing(d, kind.Required(), kind.NullIsMissing()).value, kind.Name()))
    ensures FirstMissing(d, kind.Required(), kind.NullIsMissing()).None? ==>
      r == (match Build(kind, d, rt) case Success(b) => Success(b) case Failure(e) => Failure(Raised(e)))
  {
    match FirstMissing(d, kind.Required(), kind.NullIsMissing())
    case Some(f) => Failure(MissingField(f, kind.Name()))
    case None =>
      match Build(kind, d, rt)
      case Success(b) => Success(b)
      case Failure(e) => Failure(Raised(e))
  }

  // ---------------------------------------------------------------------------
  // BaseEvent

  /** An event object. The constructor stores `type` and `rawData` (both
      `const`: nothing reassigns them); `Validate` then fills in the typed
      fields. */
  class BaseEvent {
    const kind: EventKind
    const eventType: string
    const rawData: Json
    var body: Option<EventBody>

    constructor (kind: EventKind, eventType: string, rawData: Json)
      ensures this.kind == kind && this.eventType == eventType && this.rawData == rawData
      ensures body == None
    {
      this.kind := kind;
      this.eventType := eventType;
      this.rawData := rawData;
      body := None;
    }

    function GetType(): string {
      eventType
    }

    function GetRawData(): Json {
      rawData
    }

    /** The variant's `validate()`, run on the stored raw data. */
    method Validate(rt: Runtime) returns (err: Option<EventError>)
      modifies this
      ensures err.None? <==> ValidateData(kind, Entries(rawData), rt).Success?
      ensures err.Some? ==> err.value == ValidateData(kind, Entries(rawData), rt).error && body == old(body)
      ensures err.None? ==> body == Some(ValidateData(kind, Entries(rawData), rt).value)
    {
      var d := Entries(rawData);
      var missing := CheckRequired(d, kind.Required(), kind.NullIsMissing());
      if missing.Some? {
        return Some(MissingField(missing.value, kind.Name()));
      }
      match Build(kind, d, rt)
      case Failure(e) =>
        return Some(Raised(e));
      case Success(b) =>
        body := Some(b);
        return None;
    }

    /** `new $class($type, $rawData)`: construction followed by validation.
        When validation throws, no event object comes out. */
    static method Create(kind: EventKind, eventType: string, rawData: Json, rt: Runtime) returns (r: Result<BaseEvent, EventError>)
      ensures r.Failure? <==> ValidateData(kind, Entries(rawData), rt).Failure?
      ensures r.Failure? ==> r.error == ValidateData(kind, Entries(rawData), rt).error
      ensures r.Success? ==> fresh(r.value) && r.value.kind == kind
      ensures r.Success? ==> r.value.GetType() == eventType && r.value.GetRawData() == rawData
      ensures r.Success? ==> r.value.body == Some(ValidateData(kind, Entries(rawData), rt).value)
    {
      var e := new BaseEvent(kind, eventType, rawData);
      var err := e.Validate(rt);
      if err.Some? {
        return Failure(err.value);
      }
      return Success(e);
    }
  }
}
