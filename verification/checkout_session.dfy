/**
 * `ONVO\Models\CheckoutSession`, with its `LineItem` and `Account`: a hosted
 * checkout page. Every property is nullable and starts null. `setData`
 * copies the set keys in order, parses the two dates, casts the three
 * collection flags to bool, takes the two shipping lists only when they are
 * arrays, and rebuilds `lineItems` with one `LineItem` per element of the
 * given array, in order. The line-item loop appends to the property as it
 * goes, so an exception inside it leaves the items built so far; `account`
 * likewise holds its fresh `Account` before that object's `setData` runs.
 *
 * A line item's `price` names `ONVO\Models\Product\Price`, a class no file
 * declares (the `Price` in `src/ONVO/Models/Product/Price.php` is declared in
 * the namespace `App\Models\Product`), so building one fails.
 */
module CheckoutSession {
  import opened Php
  import opened Setter
  import opened Arrays
  import PriceModel = Price

  /** The state of a CheckoutSession object. */
  datatype CheckoutSessionFields = CheckoutSessionFields(
    id: Option<string>,
    accountId: Option<string>,
    url: Option<string>,
    updatedAt: Option<DateTime>,
    createdAt: Option<DateTime>,
    billingAddressCollection: Option<bool>,
    allowPromotionCodes: Option<bool>,
    successUrl: Option<string>,
    cancelUrl: Option<string>,
    status: Option<string>,
    lineItems: Option<seq<LineItem>>,
    mode: Option<string>,
    shippingAddressCollection: Option<bool>,
    shippingCountries: Json,
    shippingRates: Json,
    paymentStatus: Option<string>,
    paymentIntentId: Option<string>,
    account: Option<Account>)
  {
    /** Field `x` as JSON: its internal image (the class has no `toArray`). */
    function Get(x: Field): Json {
      match x
      case Id => OptStr(id)
      case AccountId => OptStr(accountId)
      case Url => OptStr(url)
      case UpdatedAt => OptDate(updatedAt)
      case CreatedAt => OptDate(createdAt)
      case BillingAddressCollection => OptBool(billingAddressCollection)
      case AllowPromotionCodes => OptBool(allowPromotionCodes)
      case SuccessUrl => OptStr(successUrl)
      case CancelUrl => OptStr(cancelUrl)
      case Status => OptStr(status)
      case LineItems => ShownItems(lineItems)
      case Mode => OptStr(mode)
      case ShippingAddressCollection => OptBool(shippingAddressCollection)
      case ShippingCountries => shippingCountries
      case ShippingRates => shippingRates
      case PaymentStatus => OptStr(paymentStatus)
      case PaymentIntentId => OptStr(paymentIntentId)
      case Account => ShownAccount(account)
    }
  }

  /** The keys `setData` looks at. */
  datatype Field = Id | AccountId | Url | UpdatedAt | CreatedAt | BillingAddressCollection | AllowPromotionCodes | SuccessUrl | CancelUrl | Status | LineItems | Mode | ShippingAddressCollection | ShippingCountries | ShippingRates | PaymentStatus | PaymentIntentId | Account {
    function Key(): string {
      match this
      case Id => "id"
      case AccountId => "accountId"
      case Url => "url"
      case UpdatedAt => "updatedAt"
      case CreatedAt => "createdAt"
      case BillingAddressCollection => "billingAddressCollection"
      case AllowPromotionCodes => "allowPromotionCodes"
      case SuccessUrl => "successUrl"
      case CancelUrl => "cancelUrl"
      case Status => "status"
      case LineItems => "lineItems"
      case Mode => "mode"
      case ShippingAddressCollection => "shippingAddressCollection"
      case ShippingCountries => "shippingCountries"
      case ShippingRates => "shippingRates"
      case PaymentStatus => "paymentStatus"
      case PaymentIntentId => "paymentIntentId"
      case Account => "account"
    }
  }

  /** The order in which `setData` visits them. */
  const Order: seq<Field> := [Id, AccountId, Url, UpdatedAt, CreatedAt, BillingAddressCollection, AllowPromotionCodes, SuccessUrl, CancelUrl, Status, LineItems, Mode, ShippingAddressCollection, ShippingCountries, ShippingRates, PaymentStatus, PaymentIntentId, Account]

  /** `g` and `f` hold the same value in field `x`. */
  predicate Same(g: CheckoutSessionFields, f: CheckoutSessionFields, x: Field) {
    match x
    case Id => g.id == f.id
    case AccountId => g.accountId == f.accountId
    case Url => g.url == f.url
    case UpdatedAt => g.updatedAt == f.updatedAt
    case CreatedAt => g.createdAt == f.createdAt
    case BillingAddressCollection => g.billingAddressCollection == f.billingAddressCollection
    case AllowPromotionCodes => g.allowPromotionCodes == f.allowPromotionCodes
    case SuccessUrl => g.successUrl == f.successUrl
    case CancelUrl => g.cancelUrl == f.cancelUrl
    case Status => g.status == f.status
    case LineItems => g.lineItems == f.lineItems
    case Mode => g.mode == f.mode
    case ShippingAddressCollection => g.shippingAddressCollection == f.shippingAddressCollection
    case ShippingCountries => g.shippingCountries == f.shippingCountries
    case ShippingRates => g.shippingRates == f.shippingRates
    case PaymentStatus => g.paymentStatus == f.paymentStatus
    case PaymentIntentId => g.paymentIntentId == f.paymentIntentId
    case Account => g.account == f.account
  }

  /** `f` with field `x` taken from `g`. */
  function Overwrite(f: CheckoutSessionFields, x: Field, g: CheckoutSessionFields): CheckoutSessionFields {
    match x
    case Id => f.(id := g.id)
    case AccountId => f.(accountId := g.accountId)
    case Url => f.(url := g.url)
    case UpdatedAt => f.(updatedAt := g.updatedAt)
    case CreatedAt => f.(createdAt := g.createdAt)
    case BillingAddressCollection => f.(billingAddressCollection := g.billingAddressCollection)
    case AllowPromotionCodes => f.(allowPromotionCodes := g.allowPromotionCodes)
    case SuccessUrl => f.(successUrl := g.successUrl)
    case CancelUrl => f.(cancelUrl := g.cancelUrl)
    case Status => f.(status := g.status)
    case LineItems => f.(lineItems := g.lineItems)
    case Mode => f.(mode := g.mode)
    case ShippingAddressCollection => f.(shippingAddressCollection := g.shippingAddressCollection)
    case ShippingCountries => f.(shippingCountries := g.shippingCountries)
    case ShippingRates => f.(shippingRates := g.shippingRates)
    case PaymentStatus => f.(paymentStatus := g.paymentStatus)
    case PaymentIntentId => f.(paymentIntentId := g.paymentIntentId)
    case Account => f.(account := g.account)
  }

  /** A state that differs from `f` at most in field `x` agrees with it
      on every other field. */
  lemma OverwriteSame(f: CheckoutSessionFields, g: CheckoutSessionFields, x: Field)
    requires g == Overwrite(f, x, g)
    ensures forall y: Field :: y != x ==> Same(g, f, y)
  {
  }

  lemma SameGet(g: CheckoutSessionFields, f: CheckoutSessionFields, x: Field)
    requires Same(g, f, x)
    ensures g.Get(x) == f.Get(x)
  {
  }

  /** `setData` acts on key `x` of `d`: the key is set (`isset`), and for some keys more. */
  predicate Reads(d: map<string, Json>, x: Field) {
    match x
    case Id => IsSet(d, "id")
    case AccountId => IsSet(d, "accountId")
    case Url => IsSet(d, "url")
    case UpdatedAt => IsSet(d, "updatedAt")
    case CreatedAt => IsSet(d, "createdAt")
    case BillingAddressCollection => IsSet(d, "billingAddressCollection")
    case AllowPromotionCodes => IsSet(d, "allowPromotionCodes")
    case SuccessUrl => IsSet(d, "successUrl")
    case CancelUrl => IsSet(d, "cancelUrl")
    case Status => IsSet(d, "status")
    case LineItems => IsSet(d, "lineItems") && IsArray(d["lineItems"])
    case Mode => IsSet(d, "mode")
    case ShippingAddressCollection => IsSet(d, "shippingAddressCollection")
    case ShippingCountries => IsSet(d, "shippingCountries") && IsArray(d["shippingCountries"])
    case ShippingRates => IsSet(d, "shippingRates") && IsArray(d["shippingRates"])
    case PaymentStatus => IsSet(d, "paymentStatus")
    case PaymentIntentId => IsSet(d, "paymentIntentId")
    case Account => IsSet(d, "account")
  }

  /** What `setData` leaves in field `x` when it acts on it, in `Get`'s
      terms, or the error it raises. */
  function Take(x: Field, d: map<string, Json>, rt: Runtime): Result<Json, PhpError> {
    match x
    case Id => TakeId(d, rt)
    case AccountId => TakeAccountId(d, rt)
    case Url => TakeUrl(d, rt)
    case UpdatedAt => TakeUpdatedAt(d, rt)
    case CreatedAt => TakeCreatedAt(d, rt)
    case BillingAddressCollection => TakeBillingAddressCollection(d, rt)
    case AllowPromotionCodes => TakeAllowPromotionCodes(d, rt)
    case SuccessUrl => TakeSuccessUrl(d, rt)
    case CancelUrl => TakeCancelUrl(d, rt)
    case Status => TakeStatus(d, rt)
    case LineItems => TakeLineItems(d, rt)
    case Mode => TakeMode(d, rt)
    case ShippingAddressCollection => TakeShippingAddressCollection(d, rt)
    case ShippingCountries => TakeShippingCountries(d, rt)
    case ShippingRates => TakeShippingRates(d, rt)
    case PaymentStatus => TakePaymentStatus(d, rt)
    case PaymentIntentId => TakePaymentIntentId(d, rt)
    case Account => TakeAccount(d, rt)
  }

  /** What the block for `id` leaves in its field, or its error. */
  function TakeId(d: map<string, Json>, rt: Runtime): Result<Json, PhpError> {
    (match AsStr(Read(d, "id"), "CheckoutSession::$id") case Failure(e) => Failure(e) case Success(s) => Success(JString(s)))
  }

  /** What the block for `accountId` leaves in its field, or its error. */
  function TakeAccountId(d: map<string, Json>, rt: Runtime): Result<Json, PhpError> {
    (match AsStr(Read(d, "accountId"), "CheckoutSession::$accountId") case Failure(e) => Failure(e) case Success(s) => Success(JString(s)))
  }

  /** What the block for `url` leaves in its field, or its error. */
  function TakeUrl(d: map<string, Json>, rt: Runtime): Result<Json, PhpError> {
    (match AsStr(Read(d, "url"), "CheckoutSession::$url") case Failure(e) => Failure(e) case Success(s) => Success(JString(s)))
  }

  /** What the block for `updatedAt` leaves in its field, or its error. */
  function TakeUpdatedAt(d: map<string, Json>, rt: Runtime): Result<Json, PhpError> {
    (match NewDate(rt, Read(d, "updatedAt"), DateTarget) case Failure(e) => Failure(e) case Success(s) => Success(JString(s.atom)))
  }

  /** What the block for `createdAt` leaves in its field, or its error. */
  function TakeCreatedAt(d: map<string, Json>, rt: Runtime): Result<Json, PhpError> {
    (match NewDate(rt, Read(d, "createdAt"), DateTarget) case Failure(e) => Failure(e) case Success(s) => Success(JString(s.atom)))
  }

  /** What the block for `billingAddressCollection` leaves in its field, or its error. */
  function TakeBillingAddressCollection(d: map<string, Json>, rt: Runtime): Result<Json, PhpError> {
    Success(JBool(BoolCast(Read(d, "billingAddressCollection"))))
  }

  /** What the block for `allowPromotionCodes` leaves in its field, or its error. */
  function TakeAllowPromotionCodes(d: map<string, Json>, rt: Runtime): Result<Json, PhpError> {
    Success(JBool(BoolCast(Read(d, "allowPromotionCodes"))))
  }

  /** What the block for `successUrl` leaves in its field, or its error. */
  function TakeSuccessUrl(d: map<string, Json>, rt: Runtime): Result<Json, PhpError> {
    (match AsStr(Read(d, "successUrl"), "CheckoutSession::$successUrl") case Failure(e) => Failure(e) case Success(s) => Success(JString(s)))
  }

  /** What the block for `cancelUrl` leaves in its field, or its error. */
  function TakeCancelUrl(d: map<string, Json>, rt: Runtime): Result<Json, PhpError> {
    (match AsStr(Read(d, "cancelUrl"), "CheckoutSession::$cancelUrl") case Failure(e) => Failure(e) case Success(s) => Success(JString(s)))
  }

  /** What the block for `status` leaves in its field, or its error. */
  function TakeStatus(d: map<string, Json>, rt: Runtime): Result<Json, PhpError> {
    (match AsStr(Read(d, "status"), "CheckoutSession::$status") case Failure(e) => Failure(e) case Success(s) => Success(JString(s)))
  }

  /** What the block for `lineItems` leaves in its field, or its error. */
  function TakeLineItems(d: map<string, Json>, rt: Runtime): Result<Json, PhpError> {
    (match BuildItems(Values(Read(d, "lineItems"), rt))
     case Stopped(_, e) => Failure(e)
     case Updated(p) => Success(ShownItems(Some(p))))
  }

  /** What the block for `mode` leaves in its field, or its error. */
  function TakeMode(d: map<string, Json>, rt: Runtime): Result<Json, PhpError> {
    (match AsStr(Read(d, "mode"), "CheckoutSession::$mode") case Failure(e) => Failure(e) case Success(s) => Success(JString(s)))
  }

  /** What the block for `shippingAddressCollection` leaves in its field, or its error. */
  function TakeShippingAddressCollection(d: map<string, Json>, rt: Runtime): Result<Json, PhpError> {
    Success(JBool(BoolCast(Read(d, "shippingAddressCollection"))))
  }

  /** What the block for `shippingCountries` leaves in its field, or its error. */
  function TakeShippingCountries(d: map<string, Json>, rt: Runtime): Result<Json, PhpError> {
    Success(Read(d, "shippingCountries"))
  }

  /** What the block for `shippingRates` leaves in its field, or its error. */
  function TakeShippingRates(d: map<string, Json>, rt: Runtime): Result<Json, PhpError> {
    Success(Read(d, "shippingRates"))
  }

  /** What the block for `paymentStatus` leaves in its field, or its error. */
  function TakePaymentStatus(d: map<string, Json>, rt: Runtime): Result<Json, PhpError> {
    (match AsStr(Read(d, "paymentStatus"), "CheckoutSession::$paymentStatus") case Failure(e) => Failure(e) case Success(s) => Success(JString(s)))
  }

  /** What the block for `paymentIntentId` leaves in its field, or its error. */
  function TakePaymentIntentId(d: map<string, Json>, rt: Runtime): Result<Json, PhpError> {
    (match AsStr(Read(d, "paymentIntentId"), "CheckoutSession::$paymentIntentId") case Failure(e) => Failure(e) case Success(s) => Success(JString(s)))
  }

  /** What the block for `account` leaves in its field, or its error. */
  function TakeAccount(d: map<string, Json>, rt: Runtime): Result<Json, PhpError> {
    (match SetDataOnAccount(EmptyAccount, Read(d, "account"))
     case Failure(e) => Failure(e)
     case Success(a) => Success(ShownAccount(Some(a))))
  }

  /** A key `setData` acts on and stops at. */
  predicate Refused(d: map<string, Json>, x: Field, rt: Runtime) {
    Reads(d, x) && Take(x, d, rt).Failure?
  }

  /** The block of `setData` for `id`, once the key is set. */
  function StoreId(f: CheckoutSessionFields, d: map<string, Json>, rt: Runtime): Update<CheckoutSessionFields> {
    (match AsStr(Read(d, "id"), "CheckoutSession::$id")
      case Failure(e) => Stopped(f, e)
      case Success(s) => Updated(f.(id := Some(s))))
  }

  /** The block of `setData` for `accountId`, once the key is set. */
  function StoreAccountId(f: CheckoutSessionFields, d: map<string, Json>, rt: Runtime): Update<CheckoutSessionFields> {
    (match AsStr(Read(d, "accountId"), "CheckoutSession::$accountId")
      case Failure(e) => Stopped(f, e)
      case Success(s) => Updated(f.(accountId := Some(s))))
  }

  /** The block of `setData` for `url`, once the key is set. */
  function StoreUrl(f: CheckoutSessionFields, d: map<string, Json>, rt: Runtime): Update<CheckoutSessionFields> {
    (match AsStr(Read(d, "url"), "CheckoutSession::$url")
      case Failure(e) => Stopped(f, e)
      case Success(s) => Updated(f.(url := Some(s))))
  }

  /** The block of `setData` for `updatedAt`, once the key is set. */
  function StoreUpdatedAt(f: CheckoutSessionFields, d: map<string, Json>, rt: Runtime): Update<CheckoutSessionFields> {
    (match NewDate(rt, Read(d, "updatedAt"), DateTarget)
      case Failure(e) => Stopped(f, e)
      case Success(s) => Updated(f.(updatedAt := Some(s))))
  }

  /** The block of `setData` for `createdAt`, once the key is set. */
  function StoreCreatedAt(f: CheckoutSessionFields, d: map<string, Json>, rt: Runtime): Update<CheckoutSessionFields> {
    (match NewDate(rt, Read(d, "createdAt"), DateTarget)
      case Failure(e) => Stopped(f, e)
      case Success(s) => Updated(f.(createdAt := Some(s))))
  }

  /** The block of `setData` for `billingAddressCollection`, once the key is set. */
  function StoreBillingAddressCollection(f: CheckoutSessionFields, d: map<string, Json>, rt: Runtime): Update<CheckoutSessionFields> {
    Updated(f.(billingAddressCollection := Some(BoolCast(Read(d, "billingAddressCollection")))))
  }

  /** The block of `setData` for `allowPromotionCodes`, once the key is set. */
  function StoreAllowPromotionCodes(f: CheckoutSessionFields, d: map<string, Json>, rt: Runtime): Update<CheckoutSessionFields> {
    Updated(f.(allowPromotionCodes := Some(BoolCast(Read(d, "allowPromotionCodes")))))
  }

  /** The block of `setData` for `successUrl`, once the key is set. */
  function StoreSuccessUrl(f: CheckoutSessionFields, d: map<string, Json>, rt: Runtime): Update<CheckoutSessionFields> {
    (match AsStr(Read(d, "successUrl"), "CheckoutSession::$successUrl")
      case Failure(e) => Stopped(f, e)
      case Success(s) => Updated(f.(successUrl := Some(s))))
  }

  /** The block of `setData` for `cancelUrl`, once the key is set. */
  function StoreCancelUrl(f: CheckoutSessionFields, d: map<string, Json>, rt: Runtime): Update<CheckoutSessionFields> {
    (match AsStr(Read(d, "cancelUrl"), "CheckoutSession::$cancelUrl")
      case Failure(e) => Stopped(f, e)
      case Success(s) => Updated(f.(cancelUrl := Some(s))))
  }

  /** The block of `setData` for `status`, once the key is set. */
  function StoreStatus(f: CheckoutSessionFields, d: map<string, Json>, rt: Runtime): Update<CheckoutSessionFields> {
    (match AsStr(Read(d, "status"), "CheckoutSession::$status")
      case Failure(e) => Stopped(f, e)
      case Success(s) => Updated(f.(status := Some(s))))
  }

  /** The block of `setData` for `lineItems`, once the key is set. */
  function StoreLineItems(f: CheckoutSessionFields, d: map<string, Json>, rt: Runtime): Update<CheckoutSessionFields> {
    (match BuildItems(Values(Read(d, "lineItems"), rt))
      case Stopped(p, e) => Stopped(f.(lineItems := Some(p)), e)
      case Updated(p) => Updated(f.(lineItems := Some(p))))
  }

  /** The block of `setData` for `mode`, once the key is set. */
  function StoreMode(f: CheckoutSessionFields, d: map<string, Json>, rt: Runtime): Update<CheckoutSessionFields> {
    (match AsStr(Read(d, "mode"), "CheckoutSession::$mode")
      case Failure(e) => Stopped(f, e)
      case Success(s) => Updated(f.(mode := Some(s))))
  }

  /** The block of `setData` for `shippingAddressCollection`, once the key is set. */
  function StoreShippingAddressCollection(f: CheckoutSessionFields, d: map<string, Json>, rt: Runtime): Update<CheckoutSessionFields> {
    Updated(f.(shippingAddressCollection := Some(BoolCast(Read(d, "shippingAddressCollection")))))
  }

  /** The block of `setData` for `shippingCountries`, once the key is set. */
  function StoreShippingCountries(f: CheckoutSessionFields, d: map<string, Json>, rt: Runtime): Update<CheckoutSessionFields> {
    Updated(f.(shippingCountries := Read(d, "shippingCountries")))
  }

  /** The block of `setData` for `shippingRates`, once the key is set. */
  function StoreShippingRates(f: CheckoutSessionFields, d: map<string, Json>, rt: Runtime): Update<CheckoutSessionFields> {
    Updated(f.(shippingRates := Read(d, "shippingRates")))
  }

  /** The block of `setData` for `paymentStatus`, once the key is set. */
  function StorePaymentStatus(f: CheckoutSessionFields, d: map<string, Json>, rt: Runtime): Update<CheckoutSessionFields> {
    (match AsStr(Read(d, "paymentStatus"), "CheckoutSession::$paymentStatus")
      case Failure(e) => Stopped(f, e)
      case Success(s) => Updated(f.(paymentStatus := Some(s))))
  }

  /** The block of `setData` for `paymentIntentId`, once the key is set. */
  function StorePaymentIntentId(f: CheckoutSessionFields, d: map<string, Json>, rt: Runtime): Update<CheckoutSessionFields> {
    (match AsStr(Read(d, "paymentIntentId"), "CheckoutSession::$paymentIntentId")
      case Failure(e) => Stopped(f, e)
      case Success(s) => Updated(f.(paymentIntentId := Some(s))))
  }

  /** The block of `setData` for `account`, once the key is set. */
  function StoreAccount(f: CheckoutSessionFields, d: map<string, Json>, rt: Runtime): Update<CheckoutSessionFields> {
    (match SetDataOnAccount(EmptyAccount, Read(d, "account"))
      case Failure(e) => Stopped(f.(account := Some(EmptyAccount)), e)
      case Success(a) => Updated(f.(account := Some(a))))
  }

  /** One `if (isset($data[key])) { ... }` block of `setData`. */
  function Step(f: CheckoutSessionFields, d: map<string, Json>, x: Field, rt: Runtime): Update<CheckoutSessionFields> {
    if !Reads(d, x) then Updated(f)
    else match x
      case Id => StoreId(f, d, rt)
      case AccountId => StoreAccountId(f, d, rt)
      case Url => StoreUrl(f, d, rt)
      case UpdatedAt => StoreUpdatedAt(f, d, rt)
      case CreatedAt => StoreCreatedAt(f, d, rt)
      case BillingAddressCollection => StoreBillingAddressCollection(f, d, rt)
      case AllowPromotionCodes => StoreAllowPromotionCodes(f, d, rt)
      case SuccessUrl => StoreSuccessUrl(f, d, rt)
      case CancelUrl => StoreCancelUrl(f, d, rt)
      case Status => StoreStatus(f, d, rt)
      case LineItems => StoreLineItems(f, d, rt)
      case Mode => StoreMode(f, d, rt)
      case ShippingAddressCollection => StoreShippingAddressCollection(f, d, rt)
      case ShippingCountries => StoreShippingCountries(f, d, rt)
      case ShippingRates => StoreShippingRates(f, d, rt)
      case PaymentStatus => StorePaymentStatus(f, d, rt)
      case PaymentIntentId => StorePaymentIntentId(f, d, rt)
      case Account => StoreAccount(f, d, rt)
  }

  /** The block for `id` stores what `Take` says or stops with its
      error, and touches no other field. */
  lemma StoreIdFacts(f: CheckoutSessionFields, d: map<string, Json>, rt: Runtime)
    ensures StoreId(f, d, rt).Updated? ==> TakeId(d, rt) == Success(OptStr(StoreId(f, d, rt).fields.id))
    ensures StoreId(f, d, rt).Stopped? ==> TakeId(d, rt) == Failure(StoreId(f, d, rt).error)
    ensures StoreId(f, d, rt).Stopped? ==> StoreId(f, d, rt).fields == f
    ensures StoreId(f, d, rt).fields == f.(id := StoreId(f, d, rt).fields.id)
  {
  }

  /** The block for `accountId` stores what `Take` says or stops with its
      error, and touches no other field. */
  lemma StoreAccountIdFacts(f: CheckoutSessionFields, d: map<string, Json>, rt: Runtime)
    ensures StoreAccountId(f, d, rt).Updated? ==> TakeAccountId(d, rt) == Success(OptStr(StoreAccountId(f, d, rt).fields.accountId))
    ensures StoreAccountId(f, d, rt).Stopped? ==> TakeAccountId(d, rt) == Failure(StoreAccountId(f, d, rt).error)
    ensures StoreAccountId(f, d, rt).Stopped? ==> StoreAccountId(f, d, rt).fields == f
    ensures StoreAccountId(f, d, rt).fields == f.(accountId := StoreAccountId(f, d, rt).fields.accountId)
  {
  }

  /** The block for `url` stores what `Take` says or stops with its
      error, and touches no other field. */
  lemma StoreUrlFacts(f: CheckoutSessionFields, d: map<string, Json>, rt: Runtime)
    ensures StoreUrl(f, d, rt).Updated? ==> TakeUrl(d, rt) == Success(OptStr(StoreUrl(f, d, rt).fields.url))
    ensures StoreUrl(f, d, rt).Stopped? ==> TakeUrl(d, rt) == Failure(StoreUrl(f, d, rt).error)
    ensures StoreUrl(f, d, rt).Stopped? ==> StoreUrl(f, d, rt).fields == f
    ensures StoreUrl(f, d, rt).fields == f.(url := StoreUrl(f, d, rt).fields.url)
  {
  }

  /** The block for `updatedAt` stores what `Take` says or stops with its
      error, and touches no other field. */
  lemma StoreUpdatedAtFacts(f: CheckoutSessionFields, d: map<string, Json>, rt: Runtime)
    ensures StoreUpdatedAt(f, d, rt).Updated? ==> TakeUpdatedAt(d, rt) == Success(OptDate(StoreUpdatedAt(f, d, rt).fields.updatedAt))
    ensures StoreUpdatedAt(f, d, rt).Stopped? ==> TakeUpdatedAt(d, rt) == Failure(StoreUpdatedAt(f, d, rt).error)
    ensures StoreUpdatedAt(f, d, rt).Stopped? ==> StoreUpdatedAt(f, d, rt).fields == f
    ensures StoreUpdatedAt(f, d, rt).fields == f.(updatedAt := StoreUpdatedAt(f, d, rt).fields.updatedAt)
  {
  }

  /** The block for `createdAt` stores what `Take` says or stops with its
      error, and touches no other field. */
  lemma StoreCreatedAtFacts(f: CheckoutSessionFields, d: map<string, Json>, rt: Runtime)
    ensures StoreCreatedAt(f, d, rt).Updated? ==> TakeCreatedAt(d, rt) == Success(OptDate(StoreCreatedAt(f, d, rt).fields.createdAt))
    ensures StoreCreatedAt(f, d, rt).Stopped? ==> TakeCreatedAt(d, rt) == Failure(StoreCreatedAt(f, d, rt).error)
    ensures StoreCreatedAt(f, d, rt).Stopped? ==> StoreCreatedAt(f, d, rt).fields == f
    ensures StoreCreatedAt(f, d, rt).fields == f.(createdAt := StoreCreatedAt(f, d, rt).fields.createdAt)
  {
  }

  /** The block for `billingAddressCollection` stores what `Take` says or stops with its
      error, and touches no other field. */
  lemma StoreBillingAddressCollectionFacts(f: CheckoutSessionFields, d: map<string, Json>, rt: Runtime)
    ensures StoreBillingAddressCollection(f, d, rt).Updated? && TakeBillingAddressCollection(d, rt) == Success(OptBool(StoreBillingAddressCollection(f, d, rt).fields.billingAddressCollection))
    ensures StoreBillingAddressCollection(f, d, rt).fields == f.(billingAddressCollection := StoreBillingAddressCollection(f, d, rt).fields.billingAddressCollection)
  {
  }

  /** The block for `allowPromotionCodes` stores what `Take` says or stops with its
      error, and touches no other field. */
  lemma StoreAllowPromotionCodesFacts(f: CheckoutSessionFields, d: map<string, Json>, rt: Runtime)
    ensures StoreAllowPromotionCodes(f, d, rt).Updated? && TakeAllowPromotionCodes(d, rt) == Success(OptBool(StoreAllowPromotionCodes(f, d, rt).fields.allowPromotionCodes))
    ensures StoreAllowPromotionCodes(f, d, rt).fields == f.(allowPromotionCodes := StoreAllowPromotionCodes(f, d, rt).fields.allowPromotionCodes)
  {
  }

  /** The block for `successUrl` stores what `Take` says or stops with its
      error, and touches no other field. */
  lemma StoreSuccessUrlFacts(f: CheckoutSessionFields, d: map<string, Json>, rt: Runtime)
    ensures StoreSuccessUrl(f, d, rt).Updated? ==> TakeSuccessUrl(d, rt) == Success(OptStr(StoreSuccessUrl(f, d, rt).fields.successUrl))
    ensures StoreSuccessUrl(f, d, rt).Stopped? ==> TakeSuccessUrl(d, rt) == Failure(StoreSuccessUrl(f, d, rt).error)
    ensures StoreSuccessUrl(f, d, rt).Stopped? ==> StoreSuccessUrl(f, d, rt).fields == f
    ensures StoreSuccessUrl(f, d, rt).fields == f.(successUrl := StoreSuccessUrl(f, d, rt).fields.successUrl)
  {
  }

  /** The block for `cancelUrl` stores what `Take` says or stops with its
      error, and touches no other field. */
  lemma StoreCancelUrlFacts(f: CheckoutSessionFields, d: map<string, Json>, rt: Runtime)
    ensures StoreCancelUrl(f, d, rt).Updated? ==> TakeCancelUrl(d, rt) == Success(OptStr(StoreCancelUrl(f, d, rt).fields.cancelUrl))
    ensures StoreCancelUrl(f, d, rt).Stopped? ==> TakeCancelUrl(d, rt) == Failure(StoreCancelUrl(f, d, rt).error)
    ensures StoreCancelUrl(f, d, rt).Stopped? ==> StoreCancelUrl(f, d, rt).fields == f
    ensures StoreCancelUrl(f, d, rt).fields == f.(cancelUrl := StoreCancelUrl(f, d, rt).fields.cancelUrl)
  {
  }

  /** The block for `status` stores what `Take` says or stops with its
      error, and touches no other field. */
  lemma StoreStatusFacts(f: CheckoutSessionFields, d: map<string, Json>, rt: Runtime)
    ensures StoreStatus(f, d, rt).Updated? ==> TakeStatus(d, rt) == Success(OptStr(StoreStatus(f, d, rt).fields.status))
    ensures StoreStatus(f, d, rt).Stopped? ==> TakeStatus(d, rt) == Failure(StoreStatus(f, d, rt).error)
    ensures StoreStatus(f, d, rt).Stopped? ==> StoreStatus(f, d, rt).fields == f
    ensures StoreStatus(f, d, rt).fields == f.(status := StoreStatus(f, d, rt).fields.status)
  {
  }

  /** The block for `lineItems` stores what `Take` says or stops with its
      error, and touches no other field. */
  lemma StoreLineItemsFacts(f: CheckoutSessionFields, d: map<string, Json>, rt: Runtime)
    ensures StoreLineItems(f, d, rt).Updated? ==> TakeLineItems(d, rt) == Success(ShownItems(StoreLineItems(f, d, rt).fields.lineItems))
    ensures StoreLineItems(f, d, rt).Stopped? ==> TakeLineItems(d, rt) == Failure(StoreLineItems(f, d, rt).error)
    ensures StoreLineItems(f, d, rt).fields == f.(lineItems := StoreLineItems(f, d, rt).fields.lineItems)
  {
  }

  /** The block for `mode` stores what `Take` says or stops with its
      error, and touches no other field. */
  lemma StoreModeFacts(f: CheckoutSessionFields, d: map<string, Json>, rt: Runtime)
    ensures StoreMode(f, d, rt).Updated? ==> TakeMode(d, rt) == Success(OptStr(StoreMode(f, d, rt).fields.mode))
    ensures StoreMode(f, d, rt).Stopped? ==> TakeMode(d, rt) == Failure(StoreMode(f, d, rt).error)
    ensures StoreMode(f, d, rt).Stopped? ==> StoreMode(f, d, rt).fields == f
    ensures StoreMode(f, d, rt).fields == f.(mode := StoreMode(f, d, rt).fields.mode)
  {
  }

  /** The block for `shippingAddressCollection` stores what `Take` says or stops with its
      error, and touches no other field. */
  lemma StoreShippingAddressCollectionFacts(f: CheckoutSessionFields, d: map<string, Json>, rt: Runtime)
    ensures StoreShippingAddressCollection(f, d, rt).Updated? && TakeShippingAddressCollection(d, rt) == Success(OptBool(StoreShippingAddressCollection(f, d, rt).fields.shippingAddressCollection))
    ensures StoreShippingAddressCollection(f, d, rt).fields == f.(shippingAddressCollection := StoreShippingAddressCollection(f, d, rt).fields.shippingAddressCollection)
  {
  }

  /** The block for `shippingCountries` stores what `Take` says or stops with its
      error, and touches no other field. */
  lemma StoreShippingCountriesFacts(f: CheckoutSessionFields, d: map<string, Json>, rt: Runtime)
    ensures StoreShippingCountries(f, d, rt).Updated? && TakeShippingCountries(d, rt) == Success(StoreShippingCountries(f, d, rt).fields.shippingCountries)
    ensures StoreShippingCountries(f, d, rt).fields == f.(shippingCountries := StoreShippingCountries(f, d, rt).fields.shippingCountries)
  {
  }

  /** The block for `shippingRates` stores what `Take` says or stops with its
      error, and touches no other field. */
  lemma StoreShippingRatesFacts(f: CheckoutSessionFields, d: map<string, Json>, rt: Runtime)
    ensures StoreShippingRates(f, d, rt).Updated? && TakeShippingRates(d, rt) == Success(StoreShippingRates(f, d, rt).fields.shippingRates)
    ensures StoreShippingRates(f, d, rt).fields == f.(shippingRates := StoreShippingRates(f, d, rt).fields.shippingRates)
  {
  }

  /** The block for `paymentStatus` stores what `Take` says or stops with its
      error, and touches no other field. */
  lemma StorePaymentStatusFacts(f: CheckoutSessionFields, d: map<string, Json>, rt: Runtime)
    ensures StorePaymentStatus(f, d, rt).Updated? ==> TakePaymentStatus(d, rt) == Success(OptStr(StorePaymentStatus(f, d, rt).fields.paymentStatus))
    ensures StorePaymentStatus(f, d, rt).Stopped? ==> TakePaymentStatus(d, rt) == Failure(StorePaymentStatus(f, d, rt).error)
    ensures StorePaymentStatus(f, d, rt).Stopped? ==> StorePaymentStatus(f, d, rt).fields == f
    ensures StorePaymentStatus(f, d, rt).fields == f.(paymentStatus := StorePaymentStatus(f, d, rt).fields.paymentStatus)
  {
  }

  /** The block for `paymentIntentId` stores what `Take` says or stops with its
      error, and touches no other field. */
  lemma StorePaymentIntentIdFacts(f: CheckoutSessionFields, d: map<string, Json>, rt: Runtime)
    ensures StorePaymentIntentId(f, d, rt).Updated? ==> TakePaymentIntentId(d, rt) == Success(OptStr(StorePaymentIntentId(f, d, rt).fields.paymentIntentId))
    ensures StorePaymentIntentId(f, d, rt).Stopped? ==> TakePaymentIntentId(d, rt) == Failure(StorePaymentIntentId(f, d, rt).error)
    ensures StorePaymentIntentId(f, d, rt).Stopped? ==> StorePaymentIntentId(f, d, rt).fields == f
    ensures StorePaymentIntentId(f, d, rt).fields == f.(paymentIntentId := StorePaymentIntentId(f, d, rt).fields.paymentIntentId)
  {
  }

  /** The block for `account` stores what `Take` says or stops with its
      error, and touches no other field. */
  lemma StoreAccountFacts(f: CheckoutSessionFields, d: map<string, Json>, rt: Runtime)
    ensures StoreAccount(f, d, rt).Updated? ==> TakeAccount(d, rt) == Success(ShownAccount(StoreAccount(f, d, rt).fields.account))
    ensures StoreAccount(f, d, rt).Stopped? ==> TakeAccount(d, rt) == Failure(StoreAccount(f, d, rt).error)
    ensures StoreAccount(f, d, rt).fields == f.(account := StoreAccount(f, d, rt).fields.account)
  {
  }

  /** What one block does: nothing unless it acts on its key; then it
      stores what `Take` says or stops with its error, and it never
      touches another field. */
  lemma StepFacts(f: CheckoutSessionFields, d: map<string, Json>, x: Field, rt: Runtime)
    ensures !Reads(d, x) ==> Step(f, d, x, rt) == Updated(f)
    ensures Reads(d, x) && Step(f, d, x, rt).Updated? ==> Take(x, d, rt) == Success(Step(f, d, x, rt).fields.Get(x))
    ensures Reads(d, x) && Step(f, d, x, rt).Stopped? ==> Take(x, d, rt) == Failure(Step(f, d, x, rt).error)
    ensures Step(f, d, x, rt).Stopped? && x != LineItems && x != Account ==> Step(f, d, x, rt).fields == f
    ensures forall y: Field :: y != x ==> Same(Step(f, d, x, rt).fields, f, y)
  {
    if x == Id || x == AccountId || x == Url || x == UpdatedAt {
      StepFacts1(f, d, x, rt);
    } else if x == CreatedAt || x == BillingAddressCollection || x == AllowPromotionCodes || x == SuccessUrl {
      StepFacts2(f, d, x, rt);
    } else if x == CancelUrl || x == Status || x == LineItems || x == Mode {
      StepFacts3(f, d, x, rt);
    } else if x == ShippingAddressCollection || x == ShippingCountries || x == ShippingRates || x == PaymentStatus {
      StepFacts4(f, d, x, rt);
    } else {
      StepFacts5(f, d, x, rt);
    }
    OverwriteSame(f, Step(f, d, x, rt).fields, x);
  }

  /** `StepFacts` for the keys Id to UpdatedAt. */
  lemma StepFacts1(f: CheckoutSessionFields, d: map<string, Json>, x: Field, rt: Runtime)
    requires x == Id || x == AccountId || x == Url || x == UpdatedAt
    ensures !Reads(d, x) ==> Step(f, d, x, rt) == Updated(f)
    ensures Reads(d, x) && Step(f, d, x, rt).Updated? ==> Take(x, d, rt) == Success(Step(f, d, x, rt).fields.Get(x))
    ensures Reads(d, x) && Step(f, d, x, rt).Stopped? ==> Take(x, d, rt) == Failure(Step(f, d, x, rt).error)
    ensures Step(f, d, x, rt).Stopped? && x != LineItems && x != Account ==> Step(f, d, x, rt).fields == f
    ensures Step(f, d, x, rt).fields == Overwrite(f, x, Step(f, d, x, rt).fields)
  {
    match x
    case Id => StoreIdFacts(f, d, rt);
    case AccountId => StoreAccountIdFacts(f, d, rt);
    case Url => StoreUrlFacts(f, d, rt);
    case UpdatedAt => StoreUpdatedAtFacts(f, d, rt);
  }

  /** `StepFacts` for the keys CreatedAt to SuccessUrl. */
  lemma StepFacts2(f: CheckoutSessionFields, d: map<string, Json>, x: Field, rt: Runtime)
    requires x == CreatedAt || x == BillingAddressCollection || x == AllowPromotionCodes || x == SuccessUrl
    ensures !Reads(d, x) ==> Step(f, d, x, rt) == Updated(f)
    ensures Reads(d, x) && Step(f, d, x, rt).Updated? ==> Take(x, d, rt) == Success(Step(f, d, x, rt).fields.Get(x))
    ensures Reads(d, x) && Step(f, d, x, rt).Stopped? ==> Take(x, d, rt) == Failure(Step(f, d, x, rt).error)
    ensures Step(f, d, x, rt).Stopped? && x != LineItems && x != Account ==> Step(f, d, x, rt).fields == f
    ensures Step(f, d, x, rt).fields == Overwrite(f, x, Step(f, d, x, rt).fields)
  {
    match x
    case CreatedAt => StoreCreatedAtFacts(f, d, rt);
    case BillingAddressCollection => StoreBillingAddressCollectionFacts(f, d, rt);
    case AllowPromotionCodes => StoreAllowPromotionCodesFacts(f, d, rt);
    case SuccessUrl => StoreSuccessUrlFacts(f, d, rt);
  }

  /** `StepFacts` for the keys CancelUrl to Mode. */
  lemma StepFacts3(f: CheckoutSessionFields, d: map<string, Json>, x: Field, rt: Runtime)
    requires x == CancelUrl || x == Status || x == LineItems || x == Mode
    ensures !Reads(d, x) ==> Step(f, d, x, rt) == Updated(f)
    ensures Reads(d, x) && Step(f, d, x, rt).Updated? ==> Take(x, d, rt) == Success(Step(f, d, x, rt).fields.Get(x))
    ensures Reads(d, x) && Step(f, d, x, rt).Stopped? ==> Take(x, d, rt) == Failure(Step(f, d, x, rt).error)
    ensures Step(f, d, x, rt).Stopped? && x != LineItems && x != Account ==> Step(f, d, x, rt).fields == f
    ensures Step(f, d, x, rt).fields == Overwrite(f, x, Step(f, d, x, rt).fields)
  {
    match x
    case CancelUrl => StoreCancelUrlFacts(f, d, rt);
    case Status => StoreStatusFacts(f, d, rt);
    case LineItems => StoreLineItemsFacts(f, d, rt);
    case Mode => StoreModeFacts(f, d, rt);
  }

  /** `StepFacts` for the keys ShippingAddressCollection to PaymentStatus. */
  lemma StepFacts4(f: CheckoutSessionFields, d: map<string, Json>, x: Field, rt: Runtime)
    requires x == ShippingAddressCollection || x == ShippingCountries || x == ShippingRates || x == PaymentStatus
    ensures !Reads(d, x) ==> Step(f, d, x, rt) == Updated(f)
    ensures Reads(d, x) && Step(f, d, x, rt).Updated? ==> Take(x, d, rt) == Success(Step(f, d, x, rt).fields.Get(x))
    ensures Reads(d, x) && Step(f, d, x, rt).Stopped? ==> Take(x, d, rt) == Failure(Step(f, d, x, rt).error)
    ensures Step(f, d, x, rt).Stopped? && x != LineItems && x != Account ==> Step(f, d, x, rt).fields == f
    ensures Step(f, d, x, rt).fields == Overwrite(f, x, Step(f, d, x, rt).fields)
  {
    match x
    case ShippingAddressCollection => StoreShippingAddressCollectionFacts(f, d, rt);
    case ShippingCountries => StoreShippingCountriesFacts(f, d, rt);
    case ShippingRates => StoreShippingRatesFacts(f, d, rt);
    case PaymentStatus => StorePaymentStatusFacts(f, d, rt);
  }

  /** `StepFacts` for the keys PaymentIntentId to Account. */
  lemma StepFacts5(f: CheckoutSessionFields, d: map<string, Json>, x: Field, rt: Runtime)
    requires x == PaymentIntentId || x == Account
    ensures !Reads(d, x) ==> Step(f, d, x, rt) == Updated(f)
    ensures Reads(d, x) && Step(f, d, x, rt).Updated? ==> Take(x, d, rt) == Success(Step(f, d, x, rt).fields.Get(x))
    ensures Reads(d, x) && Step(f, d, x, rt).Stopped? ==> Take(x, d, rt) == Failure(Step(f, d, x, rt).error)
    ensures Step(f, d, x, rt).Stopped? && x != LineItems && x != Account ==> Step(f, d, x, rt).fields == f
    ensures Step(f, d, x, rt).fields == Overwrite(f, x, Step(f, d, x, rt).fields)
  {
    match x
    case PaymentIntentId => StorePaymentIntentIdFacts(f, d, rt);
    case Account => StoreAccountFacts(f, d, rt);
  }

  /** `setData($data)` on an object in state `f`. */
  function Apply(f: CheckoutSessionFields, d: map<string, Json>, rt: Runtime): Update<CheckoutSessionFields> {
    Fold(Step, f, d, Order, rt)
  }

  class CheckoutSession {
    var id: Option<string>
    var accountId: Option<string>
    var url: Option<string>
    var updatedAt: Option<DateTime>
    var createdAt: Option<DateTime>
    var billingAddressCollection: Option<bool>
    var allowPromotionCodes: Option<bool>
    var successUrl: Option<string>
    var cancelUrl: Option<string>
    var status: Option<string>
    var lineItems: Option<seq<LineItem>>
    var mode: Option<string>
    var shippingAddressCollection: Option<bool>
    var shippingCountries: Json
    var shippingRates: Json
    var paymentStatus: Option<string>
    var paymentIntentId: Option<string>
    var account: Option<Account>

    function Fields(): CheckoutSessionFields
      reads this
    {
      CheckoutSessionFields(id, accountId, url, updatedAt, createdAt, billingAddressCollection, allowPromotionCodes, successUrl, cancelUrl, status, lineItems, mode, shippingAddressCollection, shippingCountries, shippingRates, paymentStatus, paymentIntentId, account)
    }

    /** An object in state `f`; `New` is the PHP constructor. */
    constructor (f: CheckoutSessionFields)
      ensures Fields() == f
    {
      id := f.id;
      accountId := f.accountId;
      url := f.url;
      updatedAt := f.updatedAt;
      createdAt := f.createdAt;
      billingAddressCollection := f.billingAddressCollection;
      allowPromotionCodes := f.allowPromotionCodes;
      successUrl := f.successUrl;
      cancelUrl := f.cancelUrl;
      status := f.status;
      lineItems := f.lineItems;
      mode := f.mode;
      shippingAddressCollection := f.shippingAddressCollection;
      shippingCountries := f.shippingCountries;
      shippingRates := f.shippingRates;
      paymentStatus := f.paymentStatus;
      paymentIntentId := f.paymentIntentId;
      account := f.account;
    }

    /** One guarded assignment of `setData`. */
    method Assign(x: Field, data: map<string, Json>, rt: Runtime) returns (r: Result<(), PhpError>)
      modifies this
      ensures Fields() == Step(old(Fields()), data, x, rt).fields
      ensures r.Failure? <==> Step(old(Fields()), data, x, rt).Stopped?
      ensures r.Failure? ==> r.error == Step(old(Fields()), data, x, rt).error
    {
      if !Reads(data, x) {
        return Success(());
      }
      match x
      case Id => r := AssignId(data, rt);
      case AccountId => r := AssignAccountId(data, rt);
      case Url => r := AssignUrl(data, rt);
      case UpdatedAt => r := AssignUpdatedAt(data, rt);
      case CreatedAt => r := AssignCreatedAt(data, rt);
      case BillingAddressCollection => r := AssignBillingAddressCollection(data, rt);
      case AllowPromotionCodes => r := AssignAllowPromotionCodes(data, rt);
      case SuccessUrl => r := AssignSuccessUrl(data, rt);
      case CancelUrl => r := AssignCancelUrl(data, rt);
      case Status => r := AssignStatus(data, rt);
      case LineItems => r := AssignLineItems(data, rt);
      case Mode => r := AssignMode(data, rt);
      case ShippingAddressCollection => r := AssignShippingAddressCollection(data, rt);
      case ShippingCountries => r := AssignShippingCountries(data, rt);
      case ShippingRates => r := AssignShippingRates(data, rt);
      case PaymentStatus => r := AssignPaymentStatus(data, rt);
      case PaymentIntentId => r := AssignPaymentIntentId(data, rt);
      case Account => r := AssignAccount(data, rt);
    }

    /** The block for `id`. */
    method AssignId(data: map<string, Json>, rt: Runtime) returns (r: Result<(), PhpError>)
      modifies this
      ensures Fields() == StoreId(old(Fields()), data, rt).fields
      ensures r.Failure? <==> StoreId(old(Fields()), data, rt).Stopped?
      ensures r.Failure? ==> r.error == StoreId(old(Fields()), data, rt).error
    {
      var s :- AsStr(Read(data, "id"), "CheckoutSession::$id");
      id := Some(s);
      return Success(());
    }

    /** The block for `accountId`. */
    method AssignAccountId(data: map<string, Json>, rt: Runtime) returns (r: Result<(), PhpError>)
      modifies this
      ensures Fields() == StoreAccountId(old(Fields()), data, rt).fields
      ensures r.Failure? <==> StoreAccountId(old(Fields()), data, rt).Stopped?
      ensures r.Failure? ==> r.error == StoreAccountId(old(Fields()), data, rt).error
    {
      var s :- AsStr(Read(data, "accountId"), "CheckoutSession::$accountId");
      accountId := Some(s);
      return Success(());
    }

    /** The block for `url`. */
    method AssignUrl(data: map<string, Json>, rt: Runtime) returns (r: Result<(), PhpError>)
      modifies this
      ensures Fields() == StoreUrl(old(Fields()), data, rt).fields
      ensures r.Failure? <==> StoreUrl(old(Fields()), data, rt).Stopped?
      ensures r.Failure? ==> r.error == StoreUrl(old(Fields()), data, rt).error
    {
      var s :- AsStr(Read(data, "url"), "CheckoutSession::$url");
      url := Some(s);
      return Success(());
    }

    /** The block for `updatedAt`. */
    method AssignUpdatedAt(data: map<string, Json>, rt: Runtime) returns (r: Result<(), PhpError>)
      modifies this
      ensures Fields() == StoreUpdatedAt(old(Fields()), data, rt).fields
      ensures r.Failure? <==> StoreUpdatedAt(old(Fields()), data, rt).Stopped?
      ensures r.Failure? ==> r.error == StoreUpdatedAt(old(Fields()), data, rt).error
    {
      var s :- NewDate(rt, Read(data, "updatedAt"), DateTarget);
      updatedAt := Some(s);
      return Success(());
    }

    /** The block for `createdAt`. */
    method AssignCreatedAt(data: map<string, Json>, rt: Runtime) returns (r: Result<(), PhpError>)
      modifies this
      ensures Fields() == StoreCreatedAt(old(Fields()), data, rt).fields
      ensures r.Failure? <==> StoreCreatedAt(old(Fields()), data, rt).Stopped?
      ensures r.Failure? ==> r.error == StoreCreatedAt(old(Fields()), data, rt).error
    {
      var s :- NewDate(rt, Read(data, "createdAt"), DateTarget);
      createdAt := Some(s);
      return Success(());
    }

    /** The block for `billingAddressCollection`. */
    method AssignBillingAddressCollection(data: map<string, Json>, rt: Runtime) returns (r: Result<(), PhpError>)
      modifies this
      ensures Fields() == StoreBillingAddressCollection(old(Fields()), data, rt).fields
      ensures r.Failure? <==> StoreBillingAddressCollection(old(Fields()), data, rt).Stopped?
      ensures r.Failure? ==> r.error == StoreBillingAddressCollection(old(Fields()), data, rt).error
    {
      billingAddressCollection := Some(BoolCast(Read(data, "billingAddressCollection")));
      return Success(());
    }

    /** The block for `allowPromotionCodes`. */
    method AssignAllowPromotionCodes(data: map<string, Json>, rt: Runtime) returns (r: Result<(), PhpError>)
      modifies this
      ensures Fields() == StoreAllowPromotionCodes(old(Fields()), data, rt).fields
      ensures r.Failure? <==> StoreAllowPromotionCodes(old(Fields()), data, rt).Stopped?
      ensures r.Failure? ==> r.error == StoreAllowPromotionCodes(old(Fields()), data, rt).error
    {
      allowPromotionCodes := Some(BoolCast(Read(data, "allowPromotionCodes")));
      return Success(());
    }

    /** The block for `successUrl`. */
    method AssignSuccessUrl(data: map<string, Json>, rt: Runtime) returns (r: Result<(), PhpError>)
      modifies this
      ensures Fields() == StoreSuccessUrl(old(Fields()), data, rt).fields
      ensures r.Failure? <==> StoreSuccessUrl(old(Fields()), data, rt).Stopped?
      ensures r.Failure? ==> r.error == StoreSuccessUrl(old(Fields()), data, rt).error
    {
      var s :- AsStr(Read(data, "successUrl"), "CheckoutSession::$successUrl");
      successUrl := Some(s);
      return Success(());
    }

    /** The block for `cancelUrl`. */
    method AssignCancelUrl(data: map<string, Json>, rt: Runtime) returns (r: Result<(), PhpError>)
      modifies this
      ensures Fields() == StoreCancelUrl(old(Fields()), data, rt).fields
      ensures r.Failure? <==> StoreCancelUrl(old(Fields()), data, rt).Stopped?
      ensures r.Failure? ==> r.error == StoreCancelUrl(old(Fields()), data, rt).error
    {
      var s :- AsStr(Read(data, "cancelUrl"), "CheckoutSession::$cancelUrl");
      cancelUrl := Some(s);
      return Success(());
    }

    /** The block for `status`. */
    method AssignStatus(data: map<string, Json>, rt: Runtime) returns (r: Result<(), PhpError>)
      modifies this
      ensures Fields() == StoreStatus(old(Fields()), data, rt).fields
      ensures r.Failure? <==> StoreStatus(old(Fields()), data, rt).Stopped?
      ensures r.Failure? ==> r.error == StoreStatus(old(Fields()), data, rt).error
    {
      var s :- AsStr(Read(data, "status"), "CheckoutSession::$status");
      status := Some(s);
      return Success(());
    }

    /** The block for `lineItems`. */
    method AssignLineItems(data: map<string, Json>, rt: Runtime) returns (r: Result<(), PhpError>)
      modifies this
      ensures Fields() == StoreLineItems(old(Fields()), data, rt).fields
      ensures r.Failure? <==> StoreLineItems(old(Fields()), data, rt).Stopped?
      ensures r.Failure? ==> r.error == StoreLineItems(old(Fields()), data, rt).error
    {
      var items := Values(Read(data, "lineItems"), rt);
      lineItems := Some([]);
      var i := 0;
      while i < |items|
        invariant 0 <= i <= |items|
        invariant lineItems.Some? && AppendEach(items[i..], ItemFrom, lineItems.value) == BuildItems(items)
        invariant Fields() == old(Fields()).(lineItems := lineItems)
      {
        var item := ItemFrom(items[i]);
        AppendEachNext(items[i..], ItemFrom, lineItems.value);
        assert items[i..][0] == items[i] && items[i..][1..] == items[i + 1..];
        if item.Failure? {
          return Failure(item.error);
        }
        lineItems := Some(lineItems.value + [item.value]);
        i := i + 1;
      }
      assert items[i..] == [];
      return Success(());
    }

    /** The block for `mode`. */
    method AssignMode(data: map<string, Json>, rt: Runtime) returns (r: Result<(), PhpError>)
      modifies this
      ensures Fields() == StoreMode(old(Fields()), data, rt).fields
      ensures r.Failure? <==> StoreMode(old(Fields()), data, rt).Stopped?
      ensures r.Failure? ==> r.error == StoreMode(old(Fields()), data, rt).error
    {
      var s :- AsStr(Read(data, "mode"), "CheckoutSession::$mode");
      mode := Some(s);
      return Success(());
    }

    /** The block for `shippingAddressCollection`. */
    method AssignShippingAddressCollection(data: map<string, Json>, rt: Runtime) returns (r: Result<(), PhpError>)
      modifies this
      ensures Fields() == StoreShippingAddressCollection(old(Fields()), data, rt).fields
      ensures r.Failure? <==> StoreShippingAddressCollection(old(Fields()), data, rt).Stopped?
      ensures r.Failure? ==> r.error == StoreShippingAddressCollection(old(Fields()), data, rt).error
    {
      shippingAddressCollection := Some(BoolCast(Read(data, "shippingAddressCollection")));
      return Success(());
    }

    /** The block for `shippingCountries`. */
    method AssignShippingCountries(data: map<string, Json>, rt: Runtime) returns (r: Result<(), PhpError>)
      modifies this
      ensures Fields() == StoreShippingCountries(old(Fields()), data, rt).fields
      ensures r.Failure? <==> StoreShippingCountries(old(Fields()), data, rt).Stopped?
      ensures r.Failure? ==> r.error == StoreShippingCountries(old(Fields()), data, rt).error
    {
      shippingCountries := Read(data, "shippingCountries");
      return Success(());
    }

    /** The block for `shippingRates`. */
    method AssignShippingRates(data: map<string, Json>, rt: Runtime) returns (r: Result<(), PhpError>)
      modifies this
      ensures Fields() == StoreShippingRates(old(Fields()), data, rt).fields
      ensures r.Failure? <==> StoreShippingRates(old(Fields()), data, rt).Stopped?
      ensures r.Failure? ==> r.error == StoreShippingRates(old(Fields()), data, rt).error
    {
      shippingRates := Read(data, "shippingRates");
      return Success(());
    }

    /** The block for `paymentStatus`. */
    method AssignPaymentStatus(data: map<string, Json>, rt: Runtime) returns (r: Result<(), PhpError>)
      modifies this
      ensures Fields() == StorePaymentStatus(old(Fields()), data, rt).fields
      ensures r.Failure? <==> StorePaymentStatus(old(Fields()), data, rt).Stopped?
      ensures r.Failure? ==> r.error == StorePaymentStatus(old(Fields()), data, rt).error
    {
      var s :- AsStr(Read(data, "paymentStatus"), "CheckoutSession::$paymentStatus");
      paymentStatus := Some(s);
      return Success(());
    }

    /** The block for `paymentIntentId`. */
    method AssignPaymentIntentId(data: map<string, Json>, rt: Runtime) returns (r: Result<(), PhpError>)
      modifies this
      ensures Fields() == StorePaymentIntentId(old(Fields()), data, rt).fields
      ensures r.Failure? <==> StorePaymentIntentId(old(Fields()), data, rt).Stopped?
      ensures r.Failure? ==> r.error == StorePaymentIntentId(old(Fields()), data, rt).error
    {
      var s :- AsStr(Read(data, "paymentIntentId"), "CheckoutSession::$paymentIntentId");
      paymentIntentId := Some(s);
      return Success(());
    }

    /** The block for `account`. */
    method AssignAccount(data: map<string, Json>, rt: Runtime) returns (r: Result<(), PhpError>)
      modifies this
      ensures Fields() == StoreAccount(old(Fields()), data, rt).fields
      ensures r.Failure? <==> StoreAccount(old(Fields()), data, rt).Stopped?
      ensures r.Failure? ==> r.error == StoreAccount(old(Fields()), data, rt).error
    {
      account := Some(EmptyAccount);
      var a :- SetDataOnAccount(account.value, Read(data, "account"));
      account := Some(a);
      return Success(());
    }

    /** The blocks for the keys of `xs`, one after the other, up to the
        first error. */
    method AssignAll(xs: seq<Field>, data: map<string, Json>, rt: Runtime) returns (r: Result<(), PhpError>)
      modifies this
      ensures Fields() == Fold(Step, old(Fields()), data, xs, rt).fields
      ensures r.Failure? <==> Fold(Step, old(Fields()), data, xs, rt).Stopped?
      ensures r.Failure? ==> r.error == Fold(Step, old(Fields()), data, xs, rt).error
      decreases |xs|
    {
      if xs == [] {
        return Success(());
      }
      r := Assign(xs[0], data, rt);
      if r.Failure? {
        return;
      }
      r := AssignAll(xs[1..], data, rt);
    }

    /** `setData($data)`: every block, in the order of the source. */
    method SetData(data: map<string, Json>, rt: Runtime) returns (r: Result<(), PhpError>)
      modifies this
      ensures Fields() == Apply(old(Fields()), data, rt).fields
      ensures r.Failure? <==> Apply(old(Fields()), data, rt).Stopped?
      ensures r.Failure? ==> r.error == Apply(old(Fields()), data, rt).error
    {
      r := AssignAll(Order, data, rt);
    }
  }

  // ---------------------------------------------------------------------------
  // Properties of setData

  lemma OrderIsComplete(x: Field)
    ensures x in Order
  {
  }

  /** A field whose key `setData` does not act on keeps its value, even
      when `setData` stops early. */
  lemma ApplyKeepsUnread(f: CheckoutSessionFields, d: map<string, Json>, x: Field, rt: Runtime)
    requires !Reads(d, x)
    ensures Apply(f, d, rt).fields.Get(x) == f.Get(x)
  {
    var P := (g: CheckoutSessionFields) => g.Get(x) == f.Get(x);
    StepKeepsUnread(d, x, rt, f.Get(x), P);
    FoldKeeps(Step, f, d, Order, rt, P);
  }

  /** No step changes a field whose key `setData` does not act on. */
  lemma StepKeepsUnread(d: map<string, Json>, x: Field, rt: Runtime, v: Json, P: CheckoutSessionFields -> bool)
    requires !Reads(d, x)
    requires forall g :: P(g) <==> g.Get(x) == v
    ensures forall g, y :: y in Order && P(g) ==> P(Step(g, d, y, rt).fields)
  {
    forall g, y | y in Order && P(g)
      ensures P(Step(g, d, y, rt).fields)
    {
      StepFacts(g, d, y, rt);
      if y != x {
        SameGet(Step(g, d, y, rt).fields, g, x);
      }
    }
  }

  /** When `setData` completes, each field it acts on holds what `Take`
      says. */
  lemma ApplyStoresRead(f: CheckoutSessionFields, d: map<string, Json>, x: Field, rt: Runtime)
    requires Reads(d, x) && Apply(f, d, rt).Updated?
    ensures Take(x, d, rt) == Success(Apply(f, d, rt).fields.Get(x))
  {
    OrderIsComplete(x);
    var P := (g: CheckoutSessionFields) => Take(x, d, rt) == Success(g.Get(x));
    StepStoresRead(d, x, rt, P);
    ApplyEstablishes(f, d, x, rt, P);
  }

  /** `FoldEstablishes` for `setData`'s own steps. */
  lemma ApplyEstablishes(f: CheckoutSessionFields, d: map<string, Json>, x: Field, rt: Runtime, P: CheckoutSessionFields -> bool)
    requires x in Order
    requires forall g :: Step(g, d, x, rt).Updated? ==> P(Step(g, d, x, rt).fields)
    requires forall g, y :: y != x && P(g) ==> P(Step(g, d, y, rt).fields)
    ensures Apply(f, d, rt).Updated? ==> P(Apply(f, d, rt).fields)
  {
    FoldEstablishes(Step, f, d, Order, rt, x, P);
  }

  /** The step for `x` establishes what `Take` says, and the other steps
      keep it. */
  lemma StepStoresRead(d: map<string, Json>, x: Field, rt: Runtime, P: CheckoutSessionFields -> bool)
    requires Reads(d, x)
    requires forall g :: P(g) <==> Take(x, d, rt) == Success(g.Get(x))
    ensures forall g :: Step(g, d, x, rt).Updated? ==> P(Step(g, d, x, rt).fields)
    ensures forall g, y :: y != x && P(g) ==> P(Step(g, d, y, rt).fields)
  {
    forall g
      ensures Step(g, d, x, rt).Updated? ==> P(Step(g, d, x, rt).fields)
    {
      StepFacts(g, d, x, rt);
    }
    forall g, y | y != x && P(g)
      ensures P(Step(g, d, y, rt).fields)
    {
      StepFacts(g, d, y, rt);
      SameGet(Step(g, d, y, rt).fields, g, x);
    }
  }

  /** `setData` stops exactly when some key it acts on is refused, and
      with the error of the first such key in its order. */
  lemma ApplyStops(f: CheckoutSessionFields, d: map<string, Json>, rt: Runtime)
    ensures Apply(f, d, rt).Stopped? <==> exists x: Field :: Refused(d, x, rt)
    ensures Apply(f, d, rt).Stopped? ==>
      exists i :: 0 <= i < |Order| && Refused(d, Order[i], rt) &&
        (forall j :: 0 <= j < i ==> !Refused(d, Order[j], rt)) &&
        Apply(f, d, rt).error == Take(Order[i], d, rt).error
  {
    forall g, y: Field
      ensures Step(g, d, y, rt).Stopped? <==> Refused(d, y, rt)
      ensures Refused(d, y, rt) ==> Step(g, d, y, rt).error == Take(y, d, rt).error
    {
      StepFacts(g, d, y, rt);
    }
    FoldStops(Step, f, d, Order, rt, (y: Field) => Refused(d, y, rt), (y: Field) => Take(y, d, rt));
    if x: Field :| Refused(d, x, rt) {
      OrderIsComplete(x);
    }
  }

  /** An empty array changes nothing. */
  lemma ApplyEmpty(f: CheckoutSessionFields, rt: Runtime)
    ensures Apply(f, map[], rt) == Updated(f)
  {
    forall x: Field
      ensures !Reads(map[], x)
    {
    }
    FoldNoOp(Step, f, map[], Order, rt);
  }

  // ---------------------------------------------------------------------------
  // Line items

  /** A `LineItem` object; it is built fresh for each element and is never
      shared, so it is held as a value. */
  datatype LineItem = LineItem(
    id: Option<string>,
    price: Option<PriceModel.PriceFields>,
    quantity: Option<Int64>,
    priceId: Option<Int64>,
    unitAmount: Option<Int64>,
    currency: Option<string>,
    description: Option<string>)
  {
    /** The item's properties as an array (the image `Get` uses). */
    function Shown(): (m: Json)
      ensures m.JObject? && m.fields.Keys ==
        {"id", "price", "quantity", "priceId", "unitAmount", "currency", "description"}
    {
      JObject(map["id" := OptStr(id), "price" := if price.Some? then JObject(price.value.ToArray()) else JNull,
                  "quantity" := OptInt(quantity), "priceId" := OptInt(priceId), "unitAmount" := OptInt(unitAmount),
                  "currency" := OptStr(currency), "description" := OptStr(description)])
    }
  }

  /** The class the line-item block instantiates for a set `price`. */
  const PriceClass := "ONVO\\Models\\Product\\Price"

  /** One pass of the line-item loop body: a fresh `LineItem`, then its
      guarded assignments in order. The id, currency and description are
      stored in `?string` properties; quantity, price id and unit amount are
      `(int)` casts and never fail; a set price fails on its class. An element
      that is not an array sets nothing. The lemmas below state each case. */
  function ItemFrom(item: Json): Result<LineItem, PhpError>
  {
    var e := Entries(item);
    var id :- if IsSet(e, "id") then (var s :- AsStr(e["id"], "LineItem::$id"); Success(Some(s))) else Success(None);
    var _ :- if IsSet(e, "price") then Failure(ClassNotFound(PriceClass)) else Success(());
    var quantity := if IsSet(e, "quantity") then Some(IntCast(e["quantity"])) else None;
    var priceId := if IsSet(e, "priceId") then Some(IntCast(e["priceId"])) else None;
    var unitAmount := if IsSet(e, "unitAmount") then Some(IntCast(e["unitAmount"])) else None;
    var currency :- if IsSet(e, "currency") then (var s :- AsStr(e["currency"], "LineItem::$currency"); Success(Some(s)))
                    else Success(None);
    var description :- if IsSet(e, "description") then
                         (var s :- AsStr(e["description"], "LineItem::$description"); Success(Some(s)))
                       else Success(None);
    Success(LineItem(id, None, quantity, priceId, unitAmount, currency, description))
  }

  /** The item is built exactly when the string properties that are set
      hold text and no price is set. */
  lemma ItemFromSucceeds(item: Json)
    ensures ItemFrom(item).Success? <==>
      (IsSet(Entries(item), "id") ==> ToStr(ReadIn(item, "id")).Some?) && !IsSet(Entries(item), "price") &&
      (IsSet(Entries(item), "currency") ==> ToStr(ReadIn(item, "currency")).Some?) &&
      (IsSet(Entries(item), "description") ==> ToStr(ReadIn(item, "description")).Some?)
  {
  }

  /** A built item holds each set key's coerced value and null for every
      other property. */
  lemma ItemFromValues(item: Json)
    ensures var r := ItemFrom(item);
      r.Success? ==>
      r.value.price.None? &&
      r.value.id == (if IsSet(Entries(item), "id") then ToStr(ReadIn(item, "id")) else None) &&
      r.value.quantity == (if IsSet(Entries(item), "quantity") then Some(IntCast(ReadIn(item, "quantity"))) else None) &&
      r.value.priceId == (if IsSet(Entries(item), "priceId") then Some(IntCast(ReadIn(item, "priceId"))) else None) &&
      r.value.unitAmount ==
        (if IsSet(Entries(item), "unitAmount") then Some(IntCast(ReadIn(item, "unitAmount"))) else None) &&
      r.value.currency == (if IsSet(Entries(item), "currency") then ToStr(ReadIn(item, "currency")) else None) &&
      r.value.description ==
        (if IsSet(Entries(item), "description") then ToStr(ReadIn(item, "description")) else None)
  {
  }

  /** A set price stops the item with class-not-found once the id has been
      stored. */
  lemma ItemFromPrice(item: Json)
    requires IsSet(Entries(item), "price")
    ensures (IsSet(Entries(item), "id") ==> ToStr(ReadIn(item, "id")).Some?) ==>
      ItemFrom(item) == Failure(ClassNotFound(PriceClass))
  {
  }

  /** An element that is not an array gives an item with every property
      null. */
  lemma ItemFromNonArray(item: Json)
    requires !IsArray(item)
    ensures ItemFrom(item) == Success(LineItem(None, None, None, None, None, None, None))
  {
  }

  /** The whole line-item loop, starting from the empty array. */
  function BuildItems(items: seq<Json>): Update<seq<LineItem>> {
    AppendEach(items, ItemFrom, [])
  }

  /** `$this->lineItems` as an array of item arrays. */
  function ShownItems(o: Option<seq<LineItem>>): (r: Json)
    ensures r.JNull? <==> o.None?
    ensures o.Some? ==> r.JList? && |r.items| == |o.value|
  {
    match o
    case None => JNull
    case Some(s) => JList(seq(|s|, i requires 0 <= i < |s| => s[i].Shown()))
  }

  /** The loop over a whole array: `array_map` with the same body is its
      reference, and a failure leaves exactly the items before the first
      failing element. */
  lemma BuildItemsSpec(items: seq<Json>)
    ensures BuildItems(items).Updated? <==> forall i :: 0 <= i < |items| ==> ItemFrom(items[i]).Success?
    ensures BuildItems(items).Updated? ==>
      |BuildItems(items).fields| == |items| &&
      forall i :: 0 <= i < |items| ==> ItemFrom(items[i]) == Success(BuildItems(items).fields[i])
    ensures BuildItems(items).Stopped? ==>
      var p := BuildItems(items).fields;
      |p| < |items| && (forall j :: 0 <= j < |p| ==> ItemFrom(items[j]) == Success(p[j])) &&
      ItemFrom(items[|p|]).Failure? && BuildItems(items).error == ItemFrom(items[|p|]).error
  {
    AppendEachFromEmpty(items, ItemFrom);
  }

  /** When `setData` completes on a set `lineItems` array, the property holds
      one item per element, in order, each what the loop body builds from
      it. */
  lemma ApplyBuildsLineItems(f: CheckoutSessionFields, d: map<string, Json>, rt: Runtime)
    requires Reads(d, LineItems) && Apply(f, d, rt).Updated?
    ensures var items := Values(d["lineItems"], rt);
      Apply(f, d, rt).fields.lineItems.Some? && |Apply(f, d, rt).fields.lineItems.value| == |items| &&
      forall i :: 0 <= i < |items| ==> ItemFrom(items[i]) == Success(Apply(f, d, rt).fields.lineItems.value[i])
  {
    var items := Values(d["lineItems"], rt);
    ApplyStoresBuiltItems(f, d, rt, items);
    BuildItemsSpec(items);
  }

  /** What the line-item loop built is what `setData` leaves in the
      property. */
  lemma ApplyStoresBuiltItems(f: CheckoutSessionFields, d: map<string, Json>, rt: Runtime, items: seq<Json>)
    requires Reads(d, LineItems) && Apply(f, d, rt).Updated?
    requires items == Values(d["lineItems"], rt)
    ensures BuildItems(items).Updated? && Apply(f, d, rt).fields.lineItems == Some(BuildItems(items).fields)
  {
    ApplyStops(f, d, rt);
    assert !Refused(d, LineItems, rt);
    var p := BuildItems(items).fields;
    var P := (g: CheckoutSessionFields) => g.lineItems == Some(p);
    forall g | Step(g, d, LineItems, rt).Updated?
      ensures P(Step(g, d, LineItems, rt).fields)
    {
      assert Step(g, d, LineItems, rt) == StoreLineItems(g, d, rt);
    }
    forall g, y | y != LineItems && P(g)
      ensures P(Step(g, d, y, rt).fields)
    {
      StepFacts(g, d, y, rt);
      assert Same(Step(g, d, y, rt).fields, g, LineItems);
    }
    FoldEstablishes(Step, f, d, Order, rt, LineItems, P);
  }

  /** A set `lineItems` array with an element that sets `price` (and passes
      the id before it) stops `setData` once the loop reaches it. */
  lemma PricedItemStops(f: CheckoutSessionFields, d: map<string, Json>, rt: Runtime, i: nat)
    requires Reads(d, LineItems)
    requires i < |Values(d["lineItems"], rt)|
    requires var item := Values(d["lineItems"], rt)[i];
      IsSet(Entries(item), "price") && (IsSet(Entries(item), "id") ==> ToStr(ReadIn(item, "id")).Some?)
    ensures Apply(f, d, rt).Stopped?
  {
    var items := Values(d["lineItems"], rt);
    BuildItemsSpec(items);
    assert ItemFrom(items[i]).Failure?;
    assert Refused(d, LineItems, rt);
    ApplyStops(f, d, rt);
  }

  /** The casts and the array guards never refuse: the three flags and the
      two shipping lists cannot stop `setData`. */
  lemma CastsNeverRefused(d: map<string, Json>, rt: Runtime)
    ensures !Refused(d, BillingAddressCollection, rt) && !Refused(d, AllowPromotionCodes, rt)
    ensures !Refused(d, ShippingAddressCollection, rt)
    ensures !Refused(d, ShippingCountries, rt) && !Refused(d, ShippingRates, rt)
  {
  }

  // ---------------------------------------------------------------------------
  // Account

  /** An `Account` object: it has no properties yet. */
  datatype Account = EmptyAccount

  /** `$account->setData($data)`: the `array` parameter refuses anything
      else, and the body is empty, so the account is unchanged. */
  function SetDataOnAccount(a: Account, data: Json): (r: Result<Account, PhpError>)
    ensures r.Success? <==> IsArray(data)
    ensures r.Success? ==> r.value == a
    ensures r.Failure? ==> r.error == TypeError("Account::setData(): Argument #1 ($data)")
  {
    if IsArray(data) then Success(a) else Failure(TypeError("Account::setData(): Argument #1 ($data)"))
  }

  /** `$this->account` as an array: an account has no entries. */
  function ShownAccount(o: Option<Account>): (r: Json)
    ensures r.JNull? <==> o.None?
  {
    if o.Some? then JObject(map[]) else JNull
  }

  /** A set `account` that is not an array stops `setData` with the
      parameter's TypeError, after the fresh account is already in place. */
  lemma AccountNotArrayStops(f: CheckoutSessionFields, d: map<string, Json>, rt: Runtime)
    requires Reads(d, Account) && !IsArray(d["account"])
    ensures Step(f, d, Account, rt) ==
      Stopped(f.(account := Some(EmptyAccount)), TypeError("Account::setData(): Argument #1 ($data)"))
  {
  }
}
