/**
 * `App\Models\RecurringCharge`: a subscription. Every property is nullable
 * except `cancelAtPeriodEnd`. `setData` copies the set keys in order, parsing
 * the dates, building a `RecurringItem` per element of `items` and an
 * `Invoice` from `latestInvoice`. The `startDate` block reads its date from
 * the empty key `''` rather than from `startDate`; the model keeps that.
 */
module RecurringCharge {
  import opened Php
  import opened Setter
  import opened Arrays
  import InvoiceModel = Invoice

  /** The state of a RecurringCharge object. */
  datatype RecurringChargeFields = RecurringChargeFields(
    id: Option<string>,
    billingCycleAnchor: Option<DateTime>,
    status: Option<string>,
    cancelAt: Option<DateTime>,
    cancelAtPeriodEnd: bool,
    canceledAt: Option<DateTime>,
    createdAt: Option<DateTime>,
    currentPeriodStart: Option<DateTime>,
    currentPeriodEnd: Option<DateTime>,
    customerId: Option<string>,
    description: Option<string>,
    paymentBehavior: Option<string>,
    startDate: Option<DateTime>,
    paymentMethodId: Option<string>,
    mode: Option<string>,
    items: Option<Mapped<RecurringItem>>,
    trialPeriodDays: Option<Int64>,
    trialStart: Option<DateTime>,
    trialEnd: Option<DateTime>,
    updatedAt: Option<DateTime>,
    latestInvoice: Option<InvoiceModel.InvoiceFields>)
  {
    /** Field `x` as JSON: what `toArray` shows of it. */
    function Get(x: Field): Json {
      match x
      case Id => OptStr(id)
      case BillingCycleAnchor => OptDate(billingCycleAnchor)
      case Status => OptStr(status)
      case CancelAt => OptDate(cancelAt)
      case CancelAtPeriodEnd => JBool(cancelAtPeriodEnd)
      case CanceledAt => OptDate(canceledAt)
      case CreatedAt => OptDate(createdAt)
      case CurrentPeriodStart => OptDate(currentPeriodStart)
      case CurrentPeriodEnd => OptDate(currentPeriodEnd)
      case CustomerId => OptStr(customerId)
      case Description => OptStr(description)
      case PaymentBehavior => OptStr(paymentBehavior)
      case StartDate => OptDate(startDate)
      case PaymentMethodId => OptStr(paymentMethodId)
      case Mode => OptStr(mode)
      case Items => ShownItems(items)
      case TrialPeriodDays => OptInt(trialPeriodDays)
      case TrialStart => OptDate(trialStart)
      case TrialEnd => OptDate(trialEnd)
      case UpdatedAt => OptDate(updatedAt)
      case LatestInvoice => ShownInvoice(latestInvoice)
    }

    /** `toArray(false)`: every property under its own key, as `Get` shows
        it. */
    function ToArray(): (m: map<string, Json>)
      ensures forall x: Field :: x.Key() in m && m[x.Key()] == Get(x)
      ensures forall k :: k in m ==> exists x: Field :: x.Key() == k
    {
      KeyInjective();
      map x: Field | x in Order :: x.Key() := Get(x)
    }

    /** `toArray(true)`, the body of a create request: the properties
        `NewShows` picks, as `Get` shows them. */
    function ToNewArray(): (m: map<string, Json>)
      ensures forall x: Field :: x.Key() in m <==> NewShows(x)
      ensures forall x: Field :: x.Key() in m ==> m[x.Key()] == Get(x)
      ensures forall k :: k in m ==> exists x: Field :: x.Key() == k
    {
      KeyInjective();
      map x: Field | x in Order && NewShows(x) :: x.Key() := Get(x)
    }

    /** `toUpdateArray()`: the properties `UpdateShows` picks, as `Get` shows
        them. */
    function ToUpdateArray(): (m: map<string, Json>)
      ensures forall x: Field :: x.Key() in m <==> UpdateShows(x)
      ensures forall x: Field :: x.Key() in m ==> m[x.Key()] == Get(x)
      ensures forall k :: k in m ==> exists x: Field :: x.Key() == k
    {
      KeyInjective();
      map x: Field | x in Order && UpdateShows(x) :: x.Key() := Get(x)
    }

    /** The keys of `toArray(true)`: `cancelAtPeriodEnd`, `customerId` and
        `paymentMethodId` always (null included); the two anchoring dates and
        `startDate` when set (a DateTime object is always truthy);
        `description` and `paymentBehavior` when truthy; `items` when
        non-empty; `trialPeriodDays` when non-null, zero included. */
    predicate NewShows(x: Field) {
      match x
      case BillingCycleAnchor => billingCycleAnchor.Some?
      case CancelAt => cancelAt.Some?
      case CancelAtPeriodEnd => true
      case CustomerId => true
      case Description => !Empty(OptStr(description))
      case PaymentBehavior => !Empty(OptStr(paymentBehavior))
      case StartDate => startDate.Some?
      case PaymentMethodId => true
      case Items => items.Some? && items.value.NonEmpty()
      case TrialPeriodDays => trialPeriodDays.Some?
      case _ => false
    }

    /** The keys of `toUpdateArray()`: as for `toArray(true)`, except that
        `customerId` and `paymentMethodId` are tested for truthiness. */
    predicate UpdateShows(x: Field) {
      match x
      case BillingCycleAnchor => billingCycleAnchor.Some?
      case CancelAt => cancelAt.Some?
      case CancelAtPeriodEnd => true
      case CustomerId => !Empty(OptStr(customerId))
      case Description => !Empty(OptStr(description))
      case PaymentBehavior => !Empty(OptStr(paymentBehavior))
      case StartDate => startDate.Some?
      case PaymentMethodId => !Empty(OptStr(paymentMethodId))
      case Items => items.Some? && items.value.NonEmpty()
      case TrialPeriodDays => trialPeriodDays.Some?
      case _ => false
    }
  }

  /** The keys `setData` looks at. */
  datatype Field = Id | BillingCycleAnchor | Status | CancelAt | CancelAtPeriodEnd | CanceledAt | CreatedAt | CurrentPeriodStart | CurrentPeriodEnd | CustomerId | Description | PaymentBehavior | StartDate | PaymentMethodId | Mode | Items | TrialPeriodDays | TrialStart | TrialEnd | UpdatedAt | LatestInvoice {
    function Key(): string {
      match this
      case Id => "id"
      case BillingCycleAnchor => "billingCycleAnchor"
      case Status => "status"
      case CancelAt => "cancelAt"
      case CancelAtPeriodEnd => "cancelAtPeriodEnd"
      case CanceledAt => "canceledAt"
      case CreatedAt => "createdAt"
      case CurrentPeriodStart => "currentPeriodStart"
      case CurrentPeriodEnd => "currentPeriodEnd"
      case CustomerId => "customerId"
      case Description => "description"
      case PaymentBehavior => "paymentBehavior"
      case StartDate => "startDate"
      case PaymentMethodId => "paymentMethodId"
      case Mode => "mode"
      case Items => "items"
      case TrialPeriodDays => "trialPeriodDays"
      case TrialStart => "trialStart"
      case TrialEnd => "trialEnd"
      case UpdatedAt => "updatedAt"
      case LatestInvoice => "latestInvoice"
    }
  }

  /** The order in which `setData` visits them. */
  const Order: seq<Field> := [Id, BillingCycleAnchor, Status, CancelAt, CancelAtPeriodEnd, CanceledAt, CreatedAt, CurrentPeriodStart, CurrentPeriodEnd, CustomerId, Description, PaymentBehavior, StartDate, PaymentMethodId, Mode, Items, TrialPeriodDays, TrialStart, TrialEnd, UpdatedAt, LatestInvoice]

  /** `g` and `f` hold the same value in field `x`. */
  predicate Same(g: RecurringChargeFields, f: RecurringChargeFields, x: Field) {
    match x
    case Id => g.id == f.id
    case BillingCycleAnchor => g.billingCycleAnchor == f.billingCycleAnchor
    case Status => g.status == f.status
    case CancelAt => g.cancelAt == f.cancelAt
    case CancelAtPeriodEnd => g.cancelAtPeriodEnd == f.cancelAtPeriodEnd
    case CanceledAt => g.canceledAt == f.canceledAt
    case CreatedAt => g.createdAt == f.createdAt
    case CurrentPeriodStart => g.currentPeriodStart == f.currentPeriodStart
    case CurrentPeriodEnd => g.currentPeriodEnd == f.currentPeriodEnd
    case CustomerId => g.customerId == f.customerId
    case Description => g.description == f.description
    case PaymentBehavior => g.paymentBehavior == f.paymentBehavior
    case StartDate => g.startDate == f.startDate
    case PaymentMethodId => g.paymentMethodId == f.paymentMethodId
    case Mode => g.mode == f.mode
    case Items => g.items == f.items
    case TrialPeriodDays => g.trialPeriodDays == f.trialPeriodDays
    case TrialStart => g.trialStart == f.trialStart
    case TrialEnd => g.trialEnd == f.trialEnd
    case UpdatedAt => g.updatedAt == f.updatedAt
    case LatestInvoice => g.latestInvoice == f.latestInvoice
  }

  /** `f` with field `x` taken from `g`. */
  function Overwrite(f: RecurringChargeFields, x: Field, g: RecurringChargeFields): RecurringChargeFields {
    match x
    case Id => f.(id := g.id)
    case BillingCycleAnchor => f.(billingCycleAnchor := g.billingCycleAnchor)
    case Status => f.(status := g.status)
    case CancelAt => f.(cancelAt := g.cancelAt)
    case CancelAtPeriodEnd => f.(cancelAtPeriodEnd := g.cancelAtPeriodEnd)
    case CanceledAt => f.(canceledAt := g.canceledAt)
    case CreatedAt => f.(createdAt := g.createdAt)
    case CurrentPeriodStart => f.(currentPeriodStart := g.currentPeriodStart)
    case CurrentPeriodEnd => f.(currentPeriodEnd := g.currentPeriodEnd)
    case CustomerId => f.(customerId := g.customerId)
    case Description => f.(description := g.description)
    case PaymentBehavior => f.(paymentBehavior := g.paymentBehavior)
    case StartDate => f.(startDate := g.startDate)
    case PaymentMethodId => f.(paymentMethodId := g.paymentMethodId)
    case Mode => f.(mode := g.mode)
    case Items => f.(items := g.items)
    case TrialPeriodDays => f.(trialPeriodDays := g.trialPeriodDays)
    case TrialStart => f.(trialStart := g.trialStart)
    case TrialEnd => f.(trialEnd := g.trialEnd)
    case UpdatedAt => f.(updatedAt := g.updatedAt)
    case LatestInvoice => f.(latestInvoice := g.latestInvoice)
  }

  /** A state that differs from `f` at most in field `x` agrees with it
      on every other field. */
  lemma OverwriteSame(f: RecurringChargeFields, g: RecurringChargeFields, x: Field)
    requires g == Overwrite(f, x, g)
    ensures forall y: Field :: y != x ==> Same(g, f, y)
  {
  }

  lemma SameGet(g: RecurringChargeFields, f: RecurringChargeFields, x: Field)
    requires Same(g, f, x)
    ensures g.Get(x) == f.Get(x)
  {
  }

  /** `setData` acts on key `x` of `d`: the key is set (`isset`). */
  predicate Reads(d: map<string, Json>, x: Field) {
    IsSet(d, x.Key())
  }

  /** What `setData` leaves in field `x` when it acts on it, in `Get`'s
      terms, or the error it raises. */
  function Take(x: Field, d: map<string, Json>, rt: Runtime): Result<Json, PhpError> {
    match x
    case Id => TakeId(d, rt)
    case BillingCycleAnchor => TakeBillingCycleAnchor(d, rt)
    case Status => TakeStatus(d, rt)
    case CancelAt => TakeCancelAt(d, rt)
    case CancelAtPeriodEnd => TakeCancelAtPeriodEnd(d, rt)
    case CanceledAt => TakeCanceledAt(d, rt)
    case CreatedAt => TakeCreatedAt(d, rt)
    case CurrentPeriodStart => TakeCurrentPeriodStart(d, rt)
    case CurrentPeriodEnd => TakeCurrentPeriodEnd(d, rt)
    case CustomerId => TakeCustomerId(d, rt)
    case Description => TakeDescription(d, rt)
    case PaymentBehavior => TakePaymentBehavior(d, rt)
    case StartDate => TakeStartDate(d, rt)
    case PaymentMethodId => TakePaymentMethodId(d, rt)
    case Mode => TakeMode(d, rt)
    case Items => TakeItems(d, rt)
    case TrialPeriodDays => TakeTrialPeriodDays(d, rt)
    case TrialStart => TakeTrialStart(d, rt)
    case TrialEnd => TakeTrialEnd(d, rt)
    case UpdatedAt => TakeUpdatedAt(d, rt)
    case LatestInvoice => TakeLatestInvoice(d, rt)
  }

  /** What the block for `id` leaves in its field, or its error. */
  function TakeId(d: map<string, Json>, rt: Runtime): Result<Json, PhpError> {
    (match AsStr(Read(d, "id"), "RecurringCharge::$id") case Failure(e) => Failure(e) case Success(s) => Success(JString(s)))
  }

  /** What the block for `billingCycleAnchor` leaves in its field, or its error. */
  function TakeBillingCycleAnchor(d: map<string, Json>, rt: Runtime): Result<Json, PhpError> {
    (match NewDate(rt, Read(d, "billingCycleAnchor"), DateTarget) case Failure(e) => Failure(e) case Success(s) => Success(JString(s.atom)))
  }

  /** What the block for `status` leaves in its field, or its error. */
  function TakeStatus(d: map<string, Json>, rt: Runtime): Result<Json, PhpError> {
    (match AsStr(Read(d, "status"), "RecurringCharge::$status") case Failure(e) => Failure(e) case Success(s) => Success(JString(s)))
  }

  /** What the block for `cancelAt` leaves in its field, or its error. */
  function TakeCancelAt(d: map<string, Json>, rt: Runtime): Result<Json, PhpError> {
    (match NewDate(rt, Read(d, "cancelAt"), DateTarget) case Failure(e) => Failure(e) case Success(s) => Success(JString(s.atom)))
  }

  /** What the block for `cancelAtPeriodEnd` leaves in its field, or its error. */
  function TakeCancelAtPeriodEnd(d: map<string, Json>, rt: Runtime): Result<Json, PhpError> {
    (match AsBool(Read(d, "cancelAtPeriodEnd"), "RecurringCharge::$cancelAtPeriodEnd") case Failure(e) => Failure(e) case Success(s) => Success(JBool(s)))
  }

  /** What the block for `canceledAt` leaves in its field, or its error. */
  function TakeCanceledAt(d: map<string, Json>, rt: Runtime): Result<Json, PhpError> {
    (match NewDate(rt, Read(d, "canceledAt"), DateTarget) case Failure(e) => Failure(e) case Success(s) => Success(JString(s.atom)))
  }

  /** What the block for `createdAt` leaves in its field, or its error. */
  function TakeCreatedAt(d: map<string, Json>, rt: Runtime): Result<Json, PhpError> {
    (match NewDate(rt, Read(d, "createdAt"), DateTarget) case Failure(e) => Failure(e) case Success(s) => Success(JString(s.atom)))
  }

  /** What the block for `currentPeriodStart` leaves in its field, or its error. */
  function TakeCurrentPeriodStart(d: map<string, Json>, rt: Runtime): Result<Json, PhpError> {
    (match NewDate(rt, Read(d, "currentPeriodStart"), DateTarget) case Failure(e) => Failure(e) case Success(s) => Success(JString(s.atom)))
  }

  /** What the block for `currentPeriodEnd` leaves in its field, or its error. */
  function TakeCurrentPeriodEnd(d: map<string, Json>, rt: Runtime): Result<Json, PhpError> {
    (match NewDate(rt, Read(d, "currentPeriodEnd"), DateTarget) case Failure(e) => Failure(e) case Success(s) => Success(JString(s.atom)))
  }

  /** What the block for `customerId` leaves in its field, or its error. */
  function TakeCustomerId(d: map<string, Json>, rt: Runtime): Result<Json, PhpError> {
    (match AsStr(Read(d, "customerId"), "RecurringCharge::$customerId") case Failure(e) => Failure(e) case Success(s) => Success(JString(s)))
  }

  /** What the block for `description` leaves in its field, or its error. */
  function TakeDescription(d: map<string, Json>, rt: Runtime): Result<Json, PhpError> {
    (match AsStr(Read(d, "description"), "RecurringCharge::$description") case Failure(e) => Failure(e) case Success(s) => Success(JString(s)))
  }

  /** What the block for `paymentBehavior` leaves in its field, or its error. */
  function TakePaymentBehavior(d: map<string, Json>, rt: Runtime): Result<Json, PhpError> {
    (match AsStr(Read(d, "paymentBehavior"), "RecurringCharge::$paymentBehavior") case Failure(e) => Failure(e) case Success(s) => Success(JString(s)))
  }

  /** What the block for `startDate` leaves in its field, or its error. */
  function TakeStartDate(d: map<string, Json>, rt: Runtime): Result<Json, PhpError> {
    (match NewDate(rt, Read(d, ""), DateTarget) case Failure(e) => Failure(e) case Success(s) => Success(JString(s.atom)))
  }

  /** What the block for `paymentMethodId` leaves in its field, or its error. */
  function TakePaymentMethodId(d: map<string, Json>, rt: Runtime): Result<Json, PhpError> {
    (match AsStr(Read(d, "paymentMethodId"), "RecurringCharge::$paymentMethodId") case Failure(e) => Failure(e) case Success(s) => Success(JString(s)))
  }

  /** What the block for `mode` leaves in its field, or its error. */
  function TakeMode(d: map<string, Json>, rt: Runtime): Result<Json, PhpError> {
    (match AsStr(Read(d, "mode"), "RecurringCharge::$mode") case Failure(e) => Failure(e) case Success(s) => Success(JString(s)))
  }

  /** What the block for `items` leaves in its field, or its error. */
  function TakeItems(d: map<string, Json>, rt: Runtime): Result<Json, PhpError> {
    (match ArrayMap(Read(d, "items"), ItemFromElement, rt) case Failure(e) => Failure(e) case Success(m) => Success(ShownItems(Some(m))))
  }

  /** What the block for `trialPeriodDays` leaves in its field, or its error. */
  function TakeTrialPeriodDays(d: map<string, Json>, rt: Runtime): Result<Json, PhpError> {
    (match AsInt(Read(d, "trialPeriodDays"), "RecurringCharge::$trialPeriodDays") case Failure(e) => Failure(e) case Success(s) => Success(JInt(s)))
  }

  /** What the block for `trialStart` leaves in its field, or its error. */
  function TakeTrialStart(d: map<string, Json>, rt: Runtime): Result<Json, PhpError> {
    (match NewDate(rt, Read(d, "trialStart"), DateTarget) case Failure(e) => Failure(e) case Success(s) => Success(JString(s.atom)))
  }

  /** What the block for `trialEnd` leaves in its field, or its error. */
  function TakeTrialEnd(d: map<string, Json>, rt: Runtime): Result<Json, PhpError> {
    (match NewDate(rt, Read(d, "trialEnd"), DateTarget) case Failure(e) => Failure(e) case Success(s) => Success(JString(s.atom)))
  }

  /** What the block for `updatedAt` leaves in its field, or its error. */
  function TakeUpdatedAt(d: map<string, Json>, rt: Runtime): Result<Json, PhpError> {
    (match NewDate(rt, Read(d, "updatedAt"), DateTarget) case Failure(e) => Failure(e) case Success(s) => Success(JString(s.atom)))
  }

  /** What the block for `latestInvoice` leaves in its field, or its error. */
  function TakeLatestInvoice(d: map<string, Json>, rt: Runtime): Result<Json, PhpError> {
    (match InvoiceModel.FromArray(Read(d, "latestInvoice"), rt) case Failure(e) => Failure(e) case Success(i) => Success(ShownInvoice(Some(i))))
  }

  /** A key `setData` acts on and stops at. */
  predicate Refused(d: map<string, Json>, x: Field, rt: Runtime) {
    Reads(d, x) && Take(x, d, rt).Failure?
  }

  /** The block of `setData` for `id`, once the key is set. */
  function StoreId(f: RecurringChargeFields, d: map<string, Json>, rt: Runtime): Update<RecurringChargeFields> {
    (match AsStr(Read(d, "id"), "RecurringCharge::$id")
      case Failure(e) => Stopped(f, e)
      case Success(s) => Updated(f.(id := Some(s))))
  }

  /** The block of `setData` for `billingCycleAnchor`, once the key is set. */
  function StoreBillingCycleAnchor(f: RecurringChargeFields, d: map<string, Json>, rt: Runtime): Update<RecurringChargeFields> {
    (match NewDate(rt, Read(d, "billingCycleAnchor"), DateTarget)
      case Failure(e) => Stopped(f, e)
      case Success(s) => Updated(f.(billingCycleAnchor := Some(s))))
  }

  /** The block of `setData` for `status`, once the key is set. */
  function StoreStatus(f: RecurringChargeFields, d: map<string, Json>, rt: Runtime): Update<RecurringChargeFields> {
    (match AsStr(Read(d, "status"), "RecurringCharge::$status")
      case Failure(e) => Stopped(f, e)
      case Success(s) => Updated(f.(status := Some(s))))
  }

  /** The block of `setData` for `cancelAt`, once the key is set. */
  function StoreCancelAt(f: RecurringChargeFields, d: map<string, Json>, rt: Runtime): Update<RecurringChargeFields> {
    (match NewDate(rt, Read(d, "cancelAt"), DateTarget)
      case Failure(e) => Stopped(f, e)
      case Success(s) => Updated(f.(cancelAt := Some(s))))
  }

  /** The block of `setData` for `cancelAtPeriodEnd`, once the key is set. */
  function StoreCancelAtPeriodEnd(f: RecurringChargeFields, d: map<string, Json>, rt: Runtime): Update<RecurringChargeFields> {
    (match AsBool(Read(d, "cancelAtPeriodEnd"), "RecurringCharge::$cancelAtPeriodEnd")
      case Failure(e) => Stopped(f, e)
      case Success(s) => Updated(f.(cancelAtPeriodEnd := s)))
  }

  /** The block of `setData` for `canceledAt`, once the key is set. */
  function StoreCanceledAt(f: RecurringChargeFields, d: map<string, Json>, rt: Runtime): Update<RecurringChargeFields> {
    (match NewDate(rt, Read(d, "canceledAt"), DateTarget)
      case Failure(e) => Stopped(f, e)
      case Success(s) => Updated(f.(canceledAt := Some(s))))
  }

  /** The block of `setData` for `createdAt`, once the key is set. */
  function StoreCreatedAt(f: RecurringChargeFields, d: map<string, Json>, rt: Runtime): Update<RecurringChargeFields> {
    (match NewDate(rt, Read(d, "createdAt"), DateTarget)
      case Failure(e) => Stopped(f, e)
      case Success(s) => Updated(f.(createdAt := Some(s))))
  }

  /** The block of `setData` for `currentPeriodStart`, once the key is set. */
  function StoreCurrentPeriodStart(f: RecurringChargeFields, d: map<string, Json>, rt: Runtime): Update<RecurringChargeFields> {
    (match NewDate(rt, Read(d, "currentPeriodStart"), DateTarget)
      case Failure(e) => Stopped(f, e)
      case Success(s) => Updated(f.(currentPeriodStart := Some(s))))
  }

  /** The block of `setData` for `currentPeriodEnd`, once the key is set. */
  function StoreCurrentPeriodEnd(f: RecurringChargeFields, d: map<string, Json>, rt: Runtime): Update<RecurringChargeFields> {
    (match NewDate(rt, Read(d, "currentPeriodEnd"), DateTarget)
      case Failure(e) => Stopped(f, e)
      case Success(s) => Updated(f.(currentPeriodEnd := Some(s))))
  }

  /** The block of `setData` for `customerId`, once the key is set. */
  function StoreCustomerId(f: RecurringChargeFields, d: map<string, Json>, rt: Runtime): Update<RecurringChargeFields> {
    (match AsStr(Read(d, "customerId"), "RecurringCharge::$customerId")
      case Failure(e) => Stopped(f, e)
      case Success(s) => Updated(f.(customerId := Some(s))))
  }

  /** The block of `setData` for `description`, once the key is set. */
  function StoreDescription(f: RecurringChargeFields, d: map<string, Json>, rt: Runtime): Update<RecurringChargeFields> {
    (match AsStr(Read(d, "description"), "RecurringCharge::$description")
      case Failure(e) => Stopped(f, e)
      case Success(s) => Updated(f.(description := Some(s))))
  }

  /** The block of `setData` for `paymentBehavior`, once the key is set. */
  function StorePaymentBehavior(f: RecurringChargeFields, d: map<string, Json>, rt: Runtime): Update<RecurringChargeFields> {
    (match AsStr(Read(d, "paymentBehavior"), "RecurringCharge::$paymentBehavior")
      case Failure(e) => Stopped(f, e)
      case Success(s) => Updated(f.(paymentBehavior := Some(s))))
  }

  /** The block of `setData` for `startDate`, once the key is set. */
  function StoreStartDate(f: RecurringChargeFields, d: map<string, Json>, rt: Runtime): Update<RecurringChargeFields> {
    (match NewDate(rt, Read(d, ""), DateTarget)
      case Failure(e) => Stopped(f, e)
      case Success(s) => Updated(f.(startDate := Some(s))))
  }

  /** The block of `setData` for `paymentMethodId`, once the key is set. */
  function StorePaymentMethodId(f: RecurringChargeFields, d: map<string, Json>, rt: Runtime): Update<RecurringChargeFields> {
    (match AsStr(Read(d, "paymentMethodId"), "RecurringCharge::$paymentMethodId")
      case Failure(e) => Stopped(f, e)
      case Success(s) => Updated(f.(paymentMethodId := Some(s))))
  }

  /** The block of `setData` for `mode`, once the key is set. */
  function StoreMode(f: RecurringChargeFields, d: map<string, Json>, rt: Runtime): Update<RecurringChargeFields> {
    (match AsStr(Read(d, "mode"), "RecurringCharge::$mode")
      case Failure(e) => Stopped(f, e)
      case Success(s) => Updated(f.(mode := Some(s))))
  }

  /** The block of `setData` for `items`, once the key is set. */
  function StoreItems(f: RecurringChargeFields, d: map<string, Json>, rt: Runtime): Update<RecurringChargeFields> {
    (match ArrayMap(Read(d, "items"), ItemFromElement, rt)
      case Failure(e) => Stopped(f, e)
      case Success(m) => Updated(f.(items := Some(m))))
  }

  /** The block of `setData` for `trialPeriodDays`, once the key is set. */
  function StoreTrialPeriodDays(f: RecurringChargeFields, d: map<string, Json>, rt: Runtime): Update<RecurringChargeFields> {
    (match AsInt(Read(d, "trialPeriodDays"), "RecurringCharge::$trialPeriodDays")
      case Failure(e) => Stopped(f, e)
      case Success(s) => Updated(f.(trialPeriodDays := Some(s))))
  }

  /** The block of `setData` for `trialStart`, once the key is set. */
  function StoreTrialStart(f: RecurringChargeFields, d: map<string, Json>, rt: Runtime): Update<RecurringChargeFields> {
    (match NewDate(rt, Read(d, "trialStart"), DateTarget)
      case Failure(e) => Stopped(f, e)
      case Success(s) => Updated(f.(trialStart := Some(s))))
  }

  /** The block of `setData` for `trialEnd`, once the key is set. */
  function StoreTrialEnd(f: RecurringChargeFields, d: map<string, Json>, rt: Runtime): Update<RecurringChargeFields> {
    (match NewDate(rt, Read(d, "trialEnd"), DateTarget)
      case Failure(e) => Stopped(f, e)
      case Success(s) => Updated(f.(trialEnd := Some(s))))
  }

  /** The block of `setData` for `updatedAt`, once the key is set. */
  function StoreUpdatedAt(f: RecurringChargeFields, d: map<string, Json>, rt: Runtime): Update<RecurringChargeFields> {
    (match NewDate(rt, Read(d, "updatedAt"), DateTarget)
      case Failure(e) => Stopped(f, e)
      case Success(s) => Updated(f.(updatedAt := Some(s))))
  }

  /** The block of `setData` for `latestInvoice`, once the key is set. */
  function StoreLatestInvoice(f: RecurringChargeFields, d: map<string, Json>, rt: Runtime): Update<RecurringChargeFields> {
    (match InvoiceModel.FromArray(Read(d, "latestInvoice"), rt)
      case Failure(e) => Stopped(f, e)
      case Success(i) => Updated(f.(latestInvoice := Some(i))))
  }

  /** The fields `Assign` hands on to `AssignLater`. */
  predicate Later(x: Field) {
    x.PaymentBehavior? || x.StartDate? || x.PaymentMethodId? || x.Mode? || x.Items? || x.TrialPeriodDays? || x.TrialStart? || x.TrialEnd? || x.UpdatedAt? || x.LatestInvoice?
  }

  /** One `if (isset($data[key])) { ... }` block of `setData`. */
  function Step(f: RecurringChargeFields, d: map<string, Json>, x: Field, rt: Runtime): Update<RecurringChargeFields> {
    if !Reads(d, x) then Updated(f)
    else match x
      case Id => StoreId(f, d, rt)
      case BillingCycleAnchor => StoreBillingCycleAnchor(f, d, rt)
      case Status => StoreStatus(f, d, rt)
      case CancelAt => StoreCancelAt(f, d, rt)
      case CancelAtPeriodEnd => StoreCancelAtPeriodEnd(f, d, rt)
      case CanceledAt => StoreCanceledAt(f, d, rt)
      case CreatedAt => StoreCreatedAt(f, d, rt)
      case CurrentPeriodStart => StoreCurrentPeriodStart(f, d, rt)
      case CurrentPeriodEnd => StoreCurrentPeriodEnd(f, d, rt)
      case CustomerId => StoreCustomerId(f, d, rt)
      case Description => StoreDescription(f, d, rt)
      case PaymentBehavior => StorePaymentBehavior(f, d, rt)
      case StartDate => StoreStartDate(f, d, rt)
      case PaymentMethodId => StorePaymentMethodId(f, d, rt)
      case Mode => StoreMode(f, d, rt)
      case Items => StoreItems(f, d, rt)
      case TrialPeriodDays => StoreTrialPeriodDays(f, d, rt)
      case TrialStart => StoreTrialStart(f, d, rt)
      case TrialEnd => StoreTrialEnd(f, d, rt)
      case UpdatedAt => StoreUpdatedAt(f, d, rt)
      case LatestInvoice => StoreLatestInvoice(f, d, rt)
  }

  /** The block for `id` stores what `Take` says or stops with its
      error, and touches no other field. */
  lemma StoreIdFacts(f: RecurringChargeFields, d: map<string, Json>, rt: Runtime)
    ensures StoreId(f, d, rt).Updated? ==> TakeId(d, rt) == Success(OptStr(StoreId(f, d, rt).fields.id))
    ensures StoreId(f, d, rt).Stopped? ==> TakeId(d, rt) == Failure(StoreId(f, d, rt).error)
    ensures StoreId(f, d, rt).Stopped? ==> StoreId(f, d, rt).fields == f
    ensures StoreId(f, d, rt).fields == f.(id := StoreId(f, d, rt).fields.id)
  {
  }

  /** The block for `billingCycleAnchor` stores what `Take` says or stops with its
      error, and touches no other field. */
  lemma StoreBillingCycleAnchorFacts(f: RecurringChargeFields, d: map<string, Json>, rt: Runtime)
    ensures StoreBillingCycleAnchor(f, d, rt).Updated? ==> TakeBillingCycleAnchor(d, rt) == Success(OptDate(StoreBillingCycleAnchor(f, d, rt).fields.billingCycleAnchor))
    ensures StoreBillingCycleAnchor(f, d, rt).Stopped? ==> TakeBillingCycleAnchor(d, rt) == Failure(StoreBillingCycleAnchor(f, d, rt).error)
    ensures StoreBillingCycleAnchor(f, d, rt).Stopped? ==> StoreBillingCycleAnchor(f, d, rt).fields == f
    ensures StoreBillingCycleAnchor(f, d, rt).fields == f.(billingCycleAnchor := StoreBillingCycleAnchor(f, d, rt).fields.billingCycleAnchor)
  {
  }

  /** The block for `status` stores what `Take` says or stops with its
      error, and touches no other field. */
  lemma StoreStatusFacts(f: RecurringChargeFields, d: map<string, Json>, rt: Runtime)
    ensures StoreStatus(f, d, rt).Updated? ==> TakeStatus(d, rt) == Success(OptStr(StoreStatus(f, d, rt).fields.status))
    ensures StoreStatus(f, d, rt).Stopped? ==> TakeStatus(d, rt) == Failure(StoreStatus(f, d, rt).error)
    ensures StoreStatus(f, d, rt).Stopped? ==> StoreStatus(f, d, rt).fields == f
    ensures StoreStatus(f, d, rt).fields == f.(status := StoreStatus(f, d, rt).fields.status)
  {
  }

  /** The block for `cancelAt` stores what `Take` says or stops with its
      error, and touches no other field. */
  lemma StoreCancelAtFacts(f: RecurringChargeFields, d: map<string, Json>, rt: Runtime)
    ensures StoreCancelAt(f, d, rt).Updated? ==> TakeCancelAt(d, rt) == Success(OptDate(StoreCancelAt(f, d, rt).fields.cancelAt))
    ensures StoreCancelAt(f, d, rt).Stopped? ==> TakeCancelAt(d, rt) == Failure(StoreCancelAt(f, d, rt).error)
    ensures StoreCancelAt(f, d, rt).Stopped? ==> StoreCancelAt(f, d, rt).fields == f
    ensures StoreCancelAt(f, d, rt).fields == f.(cancelAt := StoreCancelAt(f, d, rt).fields.cancelAt)
  {
  }

  /** The block for `cancelAtPeriodEnd` stores what `Take` says or stops with its
      error, and touches no other field. */
  lemma StoreCancelAtPeriodEndFacts(f: RecurringChargeFields, d: map<string, Json>, rt: Runtime)
    ensures StoreCancelAtPeriodEnd(f, d, rt).Updated? ==> TakeCancelAtPeriodEnd(d, rt) == Success(JBool(StoreCancelAtPeriodEnd(f, d, rt).fields.cancelAtPeriodEnd))
    ensures StoreCancelAtPeriodEnd(f, d, rt).Stopped? ==> TakeCancelAtPeriodEnd(d, rt) == Failure(StoreCancelAtPeriodEnd(f, d, rt).error)
    ensures StoreCancelAtPeriodEnd(f, d, rt).Stopped? ==> StoreCancelAtPeriodEnd(f, d, rt).fields == f
    ensures StoreCancelAtPeriodEnd(f, d, rt).fields == f.(cancelAtPeriodEnd := StoreCancelAtPeriodEnd(f, d, rt).fields.cancelAtPeriodEnd)
  {
  }

  /** The block for `canceledAt` stores what `Take` says or stops with its
      error, and touches no other field. */
  lemma StoreCanceledAtFacts(f: RecurringChargeFields, d: map<string, Json>, rt: Runtime)
    ensures StoreCanceledAt(f, d, rt).Updated? ==> TakeCanceledAt(d, rt) == Success(OptDate(StoreCanceledAt(f, d, rt).fields.canceledAt))
    ensures StoreCanceledAt(f, d, rt).Stopped? ==> TakeCanceledAt(d, rt) == Failure(StoreCanceledAt(f, d, rt).error)
    ensures StoreCanceledAt(f, d, rt).Stopped? ==> StoreCanceledAt(f, d, rt).fields == f
    ensures StoreCanceledAt(f, d, rt).fields == f.(canceledAt := StoreCanceledAt(f, d, rt).fields.canceledAt)
  {
  }

  /** The block for `createdAt` stores what `Take` says or stops with its
      error, and touches no other field. */
  lemma StoreCreatedAtFacts(f: RecurringChargeFields, d: map<string, Json>, rt: Runtime)
    ensures StoreCreatedAt(f, d, rt).Updated? ==> TakeCreatedAt(d, rt) == Success(OptDate(StoreCreatedAt(f, d, rt).fields.createdAt))
    ensures StoreCreatedAt(f, d, rt).Stopped? ==> TakeCreatedAt(d, rt) == Failure(StoreCreatedAt(f, d, rt).error)
    ensures StoreCreatedAt(f, d, rt).Stopped? ==> StoreCreatedAt(f, d, rt).fields == f
    ensures StoreCreatedAt(f, d, rt).fields == f.(createdAt := StoreCreatedAt(f, d, rt).fields.createdAt)
  {
  }

  /** The block for `currentPeriodStart` stores what `Take` says or stops with its
      error, and touches no other field. */
  lemma StoreCurrentPeriodStartFacts(f: RecurringChargeFields, d: map<string, Json>, rt: Runtime)
    ensures StoreCurrentPeriodStart(f, d, rt).Updated? ==> TakeCurrentPeriodStart(d, rt) == Success(OptDate(StoreCurrentPeriodStart(f, d, rt).fields.currentPeriodStart))
    ensures StoreCurrentPeriodStart(f, d, rt).Stopped? ==> TakeCurrentPeriodStart(d, rt) == Failure(StoreCurrentPeriodStart(f, d, rt).error)
    ensures StoreCurrentPeriodStart(f, d, rt).Stopped? ==> StoreCurrentPeriodStart(f, d, rt).fields == f
    ensures StoreCurrentPeriodStart(f, d, rt).fields == f.(currentPeriodStart := StoreCurrentPeriodStart(f, d, rt).fields.currentPeriodStart)
  {
  }

  /** The block for `currentPeriodEnd` stores what `Take` says or stops with its
      error, and touches no other field. */
  lemma StoreCurrentPeriodEndFacts(f: RecurringChargeFields, d: map<string, Json>, rt: Runtime)
    ensures StoreCurrentPeriodEnd(f, d, rt).Updated? ==> TakeCurrentPeriodEnd(d, rt) == Success(OptDate(StoreCurrentPeriodEnd(f, d, rt).fields.currentPeriodEnd))
    ensures StoreCurrentPeriodEnd(f, d, rt).Stopped? ==> TakeCurrentPeriodEnd(d, rt) == Failure(StoreCurrentPeriodEnd(f, d, rt).error)
    ensures StoreCurrentPeriodEnd(f, d, rt).Stopped? ==> StoreCurrentPeriodEnd(f, d, rt).fields == f
    ensures StoreCurrentPeriodEnd(f, d, rt).fields == f.(currentPeriodEnd := StoreCurrentPeriodEnd(f, d, rt).fields.currentPeriodEnd)
  {
  }

  /** The block for `customerId` stores what `Take` says or stops with its
      error, and touches no other field. */
  lemma StoreCustomerIdFacts(f: RecurringChargeFields, d: map<string, Json>, rt: Runtime)
    ensures StoreCustomerId(f, d, rt).Updated? ==> TakeCustomerId(d, rt) == Success(OptStr(StoreCustomerId(f, d, rt).fields.customerId))
    ensures StoreCustomerId(f, d, rt).Stopped? ==> TakeCustomerId(d, rt) == Failure(StoreCustomerId(f, d, rt).error)
    ensures StoreCustomerId(f, d, rt).Stopped? ==> StoreCustomerId(f, d, rt).fields == f
    ensures StoreCustomerId(f, d, rt).fields == f.(customerId := StoreCustomerId(f, d, rt).fields.customerId)
  {
  }

  /** The block for `description` stores what `Take` says or stops with its
      error, and touches no other field. */
  lemma StoreDescriptionFacts(f: RecurringChargeFields, d: map<string, Json>, rt: Runtime)
    ensures StoreDescription(f, d, rt).Updated? ==> TakeDescription(d, rt) == Success(OptStr(StoreDescription(f, d, rt).fields.description))
    ensures StoreDescription(f, d, rt).Stopped? ==> TakeDescription(d, rt) == Failure(StoreDescription(f, d, rt).error)
    ensures StoreDescription(f, d, rt).Stopped? ==> StoreDescription(f, d, rt).fields == f
    ensures StoreDescription(f, d, rt).fields == f.(description := StoreDescription(f, d, rt).fields.description)
  {
  }

  /** The block for `paymentBehavior` stores what `Take` says or stops with its
      error, and touches no other field. */
  lemma StorePaymentBehaviorFacts(f: RecurringChargeFields, d: map<string, Json>, rt: Runtime)
    ensures StorePaymentBehavior(f, d, rt).Updated? ==> TakePaymentBehavior(d, rt) == Success(OptStr(StorePaymentBehavior(f, d, rt).fields.paymentBehavior))
    ensures StorePaymentBehavior(f, d, rt).Stopped? ==> TakePaymentBehavior(d, rt) == Failure(StorePaymentBehavior(f, d, rt).error)
    ensures StorePaymentBehavior(f, d, rt).Stopped? ==> StorePaymentBehavior(f, d, rt).fields == f
    ensures StorePaymentBehavior(f, d, rt).fields == f.(paymentBehavior := StorePaymentBehavior(f, d, rt).fields.paymentBehavior)
  {
  }

  /** The block for `startDate` stores what `Take` says or stops with its
      error, and touches no other field. */
  lemma StoreStartDateFacts(f: RecurringChargeFields, d: map<string, Json>, rt: Runtime)
    ensures StoreStartDate(f, d, rt).Updated? ==> TakeStartDate(d, rt) == Success(OptDate(StoreStartDate(f, d, rt).fields.startDate))
    ensures StoreStartDate(f, d, rt).Stopped? ==> TakeStartDate(d, rt) == Failure(StoreStartDate(f, d, rt).error)
    ensures StoreStartDate(f, d, rt).Stopped? ==> StoreStartDate(f, d, rt).fields == f
    ensures StoreStartDate(f, d, rt).fields == f.(startDate := StoreStartDate(f, d, rt).fields.startDate)
  {
  }

  /** The block for `paymentMethodId` stores what `Take` says or stops with its
      error, and touches no other field. */
  lemma StorePaymentMethodIdFacts(f: RecurringChargeFields, d: map<string, Json>, rt: Runtime)
    ensures StorePaymentMethodId(f, d, rt).Updated? ==> TakePaymentMethodId(d, rt) == Success(OptStr(StorePaymentMethodId(f, d, rt).fields.paymentMethodId))
    ensures StorePaymentMethodId(f, d, rt).Stopped? ==> TakePaymentMethodId(d, rt) == Failure(StorePaymentMethodId(f, d, rt).error)
    ensures StorePaymentMethodId(f, d, rt).Stopped? ==> StorePaymentMethodId(f, d, rt).fields == f
    ensures StorePaymentMethodId(f, d, rt).fields == f.(paymentMethodId := StorePaymentMethodId(f, d, rt).fields.paymentMethodId)
  {
  }

  /** The block for `mode` stores what `Take` says or stops with its
      error, and touches no other field. */
  lemma StoreModeFacts(f: RecurringChargeFields, d: map<string, Json>, rt: Runtime)
    ensures StoreMode(f, d, rt).Updated? ==> TakeMode(d, rt) == Success(OptStr(StoreMode(f, d, rt).fields.mode))
    ensures StoreMode(f, d, rt).Stopped? ==> TakeMode(d, rt) == Failure(StoreMode(f, d, rt).error)
    ensures StoreMode(f, d, rt).Stopped? ==> StoreMode(f, d, rt).fields == f
    ensures StoreMode(f, d, rt).fields == f.(mode := StoreMode(f, d, rt).fields.mode)
  {
  }

  /** The block for `items` stores what `Take` says or stops with its
      error, and touches no other field. */
  lemma StoreItemsFacts(f: RecurringChargeFields, d: map<string, Json>, rt: Runtime)
    ensures StoreItems(f, d, rt).Updated? ==> TakeItems(d, rt) == Success(ShownItems(StoreItems(f, d, rt).fields.items))
    ensures StoreItems(f, d, rt).Stopped? ==> TakeItems(d, rt) == Failure(StoreItems(f, d, rt).error)
    ensures StoreItems(f, d, rt).Stopped? ==> StoreItems(f, d, rt).fields == f
    ensures StoreItems(f, d, rt).fields == f.(items := StoreItems(f, d, rt).fields.items)
  {
  }

  /** The block for `trialPeriodDays` stores what `Take` says or stops with its
      error, and touches no other field. */
  lemma StoreTrialPeriodDaysFacts(f: RecurringChargeFields, d: map<string, Json>, rt: Runtime)
    ensures StoreTrialPeriodDays(f, d, rt).Updated? ==> TakeTrialPeriodDays(d, rt) == Success(OptInt(StoreTrialPeriodDays(f, d, rt).fields.trialPeriodDays))
    ensures StoreTrialPeriodDays(f, d, rt).Stopped? ==> TakeTrialPeriodDays(d, rt) == Failure(StoreTrialPeriodDays(f, d, rt).error)
    ensures StoreTrialPeriodDays(f, d, rt).Stopped? ==> StoreTrialPeriodDays(f, d, rt).fields == f
    ensures StoreTrialPeriodDays(f, d, rt).fields == f.(trialPeriodDays := StoreTrialPeriodDays(f, d, rt).fields.trialPeriodDays)
  {
  }

  /** The block for `trialStart` stores what `Take` says or stops with its
      error, and touches no other field. */
  lemma StoreTrialStartFacts(f: RecurringChargeFields, d: map<string, Json>, rt: Runtime)
    ensures StoreTrialStart(f, d, rt).Updated? ==> TakeTrialStart(d, rt) == Success(OptDate(StoreTrialStart(f, d, rt).fields.trialStart))
    ensures StoreTrialStart(f, d, rt).Stopped? ==> TakeTrialStart(d, rt) == Failure(StoreTrialStart(f, d, rt).error)
    ensures StoreTrialStart(f, d, rt).Stopped? ==> StoreTrialStart(f, d, rt).fields == f
    ensures StoreTrialStart(f, d, rt).fields == f.(trialStart := StoreTrialStart(f, d, rt).fields.trialStart)
  {
  }

  /** The block for `trialEnd` stores what `Take` says or stops with its
      error, and touches no other field. */
  lemma StoreTrialEndFacts(f: RecurringChargeFields, d: map<string, Json>, rt: Runtime)
    ensures StoreTrialEnd(f, d, rt).Updated? ==> TakeTrialEnd(d, rt) == Success(OptDate(StoreTrialEnd(f, d, rt).fields.trialEnd))
    ensures StoreTrialEnd(f, d, rt).Stopped? ==> TakeTrialEnd(d, rt) == Failure(StoreTrialEnd(f, d, rt).error)
    ensures StoreTrialEnd(f, d, rt).Stopped? ==> StoreTrialEnd(f, d, rt).fields == f
    ensures StoreTrialEnd(f, d, rt).fields == f.(trialEnd := StoreTrialEnd(f, d, rt).fields.trialEnd)
  {
  }

  /** The block for `updatedAt` stores what `Take` says or stops with its
      error, and touches no other field. */
  lemma StoreUpdatedAtFacts(f: RecurringChargeFields, d: map<string, Json>, rt: Runtime)
    ensures StoreUpdatedAt(f, d, rt).Updated? ==> TakeUpdatedAt(d, rt) == Success(OptDate(StoreUpdatedAt(f, d, rt).fields.updatedAt))
    ensures StoreUpdatedAt(f, d, rt).Stopped? ==> TakeUpdatedAt(d, rt) == Failure(StoreUpdatedAt(f, d, rt).error)
    ensures StoreUpdatedAt(f, d, rt).Stopped? ==> StoreUpdatedAt(f, d, rt).fields == f
    ensures StoreUpdatedAt(f, d, rt).fields == f.(updatedAt := StoreUpdatedAt(f, d, rt).fields.updatedAt)
  {
  }

  /** The block for `latestInvoice` stores what `Take` says or stops with its
      error, and touches no other field. */
  lemma StoreLatestInvoiceFacts(f: RecurringChargeFields, d: map<string, Json>, rt: Runtime)
    ensures StoreLatestInvoice(f, d, rt).Updated? ==> TakeLatestInvoice(d, rt) == Success(ShownInvoice(StoreLatestInvoice(f, d, rt).fields.latestInvoice))
    ensures StoreLatestInvoice(f, d, rt).Stopped? ==> TakeLatestInvoice(d, rt) == Failure(StoreLatestInvoice(f, d, rt).error)
    ensures StoreLatestInvoice(f, d, rt).Stopped? ==> StoreLatestInvoice(f, d, rt).fields == f
    ensures StoreLatestInvoice(f, d, rt).fields == f.(latestInvoice := StoreLatestInvoice(f, d, rt).fields.latestInvoice)
  {
  }

  /** What one block does: nothing unless it acts on its key; then it
      stores what `Take` says or stops with its error, and it never
      touches another field. */
  lemma StepFacts(f: RecurringChargeFields, d: map<string, Json>, x: Field, rt: Runtime)
    ensures !Reads(d, x) ==> Step(f, d, x, rt) == Updated(f)
    ensures Reads(d, x) && Step(f, d, x, rt).Updated? ==> Take(x, d, rt) == Success(Step(f, d, x, rt).fields.Get(x))
    ensures Reads(d, x) && Step(f, d, x, rt).Stopped? ==> Take(x, d, rt) == Failure(Step(f, d, x, rt).error)
    ensures Step(f, d, x, rt).Stopped? ==> Step(f, d, x, rt).fields == f
    ensures forall y: Field :: y != x ==> Same(Step(f, d, x, rt).fields, f, y)
  {
    if x == Id || x == BillingCycleAnchor || x == Status || x == CancelAt {
      StepFacts1(f, d, x, rt);
    } else if x == CancelAtPeriodEnd || x == CanceledAt || x == CreatedAt || x == CurrentPeriodStart {
      StepFacts2(f, d, x, rt);
    } else if x == CurrentPeriodEnd || x == CustomerId || x == Description || x == PaymentBehavior {
      StepFacts3(f, d, x, rt);
    } else if x == StartDate || x == PaymentMethodId || x == Mode || x == Items {
      StepFacts4(f, d, x, rt);
    } else if x == TrialPeriodDays || x == TrialStart || x == TrialEnd || x == UpdatedAt {
      StepFacts5(f, d, x, rt);
    } else {
      StepFacts6(f, d, x, rt);
    }
    OverwriteSame(f, Step(f, d, x, rt).fields, x);
  }

  /** `StepFacts` for the keys Id to CancelAt. */
  lemma StepFacts1(f: RecurringChargeFields, d: map<string, Json>, x: Field, rt: Runtime)
    requires x == Id || x == BillingCycleAnchor || x == Status || x == CancelAt
    ensures !Reads(d, x) ==> Step(f, d, x, rt) == Updated(f)
    ensures Reads(d, x) && Step(f, d, x, rt).Updated? ==> Take(x, d, rt) == Success(Step(f, d, x, rt).fields.Get(x))
    ensures Reads(d, x) && Step(f, d, x, rt).Stopped? ==> Take(x, d, rt) == Failure(Step(f, d, x, rt).error)
    ensures Step(f, d, x, rt).Stopped? ==> Step(f, d, x, rt).fields == f
    ensures Step(f, d, x, rt).fields == Overwrite(f, x, Step(f, d, x, rt).fields)
  {
    match x
    case Id => StoreIdFacts(f, d, rt);
    case BillingCycleAnchor => StoreBillingCycleAnchorFacts(f, d, rt);
    case Status => StoreStatusFacts(f, d, rt);
    case CancelAt => StoreCancelAtFacts(f, d, rt);
  }

  /** `StepFacts` for the keys CancelAtPeriodEnd to CurrentPeriodStart. */
  lemma StepFacts2(f: RecurringChargeFields, d: map<string, Json>, x: Field, rt: Runtime)
    requires x == CancelAtPeriodEnd || x == CanceledAt || x == CreatedAt || x == CurrentPeriodStart
    ensures !Reads(d, x) ==> Step(f, d, x, rt) == Updated(f)
    ensures Reads(d, x) && Step(f, d, x, rt).Updated? ==> Take(x, d, rt) == Success(Step(f, d, x, rt).fields.Get(x))
    ensures Reads(d, x) && Step(f, d, x, rt).Stopped? ==> Take(x, d, rt) == Failure(Step(f, d, x, rt).error)
    ensures Step(f, d, x, rt).Stopped? ==> Step(f, d, x, rt).fields == f
    ensures Step(f, d, x, rt).fields == Overwrite(f, x, Step(f, d, x, rt).fields)
  {
    match x
    case CancelAtPeriodEnd => StoreCancelAtPeriodEndFacts(f, d, rt);
    case CanceledAt => StoreCanceledAtFacts(f, d, rt);
    case CreatedAt => StoreCreatedAtFacts(f, d, rt);
    case CurrentPeriodStart => StoreCurrentPeriodStartFacts(f, d, rt);
  }

  /** `StepFacts` for the keys CurrentPeriodEnd to PaymentBehavior. */
  lemma StepFacts3(f: RecurringChargeFields, d: map<string, Json>, x: Field, rt: Runtime)
    requires x == CurrentPeriodEnd || x == CustomerId || x == Description || x == PaymentBehavior
    ensures !Reads(d, x) ==> Step(f, d, x, rt) == Updated(f)
    ensures Reads(d, x) && Step(f, d, x, rt).Updated? ==> Take(x, d, rt) == Success(Step(f, d, x, rt).fields.Get(x))
    ensures Reads(d, x) && Step(f, d, x, rt).Stopped? ==> Take(x, d, rt) == Failure(Step(f, d, x, rt).error)
    ensures Step(f, d, x, rt).Stopped? ==> Step(f, d, x, rt).fields == f
    ensures Step(f, d, x, rt).fields == Overwrite(f, x, Step(f, d, x, rt).fields)
  {
    match x
    case CurrentPeriodEnd => StoreCurrentPeriodEndFacts(f, d, rt);
    case CustomerId => StoreCustomerIdFacts(f, d, rt);
    case Description => StoreDescriptionFacts(f, d, rt);
    case PaymentBehavior => StorePaymentBehaviorFacts(f, d, rt);
  }

  /** `StepFacts` for the keys StartDate to Items. */
  lemma StepFacts4(f: RecurringChargeFields, d: map<string, Json>, x: Field, rt: Runtime)
    requires x == StartDate || x == PaymentMethodId || x == Mode || x == Items
    ensures !Reads(d, x) ==> Step(f, d, x, rt) == Updated(f)
    ensures Reads(d, x) && Step(f, d, x, rt).Updated? ==> Take(x, d, rt) == Success(Step(f, d, x, rt).fields.Get(x))
    ensures Reads(d, x) && Step(f, d, x, rt).Stopped? ==> Take(x, d, rt) == Failure(Step(f, d, x, rt).error)
    ensures Step(f, d, x, rt).Stopped? ==> Step(f, d, x, rt).fields == f
    ensures Step(f, d, x, rt).fields == Overwrite(f, x, Step(f, d, x, rt).fields)
  {
    match x
    case StartDate => StoreStartDateFacts(f, d, rt);
    case PaymentMethodId => StorePaymentMethodIdFacts(f, d, rt);
    case Mode => StoreModeFacts(f, d, rt);
    case Items => StoreItemsFacts(f, d, rt);
  }

  /** `StepFacts` for the keys TrialPeriodDays to UpdatedAt. */
  lemma StepFacts5(f: RecurringChargeFields, d: map<string, Json>, x: Field, rt: Runtime)
    requires x == TrialPeriodDays || x == TrialStart || x == TrialEnd || x == UpdatedAt
    ensures !Reads(d, x) ==> Step(f, d, x, rt) == Updated(f)
    ensures Reads(d, x) && Step(f, d, x, rt).Updated? ==> Take(x, d, rt) == Success(Step(f, d, x, rt).fields.Get(x))
    ensures Reads(d, x) && Step(f, d, x, rt).Stopped? ==> Take(x, d, rt) == Failure(Step(f, d, x, rt).error)
    ensures Step(f, d, x, rt).Stopped? ==> Step(f, d, x, rt).fields == f
    ensures Step(f, d, x, rt).fields == Overwrite(f, x, Step(f, d, x, rt).fields)
  {
    match x
    case TrialPeriodDays => StoreTrialPeriodDaysFacts(f, d, rt);
    case TrialStart => StoreTrialStartFacts(f, d, rt);
    case TrialEnd => StoreTrialEndFacts(f, d, rt);
    case UpdatedAt => StoreUpdatedAtFacts(f, d, rt);
  }

  /** `StepFacts` for the keys LatestInvoice to LatestInvoice. */
  lemma StepFacts6(f: RecurringChargeFields, d: map<string, Json>, x: Field, rt: Runtime)
    requires x == LatestInvoice
    ensures !Reads(d, x) ==> Step(f, d, x, rt) == Updated(f)
    ensures Reads(d, x) && Step(f, d, x, rt).Updated? ==> Take(x, d, rt) == Success(Step(f, d, x, rt).fields.Get(x))
    ensures Reads(d, x) && Step(f, d, x, rt).Stopped? ==> Take(x, d, rt) == Failure(Step(f, d, x, rt).error)
    ensures Step(f, d, x, rt).Stopped? ==> Step(f, d, x, rt).fields == f
    ensures Step(f, d, x, rt).fields == Overwrite(f, x, Step(f, d, x, rt).fields)
  {
    match x
    case LatestInvoice => StoreLatestInvoiceFacts(f, d, rt);
  }

  /** `setData($data)` on an object in state `f`. */
  function Apply(f: RecurringChargeFields, d: map<string, Json>, rt: Runtime): Update<RecurringChargeFields> {
    Fold(Step, f, d, Order, rt)
  }

  class RecurringCharge {
    var id: Option<string>
    var billingCycleAnchor: Option<DateTime>
    var status: Option<string>
    var cancelAt: Option<DateTime>
    var cancelAtPeriodEnd: bool
    var canceledAt: Option<DateTime>
    var createdAt: Option<DateTime>
    var currentPeriodStart: Option<DateTime>
    var currentPeriodEnd: Option<DateTime>
    var customerId: Option<string>
    var description: Option<string>
    var paymentBehavior: Option<string>
    var startDate: Option<DateTime>
    var paymentMethodId: Option<string>
    var mode: Option<string>
    var items: Option<Mapped<RecurringItem>>
    var trialPeriodDays: Option<Int64>
    var trialStart: Option<DateTime>
    var trialEnd: Option<DateTime>
    var updatedAt: Option<DateTime>
    var latestInvoice: Option<InvoiceModel.InvoiceFields>

    function Fields(): RecurringChargeFields
      reads this
    {
      RecurringChargeFields(id, billingCycleAnchor, status, cancelAt, cancelAtPeriodEnd, canceledAt, createdAt, currentPeriodStart, currentPeriodEnd, customerId, description, paymentBehavior, startDate, paymentMethodId, mode, items, trialPeriodDays, trialStart, trialEnd, updatedAt, latestInvoice)
    }

    /** An object in state `f`; `New` is the PHP constructor. */
    constructor (f: RecurringChargeFields)
      ensures Fields() == f
    {
      id := f.id;
      billingCycleAnchor := f.billingCycleAnchor;
      status := f.status;
      cancelAt := f.cancelAt;
      cancelAtPeriodEnd := f.cancelAtPeriodEnd;
      canceledAt := f.canceledAt;
      createdAt := f.createdAt;
      currentPeriodStart := f.currentPeriodStart;
      currentPeriodEnd := f.currentPeriodEnd;
      customerId := f.customerId;
      description := f.description;
      paymentBehavior := f.paymentBehavior;
      startDate := f.startDate;
      paymentMethodId := f.paymentMethodId;
      mode := f.mode;
      items := f.items;
      trialPeriodDays := f.trialPeriodDays;
      trialStart := f.trialStart;
      trialEnd := f.trialEnd;
      updatedAt := f.updatedAt;
      latestInvoice := f.latestInvoice;
    }

    /** One guarded assignment of `setData`. */
    method Assign(x: Field, data: map<string, Json>, rt: Runtime) returns (r: Result<(), PhpError>)
      modifies this
      ensures Fields() == Step(old(Fields()), data, x, rt).fields
      ensures r.Failure? <==> Step(old(Fields()), data, x, rt).Stopped?
      ensures r.Failure? ==> r.error == Step(old(Fields()), data, x, rt).error
    {
      if !Reads(data, x) {
        return Success(());
      }
      if Later(x) {
        r := AssignLater(x, data, rt);
      } else {
        r := AssignEarlier(x, data, rt);
      }
    }

    /** The blocks up to the one `AssignLater` starts with. */
    method AssignEarlier(x: Field, data: map<string, Json>, rt: Runtime) returns (r: Result<(), PhpError>)
      requires Reads(data, x) && !Later(x)
      modifies this
      ensures Fields() == Step(old(Fields()), data, x, rt).fields
      ensures r.Failure? <==> Step(old(Fields()), data, x, rt).Stopped?
      ensures r.Failure? ==> r.error == Step(old(Fields()), data, x, rt).error
    {
      match x
      case Id => r := AssignId(data, rt);
      case BillingCycleAnchor => r := AssignBillingCycleAnchor(data, rt);
      case Status => r := AssignStatus(data, rt);
      case CancelAt => r := AssignCancelAt(data, rt);
      case CancelAtPeriodEnd => r := AssignCancelAtPeriodEnd(data, rt);
      case CanceledAt => r := AssignCanceledAt(data, rt);
      case CreatedAt => r := AssignCreatedAt(data, rt);
      case CurrentPeriodStart => r := AssignCurrentPeriodStart(data, rt);
      case CurrentPeriodEnd => r := AssignCurrentPeriodEnd(data, rt);
      case CustomerId => r := AssignCustomerId(data, rt);
      case Description => r := AssignDescription(data, rt);
      case _ => assert false;
    }

    /** The blocks from `paymentBehavior` on. */
    method AssignLater(x: Field, data: map<string, Json>, rt: Runtime) returns (r: Result<(), PhpError>)
      requires Reads(data, x) && Later(x)
      modifies this
      ensures Fields() == Step(old(Fields()), data, x, rt).fields
      ensures r.Failure? <==> Step(old(Fields()), data, x, rt).Stopped?
      ensures r.Failure? ==> r.error == Step(old(Fields()), data, x, rt).error
    {
      match x
      case PaymentBehavior => r := AssignPaymentBehavior(data, rt);
      case StartDate => r := AssignStartDate(data, rt);
      case PaymentMethodId => r := AssignPaymentMethodId(data, rt);
      case Mode => r := AssignMode(data, rt);
      case Items => r := AssignItems(data, rt);
      case TrialPeriodDays => r := AssignTrialPeriodDays(data, rt);
      case TrialStart => r := AssignTrialStart(data, rt);
      case TrialEnd => r := AssignTrialEnd(data, rt);
      case UpdatedAt => r := AssignUpdatedAt(data, rt);
      case LatestInvoice => r := AssignLatestInvoice(data, rt);
      case _ => assert false;
    }

    /** The block for `id`. */
    method AssignId(data: map<string, Json>, rt: Runtime) returns (r: Result<(), PhpError>)
      modifies this
      ensures Fields() == StoreId(old(Fields()), data, rt).fields
      ensures r.Failure? <==> StoreId(old(Fields()), data, rt).Stopped?
      ensures r.Failure? ==> r.error == StoreId(old(Fields()), data, rt).error
    {
      var s :- AsStr(Read(data, "id"), "RecurringCharge::$id");
      id := Some(s);
      return Success(());
    }

    /** The block for `billingCycleAnchor`. */
    method AssignBillingCycleAnchor(data: map<string, Json>, rt: Runtime) returns (r: Result<(), PhpError>)
      modifies this
      ensures Fields() == StoreBillingCycleAnchor(old(Fields()), data, rt).fields
      ensures r.Failure? <==> StoreBillingCycleAnchor(old(Fields()), data, rt).Stopped?
      ensures r.Failure? ==> r.error == StoreBillingCycleAnchor(old(Fields()), data, rt).error
    {
      var s :- NewDate(rt, Read(data, "billingCycleAnchor"), DateTarget);
      billingCycleAnchor := Some(s);
      return Success(());
    }

    /** The block for `status`. */
    method AssignStatus(data: map<string, Json>, rt: Runtime) returns (r: Result<(), PhpError>)
      modifies this
      ensures Fields() == StoreStatus(old(Fields()), data, rt).fields
      ensures r.Failure? <==> StoreStatus(old(Fields()), data, rt).Stopped?
      ensures r.Failure? ==> r.error == StoreStatus(old(Fields()), data, rt).error
    {
      var s :- AsStr(Read(data, "status"), "RecurringCharge::$status");
      status := Some(s);
      return Success(());
    }

    /** The block for `cancelAt`. */
    method AssignCancelAt(data: map<string, Json>, rt: Runtime) returns (r: Result<(), PhpError>)
      modifies this
      ensures Fields() == StoreCancelAt(old(Fields()), data, rt).fields
      ensures r.Failure? <==> StoreCancelAt(old(Fields()), data, rt).Stopped?
      ensures r.Failure? ==> r.error == StoreCancelAt(old(Fields()), data, rt).error
    {
      var s :- NewDate(rt, Read(data, "cancelAt"), DateTarget);
      cancelAt := Some(s);
      return Success(());
    }

    /** The block for `cancelAtPeriodEnd`. */
    method AssignCancelAtPeriodEnd(data: map<string, Json>, rt: Runtime) returns (r: Result<(), PhpError>)
      modifies this
      ensures Fields() == StoreCancelAtPeriodEnd(old(Fields()), data, rt).fields
      ensures r.Failure? <==> StoreCancelAtPeriodEnd(old(Fields()), data, rt).Stopped?
      ensures r.Failure? ==> r.error == StoreCancelAtPeriodEnd(old(Fields()), data, rt).error
    {
      var s :- AsBool(Read(data, "cancelAtPeriodEnd"), "RecurringCharge::$cancelAtPeriodEnd");
      cancelAtPeriodEnd := s;
      return Success(());
    }

    /** The block for `canceledAt`. */
    method AssignCanceledAt(data: map<string, Json>, rt: Runtime) returns (r: Result<(), PhpError>)
      modifies this
      ensures Fields() == StoreCanceledAt(old(Fields()), data, rt).fields
      ensures r.Failure? <==> StoreCanceledAt(old(Fields()), data, rt).Stopped?
      ensures r.Failure? ==> r.error == StoreCanceledAt(old(Fields()), data, rt).error
    {
      var s :- NewDate(rt, Read(data, "canceledAt"), DateTarget);
      canceledAt := Some(s);
      return Success(());
    }

    /** The block for `createdAt`. */
    method AssignCreatedAt(data: map<string, Json>, rt: Runtime) returns (r: Result<(), PhpError>)
      modifies this
      ensures Fields() == StoreCreatedAt(old(Fields()), data, rt).fields
      ensures r.Failure? <==> StoreCreatedAt(old(Fields()), data, rt).Stopped?
      ensures r.Failure? ==> r.error == StoreCreatedAt(old(Fields()), data, rt).error
    {
      var s :- NewDate(rt, Read(data, "createdAt"), DateTarget);
      createdAt := Some(s);
      return Success(());
    }

    /** The block for `currentPeriodStart`. */
    method AssignCurrentPeriodStart(data: map<string, Json>, rt: Runtime) returns (r: Result<(), PhpError>)
      modifies this
      ensures Fields() == StoreCurrentPeriodStart(old(Fields()), data, rt).fields
      ensures r.Failure? <==> StoreCurrentPeriodStart(old(Fields()), data, rt).Stopped?
      ensures r.Failure? ==> r.error == StoreCurrentPeriodStart(old(Fields()), data, rt).error
    {
      var s :- NewDate(rt, Read(data, "currentPeriodStart"), DateTarget);
      currentPeriodStart := Some(s);
      return Success(());
    }

    /** The block for `currentPeriodEnd`. */
    method AssignCurrentPeriodEnd(data: map<string, Json>, rt: Runtime) returns (r: Result<(), PhpError>)
      modifies this
      ensures Fields() == StoreCurrentPeriodEnd(old(Fields()), data, rt).fields
      ensures r.Failure? <==> StoreCurrentPeriodEnd(old(Fields()), data, rt).Stopped?
      ensures r.Failure? ==> r.error == StoreCurrentPeriodEnd(old(Fields()), data, rt).error
    {
      var s :- NewDate(rt, Read(data, "currentPeriodEnd"), DateTarget);
      currentPeriodEnd := Some(s);
      return Success(());
    }

    /** The block for `customerId`. */
    method AssignCustomerId(data: map<string, Json>, rt: Runtime) returns (r: Result<(), PhpError>)
      modifies this
      ensures Fields() == StoreCustomerId(old(Fields()), data, rt).fields
      ensures r.Failure? <==> StoreCustomerId(old(Fields()), data, rt).Stopped?
      ensures r.Failure? ==> r.error == StoreCustomerId(old(Fields()), data, rt).error
    {
      var s :- AsStr(Read(data, "customerId"), "RecurringCharge::$customerId");
      customerId := Some(s);
      return Success(());
    }

    /** The block for `description`. */
    method AssignDescription(data: map<string, Json>, rt: Runtime) returns (r: Result<(), PhpError>)
      modifies this
      ensures Fields() == StoreDescription(old(Fields()), data, rt).fields
      ensures r.Failure? <==> StoreDescription(old(Fields()), data, rt).Stopped?
      ensures r.Failure? ==> r.error == StoreDescription(old(Fields()), data, rt).error
    {
      var s :- AsStr(Read(data, "description"), "RecurringCharge::$description");
      description := Some(s);
      return Success(());
    }

    /** The block for `paymentBehavior`. */
    method AssignPaymentBehavior(data: map<string, Json>, rt: Runtime) returns (r: Result<(), PhpError>)
      modifies this
      ensures Fields() == StorePaymentBehavior(old(Fields()), data, rt).fields
      ensures r.Failure? <==> StorePaymentBehavior(old(Fields()), data, rt).Stopped?
      ensures r.Failure? ==> r.error == StorePaymentBehavior(old(Fields()), data, rt).error
    {
      var s :- AsStr(Read(data, "paymentBehavior"), "RecurringCharge::$paymentBehavior");
      paymentBehavior := Some(s);
      return Success(());
    }

    /** The block for `startDate`. */
    method AssignStartDate(data: map<string, Json>, rt: Runtime) returns (r: Result<(), PhpError>)
      modifies this
      ensures Fields() == StoreStartDate(old(Fields()), data, rt).fields
      ensures r.Failure? <==> StoreStartDate(old(Fields()), data, rt).Stopped?
      ensures r.Failure? ==> r.error == StoreStartDate(old(Fields()), data, rt).error
    {
      // The value is read from the empty key, not from `startDate`.
      var s :- NewDate(rt, Read(data, ""), DateTarget);
      startDate := Some(s);
      return Success(());
    }

    /** The block for `paymentMethodId`. */
    method AssignPaymentMethodId(data: map<string, Json>, rt: Runtime) returns (r: Result<(), PhpError>)
      modifies this
      ensures Fields() == StorePaymentMethodId(old(Fields()), data, rt).fields
      ensures r.Failure? <==> StorePaymentMethodId(old(Fields()), data, rt).Stopped?
      ensures r.Failure? ==> r.error == StorePaymentMethodId(old(Fields()), data, rt).error
    {
      var s :- AsStr(Read(data, "paymentMethodId"), "RecurringCharge::$paymentMethodId");
      paymentMethodId := Some(s);
      return Success(());
    }

    /** The block for `mode`. */
    method AssignMode(data: map<string, Json>, rt: Runtime) returns (r: Result<(), PhpError>)
      modifies this
      ensures Fields() == StoreMode(old(Fields()), data, rt).fields
      ensures r.Failure? <==> StoreMode(old(Fields()), data, rt).Stopped?
      ensures r.Failure? ==> r.error == StoreMode(old(Fields()), data, rt).error
    {
      var s :- AsStr(Read(data, "mode"), "RecurringCharge::$mode");
      mode := Some(s);
      return Success(());
    }

    /** The block for `items`. */
    method AssignItems(data: map<string, Json>, rt: Runtime) returns (r: Result<(), PhpError>)
      modifies this
      ensures Fields() == StoreItems(old(Fields()), data, rt).fields
      ensures r.Failure? <==> StoreItems(old(Fields()), data, rt).Stopped?
      ensures r.Failure? ==> r.error == StoreItems(old(Fields()), data, rt).error
    {
      var mapped :- ArrayMap(Read(data, "items"), ItemFromElement, rt);
      items := Some(mapped);
      return Success(());
    }

    /** The block for `trialPeriodDays`. */
    method AssignTrialPeriodDays(data: map<string, Json>, rt: Runtime) returns (r: Result<(), PhpError>)
      modifies this
      ensures Fields() == StoreTrialPeriodDays(old(Fields()), data, rt).fields
      ensures r.Failure? <==> StoreTrialPeriodDays(old(Fields()), data, rt).Stopped?
      ensures r.Failure? ==> r.error == StoreTrialPeriodDays(old(Fields()), data, rt).error
    {
      var s :- AsInt(Read(data, "trialPeriodDays"), "RecurringCharge::$trialPeriodDays");
      trialPeriodDays := Some(s);
      return Success(());
    }

    /** The block for `trialStart`. */
    method AssignTrialStart(data: map<string, Json>, rt: Runtime) returns (r: Result<(), PhpError>)
      modifies this
      ensures Fields() == StoreTrialStart(old(Fields()), data, rt).fields
      ensures r.Failure? <==> StoreTrialStart(old(Fields()), data, rt).Stopped?
      ensures r.Failure? ==> r.error == StoreTrialStart(old(Fields()), data, rt).error
    {
      var s :- NewDate(rt, Read(data, "trialStart"), DateTarget);
      trialStart := Some(s);
      return Success(());
    }

    /** The block for `trialEnd`. */
    method AssignTrialEnd(data: map<string, Json>, rt: Runtime) returns (r: Result<(), PhpError>)
      modifies this
      ensures Fields() == StoreTrialEnd(old(Fields()), data, rt).fields
      ensures r.Failure? <==> StoreTrialEnd(old(Fields()), data, rt).Stopped?
      ensures r.Failure? ==> r.error == StoreTrialEnd(old(Fields()), data, rt).error
    {
      var s :- NewDate(rt, Read(data, "trialEnd"), DateTarget);
      trialEnd := Some(s);
      return Success(());
    }

    /** The block for `updatedAt`. */
    method AssignUpdatedAt(data: map<string, Json>, rt: Runtime) returns (r: Result<(), PhpError>)
      modifies this
      ensures Fields() == StoreUpdatedAt(old(Fields()), data, rt).fields
      ensures r.Failure? <==> StoreUpdatedAt(old(Fields()), data, rt).Stopped?
      ensures r.Failure? ==> r.error == StoreUpdatedAt(old(Fields()), data, rt).error
    {
      var s :- NewDate(rt, Read(data, "updatedAt"), DateTarget);
      updatedAt := Some(s);
      return Success(());
    }

    /** The block for `latestInvoice`. */
    method AssignLatestInvoice(data: map<string, Json>, rt: Runtime) returns (r: Result<(), PhpError>)
      modifies this
      ensures Fields() == StoreLatestInvoice(old(Fields()), data, rt).fields
      ensures r.Failure? <==> StoreLatestInvoice(old(Fields()), data, rt).Stopped?
      ensures r.Failure? ==> r.error == StoreLatestInvoice(old(Fields()), data, rt).error
    {
      var inv :- InvoiceModel.FromArray(Read(data, "latestInvoice"), rt);
      latestInvoice := Some(inv);
      return Success(());
    }

    /** The blocks for the keys of `xs`, one after the other, up to the
        first error. */
    method AssignAll(xs: seq<Field>, data: map<string, Json>, rt: Runtime) returns (r: Result<(), PhpError>)
      modifies this
      ensures Fields() == Fold(Step, old(Fields()), data, xs, rt).fields
      ensures r.Failure? <==> Fold(Step, old(Fields()), data, xs, rt).Stopped?
      ensures r.Failure? ==> r.error == Fold(Step, old(Fields()), data, xs, rt).error
      decreases |xs|
    {
      if xs == [] {
        return Success(());
      }
      r := Assign(xs[0], data, rt);
      if r.Failure? {
        return;
      }
      r := AssignAll(xs[1..], data, rt);
    }

    /** `setData($data)`: every block, in the order of the source. */
    method SetData(data: map<string, Json>, rt: Runtime) returns (r: Result<(), PhpError>)
      modifies this
      ensures Fields() == Apply(old(Fields()), data, rt).fields
      ensures r.Failure? <==> Apply(old(Fields()), data, rt).Stopped?
      ensures r.Failure? ==> r.error == Apply(old(Fields()), data, rt).error
    {
      r := AssignAll(Order, data, rt);
    }
  }

  // ---------------------------------------------------------------------------
  // Properties of setData

  lemma OrderIsComplete(x: Field)
    ensures x in Order
  {
  }

  /** A field whose key `setData` does not act on keeps its value, even
      when `setData` stops early. */
  lemma ApplyKeepsUnread(f: RecurringChargeFields, d: map<string, Json>, x: Field, rt: Runtime)
    requires !Reads(d, x)
    ensures Apply(f, d, rt).fields.Get(x) == f.Get(x)
  {
    var P := (g: RecurringChargeFields) => g.Get(x) == f.Get(x);
    StepKeepsUnread(d, x, rt, f.Get(x), P);
    FoldKeeps(Step, f, d, Order, rt, P);
  }

  /** No step changes a field whose key `setData` does not act on. */
  lemma StepKeepsUnread(d: map<string, Json>, x: Field, rt: Runtime, v: Json, P: RecurringChargeFields -> bool)
    requires !Reads(d, x)
    requires forall g :: P(g) <==> g.Get(x) == v
    ensures forall g, y :: y in Order && P(g) ==> P(Step(g, d, y, rt).fields)
  {
    forall g, y | y in Order && P(g)
      ensures P(Step(g, d, y, rt).fields)
    {
      StepFacts(g, d, y, rt);
      if y != x {
        SameGet(Step(g, d, y, rt).fields, g, x);
      }
    }
  }

  /** When `setData` completes, each field it acts on holds what `Take`
      says. */
  lemma ApplyStoresRead(f: RecurringChargeFields, d: map<string, Json>, x: Field, rt: Runtime)
    requires Reads(d, x) && Apply(f, d, rt).Updated?
    ensures Take(x, d, rt) == Success(Apply(f, d, rt).fields.Get(x))
  {
    OrderIsComplete(x);
    var P := (g: RecurringChargeFields) => Take(x, d, rt) == Success(g.Get(x));
    StepStoresRead(d, x, rt, P);
    ApplyEstablishes(f, d, x, rt, P);
  }

  /** `FoldEstablishes` for `setData`'s own steps. */
  lemma ApplyEstablishes(f: RecurringChargeFields, d: map<string, Json>, x: Field, rt: Runtime, P: RecurringChargeFields -> bool)
    requires x in Order
    requires forall g :: Step(g, d, x, rt).Updated? ==> P(Step(g, d, x, rt).fields)
    requires forall g, y :: y != x && P(g) ==> P(Step(g, d, y, rt).fields)
    ensures Apply(f, d, rt).Updated? ==> P(Apply(f, d, rt).fields)
  {
    FoldEstablishes(Step, f, d, Order, rt, x, P);
  }

  /** The step for `x` establishes what `Take` says, and the other steps
      keep it. */
  lemma StepStoresRead(d: map<string, Json>, x: Field, rt: Runtime, P: RecurringChargeFields -> bool)
    requires Reads(d, x)
    requires forall g :: P(g) <==> Take(x, d, rt) == Success(g.Get(x))
    ensures forall g :: Step(g, d, x, rt).Updated? ==> P(Step(g, d, x, rt).fields)
    ensures forall g, y :: y != x && P(g) ==> P(Step(g, d, y, rt).fields)
  {
    forall g
      ensures Step(g, d, x, rt).Updated? ==> P(Step(g, d, x, rt).fields)
    {
      StepFacts(g, d, x, rt);
    }
    forall g, y | y != x && P(g)
      ensures P(Step(g, d, y, rt).fields)
    {
      StepFacts(g, d, y, rt);
      SameGet(Step(g, d, y, rt).fields, g, x);
    }
  }

  /** `setData` stops exactly when some key it acts on is refused, and
      with the error of the first such key in its order. */
  lemma ApplyStops(f: RecurringChargeFields, d: map<string, Json>, rt: Runtime)
    ensures Apply(f, d, rt).Stopped? <==> exists x: Field :: Refused(d, x, rt)
    ensures Apply(f, d, rt).Stopped? ==>
      exists i :: 0 <= i < |Order| && Refused(d, Order[i], rt) &&
        (forall j :: 0 <= j < i ==> !Refused(d, Order[j], rt)) &&
        Apply(f, d, rt).error == Take(Order[i], d, rt).error
  {
    forall g, y: Field
      ensures Step(g, d, y, rt).Stopped? <==> Refused(d, y, rt)
      ensures Refused(d, y, rt) ==> Step(g, d, y, rt).error == Take(y, d, rt).error
    {
      StepFacts(g, d, y, rt);
    }
    FoldStops(Step, f, d, Order, rt, (y: Field) => Refused(d, y, rt), (y: Field) => Take(y, d, rt));
    if x: Field :| Refused(d, x, rt) {
      OrderIsComplete(x);
    }
  }

  /** An empty array changes nothing. */
  lemma ApplyEmpty(f: RecurringChargeFields, rt: Runtime)
    ensures Apply(f, map[], rt) == Updated(f)
  {
    FoldNoOp(Step, f, map[], Order, rt);
  }

  /** The latest invoice as `toArray` shows it: its own `toArray()`, or null. */
  function ShownInvoice(i: Option<InvoiceModel.InvoiceFields>): (r: Json)
    ensures r.JNull? <==> i.None?
  {
    if i.Some? then JObject(i.value.ToArray()) else JNull
  }

  /** The items as `toArray` shows them: mapped through each item's
      `toArray()` when the array is non-empty, null otherwise (an empty array
      is falsy). */
  function ShownItems(items: Option<Mapped<RecurringItem>>): (r: Json)
    ensures r.JNull? <==> items.None? || !items.value.NonEmpty()
    ensures items.Some? && items.value.NonEmpty() ==> r == ItemsJson(items.value)
  {
    if items.Some? && items.value.NonEmpty() then ItemsJson(items.value) else JNull
  }

  /** `$s !== null ? new DateTime($s) : null` */
  function DateOf(rt: Runtime, s: Option<string>): (r: Result<Option<DateTime>, PhpError>)
    ensures s.None? ==> r == Success(None)
    ensures s.Some? ==> (r.Success? <==> rt.construct(s.value).Some?)
    ensures s.Some? && r.Success? ==> r.value == rt.construct(s.value)
    ensures s.Some? && r.Failure? ==> r.error == MalformedDate(s.value)
  {
    match s
    case None => Success(None)
    case Some(text) =>
      match rt.construct(text)
      case None => Failure(MalformedDate(text))
      case Some(t) => Success(Some(t))
  }

  /** The `items` block of the constructor: `array_map` of `new RecurringItem`
      over a given array. */
  function ItemsOf(rt: Runtime, items: Option<Json>): (r: Result<Option<Mapped<RecurringItem>>, PhpError>)
    requires items.Some? ==> IsArray(items.value)
    ensures items.None? ==> r == Success(None)
    ensures items.Some? ==> (r.Success? <==> ArrayMap(items.value, ItemFromElement, rt).Success?)
    ensures items.Some? && r.Success? ==> r.value == Some(ArrayMap(items.value, ItemFromElement, rt).value)
  {
    match items
    case None => Success(None)
    case Some(v) =>
      var m :- ArrayMap(v, ItemFromElement, rt);
      Success(Some(m))
  }

  /** The error the constructor's parsing steps raise, taken in its order:
      seven dates, the items, three more dates. */
  function ConstructorError(rt: Runtime, billingCycleAnchor: Option<string>, cancelAt: Option<string>,
                            canceledAt: Option<string>, createdAt: Option<string>,
                            currentPeriodStart: Option<string>, currentPeriodEnd: Option<string>,
                            startDate: Option<string>, items: Option<Json>, trialStart: Option<string>,
                            trialEnd: Option<string>, updatedAt: Option<string>): Option<PhpError>
    requires items.Some? ==> IsArray(items.value)
  {
    FirstOf(ErrorOf(DateOf(rt, billingCycleAnchor)), FirstOf(ErrorOf(DateOf(rt, cancelAt)),
    FirstOf(ErrorOf(DateOf(rt, canceledAt)), FirstOf(ErrorOf(DateOf(rt, createdAt)),
    FirstOf(ErrorOf(DateOf(rt, currentPeriodStart)), FirstOf(ErrorOf(DateOf(rt, currentPeriodEnd)),
    FirstOf(ErrorOf(DateOf(rt, startDate)), FirstOf(ErrorOf(ItemsOf(rt, items)),
    FirstOf(ErrorOf(DateOf(rt, trialStart)), FirstOf(ErrorOf(DateOf(rt, trialEnd)),
    ErrorOf(DateOf(rt, updatedAt))))))))))))
  }

  /** `new RecurringCharge(...)`: every argument is optional. `$items` must
      be an array or null. The texts, the flag, `trialPeriodDays` and the
      invoice are stored as given; each date string is parsed and each item
      built, in the order of the constructor, and the first failure is the
      constructor's. */
  function New(rt: Runtime, id: Option<string> := None, billingCycleAnchor: Option<string> := None,
               status: Option<string> := None, cancelAt: Option<string> := None, cancelAtPeriodEnd: bool := false,
               canceledAt: Option<string> := None, createdAt: Option<string> := None,
               currentPeriodStart: Option<string> := None, currentPeriodEnd: Option<string> := None,
               customerId: Option<string> := None, description: Option<string> := None,
               paymentBehavior: Option<string> := None, startDate: Option<string> := None,
               paymentMethodId: Option<string> := None, mode: Option<string> := None, items: Option<Json> := None,
               trialPeriodDays: Option<Int64> := None, trialStart: Option<string> := None,
               trialEnd: Option<string> := None, updatedAt: Option<string> := None,
               latestInvoice: Option<InvoiceModel.InvoiceFields> := None): (r: Result<RecurringChargeFields, PhpError>)
    ensures items.Some? && !IsArray(items.value) ==>
      r == Failure(TypeError("RecurringCharge::__construct(): Argument #16 ($items)"))
    ensures r.Success? <==>
      && (items.None? || IsArray(items.value))
      && DateOf(rt, billingCycleAnchor).Success? && DateOf(rt, cancelAt).Success? && DateOf(rt, canceledAt).Success?
      && DateOf(rt, createdAt).Success? && DateOf(rt, currentPeriodStart).Success?
      && DateOf(rt, currentPeriodEnd).Success? && DateOf(rt, startDate).Success?
      && (items.Some? ==> ArrayMap(items.value, ItemFromElement, rt).Success?)
      && DateOf(rt, trialStart).Success? && DateOf(rt, trialEnd).Success? && DateOf(rt, updatedAt).Success?
    ensures items.None? || IsArray(items.value) ==>
      ErrorOf(r) == ConstructorError(rt, billingCycleAnchor, cancelAt, canceledAt, createdAt, currentPeriodStart,
                                     currentPeriodEnd, startDate, items, trialStart, trialEnd, updatedAt)
    ensures r.Success? ==>
      r.value.id == id && r.value.status == status && r.value.cancelAtPeriodEnd == cancelAtPeriodEnd &&
      r.value.customerId == customerId && r.value.description == description &&
      r.value.paymentBehavior == paymentBehavior && r.value.paymentMethodId == paymentMethodId &&
      r.value.mode == mode && r.value.trialPeriodDays == trialPeriodDays && r.value.latestInvoice == latestInvoice
    ensures r.Success? ==>
      DateOf(rt, billingCycleAnchor) == Success(r.value.billingCycleAnchor) &&
      DateOf(rt, cancelAt) == Success(r.value.cancelAt) && DateOf(rt, canceledAt) == Success(r.value.canceledAt) &&
      DateOf(rt, createdAt) == Success(r.value.createdAt) &&
      DateOf(rt, currentPeriodStart) == Success(r.value.currentPeriodStart) &&
      DateOf(rt, currentPeriodEnd) == Success(r.value.currentPeriodEnd) &&
      DateOf(rt, startDate) == Success(r.value.startDate) && DateOf(rt, trialStart) == Success(r.value.trialStart) &&
      DateOf(rt, trialEnd) == Success(r.value.trialEnd) && DateOf(rt, updatedAt) == Success(r.value.updatedAt)
    ensures r.Success? ==> (r.value.items.None? <==> items.None?)
    ensures r.Success? && items.Some? ==> ArrayMap(items.value, ItemFromElement, rt) == Success(r.value.items.value)
  {
    if items.Some? && !IsArray(items.value) then
      Failure(TypeError("RecurringCharge::__construct(): Argument #16 ($items)"))
    else
      var anchor :- DateOf(rt, billingCycleAnchor);
      var cancel :- DateOf(rt, cancelAt);
      var canceled :- DateOf(rt, canceledAt);
      var created :- DateOf(rt, createdAt);
      var periodStart :- DateOf(rt, currentPeriodStart);
      var periodEnd :- DateOf(rt, currentPeriodEnd);
      var start :- DateOf(rt, startDate);
      var mapped :- ItemsOf(rt, items);
      var trialFrom :- DateOf(rt, trialStart);
      var trialTo :- DateOf(rt, trialEnd);
      var updated :- DateOf(rt, updatedAt);
      Success(RecurringChargeFields(id, anchor, status, cancel, cancelAtPeriodEnd, canceled, created, periodStart,
                                    periodEnd, customerId, description, paymentBehavior, start, paymentMethodId, mode,
                                    mapped, trialPeriodDays, trialFrom, trialTo, updated, latestInvoice))
  }

  /** `new RecurringCharge()` with no arguments: everything null and
      `cancelAtPeriodEnd` false. */
  lemma NewDefaults(rt: Runtime)
    ensures New(rt) == Success(RecurringChargeFields(None, None, None, None, false, None, None, None, None, None,
                                                     None, None, None, None, None, None, None, None, None, None, None))
  {
  }

  /** A `startDate` key is acted on, but the date stored comes from the
      empty key: without one, it is whatever `new DateTime(null)`, the
      current time, gives, whatever `startDate` held. */
  lemma StartDateIgnoresItsValue(d: map<string, Json>, rt: Runtime)
    requires IsSet(d, "startDate") && "" !in d
    ensures Take(StartDate, d, rt) ==
      (match rt.construct("") case Some(t) => Success(JString(t.atom)) case None => Failure(MalformedDate("")))
  {
  }

  /** `toUpdateArray()` is `toArray(true)` less `customerId` and
      `paymentMethodId` when those are falsy: it never adds a key or changes
      a value. */
  lemma UpdateArrayWithinNewArray(f: RecurringChargeFields)
    ensures forall x: Field :: x.Key() in f.ToUpdateArray() ==>
      x.Key() in f.ToNewArray() && f.ToUpdateArray()[x.Key()] == f.ToNewArray()[x.Key()]
    ensures forall x: Field :: x.Key() in f.ToNewArray() && x.Key() !in f.ToUpdateArray() ==>
      (x == CustomerId || x == PaymentMethodId) && Empty(f.Get(x))
  {
    forall x: Field
      ensures f.UpdateShows(x) ==> f.NewShows(x)
      ensures f.NewShows(x) && !f.UpdateShows(x) ==> (x == CustomerId || x == PaymentMethodId) && Empty(f.Get(x))
    {
    }
  }

  /** Distinct properties have distinct keys. */
  lemma KeyInjective()
    ensures forall x: Field, y: Field :: x.Key() == y.Key() ==> x == y
  {
  }

  // ---------------------------------------------------------------------------
  // RecurringItem

  /** A RecurringItem as its constructor leaves it. Its `id`, `createdAt` and
      `updatedAt` properties are never initialised, and nothing reads them. */
  datatype RecurringItem = RecurringItem(priceId: string, quantity: Int64) {
    /** `toArray()`: exactly `priceId` and `quantity`. */
    function ToArray(): (m: map<string, Json>)
      ensures m.Keys == {"priceId", "quantity"}
      ensures m["priceId"] == JString(priceId) && m["quantity"] == JInt(quantity)
    {
      map["priceId" := JString(priceId), "quantity" := JInt(quantity)]
    }
  }

  /** `fn($i) => $i->toArray()` for an item. */
  function ItemJson(i: RecurringItem): Json {
    JObject(i.ToArray())
  }

  /** The items array as JSON: each item as its `toArray()`. */
  function ItemsJson(items: Mapped<RecurringItem>): Json {
    Project(items, ItemJson)
  }

  /** `new RecurringItem($i['priceId'], $i['quantity'])` for one element `$i`
      of the items array: both arguments are read first (a missing key reads
      as null), then checked against `string` and `int` in order. */
  function ItemFromElement(i: Json): (r: Result<RecurringItem, PhpError>)
    ensures r.Success? <==> ToStr(ReadIn(i, "priceId")).Some? && ToInt(ReadIn(i, "quantity")).Some?
    ensures r.Success? ==> Some(r.value.priceId) == ToStr(ReadIn(i, "priceId")) &&
                           Some(r.value.quantity) == ToInt(ReadIn(i, "quantity"))
    ensures ToStr(ReadIn(i, "priceId")).None? ==>
      r == Failure(TypeError("RecurringItem::__construct(): Argument #1 ($priceId)"))
  {
    var priceId :- AsStr(ReadIn(i, "priceId"), "RecurringItem::__construct(): Argument #1 ($priceId)");
    var quantity :- AsInt(ReadIn(i, "quantity"), "RecurringItem::__construct(): Argument #2 ($quantity)");
    Success(RecurringItem(priceId, quantity))
  }

  /** An item's own array is accepted back as constructor input and gives
      the same item. */
  lemma ItemJsonRoundTrip(i: RecurringItem)
    ensures ItemFromElement(ItemJson(i)) == Success(i)
  {
    assert ReadIn(ItemJson(i), "priceId") == JString(i.priceId);
    assert ReadIn(ItemJson(i), "quantity") == JInt(i.quantity);
  }

  /** Mapping a list of elements, then showing it, is element-wise: the
      list keeps its length and order, and element `k` shows the item built
      from input element `k`. */
  lemma ItemsMapElementwise(xs: seq<Json>, rt: Runtime)
    requires ArrayMap(JList(xs), ItemFromElement, rt).Success?
    ensures var shown := ItemsJson(ArrayMap(JList(xs), ItemFromElement, rt).value);
      shown.JList? && |shown.items| == |xs| &&
      forall k :: 0 <= k < |xs| ==>
        ItemFromElement(xs[k]).Success? && shown.items[k] == JObject(ItemFromElement(xs[k]).value.ToArray())
  {
    var m := ArrayMap(JList(xs), ItemFromElement, rt).value;
    assert m.MappedList? && |m.elems| == |xs|;
    forall k | 0 <= k < |xs|
      ensures ItemFromElement(xs[k]) == Success(m.elems[k])
    {
    }
  }

  /** Items given as their own arrays come back unchanged: a list of item
      arrays maps to items whose arrays are that list. */
  lemma ItemsRoundTrip(items: seq<RecurringItem>, rt: Runtime)
    ensures var xs := seq(|items|, k requires 0 <= k < |items| => ItemJson(items[k]));
      ArrayMap(JList(xs), ItemFromElement, rt) == Success(MappedList(items))
  {
    var xs := seq(|items|, k requires 0 <= k < |items| => ItemJson(items[k]));
    forall k | 0 <= k < |xs|
      ensures ItemFromElement(xs[k]) == Success(items[k])
    {
      ItemJsonRoundTrip(items[k]);
    }
    var r := ArrayMap(JList(xs), ItemFromElement, rt);
    assert r.value.elems == items;
  }
}
