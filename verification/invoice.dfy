/**
 * `App\Models\Invoice` and `App\Models\InvoiceAdditionalItem`, declared
 * beside `RecurringCharge`. An invoice is built once, from an array: each
 * property takes `$data[key] ?? null` in order, a date is parsed only when
 * set, and the additional items are mapped only when set. Since every
 * property starts out null, the constructor is the run of guarded
 * assignments `Apply` makes from the all-null `Blank`, and it is modelled so.
 */
module Invoice {
  import opened Php
  import opened Setter
  import opened Arrays

  /** An Invoice: every property nullable. */
  datatype InvoiceFields = InvoiceFields(
    id: Option<string>,
    mode: Option<string>,
    currency: Option<string>,
    attemptCount: Option<Int64>,
    attempted: Option<bool>,
    description: Option<string>,
    total: Option<Int64>,
    subtotal: Option<Int64>,
    originalTotal: Option<Int64>,
    status: Option<string>,
    createdAt: Option<DateTime>,
    lastPaymentAttempt: Option<DateTime>,
    nextPaymentAttempt: Option<DateTime>,
    invoiceAdditionalItems: Option<Mapped<AdditionalItem>>)
  {
    /** Field `x` as JSON: what `toArray` shows of it. */
    function Get(x: Field): Json {
      match x
      case Id => OptStr(id)
      case Mode => OptStr(mode)
      case Currency => OptStr(currency)
      case AttemptCount => OptInt(attemptCount)
      case Attempted => OptBool(attempted)
      case Description => OptStr(description)
      case Total => OptInt(total)
      case Subtotal => OptInt(subtotal)
      case OriginalTotal => OptInt(originalTotal)
      case Status => OptStr(status)
      case CreatedAt => OptDate(createdAt)
      case LastPaymentAttempt => OptDate(lastPaymentAttempt)
      case NextPaymentAttempt => OptDate(nextPaymentAttempt)
      case InvoiceAdditionalItems => ShownAdditionalItems(invoiceAdditionalItems)
    }

    /** `toArray()`: every property under its own key, as `Get` shows it,
        except that `invoiceAdditionalItems` appears only when the list is
        non-empty. */
    function ToArray(): (m: map<string, Json>)
      ensures forall x: Field :: x != InvoiceAdditionalItems ==> x.Key() in m && m[x.Key()] == Get(x)
      ensures InvoiceAdditionalItems.Key() in m <==> invoiceAdditionalItems.Some? && invoiceAdditionalItems.value.NonEmpty()
      ensures InvoiceAdditionalItems.Key() in m ==> m[InvoiceAdditionalItems.Key()] == Get(InvoiceAdditionalItems)
      ensures forall k :: k in m ==> exists x: Field :: x.Key() == k
    {
      KeyInjective();
      map x: Field | x in Order && Shows(x) :: x.Key() := Get(x)
    }

    /** `toArray()` shows property `x`. */
    predicate Shows(x: Field) {
      x != InvoiceAdditionalItems || (invoiceAdditionalItems.Some? && invoiceAdditionalItems.value.NonEmpty())
    }
  }

  /** The keys the constructor looks at. */
  datatype Field = Id | Mode | Currency | AttemptCount | Attempted | Description | Total | Subtotal | OriginalTotal | Status | CreatedAt | LastPaymentAttempt | NextPaymentAttempt | InvoiceAdditionalItems {
    function Key(): string {
      match this
      case Id => "id"
      case Mode => "mode"
      case Currency => "currency"
      case AttemptCount => "attemptCount"
      case Attempted => "attempted"
      case Description => "description"
      case Total => "total"
      case Subtotal => "subtotal"
      case OriginalTotal => "originalTotal"
      case Status => "status"
      case CreatedAt => "createdAt"
      case LastPaymentAttempt => "lastPaymentAttempt"
      case NextPaymentAttempt => "nextPaymentAttempt"
      case InvoiceAdditionalItems => "invoiceAdditionalItems"
    }
  }

  /** The order in which the constructor visits them. */
  const Order: seq<Field> := [Id, Mode, Currency, AttemptCount, Attempted, Description, Total, Subtotal, OriginalTotal, Status, CreatedAt, LastPaymentAttempt, NextPaymentAttempt, InvoiceAdditionalItems]

  /** `g` and `f` hold the same value in field `x`. */
  predicate Same(g: InvoiceFields, f: InvoiceFields, x: Field) {
    match x
    case Id => g.id == f.id
    case Mode => g.mode == f.mode
    case Currency => g.currency == f.currency
    case AttemptCount => g.attemptCount == f.attemptCount
    case Attempted => g.attempted == f.attempted
    case Description => g.description == f.description
    case Total => g.total == f.total
    case Subtotal => g.subtotal == f.subtotal
    case OriginalTotal => g.originalTotal == f.originalTotal
    case Status => g.status == f.status
    case CreatedAt => g.createdAt == f.createdAt
    case LastPaymentAttempt => g.lastPaymentAttempt == f.lastPaymentAttempt
    case NextPaymentAttempt => g.nextPaymentAttempt == f.nextPaymentAttempt
    case InvoiceAdditionalItems => g.invoiceAdditionalItems == f.invoiceAdditionalItems
  }

  lemma SameGet(g: InvoiceFields, f: InvoiceFields, x: Field)
    requires Same(g, f, x)
    ensures g.Get(x) == f.Get(x)
  {
  }

  /** The constructor acts on key `x` of `d`: the key is set (`isset`). */
  predicate Reads(d: map<string, Json>, x: Field) {
    IsSet(d, x.Key())
  }

  /** What the constructor leaves in field `x` when it acts on it, in `Get`'s
      terms, or the error it raises. */
  function Take(x: Field, d: map<string, Json>, rt: Runtime): Result<Json, PhpError> {
    match x
    case Id => TakeId(d, rt)
    case Mode => TakeMode(d, rt)
    case Currency => TakeCurrency(d, rt)
    case AttemptCount => TakeAttemptCount(d, rt)
    case Attempted => TakeAttempted(d, rt)
    case Description => TakeDescription(d, rt)
    case Total => TakeTotal(d, rt)
    case Subtotal => TakeSubtotal(d, rt)
    case OriginalTotal => TakeOriginalTotal(d, rt)
    case Status => TakeStatus(d, rt)
    case CreatedAt => TakeCreatedAt(d, rt)
    case LastPaymentAttempt => TakeLastPaymentAttempt(d, rt)
    case NextPaymentAttempt => TakeNextPaymentAttempt(d, rt)
    case InvoiceAdditionalItems => TakeInvoiceAdditionalItems(d, rt)
  }

  /** What the block for `id` leaves in its field, or its error. */
  function TakeId(d: map<string, Json>, rt: Runtime): Result<Json, PhpError> {
    (match AsStr(Read(d, "id"), "Invoice::$id") case Failure(e) => Failure(e) case Success(s) => Success(JString(s)))
  }

  /** What the block for `mode` leaves in its field, or its error. */
  function TakeMode(d: map<string, Json>, rt: Runtime): Result<Json, PhpError> {
    (match AsStr(Read(d, "mode"), "Invoice::$mode") case Failure(e) => Failure(e) case Success(s) => Success(JString(s)))
  }

  /** What the block for `currency` leaves in its field, or its error. */
  function TakeCurrency(d: map<string, Json>, rt: Runtime): Result<Json, PhpError> {
    (match AsStr(Read(d, "currency"), "Invoice::$currency") case Failure(e) => Failure(e) case Success(s) => Success(JString(s)))
  }

  /** What the block for `attemptCount` leaves in its field, or its error. */
  function TakeAttemptCount(d: map<string, Json>, rt: Runtime): Result<Json, PhpError> {
    (match AsInt(Read(d, "attemptCount"), "Invoice::$attemptCount") case Failure(e) => Failure(e) case Success(s) => Success(JInt(s)))
  }

  /** What the block for `attempted` leaves in its field, or its error. */
  function TakeAttempted(d: map<string, Json>, rt: Runtime): Result<Json, PhpError> {
    (match AsBool(Read(d, "attempted"), "Invoice::$attempted") case Failure(e) => Failure(e) case Success(s) => Success(JBool(s)))
  }

  /** What the block for `description` leaves in its field, or its error. */
  function TakeDescription(d: map<string, Json>, rt: Runtime): Result<Json, PhpError> {
    (match AsStr(Read(d, "description"), "Invoice::$description") case Failure(e) => Failure(e) case Success(s) => Success(JString(s)))
  }

  /** What the block for `total` leaves in its field, or its error. */
  function TakeTotal(d: map<string, Json>, rt: Runtime): Result<Json, PhpError> {
    (match AsInt(Read(d, "total"), "Invoice::$total") case Failure(e) => Failure(e) case Success(s) => Success(JInt(s)))
  }

  /** What the block for `subtotal` leaves in its field, or its error. */
  function TakeSubtotal(d: map<string, Json>, rt: Runtime): Result<Json, PhpError> {
    (match AsInt(Read(d, "subtotal"), "Invoice::$subtotal") case Failure(e) => Failure(e) case Success(s) => Success(JInt(s)))
  }

  /** What the block for `originalTotal` leaves in its field, or its error. */
  function TakeOriginalTotal(d: map<string, Json>, rt: Runtime): Result<Json, PhpError> {
    (match AsInt(Read(d, "originalTotal"), "Invoice::$originalTotal") case Failure(e) => Failure(e) case Success(s) => Success(JInt(s)))
  }

  /** What the block for `status` leaves in its field, or its error. */
  function TakeStatus(d: map<string, Json>, rt: Runtime): Result<Json, PhpError> {
    (match AsStr(Read(d, "status"), "Invoice::$status") case Failure(e) => Failure(e) case Success(s) => Success(JString(s)))
  }

  /** What the block for `createdAt` leaves in its field, or its error. */
  function TakeCreatedAt(d: map<string, Json>, rt: Runtime): Result<Json, PhpError> {
    (match NewDate(rt, Read(d, "createdAt"), DateTarget) case Failure(e) => Failure(e) case Success(s) => Success(JString(s.atom)))
  }

  /** What the block for `lastPaymentAttempt` leaves in its field, or its error. */
  function TakeLastPaymentAttempt(d: map<string, Json>, rt: Runtime): Result<Json, PhpError> {
    (match NewDate(rt, Read(d, "lastPaymentAttempt"), DateTarget) case Failure(e) => Failure(e) case Success(s) => Success(JString(s.atom)))
  }

  /** What the block for `nextPaymentAttempt` leaves in its field, or its error. */
  function TakeNextPaymentAttempt(d: map<string, Json>, rt: Runtime): Result<Json, PhpError> {
    (match NewDate(rt, Read(d, "nextPaymentAttempt"), DateTarget) case Failure(e) => Failure(e) case Success(s) => Success(JString(s.atom)))
  }

  /** What the block for `invoiceAdditionalItems` leaves in its field, or its error. */
  function TakeInvoiceAdditionalItems(d: map<string, Json>, rt: Runtime): Result<Json, PhpError> {
    (match AdditionalItemsFrom(Read(d, "invoiceAdditionalItems"), rt) case Failure(e) => Failure(e) case Success(m) => Success(ShownAdditionalItems(Some(m))))
  }

  /** A key the constructor acts on and stops at. */
  predicate Refused(d: map<string, Json>, x: Field, rt: Runtime) {
    Reads(d, x) && Take(x, d, rt).Failure?
  }

  /** The assignment for `id`, once the key is set. */
  function StoreId(f: InvoiceFields, d: map<string, Json>, rt: Runtime): Update<InvoiceFields> {
    (match AsStr(Read(d, "id"), "Invoice::$id")
      case Failure(e) => Stopped(f, e)
      case Success(s) => Updated(f.(id := Some(s))))
  }

  /** The assignment for `mode`, once the key is set. */
  function StoreMode(f: InvoiceFields, d: map<string, Json>, rt: Runtime): Update<InvoiceFields> {
    (match AsStr(Read(d, "mode"), "Invoice::$mode")
      case Failure(e) => Stopped(f, e)
      case Success(s) => Updated(f.(mode := Some(s))))
  }

  /** The assignment for `currency`, once the key is set. */
  function StoreCurrency(f: InvoiceFields, d: map<string, Json>, rt: Runtime): Update<InvoiceFields> {
    (match AsStr(Read(d, "currency"), "Invoice::$currency")
      case Failure(e) => Stopped(f, e)
      case Success(s) => Updated(f.(currency := Some(s))))
  }

  /** The assignment for `attemptCount`, once the key is set. */
  function StoreAttemptCount(f: InvoiceFields, d: map<string, Json>, rt: Runtime): Update<InvoiceFields> {
    (match AsInt(Read(d, "attemptCount"), "Invoice::$attemptCount")
      case Failure(e) => Stopped(f, e)
      case Success(s) => Updated(f.(attemptCount := Some(s))))
  }

  /** The assignment for `attempted`, once the key is set. */
  function StoreAttempted(f: InvoiceFields, d: map<string, Json>, rt: Runtime): Update<InvoiceFields> {
    (match AsBool(Read(d, "attempted"), "Invoice::$attempted")
      case Failure(e) => Stopped(f, e)
      case Success(s) => Updated(f.(attempted := Some(s))))
  }

  /** The assignment for `description`, once the key is set. */
  function StoreDescription(f: InvoiceFields, d: map<string, Json>, rt: Runtime): Update<InvoiceFields> {
    (match AsStr(Read(d, "description"), "Invoice::$description")
      case Failure(e) => Stopped(f, e)
      case Success(s) => Updated(f.(description := Some(s))))
  }

  /** The assignment for `total`, once the key is set. */
  function StoreTotal(f: InvoiceFields, d: map<string, Json>, rt: Runtime): Update<InvoiceFields> {
    (match AsInt(Read(d, "total"), "Invoice::$total")
      case Failure(e) => Stopped(f, e)
      case Success(s) => Updated(f.(total := Some(s))))
  }

  /** The assignment for `subtotal`, once the key is set. */
  function StoreSubtotal(f: InvoiceFields, d: map<string, Json>, rt: Runtime): Update<InvoiceFields> {
    (match AsInt(Read(d, "subtotal"), "Invoice::$subtotal")
      case Failure(e) => Stopped(f, e)
      case Success(s) => Updated(f.(subtotal := Some(s))))
  }

  /** The assignment for `originalTotal`, once the key is set. */
  function StoreOriginalTotal(f: InvoiceFields, d: map<string, Json>, rt: Runtime): Update<InvoiceFields> {
    (match AsInt(Read(d, "originalTotal"), "Invoice::$originalTotal")
      case Failure(e) => Stopped(f, e)
      case Success(s) => Updated(f.(originalTotal := Some(s))))
  }

  /** The assignment for `status`, once the key is set. */
  function StoreStatus(f: InvoiceFields, d: map<string, Json>, rt: Runtime): Update<InvoiceFields> {
    (match AsStr(Read(d, "status"), "Invoice::$status")
      case Failure(e) => Stopped(f, e)
      case Success(s) => Updated(f.(status := Some(s))))
  }

  /** The assignment for `createdAt`, once the key is set. */
  function StoreCreatedAt(f: InvoiceFields, d: map<string, Json>, rt: Runtime): Update<InvoiceFields> {
    (match NewDate(rt, Read(d, "createdAt"), DateTarget)
      case Failure(e) => Stopped(f, e)
      case Success(s) => Updated(f.(createdAt := Some(s))))
  }

  /** The assignment for `lastPaymentAttempt`, once the key is set. */
  function StoreLastPaymentAttempt(f: InvoiceFields, d: map<string, Json>, rt: Runtime): Update<InvoiceFields> {
    (match NewDate(rt, Read(d, "lastPaymentAttempt"), DateTarget)
      case Failure(e) => Stopped(f, e)
      case Success(s) => Updated(f.(lastPaymentAttempt := Some(s))))
  }

  /** The assignment for `nextPaymentAttempt`, once the key is set. */
  function StoreNextPaymentAttempt(f: InvoiceFields, d: map<string, Json>, rt: Runtime): Update<InvoiceFields> {
    (match NewDate(rt, Read(d, "nextPaymentAttempt"), DateTarget)
      case Failure(e) => Stopped(f, e)
      case Success(s) => Updated(f.(nextPaymentAttempt := Some(s))))
  }

  /** The assignment for `invoiceAdditionalItems`, once the key is set. */
  function StoreInvoiceAdditionalItems(f: InvoiceFields, d: map<string, Json>, rt: Runtime): Update<InvoiceFields> {
    (match AdditionalItemsFrom(Read(d, "invoiceAdditionalItems"), rt)
      case Failure(e) => Stopped(f, e)
      case Success(m) => Updated(f.(invoiceAdditionalItems := Some(m))))
  }

  /** One assignment of the constructor: an unset key leaves the
      property as it was (null, from `Blank`). */
  function Step(f: InvoiceFields, d: map<string, Json>, x: Field, rt: Runtime): Update<InvoiceFields> {
    if !Reads(d, x) then Updated(f)
    else match x
      case Id => StoreId(f, d, rt)
      case Mode => StoreMode(f, d, rt)
      case Currency => StoreCurrency(f, d, rt)
      case AttemptCount => StoreAttemptCount(f, d, rt)
      case Attempted => StoreAttempted(f, d, rt)
      case Description => StoreDescription(f, d, rt)
      case Total => StoreTotal(f, d, rt)
      case Subtotal => StoreSubtotal(f, d, rt)
      case OriginalTotal => StoreOriginalTotal(f, d, rt)
      case Status => StoreStatus(f, d, rt)
      case CreatedAt => StoreCreatedAt(f, d, rt)
      case LastPaymentAttempt => StoreLastPaymentAttempt(f, d, rt)
      case NextPaymentAttempt => StoreNextPaymentAttempt(f, d, rt)
      case InvoiceAdditionalItems => StoreInvoiceAdditionalItems(f, d, rt)
  }

  /** The block for `id` stores what `Take` says or stops with its
      error, and touches no other field. */
  lemma StoreIdFacts(f: InvoiceFields, d: map<string, Json>, rt: Runtime)
    ensures StoreId(f, d, rt).Updated? ==> TakeId(d, rt) == Success(OptStr(StoreId(f, d, rt).fields.id))
    ensures StoreId(f, d, rt).Stopped? ==> TakeId(d, rt) == Failure(StoreId(f, d, rt).error)
    ensures StoreId(f, d, rt).Stopped? ==> StoreId(f, d, rt).fields == f
    ensures StoreId(f, d, rt).fields == f.(id := StoreId(f, d, rt).fields.id)
  {
  }

  /** The block for `mode` stores what `Take` says or stops with its
      error, and touches no other field. */
  lemma StoreModeFacts(f: InvoiceFields, d: map<string, Json>, rt: Runtime)
    ensures StoreMode(f, d, rt).Updated? ==> TakeMode(d, rt) == Success(OptStr(StoreMode(f, d, rt).fields.mode))
    ensures StoreMode(f, d, rt).Stopped? ==> TakeMode(d, rt) == Failure(StoreMode(f, d, rt).error)
    ensures StoreMode(f, d, rt).Stopped? ==> StoreMode(f, d, rt).fields == f
    ensures StoreMode(f, d, rt).fields == f.(mode := StoreMode(f, d, rt).fields.mode)
  {
  }

  /** The block for `currency` stores what `Take` says or stops with its
      error, and touches no other field. */
  lemma StoreCurrencyFacts(f: InvoiceFields, d: map<string, Json>, rt: Runtime)
    ensures StoreCurrency(f, d, rt).Updated? ==> TakeCurrency(d, rt) == Success(OptStr(StoreCurrency(f, d, rt).fields.currency))
    ensures StoreCurrency(f, d, rt).Stopped? ==> TakeCurrency(d, rt) == Failure(StoreCurrency(f, d, rt).error)
    ensures StoreCurrency(f, d, rt).Stopped? ==> StoreCurrency(f, d, rt).fields == f
    ensures StoreCurrency(f, d, rt).fields == f.(currency := StoreCurrency(f, d, rt).fields.currency)
  {
  }

  /** The block for `attemptCount` stores what `Take` says or stops with its
      error, and touches no other field. */
  lemma StoreAttemptCountFacts(f: InvoiceFields, d: map<string, Json>, rt: Runtime)
    ensures StoreAttemptCount(f, d, rt).Updated? ==> TakeAttemptCount(d, rt) == Success(OptInt(StoreAttemptCount(f, d, rt).fields.attemptCount))
    ensures StoreAttemptCount(f, d, rt).Stopped? ==> TakeAttemptCount(d, rt) == Failure(StoreAttemptCount(f, d, rt).error)
    ensures StoreAttemptCount(f, d, rt).Stopped? ==> StoreAttemptCount(f, d, rt).fields == f
    ensures StoreAttemptCount(f, d, rt).fields == f.(attemptCount := StoreAttemptCount(f, d, rt).fields.attemptCount)
  {
  }

  /** The block for `attempted` stores what `Take` says or stops with its
      error, and touches no other field. */
  lemma StoreAttemptedFacts(f: InvoiceFields, d: map<string, Json>, rt: Runtime)
    ensures StoreAttempted(f, d, rt).Updated? ==> TakeAttempted(d, rt) == Success(OptBool(StoreAttempted(f, d, rt).fields.attempted))
    ensures StoreAttempted(f, d, rt).Stopped? ==> TakeAttempted(d, rt) == Failure(StoreAttempted(f, d, rt).error)
    ensures StoreAttempted(f, d, rt).Stopped? ==> StoreAttempted(f, d, rt).fields == f
    ensures StoreAttempted(f, d, rt).fields == f.(attempted := StoreAttempted(f, d, rt).fields.attempted)
  {
  }

  /** The block for `description` stores what `Take` says or stops with its
      error, and touches no other field. */
  lemma StoreDescriptionFacts(f: InvoiceFields, d: map<string, Json>, rt: Runtime)
    ensures StoreDescription(f, d, rt).Updated? ==> TakeDescription(d, rt) == Success(OptStr(StoreDescription(f, d, rt).fields.description))
    ensures StoreDescription(f, d, rt).Stopped? ==> TakeDescription(d, rt) == Failure(StoreDescription(f, d, rt).error)
    ensures StoreDescription(f, d, rt).Stopped? ==> StoreDescription(f, d, rt).fields == f
    ensures StoreDescription(f, d, rt).fields == f.(description := StoreDescription(f, d, rt).fields.description)
  {
  }

  /** The block for `total` stores what `Take` says or stops with its
      error, and touches no other field. */
  lemma StoreTotalFacts(f: InvoiceFields, d: map<string, Json>, rt: Runtime)
    ensures StoreTotal(f, d, rt).Updated? ==> TakeTotal(d, rt) == Success(OptInt(StoreTotal(f, d, rt).fields.total))
    ensures StoreTotal(f, d, rt).Stopped? ==> TakeTotal(d, rt) == Failure(StoreTotal(f, d, rt).error)
    ensures StoreTotal(f, d, rt).Stopped? ==> StoreTotal(f, d, rt).fields == f
    ensures StoreTotal(f, d, rt).fields == f.(total := StoreTotal(f, d, rt).fields.total)
  {
  }

  /** The block for `subtotal` stores what `Take` says or stops with its
      error, and touches no other field. */
  lemma StoreSubtotalFacts(f: InvoiceFields, d: map<string, Json>, rt: Runtime)
    ensures StoreSubtotal(f, d, rt).Updated? ==> TakeSubtotal(d, rt) == Success(OptInt(StoreSubtotal(f, d, rt).fields.subtotal))
    ensures StoreSubtotal(f, d, rt).Stopped? ==> TakeSubtotal(d, rt) == Failure(StoreSubtotal(f, d, rt).error)
    ensures StoreSubtotal(f, d, rt).Stopped? ==> StoreSubtotal(f, d, rt).fields == f
    ensures StoreSubtotal(f, d, rt).fields == f.(subtotal := StoreSubtotal(f, d, rt).fields.subtotal)
  {
  }

  /** The block for `originalTotal` stores what `Take` says or stops with its
      error, and touches no other field. */
  lemma StoreOriginalTotalFacts(f: InvoiceFields, d: map<string, Json>, rt: Runtime)
    ensures StoreOriginalTotal(f, d, rt).Updated? ==> TakeOriginalTotal(d, rt) == Success(OptInt(StoreOriginalTotal(f, d, rt).fields.originalTotal))
    ensures StoreOriginalTotal(f, d, rt).Stopped? ==> TakeOriginalTotal(d, rt) == Failure(StoreOriginalTotal(f, d, rt).error)
    ensures StoreOriginalTotal(f, d, rt).Stopped? ==> StoreOriginalTotal(f, d, rt).fields == f
    ensures StoreOriginalTotal(f, d, rt).fields == f.(originalTotal := StoreOriginalTotal(f, d, rt).fields.originalTotal)
  {
  }

  /** The block for `status` stores what `Take` says or stops with its
      error, and touches no other field. */
  lemma StoreStatusFacts(f: InvoiceFields, d: map<string, Json>, rt: Runtime)
    ensures StoreStatus(f, d, rt).Updated? ==> TakeStatus(d, rt) == Success(OptStr(StoreStatus(f, d, rt).fields.status))
    ensures StoreStatus(f, d, rt).Stopped? ==> TakeStatus(d, rt) == Failure(StoreStatus(f, d, rt).error)
    ensures StoreStatus(f, d, rt).Stopped? ==> StoreStatus(f, d, rt).fields == f
    ensures StoreStatus(f, d, rt).fields == f.(status := StoreStatus(f, d, rt).fields.status)
  {
  }

  /** The block for `createdAt` stores what `Take` says or stops with its
      error, and touches no other field. */
  lemma StoreCreatedAtFacts(f: InvoiceFields, d: map<string, Json>, rt: Runtime)
    ensures StoreCreatedAt(f, d, rt).Updated? ==> TakeCreatedAt(d, rt) == Success(OptDate(StoreCreatedAt(f, d, rt).fields.createdAt))
    ensures StoreCreatedAt(f, d, rt).Stopped? ==> TakeCreatedAt(d, rt) == Failure(StoreCreatedAt(f, d, rt).error)
    ensures StoreCreatedAt(f, d, rt).Stopped? ==> StoreCreatedAt(f, d, rt).fields == f
    ensures StoreCreatedAt(f, d, rt).fields == f.(createdAt := StoreCreatedAt(f, d, rt).fields.createdAt)
  {
  }

  /** The block for `lastPaymentAttempt` stores what `Take` says or stops with its
      error, and touches no other field. */
  lemma StoreLastPaymentAttemptFacts(f: InvoiceFields, d: map<string, Json>, rt: Runtime)
    ensures StoreLastPaymentAttempt(f, d, rt).Updated? ==> TakeLastPaymentAttempt(d, rt) == Success(OptDate(StoreLastPaymentAttempt(f, d, rt).fields.lastPaymentAttempt))
    ensures StoreLastPaymentAttempt(f, d, rt).Stopped? ==> TakeLastPaymentAttempt(d, rt) == Failure(StoreLastPaymentAttempt(f, d, rt).error)
    ensures StoreLastPaymentAttempt(f, d, rt).Stopped? ==> StoreLastPaymentAttempt(f, d, rt).fields == f
    ensures StoreLastPaymentAttempt(f, d, rt).fields == f.(lastPaymentAttempt := StoreLastPaymentAttempt(f, d, rt).fields.lastPaymentAttempt)
  {
  }

  /** The block for `nextPaymentAttempt` stores what `Take` says or stops with its
      error, and touches no other field. */
  lemma StoreNextPaymentAttemptFacts(f: InvoiceFields, d: map<string, Json>, rt: Runtime)
    ensures StoreNextPaymentAttempt(f, d, rt).Updated? ==> TakeNextPaymentAttempt(d, rt) == Success(OptDate(StoreNextPaymentAttempt(f, d, rt).fields.nextPaymentAttempt))
    ensures StoreNextPaymentAttempt(f, d, rt).Stopped? ==> TakeNextPaymentAttempt(d, rt) == Failure(StoreNextPaymentAttempt(f, d, rt).error)
    ensures StoreNextPaymentAttempt(f, d, rt).Stopped? ==> StoreNextPaymentAttempt(f, d, rt).fields == f
    ensures StoreNextPaymentAttempt(f, d, rt).fields == f.(nextPaymentAttempt := StoreNextPaymentAttempt(f, d, rt).fields.nextPaymentAttempt)
  {
  }

  /** The block for `invoiceAdditionalItems` stores what `Take` says or stops with its
      error, and touches no other field. */
  lemma StoreInvoiceAdditionalItemsFacts(f: InvoiceFields, d: map<string, Json>, rt: Runtime)
    ensures StoreInvoiceAdditionalItems(f, d, rt).Updated? ==> TakeInvoiceAdditionalItems(d, rt) == Success(ShownAdditionalItems(StoreInvoiceAdditionalItems(f, d, rt).fields.invoiceAdditionalItems))
    ensures StoreInvoiceAdditionalItems(f, d, rt).Stopped? ==> TakeInvoiceAdditionalItems(d, rt) == Failure(StoreInvoiceAdditionalItems(f, d, rt).error)
    ensures StoreInvoiceAdditionalItems(f, d, rt).Stopped? ==> StoreInvoiceAdditionalItems(f, d, rt).fields == f
    ensures StoreInvoiceAdditionalItems(f, d, rt).fields == f.(invoiceAdditionalItems := StoreInvoiceAdditionalItems(f, d, rt).fields.invoiceAdditionalItems)
  {
  }

  /** What one block does: nothing unless it acts on its key; then it
      stores what `Take` says or stops with its error, and it never
      touches another field. */
  lemma StepFacts(f: InvoiceFields, d: map<string, Json>, x: Field, rt: Runtime)
    ensures !Reads(d, x) ==> Step(f, d, x, rt) == Updated(f)
    ensures Reads(d, x) && Step(f, d, x, rt).Updated? ==> Take(x, d, rt) == Success(Step(f, d, x, rt).fields.Get(x))
    ensures Reads(d, x) && Step(f, d, x, rt).Stopped? ==> Take(x, d, rt) == Failure(Step(f, d, x, rt).error)
    ensures Step(f, d, x, rt).Stopped? ==> Step(f, d, x, rt).fields == f
    ensures forall y: Field :: y != x ==> Same(Step(f, d, x, rt).fields, f, y)
  {
    match x
    case Id => StoreIdFacts(f, d, rt);
    case Mode => StoreModeFacts(f, d, rt);
    case Currency => StoreCurrencyFacts(f, d, rt);
    case AttemptCount => StoreAttemptCountFacts(f, d, rt);
    case Attempted => StoreAttemptedFacts(f, d, rt);
    case Description => StoreDescriptionFacts(f, d, rt);
    case Total => StoreTotalFacts(f, d, rt);
    case Subtotal => StoreSubtotalFacts(f, d, rt);
    case OriginalTotal => StoreOriginalTotalFacts(f, d, rt);
    case Status => StoreStatusFacts(f, d, rt);
    case CreatedAt => StoreCreatedAtFacts(f, d, rt);
    case LastPaymentAttempt => StoreLastPaymentAttemptFacts(f, d, rt);
    case NextPaymentAttempt => StoreNextPaymentAttemptFacts(f, d, rt);
    case InvoiceAdditionalItems => StoreInvoiceAdditionalItemsFacts(f, d, rt);
  }

  /** The constructor's assignments, run on an object in state `f`. */
  function Apply(f: InvoiceFields, d: map<string, Json>, rt: Runtime): Update<InvoiceFields> {
    Fold(Step, f, d, Order, rt)
  }

  // ---------------------------------------------------------------------------
  // Properties of the assignments

  lemma OrderIsComplete(x: Field)
    ensures x in Order
  {
  }

  /** A field whose key the constructor does not act on keeps its value, even
      when the constructor stops early. */
  lemma ApplyKeepsUnread(f: InvoiceFields, d: map<string, Json>, x: Field, rt: Runtime)
    requires !Reads(d, x)
    ensures Apply(f, d, rt).fields.Get(x) == f.Get(x)
  {
    var P := (g: InvoiceFields) => g.Get(x) == f.Get(x);
    StepKeepsUnread(d, x, rt, f.Get(x), P);
    FoldKeeps(Step, f, d, Order, rt, P);
  }

  /** No step changes a field whose key the constructor does not act on. */
  lemma StepKeepsUnread(d: map<string, Json>, x: Field, rt: Runtime, v: Json, P: InvoiceFields -> bool)
    requires !Reads(d, x)
    requires forall g :: P(g) <==> g.Get(x) == v
    ensures forall g, y :: y in Order && P(g) ==> P(Step(g, d, y, rt).fields)
  {
    forall g, y | y in Order && P(g)
      ensures P(Step(g, d, y, rt).fields)
    {
      StepFacts(g, d, y, rt);
      if y != x {
        SameGet(Step(g, d, y, rt).fields, g, x);
      }
    }
  }

  /** When the constructor completes, each field it acts on holds what `Take`
      says. */
  lemma ApplyStoresRead(f: InvoiceFields, d: map<string, Json>, x: Field, rt: Runtime)
    requires Reads(d, x) && Apply(f, d, rt).Updated?
    ensures Take(x, d, rt) == Success(Apply(f, d, rt).fields.Get(x))
  {
    OrderIsComplete(x);
    var P := (g: InvoiceFields) => Take(x, d, rt) == Success(g.Get(x));
    StepStoresRead(d, x, rt, P);
    FoldEstablishes(Step, f, d, Order, rt, x, P);
  }

  /** The step for `x` establishes what `Take` says, and the other steps
      keep it. */
  lemma StepStoresRead(d: map<string, Json>, x: Field, rt: Runtime, P: InvoiceFields -> bool)
    requires Reads(d, x)
    requires forall g :: P(g) <==> Take(x, d, rt) == Success(g.Get(x))
    ensures forall g :: Step(g, d, x, rt).Updated? ==> P(Step(g, d, x, rt).fields)
    ensures forall g, y :: y != x && P(g) ==> P(Step(g, d, y, rt).fields)
  {
    forall g
      ensures Step(g, d, x, rt).Updated? ==> P(Step(g, d, x, rt).fields)
    {
      StepFacts(g, d, x, rt);
    }
    forall g, y | y != x && P(g)
      ensures P(Step(g, d, y, rt).fields)
    {
      StepFacts(g, d, y, rt);
      SameGet(Step(g, d, y, rt).fields, g, x);
    }
  }

  /** The constructor stops exactly when some key it acts on is refused, and
      with the error of the first such key in its order. */
  lemma ApplyStops(f: InvoiceFields, d: map<string, Json>, rt: Runtime)
    ensures Apply(f, d, rt).Stopped? <==> exists x: Field :: Refused(d, x, rt)
    ensures Apply(f, d, rt).Stopped? ==>
      exists i :: 0 <= i < |Order| && Refused(d, Order[i], rt) &&
        (forall j :: 0 <= j < i ==> !Refused(d, Order[j], rt)) &&
        Apply(f, d, rt).error == Take(Order[i], d, rt).error
  {
    forall g, y: Field
      ensures Step(g, d, y, rt).Stopped? <==> Refused(d, y, rt)
      ensures Refused(d, y, rt) ==> Step(g, d, y, rt).error == Take(y, d, rt).error
    {
      StepFacts(g, d, y, rt);
    }
    FoldStops(Step, f, d, Order, rt, (y: Field) => Refused(d, y, rt), (y: Field) => Take(y, d, rt));
    if x: Field :| Refused(d, x, rt) {
      OrderIsComplete(x);
    }
  }

  /** An empty array changes nothing. */
  lemma ApplyEmpty(f: InvoiceFields, rt: Runtime)
    ensures Apply(f, map[], rt) == Updated(f)
  {
    FoldNoOp(Step, f, map[], Order, rt);
  }

  /** Distinct properties have distinct keys. */
  lemma KeyInjective()
    ensures forall x: Field, y: Field :: x.Key() == y.Key() ==> x == y
  {
  }

  /** An invoice before any assignment: everything null. */
  const Blank := InvoiceFields(None, None, None, None, None, None, None, None, None, None, None, None, None, None)

  /** `new Invoice($v)`: the parameter must be an array; then the
      assignments run from `Blank`, and the first exception is the
      constructor's (`FromArrayFields` and `FromArrayStops` state what it
      builds and when it fails). */
  function FromArray(v: Json, rt: Runtime): (r: Result<InvoiceFields, PhpError>)
    ensures !IsArray(v) ==> r == Failure(TypeError("Invoice::__construct(): Argument #1 ($data)"))
  {
    if !IsArray(v) then Failure(TypeError("Invoice::__construct(): Argument #1 ($data)"))
    else match Apply(Blank, Entries(v), rt)
      case Updated(inv) => Success(inv)
      case Stopped(_, e) => Failure(e)
  }

  /** A built invoice holds, for each key that is set, what its assignment
      computes, and null for each key that is not. */
  lemma FromArrayFields(v: Json, rt: Runtime, x: Field)
    requires FromArray(v, rt).Success?
    ensures Reads(Entries(v), x) ==> Take(x, Entries(v), rt) == Success(FromArray(v, rt).value.Get(x))
    ensures !Reads(Entries(v), x) ==> FromArray(v, rt).value.Get(x) == JNull
  {
    if Reads(Entries(v), x) {
      ApplyStoresRead(Blank, Entries(v), x, rt);
    } else {
      ApplyKeepsUnread(Blank, Entries(v), x, rt);
    }
  }

  /** The constructor fails on an array exactly when some set key is
      refused, with the error of the first such key in the order of the
      assignments. */
  lemma FromArrayStops(v: Json, rt: Runtime)
    requires IsArray(v)
    ensures FromArray(v, rt).Failure? <==> exists x: Field :: Refused(Entries(v), x, rt)
    ensures FromArray(v, rt).Failure? ==>
      exists i :: 0 <= i < |Order| && Refused(Entries(v), Order[i], rt) &&
        (forall j :: 0 <= j < i ==> !Refused(Entries(v), Order[j], rt)) &&
        FromArray(v, rt).error == Take(Order[i], Entries(v), rt).error
  {
    ApplyStops(Blank, Entries(v), rt);
  }

  /** An invoice whose additional-item list is empty shows no
      `invoiceAdditionalItems` key, the same as one without a list. */
  lemma EmptyItemsHidden(inv: InvoiceFields)
    requires inv.invoiceAdditionalItems == Some(MappedList([]))
    ensures inv.ToArray() == inv.(invoiceAdditionalItems := None).ToArray()
  {
  }

  /** The additional items as `toArray()` shows them: each item's
      `toArray()` (with its default, `false`), when the list is non-empty. */
  function ShownAdditionalItems(items: Option<Mapped<AdditionalItem>>): (r: Json)
    ensures r.JNull? <==> items.None? || !items.value.NonEmpty()
    ensures items.Some? && items.value.NonEmpty() ==> r == Project(items.value, ItemJson)
  {
    if items.Some? && items.value.NonEmpty() then Project(items.value, ItemJson) else JNull
  }

  // ---------------------------------------------------------------------------
  // InvoiceAdditionalItem

  /** The keys of `toArray(true)` of an additional item. */
  const NewItemKeys: set<string> := {"description", "amount", "quantity", "currency"}

  /** An InvoiceAdditionalItem. The four leading properties are declared
      nullable, though the constructor always fills them. */
  datatype AdditionalItem = AdditionalItem(
    id: Option<string>,
    mode: Option<string>,
    description: Option<string>,
    amount: Option<Int64>,
    currency: Option<string>,
    quantity: Option<Int64>,
    updatedAt: Option<DateTime>,
    createdAt: Option<DateTime>)
  {
    /** `toArray(true)`: exactly description, amount, quantity and currency;
        `toArray(false)`: all eight properties. */
    function ToArray(newItem: bool): (m: map<string, Json>)
      ensures newItem ==> m.Keys == NewItemKeys
      ensures !newItem ==> m.Keys == NewItemKeys + {"id", "mode", "updatedAt", "createdAt"}
      ensures m["description"] == OptStr(description) && m["amount"] == OptInt(amount) &&
              m["quantity"] == OptInt(quantity) && m["currency"] == OptStr(currency)
    {
      if newItem then
        map["description" := OptStr(description), "amount" := OptInt(amount), "quantity" := OptInt(quantity),
            "currency" := OptStr(currency)]
      else
        map["id" := OptStr(id), "mode" := OptStr(mode), "description" := OptStr(description),
            "amount" := OptInt(amount), "currency" := OptStr(currency), "quantity" := OptInt(quantity),
            "updatedAt" := OptDate(updatedAt), "createdAt" := OptDate(createdAt)]
    }

    /** `toUpdateArray()`: each of description, amount, quantity and currency
        exactly when it is non-null, with the value `toArray(true)` shows. */
    function ToUpdateArray(): (m: map<string, Json>)
      ensures m.Keys <= NewItemKeys
      ensures "description" in m <==> description.Some?
      ensures "amount" in m <==> amount.Some?
      ensures "quantity" in m <==> quantity.Some?
      ensures "currency" in m <==> currency.Some?
      ensures forall k :: k in m ==> m[k] == ToArray(true)[k]
    {
      var data := map[];
      var data := if description.Some? then data["description" := JString(description.value)] else data;
      var data := if amount.Some? then data["amount" := JInt(amount.value)] else data;
      var data := if quantity.Some? then data["quantity" := JInt(quantity.value)] else data;
      if currency.Some? then data["currency" := JString(currency.value)] else data
    }
  }

  /** `array_map` of the item callback over `$data['invoiceAdditionalItems']`. */
  function AdditionalItemsFrom(v: Json, rt: Runtime): (r: Result<Mapped<AdditionalItem>, PhpError>)
    ensures !IsArray(v) ==> r == Failure(TypeError("array_map(): Argument #2 ($array)"))
    ensures v.JList? && r.Success? ==>
      r.value.MappedList? && |r.value.elems| == |v.items| &&
      forall i :: 0 <= i < |v.items| ==> AdditionalItemFrom(v.items[i], rt) == Success(r.value.elems[i])
    ensures v.JList? ==> (r.Success? <==> forall i :: 0 <= i < |v.items| ==> AdditionalItemFrom(v.items[i], rt).Success?)
  {
    ArrayMap(v, (item: Json) => AdditionalItemFrom(item, rt), rt)
  }

  /** `fn($i) => $i->toArray()` for an additional item. */
  function ItemJson(i: AdditionalItem): Json {
    JObject(i.ToArray(false))
  }

  /** `isset($a[$k]) ? new DateTime($a[$k]) : null` */
  function DateIfSet(a: map<string, Json>, k: string, rt: Runtime): (r: Result<Option<DateTime>, PhpError>)
    ensures !IsSet(a, k) ==> r == Success(None)
    ensures IsSet(a, k) && r.Success? ==> r.value.Some? && NewDate(rt, a[k], DateTarget) == Success(r.value.value)
    ensures IsSet(a, k) && r.Failure? ==> NewDate(rt, a[k], DateTarget) == Failure(r.error)
  {
    if !IsSet(a, k) then Success(None)
    else
      var t :- NewDate(rt, a[k], DateTarget);
      Success(Some(t))
  }

  /** The callback `Invoice` maps over its additional items: the eight
      arguments are evaluated in order, the two dates included, and only
      then checked against the parameter types, the four required ones
      first. */
  function AdditionalItemFrom(item: Json, rt: Runtime): (r: Result<AdditionalItem, PhpError>)
    ensures r.Success? ==>
      Some(r.value.description) == ToNullableStr(ReadIn(item, "description")) && r.value.description.Some? &&
      Some(r.value.amount) == ToNullableInt(ReadIn(item, "amount")) && r.value.amount.Some? &&
      Some(r.value.quantity) == ToNullableInt(ReadIn(item, "quantity")) && r.value.quantity.Some? &&
      Some(r.value.currency) == ToNullableStr(ReadIn(item, "currency")) && r.value.currency.Some? &&
      Some(r.value.id) == ToNullableStr(ReadIn(item, "id")) && Some(r.value.mode) == ToNullableStr(ReadIn(item, "mode"))
    ensures r.Success? ==> (r.value.updatedAt.None? <==> !IsSet(Entries(item), "updatedAt"))
    ensures r.Success? ==> (r.value.createdAt.None? <==> !IsSet(Entries(item), "createdAt"))
    ensures ReadIn(item, "description").JNull? ==> r.Failure?
  {
    var a := Entries(item);
    var updatedAt :- DateIfSet(a, "updatedAt", rt);
    var createdAt :- DateIfSet(a, "createdAt", rt);
    var description :- AsStr(Read(a, "description"), "InvoiceAdditionalItem::__construct(): Argument #1 ($description)");
    var amount :- AsInt(Read(a, "amount"), "InvoiceAdditionalItem::__construct(): Argument #2 ($amount)");
    var quantity :- AsInt(Read(a, "quantity"), "InvoiceAdditionalItem::__construct(): Argument #3 ($quantity)");
    var currency :- AsStr(Read(a, "currency"), "InvoiceAdditionalItem::__construct(): Argument #4 ($currency)");
    var id :- AsNullableStr(Read(a, "id"), "InvoiceAdditionalItem::__construct(): Argument #5 ($id)");
    var mode :- AsNullableStr(Read(a, "mode"), "InvoiceAdditionalItem::__construct(): Argument #6 ($mode)");
    Success(AdditionalItem(id, mode, Some(description), Some(amount), Some(currency), Some(quantity), updatedAt, createdAt))
  }
}
