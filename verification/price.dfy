/**
 * `App\Models\Product\Price`: a price of a product. `isActive`,
 * `productId` and `type` (here `priceType`) are non-nullable. `setData`
 * copies the set keys in order, parsing the two dates and building a
 * `Recurring` from the `interval` and `intervalCount` entries of
 * `recurring`.
 */
module Price {
  import opened Php
  import opened Setter
  import RecurringModel = Recurring

  /** The state of a Price object. */
  datatype PriceFields = PriceFields(
    id: Option<string>,
    unitAmount: Option<Int64>,
    currency: Option<string>,
    createdAt: Option<DateTime>,
    nickname: Option<string>,
    isActive: bool,
    productId: string,
    recurring: Option<RecurringModel.RecurringFields>,
    mode: Option<string>,
    priceType: string,
    updatedAt: Option<DateTime>)
  {
    /** Field `x` as JSON: what `toArray` shows of it. */
    function Get(x: Field): Json {
      match x
      case Id => OptStr(id)
      case UnitAmount => OptInt(unitAmount)
      case Currency => OptStr(currency)
      case CreatedAt => OptDate(createdAt)
      case Nickname => OptStr(nickname)
      case IsActive => JBool(isActive)
      case ProductId => JString(productId)
      case Recurring => ShownRecurring(recurring)
      case Mode => OptStr(mode)
      case Type => JString(priceType)
      case UpdatedAt => OptDate(updatedAt)
    }

    /** `toArray(false)`: every property under its own key, as `Get` shows
        it. */
    function ToArray(): (m: map<string, Json>)
      ensures forall x: Field :: x.Key() in m && m[x.Key()] == Get(x)
      ensures forall k :: k in m ==> exists x: Field :: x.Key() == k
    {
      KeyInjective();
      map x: Field | x in Order :: x.Key() := Get(x)
    }

    /** `toArray(true)`, the body of a create request: the properties
        `NewShows` picks, as `Get` shows them. */
    function ToNewArray(): (m: map<string, Json>)
      ensures forall x: Field :: x.Key() in m <==> NewShows(x)
      ensures forall x: Field :: x.Key() in m ==> m[x.Key()] == Get(x)
      ensures forall k :: k in m ==> exists x: Field :: x.Key() == k
    {
      KeyInjective();
      map x: Field | x in Order && NewShows(x) :: x.Key() := Get(x)
    }

    /** `toUpdateArray()`: the properties `UpdateShows` picks, as `Get` shows
        them. */
    function ToUpdateArray(): (m: map<string, Json>)
      ensures forall x: Field :: x.Key() in m <==> UpdateShows(x)
      ensures forall x: Field :: x.Key() in m ==> m[x.Key()] == Get(x)
      ensures forall k :: k in m ==> exists x: Field :: x.Key() == k
    {
      KeyInjective();
      map x: Field | x in Order && UpdateShows(x) :: x.Key() := Get(x)
    }

    /** The keys of `toArray(true)`: the amount, currency, flag, product and
        type always (nulls included); the nickname and the recurrence when
        non-null. */
    predicate NewShows(x: Field) {
      match x
      case UnitAmount => true
      case Currency => true
      case IsActive => true
      case ProductId => true
      case Type => true
      case Nickname => nickname.Some?
      case Recurring => recurring.Some?
      case _ => false
    }

    /** The keys of `toUpdateArray()`: each of those when non-null (`isset`
        of the initialised `bool`, and `!== null` of the two `string`
        properties, always hold). */
    predicate UpdateShows(x: Field) {
      match x
      case UnitAmount => unitAmount.Some?
      case Currency => currency.Some?
      case IsActive => true
      case ProductId => true
      case Type => true
      case Nickname => nickname.Some?
      case Recurring => recurring.Some?
      case _ => false
    }
  }

  /** The keys `setData` looks at. */
  datatype Field = Id | UnitAmount | Currency | CreatedAt | Nickname | IsActive | ProductId | Recurring | Mode | Type | UpdatedAt {
    function Key(): string {
      match this
      case Id => "id"
      case UnitAmount => "unitAmount"
      case Currency => "currency"
      case CreatedAt => "createdAt"
      case Nickname => "nickname"
      case IsActive => "isActive"
      case ProductId => "productId"
      case Recurring => "recurring"
      case Mode => "mode"
      case Type => "type"
      case UpdatedAt => "updatedAt"
    }
  }

  /** The order in which `setData` visits them. */
  const Order: seq<Field> := [Id, UnitAmount, Currency, CreatedAt, Nickname, IsActive, ProductId, Recurring, Mode, Type, UpdatedAt]

  /** `g` and `f` hold the same value in field `x`. */
  predicate Same(g: PriceFields, f: PriceFields, x: Field) {
    match x
    case Id => g.id == f.id
    case UnitAmount => g.unitAmount == f.unitAmount
    case Currency => g.currency == f.currency
    case CreatedAt => g.createdAt == f.createdAt
    case Nickname => g.nickname == f.nickname
    case IsActive => g.isActive == f.isActive
    case ProductId => g.productId == f.productId
    case Recurring => g.recurring == f.recurring
    case Mode => g.mode == f.mode
    case Type => g.priceType == f.priceType
    case UpdatedAt => g.updatedAt == f.updatedAt
  }

  lemma SameGet(g: PriceFields, f: PriceFields, x: Field)
    requires Same(g, f, x)
    ensures g.Get(x) == f.Get(x)
  {
  }

  /** `setData` acts on key `x` of `d`: the key is set (`isset`). */
  predicate Reads(d: map<string, Json>, x: Field) {
    IsSet(d, x.Key())
  }

  /** What `setData` leaves in field `x` when it acts on it, in `Get`'s
      terms, or the error it raises. */
  function Take(x: Field, d: map<string, Json>, rt: Runtime): Result<Json, PhpError> {
    match x
    case Id => TakeId(d, rt)
    case UnitAmount => TakeUnitAmount(d, rt)
    case Currency => TakeCurrency(d, rt)
    case CreatedAt => TakeCreatedAt(d, rt)
    case Nickname => TakeNickname(d, rt)
    case IsActive => TakeIsActive(d, rt)
    case ProductId => TakeProductId(d, rt)
    case Recurring => TakeRecurring(d, rt)
    case Mode => TakeMode(d, rt)
    case Type => TakeType(d, rt)
    case UpdatedAt => TakeUpdatedAt(d, rt)
  }

  /** What the block for `id` leaves in its field, or its error. */
  function TakeId(d: map<string, Json>, rt: Runtime): Result<Json, PhpError> {
    (match AsStr(Read(d, "id"), "Price::$id") case Failure(e) => Failure(e) case Success(s) => Success(JString(s)))
  }

  /** What the block for `unitAmount` leaves in its field, or its error. */
  function TakeUnitAmount(d: map<string, Json>, rt: Runtime): Result<Json, PhpError> {
    (match AsInt(Read(d, "unitAmount"), "Price::$unitAmount") case Failure(e) => Failure(e) case Success(s) => Success(JInt(s)))
  }

  /** What the block for `currency` leaves in its field, or its error. */
  function TakeCurrency(d: map<string, Json>, rt: Runtime): Result<Json, PhpError> {
    (match AsStr(Read(d, "currency"), "Price::$currency") case Failure(e) => Failure(e) case Success(s) => Success(JString(s)))
  }

  /** What the block for `createdAt` leaves in its field, or its error. */
  function TakeCreatedAt(d: map<string, Json>, rt: Runtime): Result<Json, PhpError> {
    (match NewDate(rt, Read(d, "createdAt"), DateTarget) case Failure(e) => Failure(e) case Success(s) => Success(JString(s.atom)))
  }

  /** What the block for `nickname` leaves in its field, or its error. */
  function TakeNickname(d: map<string, Json>, rt: Runtime): Result<Json, PhpError> {
    (match AsStr(Read(d, "nickname"), "Price::$nickname") case Failure(e) => Failure(e) case Success(s) => Success(JString(s)))
  }

  /** What the block for `isActive` leaves in its field, or its error. */
  function TakeIsActive(d: map<string, Json>, rt: Runtime): Result<Json, PhpError> {
    (match AsBool(Read(d, "isActive"), "Price::$isActive") case Failure(e) => Failure(e) case Success(s) => Success(JBool(s)))
  }

  /** What the block for `productId` leaves in its field, or its error. */
  function TakeProductId(d: map<string, Json>, rt: Runtime): Result<Json, PhpError> {
    (match AsStr(Read(d, "productId"), "Price::$productId") case Failure(e) => Failure(e) case Success(s) => Success(JString(s)))
  }

  /** What the block for `recurring` leaves in its field, or its error. */
  function TakeRecurring(d: map<string, Json>, rt: Runtime): Result<Json, PhpError> {
    (match RecurringModel.New(ReadIn(Read(d, "recurring"), "interval"), ReadIn(Read(d, "recurring"), "intervalCount")) case Failure(e) => Failure(e) case Success(o) => Success(ShownRecurring(Some(o))))
  }

  /** What the block for `mode` leaves in its field, or its error. */
  function TakeMode(d: map<string, Json>, rt: Runtime): Result<Json, PhpError> {
    (match AsStr(Read(d, "mode"), "Price::$mode") case Failure(e) => Failure(e) case Success(s) => Success(JString(s)))
  }

  /** What the block for `type` leaves in its field, or its error. */
  function TakeType(d: map<string, Json>, rt: Runtime): Result<Json, PhpError> {
    (match AsStr(Read(d, "type"), "Price::$type") case Failure(e) => Failure(e) case Success(s) => Success(JString(s)))
  }

  /** What the block for `updatedAt` leaves in its field, or its error. */
  function TakeUpdatedAt(d: map<string, Json>, rt: Runtime): Result<Json, PhpError> {
    (match NewDate(rt, Read(d, "updatedAt"), DateTarget) case Failure(e) => Failure(e) case Success(s) => Success(JString(s.atom)))
  }

  /** A key `setData` acts on and stops at. */
  predicate Refused(d: map<string, Json>, x: Field, rt: Runtime) {
    Reads(d, x) && Take(x, d, rt).Failure?
  }

  /** The block of `setData` for `id`, once the key is set. */
  function StoreId(f: PriceFields, d: map<string, Json>, rt: Runtime): Update<PriceFields> {
    (match AsStr(Read(d, "id"), "Price::$id")
      case Failure(e) => Stopped(f, e)
      case Success(s) => Updated(f.(id := Some(s))))
  }

  /** The block of `setData` for `unitAmount`, once the key is set. */
  function StoreUnitAmount(f: PriceFields, d: map<string, Json>, rt: Runtime): Update<PriceFields> {
    (match AsInt(Read(d, "unitAmount"), "Price::$unitAmount")
      case Failure(e) => Stopped(f, e)
      case Success(s) => Updated(f.(unitAmount := Some(s))))
  }

  /** The block of `setData` for `currency`, once the key is set. */
  function StoreCurrency(f: PriceFields, d: map<string, Json>, rt: Runtime): Update<PriceFields> {
    (match AsStr(Read(d, "currency"), "Price::$currency")
      case Failure(e) => Stopped(f, e)
      case Success(s) => Updated(f.(currency := Some(s))))
  }

  /** The block of `setData` for `createdAt`, once the key is set. */
  function StoreCreatedAt(f: PriceFields, d: map<string, Json>, rt: Runtime): Update<PriceFields> {
    (match NewDate(rt, Read(d, "createdAt"), DateTarget)
      case Failure(e) => Stopped(f, e)
      case Success(s) => Updated(f.(createdAt := Some(s))))
  }

  /** The block of `setData` for `nickname`, once the key is set. */
  function StoreNickname(f: PriceFields, d: map<string, Json>, rt: Runtime): Update<PriceFields> {
    (match AsStr(Read(d, "nickname"), "Price::$nickname")
      case Failure(e) => Stopped(f, e)
      case Success(s) => Updated(f.(nickname := Some(s))))
  }

  /** The block of `setData` for `isActive`, once the key is set. */
  function StoreIsActive(f: PriceFields, d: map<string, Json>, rt: Runtime): Update<PriceFields> {
    (match AsBool(Read(d, "isActive"), "Price::$isActive")
      case Failure(e) => Stopped(f, e)
      case Success(s) => Updated(f.(isActive := s)))
  }

  /** The block of `setData` for `productId`, once the key is set. */
  function StoreProductId(f: PriceFields, d: map<string, Json>, rt: Runtime): Update<PriceFields> {
    (match AsStr(Read(d, "productId"), "Price::$productId")
      case Failure(e) => Stopped(f, e)
      case Success(s) => Updated(f.(productId := s)))
  }

  /** The block of `setData` for `recurring`, once the key is set. */
  function StoreRecurring(f: PriceFields, d: map<string, Json>, rt: Runtime): Update<PriceFields> {
    (match RecurringModel.New(ReadIn(Read(d, "recurring"), "interval"), ReadIn(Read(d, "recurring"), "intervalCount"))
      case Failure(e) => Stopped(f, e)
      case Success(o) => Updated(f.(recurring := Some(o))))
  }

  /** The block of `setData` for `mode`, once the key is set. */
  function StoreMode(f: PriceFields, d: map<string, Json>, rt: Runtime): Update<PriceFields> {
    (match AsStr(Read(d, "mode"), "Price::$mode")
      case Failure(e) => Stopped(f, e)
      case Success(s) => Updated(f.(mode := Some(s))))
  }

  /** The block of `setData` for `type`, once the key is set. */
  function StoreType(f: PriceFields, d: map<string, Json>, rt: Runtime): Update<PriceFields> {
    (match AsStr(Read(d, "type"), "Price::$type")
      case Failure(e) => Stopped(f, e)
      case Success(s) => Updated(f.(priceType := s)))
  }

  /** The block of `setData` for `updatedAt`, once the key is set. */
  function StoreUpdatedAt(f: PriceFields, d: map<string, Json>, rt: Runtime): Update<PriceFields> {
    (match NewDate(rt, Read(d, "updatedAt"), DateTarget)
      case Failure(e) => Stopped(f, e)
      case Success(s) => Updated(f.(updatedAt := Some(s))))
  }

  /** One `if (isset($data[key])) { ... }` block of `setData`. */
  function Step(f: PriceFields, d: map<string, Json>, x: Field, rt: Runtime): Update<PriceFields> {
    if !Reads(d, x) then Updated(f)
    else match x
      case Id => StoreId(f, d, rt)
      case UnitAmount => StoreUnitAmount(f, d, rt)
      case Currency => StoreCurrency(f, d, rt)
      case CreatedAt => StoreCreatedAt(f, d, rt)
      case Nickname => StoreNickname(f, d, rt)
      case IsActive => StoreIsActive(f, d, rt)
      case ProductId => StoreProductId(f, d, rt)
      case Recurring => StoreRecurring(f, d, rt)
      case Mode => StoreMode(f, d, rt)
      case Type => StoreType(f, d, rt)
      case UpdatedAt => StoreUpdatedAt(f, d, rt)
  }

  /** The block for `id` stores what `Take` says or stops with its
      error, and touches no other field. */
  lemma StoreIdFacts(f: PriceFields, d: map<string, Json>, rt: Runtime)
    ensures StoreId(f, d, rt).Updated? ==> TakeId(d, rt) == Success(OptStr(StoreId(f, d, rt).fields.id))
    ensures StoreId(f, d, rt).Stopped? ==> TakeId(d, rt) == Failure(StoreId(f, d, rt).error)
    ensures StoreId(f, d, rt).Stopped? ==> StoreId(f, d, rt).fields == f
    ensures StoreId(f, d, rt).fields == f.(id := StoreId(f, d, rt).fields.id)
  {
  }

  /** The block for `unitAmount` stores what `Take` says or stops with its
      error, and touches no other field. */
  lemma StoreUnitAmountFacts(f: PriceFields, d: map<string, Json>, rt: Runtime)
    ensures StoreUnitAmount(f, d, rt).Updated? ==> TakeUnitAmount(d, rt) == Success(OptInt(StoreUnitAmount(f, d, rt).fields.unitAmount))
    ensures StoreUnitAmount(f, d, rt).Stopped? ==> TakeUnitAmount(d, rt) == Failure(StoreUnitAmount(f, d, rt).error)
    ensures StoreUnitAmount(f, d, rt).Stopped? ==> StoreUnitAmount(f, d, rt).fields == f
    ensures StoreUnitAmount(f, d, rt).fields == f.(unitAmount := StoreUnitAmount(f, d, rt).fields.unitAmount)
  {
  }

  /** The block for `currency` stores what `Take` says or stops with its
      error, and touches no other field. */
  lemma StoreCurrencyFacts(f: PriceFields, d: map<string, Json>, rt: Runtime)
    ensures StoreCurrency(f, d, rt).Updated? ==> TakeCurrency(d, rt) == Success(OptStr(StoreCurrency(f, d, rt).fields.currency))
    ensures StoreCurrency(f, d, rt).Stopped? ==> TakeCurrency(d, rt) == Failure(StoreCurrency(f, d, rt).error)
    ensures StoreCurrency(f, d, rt).Stopped? ==> StoreCurrency(f, d, rt).fields == f
    ensures StoreCurrency(f, d, rt).fields == f.(currency := StoreCurrency(f, d, rt).fields.currency)
  {
  }

  /** The block for `createdAt` stores what `Take` says or stops with its
      error, and touches no other field. */
  lemma StoreCreatedAtFacts(f: PriceFields, d: map<string, Json>, rt: Runtime)
    ensures StoreCreatedAt(f, d, rt).Updated? ==> TakeCreatedAt(d, rt) == Success(OptDate(StoreCreatedAt(f, d, rt).fields.createdAt))
    ensures StoreCreatedAt(f, d, rt).Stopped? ==> TakeCreatedAt(d, rt) == Failure(StoreCreatedAt(f, d, rt).error)
    ensures StoreCreatedAt(f, d, rt).Stopped? ==> StoreCreatedAt(f, d, rt).fields == f
    ensures StoreCreatedAt(f, d, rt).fields == f.(createdAt := StoreCreatedAt(f, d, rt).fields.createdAt)
  {
  }

  /** The block for `nickname` stores what `Take` says or stops with its
      error, and touches no other field. */
  lemma StoreNicknameFacts(f: PriceFields, d: map<string, Json>, rt: Runtime)
    ensures StoreNickname(f, d, rt).Updated? ==> TakeNickname(d, rt) == Success(OptStr(StoreNickname(f, d, rt).fields.nickname))
    ensures StoreNickname(f, d, rt).Stopped? ==> TakeNickname(d, rt) == Failure(StoreNickname(f, d, rt).error)
    ensures StoreNickname(f, d, rt).Stopped? ==> StoreNickname(f, d, rt).fields == f
    ensures StoreNickname(f, d, rt).fields == f.(nickname := StoreNickname(f, d, rt).fields.nickname)
  {
  }

  /** The block for `isActive` stores what `Take` says or stops with its
      error, and touches no other field. */
  lemma StoreIsActiveFacts(f: PriceFields, d: map<string, Json>, rt: Runtime)
    ensures StoreIsActive(f, d, rt).Updated? ==> TakeIsActive(d, rt) == Success(JBool(StoreIsActive(f, d, rt).fields.isActive))
    ensures StoreIsActive(f, d, rt).Stopped? ==> TakeIsActive(d, rt) == Failure(StoreIsActive(f, d, rt).error)
    ensures StoreIsActive(f, d, rt).Stopped? ==> StoreIsActive(f, d, rt).fields == f
    ensures StoreIsActive(f, d, rt).fields == f.(isActive := StoreIsActive(f, d, rt).fields.isActive)
  {
  }

  /** The block for `productId` stores what `Take` says or stops with its
      error, and touches no other field. */
  lemma StoreProductIdFacts(f: PriceFields, d: map<string, Json>, rt: Runtime)
    ensures StoreProductId(f, d, rt).Updated? ==> TakeProductId(d, rt) == Success(JString(StoreProductId(f, d, rt).fields.productId))
    ensures StoreProductId(f, d, rt).Stopped? ==> TakeProductId(d, rt) == Failure(StoreProductId(f, d, rt).error)
    ensures StoreProductId(f, d, rt).Stopped? ==> StoreProductId(f, d, rt).fields == f
    ensures StoreProductId(f, d, rt).fields == f.(productId := StoreProductId(f, d, rt).fields.productId)
  {
  }

  /** The block for `recurring` stores what `Take` says or stops with its
      error, and touches no other field. */
  lemma StoreRecurringFacts(f: PriceFields, d: map<string, Json>, rt: Runtime)
    ensures StoreRecurring(f, d, rt).Updated? ==> TakeRecurring(d, rt) == Success(ShownRecurring(StoreRecurring(f, d, rt).fields.recurring))
    ensures StoreRecurring(f, d, rt).Stopped? ==> TakeRecurring(d, rt) == Failure(StoreRecurring(f, d, rt).error)
    ensures StoreRecurring(f, d, rt).Stopped? ==> StoreRecurring(f, d, rt).fields == f
    ensures StoreRecurring(f, d, rt).fields == f.(recurring := StoreRecurring(f, d, rt).fields.recurring)
  {
  }

  /** The block for `mode` stores what `Take` says or stops with its
      error, and touches no other field. */
  lemma StoreModeFacts(f: PriceFields, d: map<string, Json>, rt: Runtime)
    ensures StoreMode(f, d, rt).Updated? ==> TakeMode(d, rt) == Success(OptStr(StoreMode(f, d, rt).fields.mode))
    ensures StoreMode(f, d, rt).Stopped? ==> TakeMode(d, rt) == Failure(StoreMode(f, d, rt).error)
    ensures StoreMode(f, d, rt).Stopped? ==> StoreMode(f, d, rt).fields == f
    ensures StoreMode(f, d, rt).fields == f.(mode := StoreMode(f, d, rt).fields.mode)
  {
  }

  /** The block for `type` stores what `Take` says or stops with its
      error, and touches no other field. */
  lemma StoreTypeFacts(f: PriceFields, d: map<string, Json>, rt: Runtime)
    ensures StoreType(f, d, rt).Updated? ==> TakeType(d, rt) == Success(JString(StoreType(f, d, rt).fields.priceType))
    ensures StoreType(f, d, rt).Stopped? ==> TakeType(d, rt) == Failure(StoreType(f, d, rt).error)
    ensures StoreType(f, d, rt).Stopped? ==> StoreType(f, d, rt).fields == f
    ensures StoreType(f, d, rt).fields == f.(priceType := StoreType(f, d, rt).fields.priceType)
  {
  }

  /** The block for `updatedAt` stores what `Take` says or stops with its
      error, and touches no other field. */
  lemma StoreUpdatedAtFacts(f: PriceFields, d: map<string, Json>, rt: Runtime)
    ensures StoreUpdatedAt(f, d, rt).Updated? ==> TakeUpdatedAt(d, rt) == Success(OptDate(StoreUpdatedAt(f, d, rt).fields.updatedAt))
    ensures StoreUpdatedAt(f, d, rt).Stopped? ==> TakeUpdatedAt(d, rt) == Failure(StoreUpdatedAt(f, d, rt).error)
    ensures StoreUpdatedAt(f, d, rt).Stopped? ==> StoreUpdatedAt(f, d, rt).fields == f
    ensures StoreUpdatedAt(f, d, rt).fields == f.(updatedAt := StoreUpdatedAt(f, d, rt).fields.updatedAt)
  {
  }

  /** What one block does: nothing unless it acts on its key; then it
      stores what `Take` says or stops with its error, and it never
      touches another field. */
  lemma StepFacts(f: PriceFields, d: map<string, Json>, x: Field, rt: Runtime)
    ensures !Reads(d, x) ==> Step(f, d, x, rt) == Updated(f)
    ensures Reads(d, x) && Step(f, d, x, rt).Updated? ==> Take(x, d, rt) == Success(Step(f, d, x, rt).fields.Get(x))
    ensures Reads(d, x) && Step(f, d, x, rt).Stopped? ==> Take(x, d, rt) == Failure(Step(f, d, x, rt).error)
    ensures Step(f, d, x, rt).Stopped? ==> Step(f, d, x, rt).fields == f
    ensures forall y: Field :: y != x ==> Same(Step(f, d, x, rt).fields, f, y)
  {
    match x
    case Id => StoreIdFacts(f, d, rt);
    case UnitAmount => StoreUnitAmountFacts(f, d, rt);
    case Currency => StoreCurrencyFacts(f, d, rt);
    case CreatedAt => StoreCreatedAtFacts(f, d, rt);
    case Nickname => StoreNicknameFacts(f, d, rt);
    case IsActive => StoreIsActiveFacts(f, d, rt);
    case ProductId => StoreProductIdFacts(f, d, rt);
    case Recurring => StoreRecurringFacts(f, d, rt);
    case Mode => StoreModeFacts(f, d, rt);
    case Type => StoreTypeFacts(f, d, rt);
    case UpdatedAt => StoreUpdatedAtFacts(f, d, rt);
  }

  /** `setData($data)` on an object in state `f`. */
  function Apply(f: PriceFields, d: map<string, Json>, rt: Runtime): Update<PriceFields> {
    Fold(Step, f, d, Order, rt)
  }

  class Price {
    var id: Option<string>
    var unitAmount: Option<Int64>
    var currency: Option<string>
    var createdAt: Option<DateTime>
    var nickname: Option<string>
    var isActive: bool
    var productId: string
    var recurring: Option<RecurringModel.RecurringFields>
    var mode: Option<string>
    var priceType: string
    var updatedAt: Option<DateTime>

    function Fields(): PriceFields
      reads this
    {
      PriceFields(id, unitAmount, currency, createdAt, nickname, isActive, productId, recurring, mode, priceType, updatedAt)
    }

    /** An object in state `f`; `New` is the PHP constructor. */
    constructor (f: PriceFields)
      ensures Fields() == f
    {
      id := f.id;
      unitAmount := f.unitAmount;
      currency := f.currency;
      createdAt := f.createdAt;
      nickname := f.nickname;
      isActive := f.isActive;
      productId := f.productId;
      recurring := f.recurring;
      mode := f.mode;
      priceType := f.priceType;
      updatedAt := f.updatedAt;
    }

    /** One guarded assignment of `setData`. */
    method Assign(x: Field, data: map<string, Json>, rt: Runtime) returns (r: Result<(), PhpError>)
      modifies this
      ensures Fields() == Step(old(Fields()), data, x, rt).fields
      ensures r.Failure? <==> Step(old(Fields()), data, x, rt).Stopped?
      ensures r.Failure? ==> r.error == Step(old(Fields()), data, x, rt).error
    {
      if !Reads(data, x) {
        return Success(());
      }
      match x
      case Id => r := AssignId(data, rt);
      case UnitAmount => r := AssignUnitAmount(data, rt);
      case Currency => r := AssignCurrency(data, rt);
      case CreatedAt => r := AssignCreatedAt(data, rt);
      case Nickname => r := AssignNickname(data, rt);
      case IsActive => r := AssignIsActive(data, rt);
      case ProductId => r := AssignProductId(data, rt);
      case Recurring => r := AssignRecurring(data, rt);
      case Mode => r := AssignMode(data, rt);
      case Type => r := AssignType(data, rt);
      case UpdatedAt => r := AssignUpdatedAt(data, rt);
    }

    /** The block for `id`. */
    method AssignId(data: map<string, Json>, rt: Runtime) returns (r: Result<(), PhpError>)
      modifies this
      ensures Fields() == StoreId(old(Fields()), data, rt).fields
      ensures r.Failure? <==> StoreId(old(Fields()), data, rt).Stopped?
      ensures r.Failure? ==> r.error == StoreId(old(Fields()), data, rt).error
    {
      var s :- AsStr(Read(data, "id"), "Price::$id");
      id := Some(s);
      return Success(());
    }

    /** The block for `unitAmount`. */
    method AssignUnitAmount(data: map<string, Json>, rt: Runtime) returns (r: Result<(), PhpError>)
      modifies this
      ensures Fields() == StoreUnitAmount(old(Fields()), data, rt).fields
      ensures r.Failure? <==> StoreUnitAmount(old(Fields()), data, rt).Stopped?
      ensures r.Failure? ==> r.error == StoreUnitAmount(old(Fields()), data, rt).error
    {
      var s :- AsInt(Read(data, "unitAmount"), "Price::$unitAmount");
      unitAmount := Some(s);
      return Success(());
    }

    /** The block for `currency`. */
    method AssignCurrency(data: map<string, Json>, rt: Runtime) returns (r: Result<(), PhpError>)
      modifies this
      ensures Fields() == StoreCurrency(old(Fields()), data, rt).fields
      ensures r.Failure? <==> StoreCurrency(old(Fields()), data, rt).Stopped?
      ensures r.Failure? ==> r.error == StoreCurrency(old(Fields()), data, rt).error
    {
      var s :- AsStr(Read(data, "currency"), "Price::$currency");
      currency := Some(s);
      return Success(());
    }

    /** The block for `createdAt`. */
    method AssignCreatedAt(data: map<string, Json>, rt: Runtime) returns (r: Result<(), PhpError>)
      modifies this
      ensures Fields() == StoreCreatedAt(old(Fields()), data, rt).fields
      ensures r.Failure? <==> StoreCreatedAt(old(Fields()), data, rt).Stopped?
      ensures r.Failure? ==> r.error == StoreCreatedAt(old(Fields()), data, rt).error
    {
      var s :- NewDate(rt, Read(data, "createdAt"), DateTarget);
      createdAt := Some(s);
      return Success(());
    }

    /** The block for `nickname`. */
    method AssignNickname(data: map<string, Json>, rt: Runtime) returns (r: Result<(), PhpError>)
      modifies this
      ensures Fields() == StoreNickname(old(Fields()), data, rt).fields
      ensures r.Failure? <==> StoreNickname(old(Fields()), data, rt).Stopped?
      ensures r.Failure? ==> r.error == StoreNickname(old(Fields()), data, rt).error
    {
      var s :- AsStr(Read(data, "nickname"), "Price::$nickname");
      nickname := Some(s);
      return Success(());
    }

    /** The block for `isActive`. */
    method AssignIsActive(data: map<string, Json>, rt: Runtime) returns (r: Result<(), PhpError>)
      modifies this
      ensures Fields() == StoreIsActive(old(Fields()), data, rt).fields
      ensures r.Failure? <==> StoreIsActive(old(Fields()), data, rt).Stopped?
      ensures r.Failure? ==> r.error == StoreIsActive(old(Fields()), data, rt).error
    {
      var s :- AsBool(Read(data, "isActive"), "Price::$isActive");
      isActive := s;
      return Success(());
    }

    /** The block for `productId`. */
    method AssignProductId(data: map<string, Json>, rt: Runtime) returns (r: Result<(), PhpError>)
      modifies this
      ensures Fields() == StoreProductId(old(Fields()), data, rt).fields
      ensures r.Failure? <==> StoreProductId(old(Fields()), data, rt).Stopped?
      ensures r.Failure? ==> r.error == StoreProductId(old(Fields()), data, rt).error
    {
      var s :- AsStr(Read(data, "productId"), "Price::$productId");
      productId := s;
      return Success(());
    }

    /** The block for `recurring`. */
    method AssignRecurring(data: map<string, Json>, rt: Runtime) returns (r: Result<(), PhpError>)
      modifies this
      ensures Fields() == StoreRecurring(old(Fields()), data, rt).fields
      ensures r.Failure? <==> StoreRecurring(old(Fields()), data, rt).Stopped?
      ensures r.Failure? ==> r.error == StoreRecurring(old(Fields()), data, rt).error
    {
      var v := Read(data, "recurring");
      var o :- RecurringModel.New(ReadIn(v, "interval"), ReadIn(v, "intervalCount"));
      recurring := Some(o);
      return Success(());
    }

    /** The block for `mode`. */
    method AssignMode(data: map<string, Json>, rt: Runtime) returns (r: Result<(), PhpError>)
      modifies this
      ensures Fields() == StoreMode(old(Fields()), data, rt).fields
      ensures r.Failure? <==> StoreMode(old(Fields()), data, rt).Stopped?
      ensures r.Failure? ==> r.error == StoreMode(old(Fields()), data, rt).error
    {
      var s :- AsStr(Read(data, "mode"), "Price::$mode");
      mode := Some(s);
      return Success(());
    }

    /** The block for `type`. */
    method AssignType(data: map<string, Json>, rt: Runtime) returns (r: Result<(), PhpError>)
      modifies this
      ensures Fields() == StoreType(old(Fields()), data, rt).fields
      ensures r.Failure? <==> StoreType(old(Fields()), data, rt).Stopped?
      ensures r.Failure? ==> r.error == StoreType(old(Fields()), data, rt).error
    {
      var s :- AsStr(Read(data, "type"), "Price::$type");
      priceType := s;
      return Success(());
    }

    /** The block for `updatedAt`. */
    method AssignUpdatedAt(data: map<string, Json>, rt: Runtime) returns (r: Result<(), PhpError>)
      modifies this
      ensures Fields() == StoreUpdatedAt(old(Fields()), data, rt).fields
      ensures r.Failure? <==> StoreUpdatedAt(old(Fields()), data, rt).Stopped?
      ensures r.Failure? ==> r.error == StoreUpdatedAt(old(Fields()), data, rt).error
    {
      var s :- NewDate(rt, Read(data, "updatedAt"), DateTarget);
      updatedAt := Some(s);
      return Success(());
    }

    /** The blocks for the keys of `xs`, one after the other, up to the
        first error. */
    method AssignAll(xs: seq<Field>, data: map<string, Json>, rt: Runtime) returns (r: Result<(), PhpError>)
      modifies this
      ensures Fields() == Fold(Step, old(Fields()), data, xs, rt).fields
      ensures r.Failure? <==> Fold(Step, old(Fields()), data, xs, rt).Stopped?
      ensures r.Failure? ==> r.error == Fold(Step, old(Fields()), data, xs, rt).error
      decreases |xs|
    {
      if xs == [] {
        return Success(());
      }
      r := Assign(xs[0], data, rt);
      if r.Failure? {
        return;
      }
      r := AssignAll(xs[1..], data, rt);
    }

    /** `setData($data)`: every block, in the order of the source. */
    method SetData(data: map<string, Json>, rt: Runtime) returns (r: Result<(), PhpError>)
      modifies this
      ensures Fields() == Apply(old(Fields()), data, rt).fields
      ensures r.Failure? <==> Apply(old(Fields()), data, rt).Stopped?
      ensures r.Failure? ==> r.error == Apply(old(Fields()), data, rt).error
    {
      r := AssignAll(Order, data, rt);
    }
  }

  // ---------------------------------------------------------------------------
  // Properties of setData

  lemma OrderIsComplete(x: Field)
    ensures x in Order
  {
  }

  /** A field whose key `setData` does not act on keeps its value, even
      when `setData` stops early. */
  lemma ApplyKeepsUnread(f: PriceFields, d: map<string, Json>, x: Field, rt: Runtime)
    requires !Reads(d, x)
    ensures Apply(f, d, rt).fields.Get(x) == f.Get(x)
  {
    var P := (g: PriceFields) => g.Get(x) == f.Get(x);
    StepKeepsUnread(d, x, rt, f.Get(x), P);
    FoldKeeps(Step, f, d, Order, rt, P);
  }

  /** No step changes a field whose key `setData` does not act on. */
  lemma StepKeepsUnread(d: map<string, Json>, x: Field, rt: Runtime, v: Json, P: PriceFields -> bool)
    requires !Reads(d, x)
    requires forall g :: P(g) <==> g.Get(x) == v
    ensures forall g, y :: y in Order && P(g) ==> P(Step(g, d, y, rt).fields)
  {
    forall g, y | y in Order && P(g)
      ensures P(Step(g, d, y, rt).fields)
    {
      StepFacts(g, d, y, rt);
      if y != x {
        SameGet(Step(g, d, y, rt).fields, g, x);
      }
    }
  }

  /** When `setData` completes, each field it acts on holds what `Take`
      says. */
  lemma ApplyStoresRead(f: PriceFields, d: map<string, Json>, x: Field, rt: Runtime)
    requires Reads(d, x) && Apply(f, d, rt).Updated?
    ensures Take(x, d, rt) == Success(Apply(f, d, rt).fields.Get(x))
  {
    OrderIsComplete(x);
    var P := (g: PriceFields) => Take(x, d, rt) == Success(g.Get(x));
    StepStoresRead(d, x, rt, P);
    FoldEstablishes(Step, f, d, Order, rt, x, P);
  }

  /** The step for `x` establishes what `Take` says, and the other steps
      keep it. */
  lemma StepStoresRead(d: map<string, Json>, x: Field, rt: Runtime, P: PriceFields -> bool)
    requires Reads(d, x)
    requires forall g :: P(g) <==> Take(x, d, rt) == Success(g.Get(x))
    ensures forall g :: Step(g, d, x, rt).Updated? ==> P(Step(g, d, x, rt).fields)
    ensures forall g, y :: y != x && P(g) ==> P(Step(g, d, y, rt).fields)
  {
    forall g
      ensures Step(g, d, x, rt).Updated? ==> P(Step(g, d, x, rt).fields)
    {
      StepFacts(g, d, x, rt);
    }
    forall g, y | y != x && P(g)
      ensures P(Step(g, d, y, rt).fields)
    {
      StepFacts(g, d, y, rt);
      SameGet(Step(g, d, y, rt).fields, g, x);
    }
  }

  /** `setData` stops exactly when some key it acts on is refused, and
      with the error of the first such key in its order. */
  lemma ApplyStops(f: PriceFields, d: map<string, Json>, rt: Runtime)
    ensures Apply(f, d, rt).Stopped? <==> exists x: Field :: Refused(d, x, rt)
    ensures Apply(f, d, rt).Stopped? ==>
      exists i :: 0 <= i < |Order| && Refused(d, Order[i], rt) &&
        (forall j :: 0 <= j < i ==> !Refused(d, Order[j], rt)) &&
        Apply(f, d, rt).error == Take(Order[i], d, rt).error
  {
    forall g, y: Field
      ensures Step(g, d, y, rt).Stopped? <==> Refused(d, y, rt)
      ensures Refused(d, y, rt) ==> Step(g, d, y, rt).error == Take(y, d, rt).error
    {
      StepFacts(g, d, y, rt);
    }
    FoldStops(Step, f, d, Order, rt, (y: Field) => Refused(d, y, rt), (y: Field) => Take(y, d, rt));
    if x: Field :| Refused(d, x, rt) {
      OrderIsComplete(x);
    }
  }

  /** An empty array changes nothing. */
  lemma ApplyEmpty(f: PriceFields, rt: Runtime)
    ensures Apply(f, map[], rt) == Updated(f)
  {
    FoldNoOp(Step, f, map[], Order, rt);
  }

  /** Distinct properties have distinct keys. */
  lemma KeyInjective()
    ensures forall x: Field, y: Field :: x.Key() == y.Key() ==> x == y
  {
  }

  /** `$this->recurring?->toArray()` */
  function ShownRecurring(o: Option<RecurringModel.RecurringFields>): (r: Json)
    ensures r.JNull? <==> o.None?
  {
    if o.Some? then JObject(o.value.ToArray()) else JNull
  }

  /** `new Price(...)` with typed arguments: they are stored in the order of
      the constructor body, and a null reaching `isActive`, `productId` or
      `type` is refused there. `new Price()` fails on `isActive`. */
  function New(unitAmount: Option<Int64> := None, currency: Option<string> := Some(""), isActive: Option<bool> := None,
               productId: Option<string> := None, priceType: Option<string> := Some(""),
               recurring: Option<RecurringModel.RecurringFields> := None, nickname: Option<string> := None,
               id: Option<string> := None, createdAt: Option<DateTime> := None, mode: Option<string> := Some("test"),
               updatedAt: Option<DateTime> := None): (r: Result<PriceFields, PhpError>)
    ensures r.Success? <==> isActive.Some? && productId.Some? && priceType.Some?
    ensures isActive.None? ==> r == Failure(TypeError("Price::$isActive"))
    ensures isActive.Some? && productId.None? ==> r == Failure(TypeError("Price::$productId"))
    ensures isActive.Some? && productId.Some? && priceType.None? ==> r == Failure(TypeError("Price::$type"))
    ensures r.Success? ==>
      r.value.id == id && r.value.unitAmount == unitAmount && r.value.currency == currency &&
      r.value.createdAt == createdAt && r.value.nickname == nickname && r.value.isActive == isActive.value &&
      r.value.productId == productId.value && r.value.recurring == recurring && r.value.mode == mode &&
      r.value.priceType == priceType.value && r.value.updatedAt == updatedAt
  {
    if isActive.None? then Failure(TypeError("Price::$isActive"))
    else if productId.None? then Failure(TypeError("Price::$productId"))
    else if priceType.None? then Failure(TypeError("Price::$type"))
    else Success(PriceFields(id, unitAmount, currency, createdAt, nickname, isActive.value, productId.value, recurring,
                             mode, priceType.value, updatedAt))
  }

  /** `toUpdateArray()` is `toArray(true)` less a null amount or currency:
      it never adds a key or changes a value. */
  lemma UpdateArrayWithinNewArray(f: PriceFields)
    ensures forall k :: k in f.ToUpdateArray() ==> k in f.ToNewArray() && f.ToUpdateArray()[k] == f.ToNewArray()[k]
    ensures forall k :: k in f.ToNewArray() && k !in f.ToUpdateArray() ==>
      (k == "unitAmount" || k == "currency") && f.ToNewArray()[k] == JNull
  {
    forall k | k in f.ToNewArray() && k !in f.ToUpdateArray()
      ensures (k == "unitAmount" || k == "currency") && f.ToNewArray()[k] == JNull
    {
      var x: Field :| x.Key() == k;
    }
    forall k | k in f.ToUpdateArray()
      ensures k in f.ToNewArray()
    {
      var x: Field :| x.Key() == k;
    }
  }

  /** The `recurring` block builds the Recurring from the two entries of the
      array; a value that is not an array reads both as null and fails on
      the null interval. */
  lemma RecurringFromEntries(d: map<string, Json>, rt: Runtime)
    requires Reads(d, Recurring)
    ensures !IsArray(d["recurring"]) ==> Refused(d, Recurring, rt)
    ensures Take(Recurring, d, rt).Success? <==>
      ToStr(ReadIn(Read(d, "recurring"), "interval")).Some? && ToInt(ReadIn(Read(d, "recurring"), "intervalCount")).Some?
  {
  }
}
