/**
 * `ONVO\Models\Client`: a customer. Every property is nullable; the
 * constructor only stores its (already typed) arguments, which is the class
 * constructor here. `setData` copies the set keys in order, parsing the three
 * dates. For `address` and `shipping` it first runs `new Address()` or
 * `new Shipping()`, and both of those throw (an Address needs a country, a
 * Shipping an address), so a set `address` or `shipping` key always stops
 * `setData`. A Shipping object is held as what its `toArray()` gives.
 */
module Client {
  import opened Php
  import opened Setter
  import AddressModel = Address

  /** The state of a Client object. */
  datatype ClientFields = ClientFields(
    id: Option<string>,
    address: Option<AddressModel.AddressFields>,
    amountSpent: Option<Int64>,
    description: Option<string>,
    createdAt: Option<DateTime>,
    email: Option<string>,
    lastTransactionAt: Option<DateTime>,
    mode: Option<string>,
    name: Option<string>,
    phone: Option<string>,
    shipping: Option<map<string, Json>>,
    transactionsCount: Option<Int64>,
    updatedAt: Option<DateTime>)
  {
    /** Field `x` as JSON: what `toArray` shows of it. */
    function Get(x: Field): Json {
      match x
      case Id => OptStr(id)
      case Address => (match address case None => JNull case Some(o) => JObject(o.ToArray()))
      case AmountSpent => OptInt(amountSpent)
      case Description => OptStr(description)
      case CreatedAt => OptDate(createdAt)
      case Email => OptStr(email)
      case LastTransactionAt => OptDate(lastTransactionAt)
      case Mode => OptStr(mode)
      case Name => OptStr(name)
      case Phone => OptStr(phone)
      case Shipping => (match shipping case None => JNull case Some(m) => JObject(m))
      case TransactionsCount => OptInt(transactionsCount)
      case UpdatedAt => OptDate(updatedAt)
    }

    /** `toArray(false)`: every property under its own key, as `Get` shows
        it. */
    function ToArray(): (m: map<string, Json>)
      ensures forall x: Field :: x.Key() in m && m[x.Key()] == Get(x)
      ensures forall k :: k in m ==> exists x: Field :: x.Key() == k
    {
      KeyInjective();
      map x: Field | x in Order :: x.Key() := Get(x)
    }

    /** `toArray(true)`, the body of a create request: the six request
        properties, nulls included. */
    function ToNewArray(): (m: map<string, Json>)
      ensures forall x: Field :: x.Key() in m <==> InRequest(x)
      ensures forall x: Field :: x.Key() in m ==> m[x.Key()] == Get(x)
      ensures forall k :: k in m ==> exists x: Field :: x.Key() == k
    {
      KeyInjective();
      map x: Field | x in Order && InRequest(x) :: x.Key() := Get(x)
    }

    /** `toUpdateArray()`: the request properties that are not null. */
    function ToUpdateArray(): (m: map<string, Json>)
      ensures forall x: Field :: x.Key() in m <==> InRequest(x) && Get(x) != JNull
      ensures forall x: Field :: x.Key() in m ==> m[x.Key()] == Get(x)
      ensures forall k :: k in m ==> exists x: Field :: x.Key() == k
    {
      KeyInjective();
      map x: Field | x in Order && InRequest(x) && Get(x) != JNull :: x.Key() := Get(x)
    }
  }

  /** The keys `setData` looks at. */
  datatype Field = Id | Address | AmountSpent | Description | CreatedAt | Email | LastTransactionAt | Mode | Name | Phone | Shipping | TransactionsCount | UpdatedAt {
    function Key(): string {
      match this
      case Id => "id"
      case Address => "address"
      case AmountSpent => "amountSpent"
      case Description => "description"
      case CreatedAt => "createdAt"
      case Email => "email"
      case LastTransactionAt => "lastTransactionAt"
      case Mode => "mode"
      case Name => "name"
      case Phone => "phone"
      case Shipping => "shipping"
      case TransactionsCount => "transactionsCount"
      case UpdatedAt => "updatedAt"
    }
  }

  /** The order in which `setData` visits them. */
  const Order: seq<Field> := [Id, Address, AmountSpent, Description, CreatedAt, Email, LastTransactionAt, Mode, Name, Phone, Shipping, TransactionsCount, UpdatedAt]

  /** `g` and `f` hold the same value in field `x`. */
  predicate Same(g: ClientFields, f: ClientFields, x: Field) {
    match x
    case Id => g.id == f.id
    case Address => g.address == f.address
    case AmountSpent => g.amountSpent == f.amountSpent
    case Description => g.description == f.description
    case CreatedAt => g.createdAt == f.createdAt
    case Email => g.email == f.email
    case LastTransactionAt => g.lastTransactionAt == f.lastTransactionAt
    case Mode => g.mode == f.mode
    case Name => g.name == f.name
    case Phone => g.phone == f.phone
    case Shipping => g.shipping == f.shipping
    case TransactionsCount => g.transactionsCount == f.transactionsCount
    case UpdatedAt => g.updatedAt == f.updatedAt
  }

  lemma SameGet(g: ClientFields, f: ClientFields, x: Field)
    requires Same(g, f, x)
    ensures g.Get(x) == f.Get(x)
  {
  }

  /** `setData` acts on key `x` of `d`: the key is set (`isset`). */
  predicate Reads(d: map<string, Json>, x: Field) {
    IsSet(d, x.Key())
  }

  /** What `setData` leaves in field `x` when it acts on it, in `Get`'s
      terms, or the error it raises. */
  function Take(x: Field, d: map<string, Json>, rt: Runtime): Result<Json, PhpError> {
    match x
    case Id => TakeId(d, rt)
    case Address => TakeAddress(d, rt)
    case AmountSpent => TakeAmountSpent(d, rt)
    case Description => TakeDescription(d, rt)
    case CreatedAt => TakeCreatedAt(d, rt)
    case Email => TakeEmail(d, rt)
    case LastTransactionAt => TakeLastTransactionAt(d, rt)
    case Mode => TakeMode(d, rt)
    case Name => TakeName(d, rt)
    case Phone => TakePhone(d, rt)
    case Shipping => TakeShipping(d, rt)
    case TransactionsCount => TakeTransactionsCount(d, rt)
    case UpdatedAt => TakeUpdatedAt(d, rt)
  }

  /** What the block for `id` leaves in its field, or its error. */
  function TakeId(d: map<string, Json>, rt: Runtime): Result<Json, PhpError> {
    (match AsStr(Read(d, "id"), "Client::$id") case Failure(e) => Failure(e) case Success(s) => Success(JString(s)))
  }

  /** What the block for `address` leaves in its field, or its error. */
  function TakeAddress(d: map<string, Json>, rt: Runtime): Result<Json, PhpError> {
    Failure(AddressModel.New().error)
  }

  /** What the block for `amountSpent` leaves in its field, or its error. */
  function TakeAmountSpent(d: map<string, Json>, rt: Runtime): Result<Json, PhpError> {
    (match AsInt(Read(d, "amountSpent"), "Client::$amountSpent") case Failure(e) => Failure(e) case Success(s) => Success(JInt(s)))
  }

  /** What the block for `description` leaves in its field, or its error. */
  function TakeDescription(d: map<string, Json>, rt: Runtime): Result<Json, PhpError> {
    (match AsStr(Read(d, "description"), "Client::$description") case Failure(e) => Failure(e) case Success(s) => Success(JString(s)))
  }

  /** What the block for `createdAt` leaves in its field, or its error. */
  function TakeCreatedAt(d: map<string, Json>, rt: Runtime): Result<Json, PhpError> {
    (match NewDate(rt, Read(d, "createdAt"), DateTarget) case Failure(e) => Failure(e) case Success(s) => Success(JString(s.atom)))
  }

  /** What the block for `email` leaves in its field, or its error. */
  function TakeEmail(d: map<string, Json>, rt: Runtime): Result<Json, PhpError> {
    (match AsStr(Read(d, "email"), "Client::$email") case Failure(e) => Failure(e) case Success(s) => Success(JString(s)))
  }

  /** What the block for `lastTransactionAt` leaves in its field, or its error. */
  function TakeLastTransactionAt(d: map<string, Json>, rt: Runtime): Result<Json, PhpError> {
    (match NewDate(rt, Read(d, "lastTransactionAt"), DateTarget) case Failure(e) => Failure(e) case Success(s) => Success(JString(s.atom)))
  }

  /** What the block for `mode` leaves in its field, or its error. */
  function TakeMode(d: map<string, Json>, rt: Runtime): Result<Json, PhpError> {
    (match AsStr(Read(d, "mode"), "Client::$mode") case Failure(e) => Failure(e) case Success(s) => Success(JString(s)))
  }

  /** What the block for `name` leaves in its field, or its error. */
  function TakeName(d: map<string, Json>, rt: Runtime): Result<Json, PhpError> {
    (match AsStr(Read(d, "name"), "Client::$name") case Failure(e) => Failure(e) case Success(s) => Success(JString(s)))
  }

  /** What the block for `phone` leaves in its field, or its error. */
  function TakePhone(d: map<string, Json>, rt: Runtime): Result<Json, PhpError> {
    (match AsStr(Read(d, "phone"), "Client::$phone") case Failure(e) => Failure(e) case Success(s) => Success(JString(s)))
  }

  /** What the block for `shipping` leaves in its field, or its error. */
  function TakeShipping(d: map<string, Json>, rt: Runtime): Result<Json, PhpError> {
    Failure(ShippingNewError)
  }

  /** What the block for `transactionsCount` leaves in its field, or its error. */
  function TakeTransactionsCount(d: map<string, Json>, rt: Runtime): Result<Json, PhpError> {
    (match AsInt(Read(d, "transactionsCount"), "Client::$transactionsCount") case Failure(e) => Failure(e) case Success(s) => Success(JInt(s)))
  }

  /** What the block for `updatedAt` leaves in its field, or its error. */
  function TakeUpdatedAt(d: map<string, Json>, rt: Runtime): Result<Json, PhpError> {
    (match NewDate(rt, Read(d, "updatedAt"), DateTarget) case Failure(e) => Failure(e) case Success(s) => Success(JString(s.atom)))
  }

  /** A key `setData` acts on and stops at. */
  predicate Refused(d: map<string, Json>, x: Field, rt: Runtime) {
    Reads(d, x) && Take(x, d, rt).Failure?
  }

  /** The block of `setData` for `id`, once the key is set. */
  function StoreId(f: ClientFields, d: map<string, Json>, rt: Runtime): Update<ClientFields> {
    (match AsStr(Read(d, "id"), "Client::$id")
      case Failure(e) => Stopped(f, e)
      case Success(s) => Updated(f.(id := Some(s))))
  }

  /** The block of `setData` for `address`, once the key is set. */
  function StoreAddress(f: ClientFields, d: map<string, Json>, rt: Runtime): Update<ClientFields> {
    Stopped(f, AddressModel.New().error)
  }

  /** The block of `setData` for `amountSpent`, once the key is set. */
  function StoreAmountSpent(f: ClientFields, d: map<string, Json>, rt: Runtime): Update<ClientFields> {
    (match AsInt(Read(d, "amountSpent"), "Client::$amountSpent")
      case Failure(e) => Stopped(f, e)
      case Success(s) => Updated(f.(amountSpent := Some(s))))
  }

  /** The block of `setData` for `description`, once the key is set. */
  function StoreDescription(f: ClientFields, d: map<string, Json>, rt: Runtime): Update<ClientFields> {
    (match AsStr(Read(d, "description"), "Client::$description")
      case Failure(e) => Stopped(f, e)
      case Success(s) => Updated(f.(description := Some(s))))
  }

  /** The block of `setData` for `createdAt`, once the key is set. */
  function StoreCreatedAt(f: ClientFields, d: map<string, Json>, rt: Runtime): Update<ClientFields> {
    (match NewDate(rt, Read(d, "createdAt"), DateTarget)
      case Failure(e) => Stopped(f, e)
      case Success(s) => Updated(f.(createdAt := Some(s))))
  }

  /** The block of `setData` for `email`, once the key is set. */
  function StoreEmail(f: ClientFields, d: map<string, Json>, rt: Runtime): Update<ClientFields> {
    (match AsStr(Read(d, "email"), "Client::$email")
      case Failure(e) => Stopped(f, e)
      case Success(s) => Updated(f.(email := Some(s))))
  }

  /** The block of `setData` for `lastTransactionAt`, once the key is set. */
  function StoreLastTransactionAt(f: ClientFields, d: map<string, Json>, rt: Runtime): Update<ClientFields> {
    (match NewDate(rt, Read(d, "lastTransactionAt"), DateTarget)
      case Failure(e) => Stopped(f, e)
      case Success(s) => Updated(f.(lastTransactionAt := Some(s))))
  }

  /** The block of `setData` for `mode`, once the key is set. */
  function StoreMode(f: ClientFields, d: map<string, Json>, rt: Runtime): Update<ClientFields> {
    (match AsStr(Read(d, "mode"), "Client::$mode")
      case Failure(e) => Stopped(f, e)
      case Success(s) => Updated(f.(mode := Some(s))))
  }

  /** The block of `setData` for `name`, once the key is set. */
  function StoreName(f: ClientFields, d: map<string, Json>, rt: Runtime): Update<ClientFields> {
    (match AsStr(Read(d, "name"), "Client::$name")
      case Failure(e) => Stopped(f, e)
      case Success(s) => Updated(f.(name := Some(s))))
  }

  /** The block of `setData` for `phone`, once the key is set. */
  function StorePhone(f: ClientFields, d: map<string, Json>, rt: Runtime): Update<ClientFields> {
    (match AsStr(Read(d, "phone"), "Client::$phone")
      case Failure(e) => Stopped(f, e)
      case Success(s) => Updated(f.(phone := Some(s))))
  }

  /** The block of `setData` for `shipping`, once the key is set. */
  function StoreShipping(f: ClientFields, d: map<string, Json>, rt: Runtime): Update<ClientFields> {
    Stopped(f, ShippingNewError)
  }

  /** The block of `setData` for `transactionsCount`, once the key is set. */
  function StoreTransactionsCount(f: ClientFields, d: map<string, Json>, rt: Runtime): Update<ClientFields> {
    (match AsInt(Read(d, "transactionsCount"), "Client::$transactionsCount")
      case Failure(e) => Stopped(f, e)
      case Success(s) => Updated(f.(transactionsCount := Some(s))))
  }

  /** The block of `setData` for `updatedAt`, once the key is set. */
  function StoreUpdatedAt(f: ClientFields, d: map<string, Json>, rt: Runtime): Update<ClientFields> {
    (match NewDate(rt, Read(d, "updatedAt"), DateTarget)
      case Failure(e) => Stopped(f, e)
      case Success(s) => Updated(f.(updatedAt := Some(s))))
  }

  /** One `if (isset($data[key])) { ... }` block of `setData`. */
  function Step(f: ClientFields, d: map<string, Json>, x: Field, rt: Runtime): Update<ClientFields> {
    if !Reads(d, x) then Updated(f)
    else match x
      case Id => StoreId(f, d, rt)
      case Address => StoreAddress(f, d, rt)
      case AmountSpent => StoreAmountSpent(f, d, rt)
      case Description => StoreDescription(f, d, rt)
      case CreatedAt => StoreCreatedAt(f, d, rt)
      case Email => StoreEmail(f, d, rt)
      case LastTransactionAt => StoreLastTransactionAt(f, d, rt)
      case Mode => StoreMode(f, d, rt)
      case Name => StoreName(f, d, rt)
      case Phone => StorePhone(f, d, rt)
      case Shipping => StoreShipping(f, d, rt)
      case TransactionsCount => StoreTransactionsCount(f, d, rt)
      case UpdatedAt => StoreUpdatedAt(f, d, rt)
  }

  /** The block for `id` stores what `Take` says or stops with its
      error, and touches no other field. */
  lemma StoreIdFacts(f: ClientFields, d: map<string, Json>, rt: Runtime)
    ensures StoreId(f, d, rt).Updated? ==> TakeId(d, rt) == Success(OptStr(StoreId(f, d, rt).fields.id))
    ensures StoreId(f, d, rt).Stopped? ==> TakeId(d, rt) == Failure(StoreId(f, d, rt).error)
    ensures StoreId(f, d, rt).Stopped? ==> StoreId(f, d, rt).fields == f
    ensures StoreId(f, d, rt).fields == f.(id := StoreId(f, d, rt).fields.id)
  {
  }

  /** The block for `address` stores what `Take` says or stops with its
      error, and touches no other field. */
  lemma StoreAddressFacts(f: ClientFields, d: map<string, Json>, rt: Runtime)
    ensures StoreAddress(f, d, rt).Updated? ==> TakeAddress(d, rt) == Success((match StoreAddress(f, d, rt).fields.address case None => JNull case Some(o) => JObject(o.ToArray())))
    ensures StoreAddress(f, d, rt).Stopped? ==> TakeAddress(d, rt) == Failure(StoreAddress(f, d, rt).error)
    ensures StoreAddress(f, d, rt).Stopped? ==> StoreAddress(f, d, rt).fields == f
    ensures StoreAddress(f, d, rt).fields == f.(address := StoreAddress(f, d, rt).fields.address)
  {
  }

  /** The block for `amountSpent` stores what `Take` says or stops with its
      error, and touches no other field. */
  lemma StoreAmountSpentFacts(f: ClientFields, d: map<string, Json>, rt: Runtime)
    ensures StoreAmountSpent(f, d, rt).Updated? ==> TakeAmountSpent(d, rt) == Success(OptInt(StoreAmountSpent(f, d, rt).fields.amountSpent))
    ensures StoreAmountSpent(f, d, rt).Stopped? ==> TakeAmountSpent(d, rt) == Failure(StoreAmountSpent(f, d, rt).error)
    ensures StoreAmountSpent(f, d, rt).Stopped? ==> StoreAmountSpent(f, d, rt).fields == f
    ensures StoreAmountSpent(f, d, rt).fields == f.(amountSpent := StoreAmountSpent(f, d, rt).fields.amountSpent)
  {
  }

  /** The block for `description` stores what `Take` says or stops with its
      error, and touches no other field. */
  lemma StoreDescriptionFacts(f: ClientFields, d: map<string, Json>, rt: Runtime)
    ensures StoreDescription(f, d, rt).Updated? ==> TakeDescription(d, rt) == Success(OptStr(StoreDescription(f, d, rt).fields.description))
    ensures StoreDescription(f, d, rt).Stopped? ==> TakeDescription(d, rt) == Failure(StoreDescription(f, d, rt).error)
    ensures StoreDescription(f, d, rt).Stopped? ==> StoreDescription(f, d, rt).fields == f
    ensures StoreDescription(f, d, rt).fields == f.(description := StoreDescription(f, d, rt).fields.description)
  {
  }

  /** The block for `createdAt` stores what `Take` says or stops with its
      error, and touches no other field. */
  lemma StoreCreatedAtFacts(f: ClientFields, d: map<string, Json>, rt: Runtime)
    ensures StoreCreatedAt(f, d, rt).Updated? ==> TakeCreatedAt(d, rt) == Success(OptDate(StoreCreatedAt(f, d, rt).fields.createdAt))
    ensures StoreCreatedAt(f, d, rt).Stopped? ==> TakeCreatedAt(d, rt) == Failure(StoreCreatedAt(f, d, rt).error)
    ensures StoreCreatedAt(f, d, rt).Stopped? ==> StoreCreatedAt(f, d, rt).fields == f
    ensures StoreCreatedAt(f, d, rt).fields == f.(createdAt := StoreCreatedAt(f, d, rt).fields.createdAt)
  {
  }

  /** The block for `email` stores what `Take` says or stops with its
      error, and touches no other field. */
  lemma StoreEmailFacts(f: ClientFields, d: map<string, Json>, rt: Runtime)
    ensures StoreEmail(f, d, rt).Updated? ==> TakeEmail(d, rt) == Success(OptStr(StoreEmail(f, d, rt).fields.email))
    ensures StoreEmail(f, d, rt).Stopped? ==> TakeEmail(d, rt) == Failure(StoreEmail(f, d, rt).error)
    ensures StoreEmail(f, d, rt).Stopped? ==> StoreEmail(f, d, rt).fields == f
    ensures StoreEmail(f, d, rt).fields == f.(email := StoreEmail(f, d, rt).fields.email)
  {
  }

  /** The block for `lastTransactionAt` stores what `Take` says or stops with its
      error, and touches no other field. */
  lemma StoreLastTransactionAtFacts(f: ClientFields, d: map<string, Json>, rt: Runtime)
    ensures StoreLastTransactionAt(f, d, rt).Updated? ==> TakeLastTransactionAt(d, rt) == Success(OptDate(StoreLastTransactionAt(f, d, rt).fields.lastTransactionAt))
    ensures StoreLastTransactionAt(f, d, rt).Stopped? ==> TakeLastTransactionAt(d, rt) == Failure(StoreLastTransactionAt(f, d, rt).error)
    ensures StoreLastTransactionAt(f, d, rt).Stopped? ==> StoreLastTransactionAt(f, d, rt).fields == f
    ensures StoreLastTransactionAt(f, d, rt).fields == f.(lastTransactionAt := StoreLastTransactionAt(f, d, rt).fields.lastTransactionAt)
  {
  }

  /** The block for `mode` stores what `Take` says or stops with its
      error, and touches no other field. */
  lemma StoreModeFacts(f: ClientFields, d: map<string, Json>, rt: Runtime)
    ensures StoreMode(f, d, rt).Updated? ==> TakeMode(d, rt) == Success(OptStr(StoreMode(f, d, rt).fields.mode))
    ensures StoreMode(f, d, rt).Stopped? ==> TakeMode(d, rt) == Failure(StoreMode(f, d, rt).error)
    ensures StoreMode(f, d, rt).Stopped? ==> StoreMode(f, d, rt).fields == f
    ensures StoreMode(f, d, rt).fields == f.(mode := StoreMode(f, d, rt).fields.mode)
  {
  }

  /** The block for `name` stores what `Take` says or stops with its
      error, and touches no other field. */
  lemma StoreNameFacts(f: ClientFields, d: map<string, Json>, rt: Runtime)
    ensures StoreName(f, d, rt).Updated? ==> TakeName(d, rt) == Success(OptStr(StoreName(f, d, rt).fields.name))
    ensures StoreName(f, d, rt).Stopped? ==> TakeName(d, rt) == Failure(StoreName(f, d, rt).error)
    ensures StoreName(f, d, rt).Stopped? ==> StoreName(f, d, rt).fields == f
    ensures StoreName(f, d, rt).fields == f.(name := StoreName(f, d, rt).fields.name)
  {
  }

  /** The block for `phone` stores what `Take` says or stops with its
      error, and touches no other field. */
  lemma StorePhoneFacts(f: ClientFields, d: map<string, Json>, rt: Runtime)
    ensures StorePhone(f, d, rt).Updated? ==> TakePhone(d, rt) == Success(OptStr(StorePhone(f, d, rt).fields.phone))
    ensures StorePhone(f, d, rt).Stopped? ==> TakePhone(d, rt) == Failure(StorePhone(f, d, rt).error)
    ensures StorePhone(f, d, rt).Stopped? ==> StorePhone(f, d, rt).fields == f
    ensures StorePhone(f, d, rt).fields == f.(phone := StorePhone(f, d, rt).fields.phone)
  {
  }

  /** The block for `shipping` stores what `Take` says or stops with its
      error, and touches no other field. */
  lemma StoreShippingFacts(f: ClientFields, d: map<string, Json>, rt: Runtime)
    ensures StoreShipping(f, d, rt).Updated? ==> TakeShipping(d, rt) == Success((match StoreShipping(f, d, rt).fields.shipping case None => JNull case Some(m) => JObject(m)))
    ensures StoreShipping(f, d, rt).Stopped? ==> TakeShipping(d, rt) == Failure(StoreShipping(f, d, rt).error)
    ensures StoreShipping(f, d, rt).Stopped? ==> StoreShipping(f, d, rt).fields == f
    ensures StoreShipping(f, d, rt).fields == f.(shipping := StoreShipping(f, d, rt).fields.shipping)
  {
  }

  /** The block for `transactionsCount` stores what `Take` says or stops with its
      error, and touches no other field. */
  lemma StoreTransactionsCountFacts(f: ClientFields, d: map<string, Json>, rt: Runtime)
    ensures StoreTransactionsCount(f, d, rt).Updated? ==> TakeTransactionsCount(d, rt) == Success(OptInt(StoreTransactionsCount(f, d, rt).fields.transactionsCount))
    ensures StoreTransactionsCount(f, d, rt).Stopped? ==> TakeTransactionsCount(d, rt) == Failure(StoreTransactionsCount(f, d, rt).error)
    ensures StoreTransactionsCount(f, d, rt).Stopped? ==> StoreTransactionsCount(f, d, rt).fields == f
    ensures StoreTransactionsCount(f, d, rt).fields == f.(transactionsCount := StoreTransactionsCount(f, d, rt).fields.transactionsCount)
  {
  }

  /** The block for `updatedAt` stores what `Take` says or stops with its
      error, and touches no other field. */
  lemma StoreUpdatedAtFacts(f: ClientFields, d: map<string, Json>, rt: Runtime)
    ensures StoreUpdatedAt(f, d, rt).Updated? ==> TakeUpdatedAt(d, rt) == Success(OptDate(StoreUpdatedAt(f, d, rt).fields.updatedAt))
    ensures StoreUpdatedAt(f, d, rt).Stopped? ==> TakeUpdatedAt(d, rt) == Failure(StoreUpdatedAt(f, d, rt).error)
    ensures StoreUpdatedAt(f, d, rt).Stopped? ==> StoreUpdatedAt(f, d, rt).fields == f
    ensures StoreUpdatedAt(f, d, rt).fields == f.(updatedAt := StoreUpdatedAt(f, d, rt).fields.updatedAt)
  {
  }

  /** What one block does: nothing unless it acts on its key; then it
      stores what `Take` says or stops with its error, and it never
      touches another field. */
  lemma StepFacts(f: ClientFields, d: map<string, Json>, x: Field, rt: Runtime)
    ensures !Reads(d, x) ==> Step(f, d, x, rt) == Updated(f)
    ensures Reads(d, x) && Step(f, d, x, rt).Updated? ==> Take(x, d, rt) == Success(Step(f, d, x, rt).fields.Get(x))
    ensures Reads(d, x) && Step(f, d, x, rt).Stopped? ==> Take(x, d, rt) == Failure(Step(f, d, x, rt).error)
    ensures Step(f, d, x, rt).Stopped? ==> Step(f, d, x, rt).fields == f
    ensures forall y: Field :: y != x ==> Same(Step(f, d, x, rt).fields, f, y)
  {
    match x
    case Id => StoreIdFacts(f, d, rt);
    case Address => StoreAddressFacts(f, d, rt);
    case AmountSpent => StoreAmountSpentFacts(f, d, rt);
    case Description => StoreDescriptionFacts(f, d, rt);
    case CreatedAt => StoreCreatedAtFacts(f, d, rt);
    case Email => StoreEmailFacts(f, d, rt);
    case LastTransactionAt => StoreLastTransactionAtFacts(f, d, rt);
    case Mode => StoreModeFacts(f, d, rt);
    case Name => StoreNameFacts(f, d, rt);
    case Phone => StorePhoneFacts(f, d, rt);
    case Shipping => StoreShippingFacts(f, d, rt);
    case TransactionsCount => StoreTransactionsCountFacts(f, d, rt);
    case UpdatedAt => StoreUpdatedAtFacts(f, d, rt);
  }

  /** `setData($data)` on an object in state `f`. */
  function Apply(f: ClientFields, d: map<string, Json>, rt: Runtime): Update<ClientFields> {
    Fold(Step, f, d, Order, rt)
  }

  class Client {
    var id: Option<string>
    var address: Option<AddressModel.AddressFields>
    var amountSpent: Option<Int64>
    var description: Option<string>
    var createdAt: Option<DateTime>
    var email: Option<string>
    var lastTransactionAt: Option<DateTime>
    var mode: Option<string>
    var name: Option<string>
    var phone: Option<string>
    var shipping: Option<map<string, Json>>
    var transactionsCount: Option<Int64>
    var updatedAt: Option<DateTime>

    function Fields(): ClientFields
      reads this
    {
      ClientFields(id, address, amountSpent, description, createdAt, email, lastTransactionAt, mode, name, phone, shipping, transactionsCount, updatedAt)
    }

    /** An object in state `f`; `New` is the PHP constructor. */
    constructor (f: ClientFields)
      ensures Fields() == f
    {
      id := f.id;
      address := f.address;
      amountSpent := f.amountSpent;
      description := f.description;
      createdAt := f.createdAt;
      email := f.email;
      lastTransactionAt := f.lastTransactionAt;
      mode := f.mode;
      name := f.name;
      phone := f.phone;
      shipping := f.shipping;
      transactionsCount := f.transactionsCount;
      updatedAt := f.updatedAt;
    }

    /** One guarded assignment of `setData`. */
    method Assign(x: Field, data: map<string, Json>, rt: Runtime) returns (r: Result<(), PhpError>)
      modifies this
      ensures Fields() == Step(old(Fields()), data, x, rt).fields
      ensures r.Failure? <==> Step(old(Fields()), data, x, rt).Stopped?
      ensures r.Failure? ==> r.error == Step(old(Fields()), data, x, rt).error
    {
      if !Reads(data, x) {
        return Success(());
      }
      match x
      case Id => r := AssignId(data, rt);
      case Address => r := AssignAddress(data, rt);
      case AmountSpent => r := AssignAmountSpent(data, rt);
      case Description => r := AssignDescription(data, rt);
      case CreatedAt => r := AssignCreatedAt(data, rt);
      case Email => r := AssignEmail(data, rt);
      case LastTransactionAt => r := AssignLastTransactionAt(data, rt);
      case Mode => r := AssignMode(data, rt);
      case Name => r := AssignName(data, rt);
      case Phone => r := AssignPhone(data, rt);
      case Shipping => r := AssignShipping(data, rt);
      case TransactionsCount => r := AssignTransactionsCount(data, rt);
      case UpdatedAt => r := AssignUpdatedAt(data, rt);
    }

    /** The block for `id`. */
    method AssignId(data: map<string, Json>, rt: Runtime) returns (r: Result<(), PhpError>)
      modifies this
      ensures Fields() == StoreId(old(Fields()), data, rt).fields
      ensures r.Failure? <==> StoreId(old(Fields()), data, rt).Stopped?
      ensures r.Failure? ==> r.error == StoreId(old(Fields()), data, rt).error
    {
      var s :- AsStr(Read(data, "id"), "Client::$id");
      id := Some(s);
      return Success(());
    }

    /** The block for `address`. */
    method AssignAddress(data: map<string, Json>, rt: Runtime) returns (r: Result<(), PhpError>)
      modifies this
      ensures Fields() == StoreAddress(old(Fields()), data, rt).fields
      ensures r.Failure? <==> StoreAddress(old(Fields()), data, rt).Stopped?
      ensures r.Failure? ==> r.error == StoreAddress(old(Fields()), data, rt).error
    {
      // `new Address()` throws before the nested `setData` runs.
      var made := AddressModel.New();
      return Failure(made.error);
      return Success(());
    }

    /** The block for `amountSpent`. */
    method AssignAmountSpent(data: map<string, Json>, rt: Runtime) returns (r: Result<(), PhpError>)
      modifies this
      ensures Fields() == StoreAmountSpent(old(Fields()), data, rt).fields
      ensures r.Failure? <==> StoreAmountSpent(old(Fields()), data, rt).Stopped?
      ensures r.Failure? ==> r.error == StoreAmountSpent(old(Fields()), data, rt).error
    {
      var s :- AsInt(Read(data, "amountSpent"), "Client::$amountSpent");
      amountSpent := Some(s);
      return Success(());
    }

    /** The block for `description`. */
    method AssignDescription(data: map<string, Json>, rt: Runtime) returns (r: Result<(), PhpError>)
      modifies this
      ensures Fields() == StoreDescription(old(Fields()), data, rt).fields
      ensures r.Failure? <==> StoreDescription(old(Fields()), data, rt).Stopped?
      ensures r.Failure? ==> r.error == StoreDescription(old(Fields()), data, rt).error
    {
      var s :- AsStr(Read(data, "description"), "Client::$description");
      description := Some(s);
      return Success(());
    }

    /** The block for `createdAt`. */
    method AssignCreatedAt(data: map<string, Json>, rt: Runtime) returns (r: Result<(), PhpError>)
      modifies this
      ensures Fields() == StoreCreatedAt(old(Fields()), data, rt).fields
      ensures r.Failure? <==> StoreCreatedAt(old(Fields()), data, rt).Stopped?
      ensures r.Failure? ==> r.error == StoreCreatedAt(old(Fields()), data, rt).error
    {
      var s :- NewDate(rt, Read(data, "createdAt"), DateTarget);
      createdAt := Some(s);
      return Success(());
    }

    /** The block for `email`. */
    method AssignEmail(data: map<string, Json>, rt: Runtime) returns (r: Result<(), PhpError>)
      modifies this
      ensures Fields() == StoreEmail(old(Fields()), data, rt).fields
      ensures r.Failure? <==> StoreEmail(old(Fields()), data, rt).Stopped?
      ensures r.Failure? ==> r.error == StoreEmail(old(Fields()), data, rt).error
    {
      var s :- AsStr(Read(data, "email"), "Client::$email");
      email := Some(s);
      return Success(());
    }

    /** The block for `lastTransactionAt`. */
    method AssignLastTransactionAt(data: map<string, Json>, rt: Runtime) returns (r: Result<(), PhpError>)
      modifies this
      ensures Fields() == StoreLastTransactionAt(old(Fields()), data, rt).fields
      ensures r.Failure? <==> StoreLastTransactionAt(old(Fields()), data, rt).Stopped?
      ensures r.Failure? ==> r.error == StoreLastTransactionAt(old(Fields()), data, rt).error
    {
      var s :- NewDate(rt, Read(data, "lastTransactionAt"), DateTarget);
      lastTransactionAt := Some(s);
      return Success(());
    }

    /** The block for `mode`. */
    method AssignMode(data: map<string, Json>, rt: Runtime) returns (r: Result<(), PhpError>)
      modifies this
      ensures Fields() == StoreMode(old(Fields()), data, rt).fields
      ensures r.Failure? <==> StoreMode(old(Fields()), data, rt).Stopped?
      ensures r.Failure? ==> r.error == StoreMode(old(Fields()), data, rt).error
    {
      var s :- AsStr(Read(data, "mode"), "Client::$mode");
      mode := Some(s);
      return Success(());
    }

    /** The block for `name`. */
    method AssignName(data: map<string, Json>, rt: Runtime) returns (r: Result<(), PhpError>)
      modifies this
      ensures Fields() == StoreName(old(Fields()), data, rt).fields
      ensures r.Failure? <==> StoreName(old(Fields()), data, rt).Stopped?
      ensures r.Failure? ==> r.error == StoreName(old(Fields()), data, rt).error
    {
      var s :- AsStr(Read(data, "name"), "Client::$name");
      name := Some(s);
      return Success(());
    }

    /** The block for `phone`. */
    method AssignPhone(data: map<string, Json>, rt: Runtime) returns (r: Result<(), PhpError>)
      modifies this
      ensures Fields() == StorePhone(old(Fields()), data, rt).fields
      ensures r.Failure? <==> StorePhone(old(Fields()), data, rt).Stopped?
      ensures r.Failure? ==> r.error == StorePhone(old(Fields()), data, rt).error
    {
      var s :- AsStr(Read(data, "phone"), "Client::$phone");
      phone := Some(s);
      return Success(());
    }

    /** The block for `shipping`. */
    method AssignShipping(data: map<string, Json>, rt: Runtime) returns (r: Result<(), PhpError>)
      modifies this
      ensures Fields() == StoreShipping(old(Fields()), data, rt).fields
      ensures r.Failure? <==> StoreShipping(old(Fields()), data, rt).Stopped?
      ensures r.Failure? ==> r.error == StoreShipping(old(Fields()), data, rt).error
    {
      // `new Shipping()` throws before the nested `setData` runs.
      return Failure(ShippingNewError);
      return Success(());
    }

    /** The block for `transactionsCount`. */
    method AssignTransactionsCount(data: map<string, Json>, rt: Runtime) returns (r: Result<(), PhpError>)
      modifies this
      ensures Fields() == StoreTransactionsCount(old(Fields()), data, rt).fields
      ensures r.Failure? <==> StoreTransactionsCount(old(Fields()), data, rt).Stopped?
      ensures r.Failure? ==> r.error == StoreTransactionsCount(old(Fields()), data, rt).error
    {
      var s :- AsInt(Read(data, "transactionsCount"), "Client::$transactionsCount");
      transactionsCount := Some(s);
      return Success(());
    }

    /** The block for `updatedAt`. */
    method AssignUpdatedAt(data: map<string, Json>, rt: Runtime) returns (r: Result<(), PhpError>)
      modifies this
      ensures Fields() == StoreUpdatedAt(old(Fields()), data, rt).fields
      ensures r.Failure? <==> StoreUpdatedAt(old(Fields()), data, rt).Stopped?
      ensures r.Failure? ==> r.error == StoreUpdatedAt(old(Fields()), data, rt).error
    {
      var s :- NewDate(rt, Read(data, "updatedAt"), DateTarget);
      updatedAt := Some(s);
      return Success(());
    }

    /** The blocks for the keys of `xs`, one after the other, up to the
        first error. */
    method AssignAll(xs: seq<Field>, data: map<string, Json>, rt: Runtime) returns (r: Result<(), PhpError>)
      modifies this
      ensures Fields() == Fold(Step, old(Fields()), data, xs, rt).fields
      ensures r.Failure? <==> Fold(Step, old(Fields()), data, xs, rt).Stopped?
      ensures r.Failure? ==> r.error == Fold(Step, old(Fields()), data, xs, rt).error
      decreases |xs|
    {
      if xs == [] {
        return Success(());
      }
      r := Assign(xs[0], data, rt);
      if r.Failure? {
        return;
      }
      r := AssignAll(xs[1..], data, rt);
    }

    /** `setData($data)`: every block, in the order of the source. */
    method SetData(data: map<string, Json>, rt: Runtime) returns (r: Result<(), PhpError>)
      modifies this
      ensures Fields() == Apply(old(Fields()), data, rt).fields
      ensures r.Failure? <==> Apply(old(Fields()), data, rt).Stopped?
      ensures r.Failure? ==> r.error == Apply(old(Fields()), data, rt).error
    {
      r := AssignAll(Order, data, rt);
    }
  }

  // ---------------------------------------------------------------------------
  // Properties of setData

  lemma OrderIsComplete(x: Field)
    ensures x in Order
  {
  }

  /** A field whose key `setData` does not act on keeps its value, even
      when `setData` stops early. */
  lemma ApplyKeepsUnread(f: ClientFields, d: map<string, Json>, x: Field, rt: Runtime)
    requires !Reads(d, x)
    ensures Apply(f, d, rt).fields.Get(x) == f.Get(x)
  {
    var P := (g: ClientFields) => g.Get(x) == f.Get(x);
    StepKeepsUnread(d, x, rt, f.Get(x), P);
    FoldKeeps(Step, f, d, Order, rt, P);
  }

  /** No step changes a field whose key `setData` does not act on. */
  lemma StepKeepsUnread(d: map<string, Json>, x: Field, rt: Runtime, v: Json, P: ClientFields -> bool)
    requires !Reads(d, x)
    requires forall g :: P(g) <==> g.Get(x) == v
    ensures forall g, y :: y in Order && P(g) ==> P(Step(g, d, y, rt).fields)
  {
    forall g, y | y in Order && P(g)
      ensures P(Step(g, d, y, rt).fields)
    {
      StepFacts(g, d, y, rt);
      if y != x {
        SameGet(Step(g, d, y, rt).fields, g, x);
      }
    }
  }

  /** When `setData` completes, each field it acts on holds what `Take`
      says. */
  lemma ApplyStoresRead(f: ClientFields, d: map<string, Json>, x: Field, rt: Runtime)
    requires Reads(d, x) && Apply(f, d, rt).Updated?
    ensures Take(x, d, rt) == Success(Apply(f, d, rt).fields.Get(x))
  {
    OrderIsComplete(x);
    var P := (g: ClientFields) => Take(x, d, rt) == Success(g.Get(x));
    StepStoresRead(d, x, rt, P);
    FoldEstablishes(Step, f, d, Order, rt, x, P);
  }

  /** The step for `x` establishes what `Take` says, and the other steps
      keep it. */
  lemma StepStoresRead(d: map<string, Json>, x: Field, rt: Runtime, P: ClientFields -> bool)
    requires Reads(d, x)
    requires forall g :: P(g) <==> Take(x, d, rt) == Success(g.Get(x))
    ensures forall g :: Step(g, d, x, rt).Updated? ==> P(Step(g, d, x, rt).fields)
    ensures forall g, y :: y != x && P(g) ==> P(Step(g, d, y, rt).fields)
  {
    forall g
      ensures Step(g, d, x, rt).Updated? ==> P(Step(g, d, x, rt).fields)
    {
      StepFacts(g, d, x, rt);
    }
    forall g, y | y != x && P(g)
      ensures P(Step(g, d, y, rt).fields)
    {
      StepFacts(g, d, y, rt);
      SameGet(Step(g, d, y, rt).fields, g, x);
    }
  }

  /** `setData` stops exactly when some key it acts on is refused, and
      with the error of the first such key in its order. */
  lemma ApplyStops(f: ClientFields, d: map<string, Json>, rt: Runtime)
    ensures Apply(f, d, rt).Stopped? <==> exists x: Field :: Refused(d, x, rt)
    ensures Apply(f, d, rt).Stopped? ==>
      exists i :: 0 <= i < |Order| && Refused(d, Order[i], rt) &&
        (forall j :: 0 <= j < i ==> !Refused(d, Order[j], rt)) &&
        Apply(f, d, rt).error == Take(Order[i], d, rt).error
  {
    forall g, y: Field
      ensures Step(g, d, y, rt).Stopped? <==> Refused(d, y, rt)
      ensures Refused(d, y, rt) ==> Step(g, d, y, rt).error == Take(y, d, rt).error
    {
      StepFacts(g, d, y, rt);
    }
    FoldStops(Step, f, d, Order, rt, (y: Field) => Refused(d, y, rt), (y: Field) => Take(y, d, rt));
    if x: Field :| Refused(d, x, rt) {
      OrderIsComplete(x);
    }
  }

  /** An empty array changes nothing. */
  lemma ApplyEmpty(f: ClientFields, rt: Runtime)
    ensures Apply(f, map[], rt) == Updated(f)
  {
    FoldNoOp(Step, f, map[], Order, rt);
  }

  /** `new Shipping()`: its constructor stores the default null address in
      a property declared `Address`, which PHP refuses. */
  const ShippingNewError := TypeError("Shipping::$address")

  /** The properties of a create or update request. */
  predicate InRequest(x: Field) {
    match x
    case Address => true
    case Description => true
    case Email => true
    case Name => true
    case Phone => true
    case Shipping => true
    case _ => false
  }

  /** Distinct properties have distinct keys. */
  lemma KeyInjective()
    ensures forall x: Field, y: Field :: x.Key() == y.Key() ==> x == y
  {
  }

  /** A set `address` or `shipping` key always stops `setData`: with the
      error of `new Address()` when `address` is set and no earlier key is
      refused, and otherwise no later than at `shipping`. */
  lemma NestedKeysStop(f: ClientFields, d: map<string, Json>, rt: Runtime)
    requires Reads(d, Address) || Reads(d, Shipping)
    ensures Apply(f, d, rt).Stopped?
    ensures Reads(d, Address) && !Refused(d, Id, rt) ==>
      Apply(f, d, rt).error == TypeError("Address::$country")
  {
    AddressModel.NewDefaultFails();
    assert Refused(d, Address, rt) || Refused(d, Shipping, rt);
    ApplyStops(f, d, rt);
    if Reads(d, Address) && !Refused(d, Id, rt) {
      var i :| 0 <= i < |Order| && Refused(d, Order[i], rt) &&
        (forall j :: 0 <= j < i ==> !Refused(d, Order[j], rt)) &&
        Apply(f, d, rt).error == Take(Order[i], d, rt).error;
      assert Refused(d, Order[1], rt);
      assert i == 1;
    }
  }

  /** `toUpdateArray()` is `toArray(true)` without its null values. */
  lemma UpdateArrayDropsNulls(f: ClientFields)
    ensures forall k :: k in f.ToUpdateArray() <==> k in f.ToNewArray() && f.ToNewArray()[k] != JNull
    ensures forall k :: k in f.ToUpdateArray() ==> f.ToUpdateArray()[k] == f.ToNewArray()[k]
  {
    forall k | k in f.ToNewArray()
      ensures k in f.ToUpdateArray() <==> f.ToNewArray()[k] != JNull
    {
      var x: Field :| x.Key() == k;
    }
  }
}
