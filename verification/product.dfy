/**
 * `ONVO\Models\Product\Product`: a product. `isActive`, `isShippable`,
 * `name` and `mode` are non-nullable. `setData` copies the set keys in order,
 * parsing the two dates. For `packageDimensions` it first runs
 * `new PackageDimensions()`, whose constructor stores null in a `float`
 * property and throws, so a set `packageDimensions` key always stops
 * `setData`. Package dimensions are floats and are held as what their
 * `toArray()` gives.
 */
module Product {
  import opened Php
  import opened Setter

  /** The state of a Product object. A null `images` is `JNull`. */
  datatype ProductFields = ProductFields(
    id: Option<string>,
    createdAt: Option<DateTime>,
    description: Option<string>,
    images: Json,
    isActive: bool,
    isShippable: bool,
    name: string,
    packageDimensions: Option<map<string, Json>>,
    mode: string,
    updatedAt: Option<DateTime>)
  {
    /** Field `x` as JSON: what `toArray` shows of it. */
    function Get(x: Field): Json {
      match x
      case Id => OptStr(id)
      case CreatedAt => OptDate(createdAt)
      case Description => OptStr(description)
      case Images => images
      case IsActive => JBool(isActive)
      case IsShippable => JBool(isShippable)
      case Name => JString(name)
      case PackageDimensions => (match packageDimensions case None => JNull case Some(m) => JObject(m))
      case Mode => JString(mode)
      case UpdatedAt => OptDate(updatedAt)
    }

    /** `toArray(false)`: every property under its own key, as `Get` shows
        it. */
    function ToArray(): (m: map<string, Json>)
      ensures forall x: Field :: x.Key() in m && m[x.Key()] == Get(x)
      ensures forall k :: k in m ==> exists x: Field :: x.Key() == k
    {
      KeyInjective();
      map x: Field | x in Order :: x.Key() := Get(x)
    }

    /** `toArray(true)`, the body of a create request: the properties
        `NewShows` picks, as `Get` shows them. */
    function ToNewArray(): (m: map<string, Json>)
      ensures forall x: Field :: x.Key() in m <==> NewShows(x)
      ensures forall x: Field :: x.Key() in m ==> m[x.Key()] == Get(x)
      ensures forall k :: k in m ==> exists x: Field :: x.Key() == k
    {
      KeyInjective();
      map x: Field | x in Order && NewShows(x) :: x.Key() := Get(x)
    }

    /** `toUpdateArray()`: the same properties as `toArray(true)`. Its
        tests differ in form only: the name when not null (a `string` never
        is), each flag when `isset` (an initialised `bool` always is), and the
        other three when non-null; so `NewShows` picks them too. */
    function ToUpdateArray(): (m: map<string, Json>)
      ensures forall x: Field :: x.Key() in m <==> NewShows(x)
      ensures forall x: Field :: x.Key() in m ==> m[x.Key()] == Get(x)
      ensures forall k :: k in m ==> exists x: Field :: x.Key() == k
    {
      KeyInjective();
      map x: Field | x in Order && NewShows(x) :: x.Key() := Get(x)
    }

    /** The keys of `toArray(true)`: name and the two flags always; the
        description, the images and the dimensions when non-null. */
    predicate NewShows(x: Field) {
      match x
      case Name => true
      case IsActive => true
      case IsShippable => true
      case Description => description.Some?
      case Images => images != JNull
      case PackageDimensions => packageDimensions.Some?
      case _ => false
    }
  }

  /** The keys `setData` looks at. */
  datatype Field = Id | CreatedAt | Description | Images | IsActive | IsShippable | Name | PackageDimensions | Mode | UpdatedAt {
    function Key(): string {
      match this
      case Id => "id"
      case CreatedAt => "createdAt"
      case Description => "description"
      case Images => "images"
      case IsActive => "isActive"
      case IsShippable => "isShippable"
      case Name => "name"
      case PackageDimensions => "packageDimensions"
      case Mode => "mode"
      case UpdatedAt => "updatedAt"
    }
  }

  /** The order in which `setData` visits them. */
  const Order: seq<Field> := [Id, CreatedAt, Description, Images, IsActive, IsShippable, Name, PackageDimensions, Mode, UpdatedAt]

  /** `g` and `f` hold the same value in field `x`. */
  predicate Same(g: ProductFields, f: ProductFields, x: Field) {
    match x
    case Id => g.id == f.id
    case CreatedAt => g.createdAt == f.createdAt
    case Description => g.description == f.description
    case Images => g.images == f.images
    case IsActive => g.isActive == f.isActive
    case IsShippable => g.isShippable == f.isShippable
    case Name => g.name == f.name
    case PackageDimensions => g.packageDimensions == f.packageDimensions
    case Mode => g.mode == f.mode
    case UpdatedAt => g.updatedAt == f.updatedAt
  }

  lemma SameGet(g: ProductFields, f: ProductFields, x: Field)
    requires Same(g, f, x)
    ensures g.Get(x) == f.Get(x)
  {
  }

  /** `setData` acts on key `x` of `d`: the key is set (`isset`). */
  predicate Reads(d: map<string, Json>, x: Field) {
    IsSet(d, x.Key())
  }

  /** What `setData` leaves in field `x` when it acts on it, in `Get`'s
      terms, or the error it raises. */
  function Take(x: Field, d: map<string, Json>, rt: Runtime): Result<Json, PhpError> {
    match x
    case Id => TakeId(d, rt)
    case CreatedAt => TakeCreatedAt(d, rt)
    case Description => TakeDescription(d, rt)
    case Images => TakeImages(d, rt)
    case IsActive => TakeIsActive(d, rt)
    case IsShippable => TakeIsShippable(d, rt)
    case Name => TakeName(d, rt)
    case PackageDimensions => TakePackageDimensions(d, rt)
    case Mode => TakeMode(d, rt)
    case UpdatedAt => TakeUpdatedAt(d, rt)
  }

  /** What the block for `id` leaves in its field, or its error. */
  function TakeId(d: map<string, Json>, rt: Runtime): Result<Json, PhpError> {
    (match AsStr(Read(d, "id"), "Product::$id") case Failure(e) => Failure(e) case Success(s) => Success(JString(s)))
  }

  /** What the block for `createdAt` leaves in its field, or its error. */
  function TakeCreatedAt(d: map<string, Json>, rt: Runtime): Result<Json, PhpError> {
    (match NewDate(rt, Read(d, "createdAt"), DateTarget) case Failure(e) => Failure(e) case Success(s) => Success(JString(s.atom)))
  }

  /** What the block for `description` leaves in its field, or its error. */
  function TakeDescription(d: map<string, Json>, rt: Runtime): Result<Json, PhpError> {
    (match AsStr(Read(d, "description"), "Product::$description") case Failure(e) => Failure(e) case Success(s) => Success(JString(s)))
  }

  /** What the block for `images` leaves in its field, or its error. */
  function TakeImages(d: map<string, Json>, rt: Runtime): Result<Json, PhpError> {
    AsArray(Read(d, "images"), "Product::$images")
  }

  /** What the block for `isActive` leaves in its field, or its error. */
  function TakeIsActive(d: map<string, Json>, rt: Runtime): Result<Json, PhpError> {
    (match AsBool(Read(d, "isActive"), "Product::$isActive") case Failure(e) => Failure(e) case Success(s) => Success(JBool(s)))
  }

  /** What the block for `isShippable` leaves in its field, or its error. */
  function TakeIsShippable(d: map<string, Json>, rt: Runtime): Result<Json, PhpError> {
    (match AsBool(Read(d, "isShippable"), "Product::$isShippable") case Failure(e) => Failure(e) case Success(s) => Success(JBool(s)))
  }

  /** What the block for `name` leaves in its field, or its error. */
  function TakeName(d: map<string, Json>, rt: Runtime): Result<Json, PhpError> {
    (match AsStr(Read(d, "name"), "Product::$name") case Failure(e) => Failure(e) case Success(s) => Success(JString(s)))
  }

  /** What the block for `packageDimensions` leaves in its field, or its error. */
  function TakePackageDimensions(d: map<string, Json>, rt: Runtime): Result<Json, PhpError> {
    Failure(DimensionsNewError)
  }

  /** What the block for `mode` leaves in its field, or its error. */
  function TakeMode(d: map<string, Json>, rt: Runtime): Result<Json, PhpError> {
    (match AsStr(Read(d, "mode"), "Product::$mode") case Failure(e) => Failure(e) case Success(s) => Success(JString(s)))
  }

  /** What the block for `updatedAt` leaves in its field, or its error. */
  function TakeUpdatedAt(d: map<string, Json>, rt: Runtime): Result<Json, PhpError> {
    (match NewDate(rt, Read(d, "updatedAt"), DateTarget) case Failure(e) => Failure(e) case Success(s) => Success(JString(s.atom)))
  }

  /** A key `setData` acts on and stops at. */
  predicate Refused(d: map<string, Json>, x: Field, rt: Runtime) {
    Reads(d, x) && Take(x, d, rt).Failure?
  }

  /** The block of `setData` for `id`, once the key is set. */
  function StoreId(f: ProductFields, d: map<string, Json>, rt: Runtime): Update<ProductFields> {
    (match AsStr(Read(d, "id"), "Product::$id")
      case Failure(e) => Stopped(f, e)
      case Success(s) => Updated(f.(id := Some(s))))
  }

  /** The block of `setData` for `createdAt`, once the key is set. */
  function StoreCreatedAt(f: ProductFields, d: map<string, Json>, rt: Runtime): Update<ProductFields> {
    (match NewDate(rt, Read(d, "createdAt"), DateTarget)
      case Failure(e) => Stopped(f, e)
      case Success(s) => Updated(f.(createdAt := Some(s))))
  }

  /** The block of `setData` for `description`, once the key is set. */
  function StoreDescription(f: ProductFields, d: map<string, Json>, rt: Runtime): Update<ProductFields> {
    (match AsStr(Read(d, "description"), "Product::$description")
      case Failure(e) => Stopped(f, e)
      case Success(s) => Updated(f.(description := Some(s))))
  }

  /** The block of `setData` for `images`, once the key is set. */
  function StoreImages(f: ProductFields, d: map<string, Json>, rt: Runtime): Update<ProductFields> {
    (match AsArray(Read(d, "images"), "Product::$images")
      case Failure(e) => Stopped(f, e)
      case Success(s) => Updated(f.(images := s)))
  }

  /** The block of `setData` for `isActive`, once the key is set. */
  function StoreIsActive(f: ProductFields, d: map<string, Json>, rt: Runtime): Update<ProductFields> {
    (match AsBool(Read(d, "isActive"), "Product::$isActive")
      case Failure(e) => Stopped(f, e)
      case Success(s) => Updated(f.(isActive := s)))
  }

  /** The block of `setData` for `isShippable`, once the key is set. */
  function StoreIsShippable(f: ProductFields, d: map<string, Json>, rt: Runtime): Update<ProductFields> {
    (match AsBool(Read(d, "isShippable"), "Product::$isShippable")
      case Failure(e) => Stopped(f, e)
      case Success(s) => Updated(f.(isShippable := s)))
  }

  /** The block of `setData` for `name`, once the key is set. */
  function StoreName(f: ProductFields, d: map<string, Json>, rt: Runtime): Update<ProductFields> {
    (match AsStr(Read(d, "name"), "Product::$name")
      case Failure(e) => Stopped(f, e)
      case Success(s) => Updated(f.(name := s)))
  }

  /** The block of `setData` for `packageDimensions`, once the key is set. */
  function StorePackageDimensions(f: ProductFields, d: map<string, Json>, rt: Runtime): Update<ProductFields> {
    Stopped(f, DimensionsNewError)
  }

  /** The block of `setData` for `mode`, once the key is set. */
  function StoreMode(f: ProductFields, d: map<string, Json>, rt: Runtime): Update<ProductFields> {
    (match AsStr(Read(d, "mode"), "Product::$mode")
      case Failure(e) => Stopped(f, e)
      case Success(s) => Updated(f.(mode := s)))
  }

  /** The block of `setData` for `updatedAt`, once the key is set. */
  function StoreUpdatedAt(f: ProductFields, d: map<string, Json>, rt: Runtime): Update<ProductFields> {
    (match NewDate(rt, Read(d, "updatedAt"), DateTarget)
      case Failure(e) => Stopped(f, e)
      case Success(s) => Updated(f.(updatedAt := Some(s))))
  }

  /** One `if (isset($data[key])) { ... }` block of `setData`. */
  function Step(f: ProductFields, d: map<string, Json>, x: Field, rt: Runtime): Update<ProductFields> {
    if !Reads(d, x) then Updated(f)
    else match x
      case Id => StoreId(f, d, rt)
      case CreatedAt => StoreCreatedAt(f, d, rt)
      case Description => StoreDescription(f, d, rt)
      case Images => StoreImages(f, d, rt)
      case IsActive => StoreIsActive(f, d, rt)
      case IsShippable => StoreIsShippable(f, d, rt)
      case Name => StoreName(f, d, rt)
      case PackageDimensions => StorePackageDimensions(f, d, rt)
      case Mode => StoreMode(f, d, rt)
      case UpdatedAt => StoreUpdatedAt(f, d, rt)
  }

  /** The block for `id` stores what `Take` says or stops with its
      error, and touches no other field. */
  lemma StoreIdFacts(f: ProductFields, d: map<string, Json>, rt: Runtime)
    ensures StoreId(f, d, rt).Updated? ==> TakeId(d, rt) == Success(OptStr(StoreId(f, d, rt).fields.id))
    ensures StoreId(f, d, rt).Stopped? ==> TakeId(d, rt) == Failure(StoreId(f, d, rt).error)
    ensures StoreId(f, d, rt).Stopped? ==> StoreId(f, d, rt).fields == f
    ensures StoreId(f, d, rt).fields == f.(id := StoreId(f, d, rt).fields.id)
  {
  }

  /** The block for `createdAt` stores what `Take` says or stops with its
      error, and touches no other field. */
  lemma StoreCreatedAtFacts(f: ProductFields, d: map<string, Json>, rt: Runtime)
    ensures StoreCreatedAt(f, d, rt).Updated? ==> TakeCreatedAt(d, rt) == Success(OptDate(StoreCreatedAt(f, d, rt).fields.createdAt))
    ensures StoreCreatedAt(f, d, rt).Stopped? ==> TakeCreatedAt(d, rt) == Failure(StoreCreatedAt(f, d, rt).error)
    ensures StoreCreatedAt(f, d, rt).Stopped? ==> StoreCreatedAt(f, d, rt).fields == f
    ensures StoreCreatedAt(f, d, rt).fields == f.(createdAt := StoreCreatedAt(f, d, rt).fields.createdAt)
  {
  }

  /** The block for `description` stores what `Take` says or stops with its
      error, and touches no other field. */
  lemma StoreDescriptionFacts(f: ProductFields, d: map<string, Json>, rt: Runtime)
    ensures StoreDescription(f, d, rt).Updated? ==> TakeDescription(d, rt) == Success(OptStr(StoreDescription(f, d, rt).fields.description))
    ensures StoreDescription(f, d, rt).Stopped? ==> TakeDescription(d, rt) == Failure(StoreDescription(f, d, rt).error)
    ensures StoreDescription(f, d, rt).Stopped? ==> StoreDescription(f, d, rt).fields == f
    ensures StoreDescription(f, d, rt).fields == f.(description := StoreDescription(f, d, rt).fields.description)
  {
  }

  /** The block for `images` stores what `Take` says or stops with its
      error, and touches no other field. */
  lemma StoreImagesFacts(f: ProductFields, d: map<string, Json>, rt: Runtime)
    ensures StoreImages(f, d, rt).Updated? ==> TakeImages(d, rt) == Success(StoreImages(f, d, rt).fields.images)
    ensures StoreImages(f, d, rt).Stopped? ==> TakeImages(d, rt) == Failure(StoreImages(f, d, rt).error)
    ensures StoreImages(f, d, rt).Stopped? ==> StoreImages(f, d, rt).fields == f
    ensures StoreImages(f, d, rt).fields == f.(images := StoreImages(f, d, rt).fields.images)
  {
  }

  /** The block for `isActive` stores what `Take` says or stops with its
      error, and touches no other field. */
  lemma StoreIsActiveFacts(f: ProductFields, d: map<string, Json>, rt: Runtime)
    ensures StoreIsActive(f, d, rt).Updated? ==> TakeIsActive(d, rt) == Success(JBool(StoreIsActive(f, d, rt).fields.isActive))
    ensures StoreIsActive(f, d, rt).Stopped? ==> TakeIsActive(d, rt) == Failure(StoreIsActive(f, d, rt).error)
    ensures StoreIsActive(f, d, rt).Stopped? ==> StoreIsActive(f, d, rt).fields == f
    ensures StoreIsActive(f, d, rt).fields == f.(isActive := StoreIsActive(f, d, rt).fields.isActive)
  {
  }

  /** The block for `isShippable` stores what `Take` says or stops with its
      error, and touches no other field. */
  lemma StoreIsShippableFacts(f: ProductFields, d: map<string, Json>, rt: Runtime)
    ensures StoreIsShippable(f, d, rt).Updated? ==> TakeIsShippable(d, rt) == Success(JBool(StoreIsShippable(f, d, rt).fields.isShippable))
    ensures StoreIsShippable(f, d, rt).Stopped? ==> TakeIsShippable(d, rt) == Failure(StoreIsShippable(f, d, rt).error)
    ensures StoreIsShippable(f, d, rt).Stopped? ==> StoreIsShippable(f, d, rt).fields == f
    ensures StoreIsShippable(f, d, rt).fields == f.(isShippable := StoreIsShippable(f, d, rt).fields.isShippable)
  {
  }

  /** The block for `name` stores what `Take` says or stops with its
      error, and touches no other field. */
  lemma StoreNameFacts(f: ProductFields, d: map<string, Json>, rt: Runtime)
    ensures StoreName(f, d, rt).Updated? ==> TakeName(d, rt) == Success(JString(StoreName(f, d, rt).fields.name))
    ensures StoreName(f, d, rt).Stopped? ==> TakeName(d, rt) == Failure(StoreName(f, d, rt).error)
    ensures StoreName(f, d, rt).Stopped? ==> StoreName(f, d, rt).fields == f
    ensures StoreName(f, d, rt).fields == f.(name := StoreName(f, d, rt).fields.name)
  {
  }

  /** The block for `packageDimensions` stores what `Take` says or stops with its
      error, and touches no other field. */
  lemma StorePackageDimensionsFacts(f: ProductFields, d: map<string, Json>, rt: Runtime)
    ensures StorePackageDimensions(f, d, rt).Updated? ==> TakePackageDimensions(d, rt) == Success((match StorePackageDimensions(f, d, rt).fields.packageDimensions case None => JNull case Some(m) => JObject(m)))
    ensures StorePackageDimensions(f, d, rt).Stopped? ==> TakePackageDimensions(d, rt) == Failure(StorePackageDimensions(f, d, rt).error)
    ensures StorePackageDimensions(f, d, rt).Stopped? ==> StorePackageDimensions(f, d, rt).fields == f
    ensures StorePackageDimensions(f, d, rt).fields == f.(packageDimensions := StorePackageDimensions(f, d, rt).fields.packageDimensions)
  {
  }

  /** The block for `mode` stores what `Take` says or stops with its
      error, and touches no other field. */
  lemma StoreModeFacts(f: ProductFields, d: map<string, Json>, rt: Runtime)
    ensures StoreMode(f, d, rt).Updated? ==> TakeMode(d, rt) == Success(JString(StoreMode(f, d, rt).fields.mode))
    ensures StoreMode(f, d, rt).Stopped? ==> TakeMode(d, rt) == Failure(StoreMode(f, d, rt).error)
    ensures StoreMode(f, d, rt).Stopped? ==> StoreMode(f, d, rt).fields == f
    ensures StoreMode(f, d, rt).fields == f.(mode := StoreMode(f, d, rt).fields.mode)
  {
  }

  /** The block for `updatedAt` stores what `Take` says or stops with its
      error, and touches no other field. */
  lemma StoreUpdatedAtFacts(f: ProductFields, d: map<string, Json>, rt: Runtime)
    ensures StoreUpdatedAt(f, d, rt).Updated? ==> TakeUpdatedAt(d, rt) == Success(OptDate(StoreUpdatedAt(f, d, rt).fields.updatedAt))
    ensures StoreUpdatedAt(f, d, rt).Stopped? ==> TakeUpdatedAt(d, rt) == Failure(StoreUpdatedAt(f, d, rt).error)
    ensures StoreUpdatedAt(f, d, rt).Stopped? ==> StoreUpdatedAt(f, d, rt).fields == f
    ensures StoreUpdatedAt(f, d, rt).fields == f.(updatedAt := StoreUpdatedAt(f, d, rt).fields.updatedAt)
  {
  }

  /** What one block does: nothing unless it acts on its key; then it
      stores what `Take` says or stops with its error, and it never
      touches another field. */
  lemma StepFacts(f: ProductFields, d: map<string, Json>, x: Field, rt: Runtime)
    ensures !Reads(d, x) ==> Step(f, d, x, rt) == Updated(f)
    ensures Reads(d, x) && Step(f, d, x, rt).Updated? ==> Take(x, d, rt) == Success(Step(f, d, x, rt).fields.Get(x))
    ensures Reads(d, x) && Step(f, d, x, rt).Stopped? ==> Take(x, d, rt) == Failure(Step(f, d, x, rt).error)
    ensures Step(f, d, x, rt).Stopped? ==> Step(f, d, x, rt).fields == f
    ensures forall y: Field :: y != x ==> Same(Step(f, d, x, rt).fields, f, y)
  {
    match x
    case Id => StoreIdFacts(f, d, rt);
    case CreatedAt => StoreCreatedAtFacts(f, d, rt);
    case Description => StoreDescriptionFacts(f, d, rt);
    case Images => StoreImagesFacts(f, d, rt);
    case IsActive => StoreIsActiveFacts(f, d, rt);
    case IsShippable => StoreIsShippableFacts(f, d, rt);
    case Name => StoreNameFacts(f, d, rt);
    case PackageDimensions => StorePackageDimensionsFacts(f, d, rt);
    case Mode => StoreModeFacts(f, d, rt);
    case UpdatedAt => StoreUpdatedAtFacts(f, d, rt);
  }

  /** `setData($data)` on an object in state `f`. */
  function Apply(f: ProductFields, d: map<string, Json>, rt: Runtime): Update<ProductFields> {
    Fold(Step, f, d, Order, rt)
  }

  class Product {
    var id: Option<string>
    var createdAt: Option<DateTime>
    var description: Option<string>
    var images: Json
    var isActive: bool
    var isShippable: bool
    var name: string
    var packageDimensions: Option<map<string, Json>>
    var mode: string
    var updatedAt: Option<DateTime>

    function Fields(): ProductFields
      reads this
    {
      ProductFields(id, createdAt, description, images, isActive, isShippable, name, packageDimensions, mode, updatedAt)
    }

    /** An object in state `f`; `New` is the PHP constructor. */
    constructor (f: ProductFields)
      ensures Fields() == f
    {
      id := f.id;
      createdAt := f.createdAt;
      description := f.description;
      images := f.images;
      isActive := f.isActive;
      isShippable := f.isShippable;
      name := f.name;
      packageDimensions := f.packageDimensions;
      mode := f.mode;
      updatedAt := f.updatedAt;
    }

    /** One guarded assignment of `setData`. */
    method Assign(x: Field, data: map<string, Json>, rt: Runtime) returns (r: Result<(), PhpError>)
      modifies this
      ensures Fields() == Step(old(Fields()), data, x, rt).fields
      ensures r.Failure? <==> Step(old(Fields()), data, x, rt).Stopped?
      ensures r.Failure? ==> r.error == Step(old(Fields()), data, x, rt).error
    {
      if !Reads(data, x) {
        return Success(());
      }
      match x
      case Id => r := AssignId(data, rt);
      case CreatedAt => r := AssignCreatedAt(data, rt);
      case Description => r := AssignDescription(data, rt);
      case Images => r := AssignImages(data, rt);
      case IsActive => r := AssignIsActive(data, rt);
      case IsShippable => r := AssignIsShippable(data, rt);
      case Name => r := AssignName(data, rt);
      case PackageDimensions => r := AssignPackageDimensions(data, rt);
      case Mode => r := AssignMode(data, rt);
      case UpdatedAt => r := AssignUpdatedAt(data, rt);
    }

    /** The block for `id`. */
    method AssignId(data: map<string, Json>, rt: Runtime) returns (r: Result<(), PhpError>)
      modifies this
      ensures Fields() == StoreId(old(Fields()), data, rt).fields
      ensures r.Failure? <==> StoreId(old(Fields()), data, rt).Stopped?
      ensures r.Failure? ==> r.error == StoreId(old(Fields()), data, rt).error
    {
      var s :- AsStr(Read(data, "id"), "Product::$id");
      id := Some(s);
      return Success(());
    }

    /** The block for `createdAt`. */
    method AssignCreatedAt(data: map<string, Json>, rt: Runtime) returns (r: Result<(), PhpError>)
      modifies this
      ensures Fields() == StoreCreatedAt(old(Fields()), data, rt).fields
      ensures r.Failure? <==> StoreCreatedAt(old(Fields()), data, rt).Stopped?
      ensures r.Failure? ==> r.error == StoreCreatedAt(old(Fields()), data, rt).error
    {
      var s :- NewDate(rt, Read(data, "createdAt"), DateTarget);
      createdAt := Some(s);
      return Success(());
    }

    /** The block for `description`. */
    method AssignDescription(data: map<string, Json>, rt: Runtime) returns (r: Result<(), PhpError>)
      modifies this
      ensures Fields() == StoreDescription(old(Fields()), data, rt).fields
      ensures r.Failure? <==> StoreDescription(old(Fields()), data, rt).Stopped?
      ensures r.Failure? ==> r.error == StoreDescription(old(Fields()), data, rt).error
    {
      var s :- AsStr(Read(data, "description"), "Product::$description");
      description := Some(s);
      return Success(());
    }

    /** The block for `images`. */
    method AssignImages(data: map<string, Json>, rt: Runtime) returns (r: Result<(), PhpError>)
      modifies this
      ensures Fields() == StoreImages(old(Fields()), data, rt).fields
      ensures r.Failure? <==> StoreImages(old(Fields()), data, rt).Stopped?
      ensures r.Failure? ==> r.error == StoreImages(old(Fields()), data, rt).error
    {
      var s :- AsArray(Read(data, "images"), "Product::$images");
      images := s;
      return Success(());
    }

    /** The block for `isActive`. */
    method AssignIsActive(data: map<string, Json>, rt: Runtime) returns (r: Result<(), PhpError>)
      modifies this
      ensures Fields() == StoreIsActive(old(Fields()), data, rt).fields
      ensures r.Failure? <==> StoreIsActive(old(Fields()), data, rt).Stopped?
      ensures r.Failure? ==> r.error == StoreIsActive(old(Fields()), data, rt).error
    {
      var s :- AsBool(Read(data, "isActive"), "Product::$isActive");
      isActive := s;
      return Success(());
    }

    /** The block for `isShippable`. */
    method AssignIsShippable(data: map<string, Json>, rt: Runtime) returns (r: Result<(), PhpError>)
      modifies this
      ensures Fields() == StoreIsShippable(old(Fields()), data, rt).fields
      ensures r.Failure? <==> StoreIsShippable(old(Fields()), data, rt).Stopped?
      ensures r.Failure? ==> r.error == StoreIsShippable(old(Fields()), data, rt).error
    {
      var s :- AsBool(Read(data, "isShippable"), "Product::$isShippable");
      isShippable := s;
      return Success(());
    }

    /** The block for `name`. */
    method AssignName(data: map<string, Json>, rt: Runtime) returns (r: Result<(), PhpError>)
      modifies this
      ensures Fields() == StoreName(old(Fields()), data, rt).fields
      ensures r.Failure? <==> StoreName(old(Fields()), data, rt).Stopped?
      ensures r.Failure? ==> r.error == StoreName(old(Fields()), data, rt).error
    {
      var s :- AsStr(Read(data, "name"), "Product::$name");
      name := s;
      return Success(());
    }

    /** The block for `packageDimensions`. */
    method AssignPackageDimensions(data: map<string, Json>, rt: Runtime) returns (r: Result<(), PhpError>)
      modifies this
      ensures Fields() == StorePackageDimensions(old(Fields()), data, rt).fields
      ensures r.Failure? <==> StorePackageDimensions(old(Fields()), data, rt).Stopped?
      ensures r.Failure? ==> r.error == StorePackageDimensions(old(Fields()), data, rt).error
    {
      // `new PackageDimensions()` throws before the nested `setData` runs.
      return Failure(DimensionsNewError);
      return Success(());
    }

    /** The block for `mode`. */
    method AssignMode(data: map<string, Json>, rt: Runtime) returns (r: Result<(), PhpError>)
      modifies this
      ensures Fields() == StoreMode(old(Fields()), data, rt).fields
      ensures r.Failure? <==> StoreMode(old(Fields()), data, rt).Stopped?
      ensures r.Failure? ==> r.error == StoreMode(old(Fields()), data, rt).error
    {
      var s :- AsStr(Read(data, "mode"), "Product::$mode");
      mode := s;
      return Success(());
    }

    /** The block for `updatedAt`. */
    method AssignUpdatedAt(data: map<string, Json>, rt: Runtime) returns (r: Result<(), PhpError>)
      modifies this
      ensures Fields() == StoreUpdatedAt(old(Fields()), data, rt).fields
      ensures r.Failure? <==> StoreUpdatedAt(old(Fields()), data, rt).Stopped?
      ensures r.Failure? ==> r.error == StoreUpdatedAt(old(Fields()), data, rt).error
    {
      var s :- NewDate(rt, Read(data, "updatedAt"), DateTarget);
      updatedAt := Some(s);
      return Success(());
    }

    /** The blocks for the keys of `xs`, one after the other, up to the
        first error. */
    method AssignAll(xs: seq<Field>, data: map<string, Json>, rt: Runtime) returns (r: Result<(), PhpError>)
      modifies this
      ensures Fields() == Fold(Step, old(Fields()), data, xs, rt).fields
      ensures r.Failure? <==> Fold(Step, old(Fields()), data, xs, rt).Stopped?
      ensures r.Failure? ==> r.error == Fold(Step, old(Fields()), data, xs, rt).error
      decreases |xs|
    {
      if xs == [] {
        return Success(());
      }
      r := Assign(xs[0], data, rt);
      if r.Failure? {
        return;
      }
      r := AssignAll(xs[1..], data, rt);
    }

    /** `setData($data)`: every block, in the order of the source. */
    method SetData(data: map<string, Json>, rt: Runtime) returns (r: Result<(), PhpError>)
      modifies this
      ensures Fields() == Apply(old(Fields()), data, rt).fields
      ensures r.Failure? <==> Apply(old(Fields()), data, rt).Stopped?
      ensures r.Failure? ==> r.error == Apply(old(Fields()), data, rt).error
    {
      r := AssignAll(Order, data, rt);
    }
  }

  // ---------------------------------------------------------------------------
  // Properties of setData

  lemma OrderIsComplete(x: Field)
    ensures x in Order
  {
  }

  /** A field whose key `setData` does not act on keeps its value, even
      when `setData` stops early. */
  lemma ApplyKeepsUnread(f: ProductFields, d: map<string, Json>, x: Field, rt: Runtime)
    requires !Reads(d, x)
    ensures Apply(f, d, rt).fields.Get(x) == f.Get(x)
  {
    var P := (g: ProductFields) => g.Get(x) == f.Get(x);
    StepKeepsUnread(d, x, rt, f.Get(x), P);
    FoldKeeps(Step, f, d, Order, rt, P);
  }

  /** No step changes a field whose key `setData` does not act on. */
  lemma StepKeepsUnread(d: map<string, Json>, x: Field, rt: Runtime, v: Json, P: ProductFields -> bool)
    requires !Reads(d, x)
    requires forall g :: P(g) <==> g.Get(x) == v
    ensures forall g, y :: y in Order && P(g) ==> P(Step(g, d, y, rt).fields)
  {
    forall g, y | y in Order && P(g)
      ensures P(Step(g, d, y, rt).fields)
    {
      StepFacts(g, d, y, rt);
      if y != x {
        SameGet(Step(g, d, y, rt).fields, g, x);
      }
    }
  }

  /** When `setData` completes, each field it acts on holds what `Take`
      says. */
  lemma ApplyStoresRead(f: ProductFields, d: map<string, Json>, x: Field, rt: Runtime)
    requires Reads(d, x) && Apply(f, d, rt).Updated?
    ensures Take(x, d, rt) == Success(Apply(f, d, rt).fields.Get(x))
  {
    OrderIsComplete(x);
    var P := (g: ProductFields) => Take(x, d, rt) == Success(g.Get(x));
    StepStoresRead(d, x, rt, P);
    FoldEstablishes(Step, f, d, Order, rt, x, P);
  }

  /** The step for `x` establishes what `Take` says, and the other steps
      keep it. */
  lemma StepStoresRead(d: map<string, Json>, x: Field, rt: Runtime, P: ProductFields -> bool)
    requires Reads(d, x)
    requires forall g :: P(g) <==> Take(x, d, rt) == Success(g.Get(x))
    ensures forall g :: Step(g, d, x, rt).Updated? ==> P(Step(g, d, x, rt).fields)
    ensures forall g, y :: y != x && P(g) ==> P(Step(g, d, y, rt).fields)
  {
    forall g
      ensures Step(g, d, x, rt).Updated? ==> P(Step(g, d, x, rt).fields)
    {
      StepFacts(g, d, x, rt);
    }
    forall g, y | y != x && P(g)
      ensures P(Step(g, d, y, rt).fields)
    {
      StepFacts(g, d, y, rt);
      SameGet(Step(g, d, y, rt).fields, g, x);
    }
  }

  /** `setData` stops exactly when some key it acts on is refused, and
      with the error of the first such key in its order. */
  lemma ApplyStops(f: ProductFields, d: map<string, Json>, rt: Runtime)
    ensures Apply(f, d, rt).Stopped? <==> exists x: Field :: Refused(d, x, rt)
    ensures Apply(f, d, rt).Stopped? ==>
      exists i :: 0 <= i < |Order| && Refused(d, Order[i], rt) &&
        (forall j :: 0 <= j < i ==> !Refused(d, Order[j], rt)) &&
        Apply(f, d, rt).error == Take(Order[i], d, rt).error
  {
    forall g, y: Field
      ensures Step(g, d, y, rt).Stopped? <==> Refused(d, y, rt)
      ensures Refused(d, y, rt) ==> Step(g, d, y, rt).error == Take(y, d, rt).error
    {
      StepFacts(g, d, y, rt);
    }
    FoldStops(Step, f, d, Order, rt, (y: Field) => Refused(d, y, rt), (y: Field) => Take(y, d, rt));
    if x: Field :| Refused(d, x, rt) {
      OrderIsComplete(x);
    }
  }

  /** An empty array changes nothing. */
  lemma ApplyEmpty(f: ProductFields, rt: Runtime)
    ensures Apply(f, map[], rt) == Updated(f)
  {
    FoldNoOp(Step, f, map[], Order, rt);
  }

  /** Distinct properties have distinct keys. */
  lemma KeyInjective()
    ensures forall x: Field, y: Field :: x.Key() == y.Key() ==> x == y
  {
  }

  /** `new PackageDimensions()`: its constructor stores the default null
      length in a property declared `float`, which PHP refuses. */
  const DimensionsNewError := TypeError("PackageDimensions::$length")

  /** `new Product(...)` with typed arguments: they are stored in the order
      of the constructor body, and a null reaching `isActive`,
      `isShippable` or `name` is refused there. `$images` must be an array or
      null. `new Product()` fails on `isActive`. */
  function New(name: Option<string> := None, isActive: Option<bool> := None, isShippable: Option<bool> := None,
               images: Json := JNull, description: Option<string> := None,
               packageDimensions: Option<map<string, Json>> := None, id: Option<string> := None,
               createdAt: Option<DateTime> := None, mode: string := "test",
               updatedAt: Option<DateTime> := None): (r: Result<ProductFields, PhpError>)
    ensures r.Success? <==> (images.JNull? || IsArray(images)) && isActive.Some? && isShippable.Some? && name.Some?
    ensures !images.JNull? && !IsArray(images) ==> r == Failure(TypeError("Product::__construct(): Argument #4 ($images)"))
    ensures (images.JNull? || IsArray(images)) && isActive.None? ==> r == Failure(TypeError("Product::$isActive"))
    ensures r.Success? ==>
      r.value.id == id && r.value.createdAt == createdAt && r.value.description == description &&
      r.value.images == images && r.value.isActive == isActive.value && r.value.isShippable == isShippable.value &&
      r.value.name == name.value && r.value.packageDimensions == packageDimensions && r.value.mode == mode &&
      r.value.updatedAt == updatedAt
  {
    if !images.JNull? && !IsArray(images) then Failure(TypeError("Product::__construct(): Argument #4 ($images)"))
    else if isActive.None? then Failure(TypeError("Product::$isActive"))
    else if isShippable.None? then Failure(TypeError("Product::$isShippable"))
    else if name.None? then Failure(TypeError("Product::$name"))
    else Success(ProductFields(id, createdAt, description, images, isActive.value, isShippable.value, name.value,
                               packageDimensions, mode, updatedAt))
  }

  /** `toUpdateArray()` and `toArray(true)` build the same array: their
      tests differ in form only. */
  lemma UpdateArrayIsNewArray(f: ProductFields)
    ensures f.ToUpdateArray() == f.ToNewArray()
  {
  }

  /** A set `packageDimensions` key always stops `setData`. */
  lemma DimensionsKeyStops(f: ProductFields, d: map<string, Json>, rt: Runtime)
    requires Reads(d, PackageDimensions)
    ensures Apply(f, d, rt).Stopped?
  {
    assert Refused(d, PackageDimensions, rt);
    ApplyStops(f, d, rt);
  }
}
