/**
 * `ONVO\Models\PaymentMethod\Card`: brand, expiry and last four digits, and
 * a `cvv` that is null unless given and that `toArray` shows only when
 * present.
 */
module Card {
  import opened Php
  import opened Setter

  /** The state of a Card object. Only `cvv` is nullable. */
  datatype CardFields = CardFields(
    brand: string,
    expMonth: Int64,
    expYear: Int64,
    last4: string,
    cvv: Option<string>)
  {
    /** Field `x` as JSON: what `toArray` shows of it. */
    function Get(x: Field): Json {
      match x
      case Brand => JString(brand)
      case ExpMonth => JInt(expMonth)
      case ExpYear => JInt(expYear)
      case Last4 => JString(last4)
      case Cvv => OptStr(cvv)
    }

    /** `toArray()`: the four card keys always, `cvv` only when non-null. */
    function ToArray(): (m: map<string, Json>)
      ensures {"brand", "expMonth", "expYear", "last4"} <= m.Keys <= {"brand", "expMonth", "expYear", "last4", "cvv"}
      ensures "cvv" in m <==> cvv.Some?
      ensures forall x: Field :: x.Key() in m ==> m[x.Key()] == Get(x)
    {
      var data := map["brand" := JString(brand), "expMonth" := JInt(expMonth), "expYear" := JInt(expYear),
                      "last4" := JString(last4)];
      if cvv.Some? then data["cvv" := JString(cvv.value)] else data
    }
  }

  /** The keys `setData` looks at. */
  datatype Field = Brand | ExpMonth | ExpYear | Last4 | Cvv {
    function Key(): string {
      match this
      case Brand => "brand"
      case ExpMonth => "expMonth"
      case ExpYear => "expYear"
      case Last4 => "last4"
      case Cvv => "cvv"
    }
  }

  /** The order in which `setData` visits them. */
  const Order: seq<Field> := [Brand, ExpMonth, ExpYear, Last4, Cvv]

  /** `g` and `f` hold the same value in field `x`. */
  predicate Same(g: CardFields, f: CardFields, x: Field) {
    match x
    case Brand => g.brand == f.brand
    case ExpMonth => g.expMonth == f.expMonth
    case ExpYear => g.expYear == f.expYear
    case Last4 => g.last4 == f.last4
    case Cvv => g.cvv == f.cvv
  }

  lemma SameGet(g: CardFields, f: CardFields, x: Field)
    requires Same(g, f, x)
    ensures g.Get(x) == f.Get(x)
  {
  }

  /** `setData` acts on key `x` of `d`: the key is set (`isset`). */
  predicate Reads(d: map<string, Json>, x: Field) {
    IsSet(d, x.Key())
  }

  /** What `setData` leaves in field `x` when it acts on it, in `Get`'s
      terms, or the error it raises. */
  function Take(x: Field, d: map<string, Json>, rt: Runtime): Result<Json, PhpError> {
    match x
    case Brand => (match AsStr(Read(d, "brand"), "Card::$brand") case Failure(e) => Failure(e) case Success(s) => Success(JString(s)))
    case ExpMonth => (match AsInt(Read(d, "expMonth"), "Card::$expMonth") case Failure(e) => Failure(e) case Success(s) => Success(JInt(s)))
    case ExpYear => (match AsInt(Read(d, "expYear"), "Card::$expYear") case Failure(e) => Failure(e) case Success(s) => Success(JInt(s)))
    case Last4 => (match AsStr(Read(d, "last4"), "Card::$last4") case Failure(e) => Failure(e) case Success(s) => Success(JString(s)))
    case Cvv => (match AsStr(Read(d, "cvv"), "Card::$cvv") case Failure(e) => Failure(e) case Success(s) => Success(JString(s)))
  }

  /** A key `setData` acts on and stops at. */
  predicate Refused(d: map<string, Json>, x: Field, rt: Runtime) {
    Reads(d, x) && Take(x, d, rt).Failure?
  }

  /** One `if (isset($data[key])) { ... }` block of `setData`. */
  function Step(f: CardFields, d: map<string, Json>, x: Field, rt: Runtime): (r: Update<CardFields>)
    ensures !Reads(d, x) ==> r == Updated(f)
    ensures Reads(d, x) && r.Updated? ==> Take(x, d, rt) == Success(r.fields.Get(x))
    ensures Reads(d, x) && r.Stopped? ==> Take(x, d, rt) == Failure(r.error)
    ensures r.Stopped? ==> r.fields == f
    ensures forall y: Field :: y != x ==> Same(r.fields, f, y)
    ensures Reads(d, x) && Take(x, d, rt) == Success(f.Get(x)) ==> r == Updated(f)
  {
    if !Reads(d, x) then Updated(f)
    else match x
      case Brand =>
        (match AsStr(Read(d, "brand"), "Card::$brand")
          case Failure(e) => Stopped(f, e)
          case Success(s) => Updated(f.(brand := s)))
      case ExpMonth =>
        (match AsInt(Read(d, "expMonth"), "Card::$expMonth")
          case Failure(e) => Stopped(f, e)
          case Success(s) => Updated(f.(expMonth := s)))
      case ExpYear =>
        (match AsInt(Read(d, "expYear"), "Card::$expYear")
          case Failure(e) => Stopped(f, e)
          case Success(s) => Updated(f.(expYear := s)))
      case Last4 =>
        (match AsStr(Read(d, "last4"), "Card::$last4")
          case Failure(e) => Stopped(f, e)
          case Success(s) => Updated(f.(last4 := s)))
      case Cvv =>
        (match AsStr(Read(d, "cvv"), "Card::$cvv")
          case Failure(e) => Stopped(f, e)
          case Success(s) => Updated(f.(cvv := Some(s))))
  }

  /** `setData($data)` on an object in state `f`. */
  function Apply(f: CardFields, d: map<string, Json>, rt: Runtime): Update<CardFields> {
    Fold(Step, f, d, Order, rt)
  }

  class Card {
    var brand: string
    var expMonth: Int64
    var expYear: Int64
    var last4: string
    var cvv: Option<string>

    function Fields(): CardFields
      reads this
    {
      CardFields(brand, expMonth, expYear, last4, cvv)
    }

    /** An object in state `f`; `New` is the PHP constructor. */
    constructor (f: CardFields)
      ensures Fields() == f
    {
      brand := f.brand;
      expMonth := f.expMonth;
      expYear := f.expYear;
      last4 := f.last4;
      cvv := f.cvv;
    }

    /** One guarded assignment of `setData`. */
    method Assign(x: Field, data: map<string, Json>, rt: Runtime) returns (r: Result<(), PhpError>)
      modifies this
      ensures Fields() == Step(old(Fields()), data, x, rt).fields
      ensures r.Failure? <==> Step(old(Fields()), data, x, rt).Stopped?
      ensures r.Failure? ==> r.error == Step(old(Fields()), data, x, rt).error
    {
      if Reads(data, x) {
        match x
        case Brand =>
          var s :- AsStr(Read(data, "brand"), "Card::$brand");
          brand := s;
        case ExpMonth =>
          var s :- AsInt(Read(data, "expMonth"), "Card::$expMonth");
          expMonth := s;
        case ExpYear =>
          var s :- AsInt(Read(data, "expYear"), "Card::$expYear");
          expYear := s;
        case Last4 =>
          var s :- AsStr(Read(data, "last4"), "Card::$last4");
          last4 := s;
        case Cvv =>
          var s :- AsStr(Read(data, "cvv"), "Card::$cvv");
          cvv := Some(s);
      }
      return Success(());
    }

    /** The blocks for the keys of `xs`, one after the other, up to the
        first error. */
    method AssignAll(xs: seq<Field>, data: map<string, Json>, rt: Runtime) returns (r: Result<(), PhpError>)
      modifies this
      ensures Fields() == Fold(Step, old(Fields()), data, xs, rt).fields
      ensures r.Failure? <==> Fold(Step, old(Fields()), data, xs, rt).Stopped?
      ensures r.Failure? ==> r.error == Fold(Step, old(Fields()), data, xs, rt).error
      decreases |xs|
    {
      if xs == [] {
        return Success(());
      }
      r := Assign(xs[0], data, rt);
      if r.Failure? {
        return;
      }
      r := AssignAll(xs[1..], data, rt);
    }

    /** `setData($data)`: every block, in the order of the source. */
    method SetData(data: map<string, Json>, rt: Runtime) returns (r: Result<(), PhpError>)
      modifies this
      ensures Fields() == Apply(old(Fields()), data, rt).fields
      ensures r.Failure? <==> Apply(old(Fields()), data, rt).Stopped?
      ensures r.Failure? ==> r.error == Apply(old(Fields()), data, rt).error
    {
      r := AssignAll(Order, data, rt);
    }
  }

  // ---------------------------------------------------------------------------
  // Properties of setData

  lemma OrderIsComplete(x: Field)
    ensures x in Order
  {
  }

  /** A field whose key `setData` does not act on keeps its value, even
      when `setData` stops early. */
  lemma ApplyKeepsUnread(f: CardFields, d: map<string, Json>, x: Field, rt: Runtime)
    requires !Reads(d, x)
    ensures Apply(f, d, rt).fields.Get(x) == f.Get(x)
  {
    var P := (g: CardFields) => g.Get(x) == f.Get(x);
    StepKeepsUnread(d, x, rt, f.Get(x), P);
    FoldKeeps(Step, f, d, Order, rt, P);
  }

  /** No step changes a field whose key `setData` does not act on. */
  lemma StepKeepsUnread(d: map<string, Json>, x: Field, rt: Runtime, v: Json, P: CardFields -> bool)
    requires !Reads(d, x)
    requires forall g :: P(g) <==> g.Get(x) == v
    ensures forall g, y :: y in Order && P(g) ==> P(Step(g, d, y, rt).fields)
  {
    forall g, y | y in Order && P(g)
      ensures P(Step(g, d, y, rt).fields)
    {
      if y != x {
        SameGet(Step(g, d, y, rt).fields, g, x);
      }
    }
  }

  /** When `setData` completes, each field it acts on holds what `Take`
      says. */
  lemma ApplyStoresRead(f: CardFields, d: map<string, Json>, x: Field, rt: Runtime)
    requires Reads(d, x) && Apply(f, d, rt).Updated?
    ensures Take(x, d, rt) == Success(Apply(f, d, rt).fields.Get(x))
  {
    OrderIsComplete(x);
    var P := (g: CardFields) => Take(x, d, rt) == Success(g.Get(x));
    StepStoresRead(d, x, rt, P);
    FoldEstablishes(Step, f, d, Order, rt, x, P);
  }

  /** The step for `x` establishes what `Take` says, and the other steps
      keep it. */
  lemma StepStoresRead(d: map<string, Json>, x: Field, rt: Runtime, P: CardFields -> bool)
    requires Reads(d, x)
    requires forall g :: P(g) <==> Take(x, d, rt) == Success(g.Get(x))
    ensures forall g :: Step(g, d, x, rt).Updated? ==> P(Step(g, d, x, rt).fields)
    ensures forall g, y :: y != x && P(g) ==> P(Step(g, d, y, rt).fields)
  {
    forall g, y | y != x && P(g)
      ensures P(Step(g, d, y, rt).fields)
    {
      SameGet(Step(g, d, y, rt).fields, g, x);
    }
  }

  /** `setData` stops exactly when some key it acts on is refused, and
      with the error of the first such key in its order. */
  lemma ApplyStops(f: CardFields, d: map<string, Json>, rt: Runtime)
    ensures Apply(f, d, rt).Stopped? <==> exists x: Field :: Refused(d, x, rt)
    ensures Apply(f, d, rt).Stopped? ==>
      exists i :: 0 <= i < |Order| && Refused(d, Order[i], rt) &&
        (forall j :: 0 <= j < i ==> !Refused(d, Order[j], rt)) &&
        Apply(f, d, rt).error == Take(Order[i], d, rt).error
  {
    FoldStops(Step, f, d, Order, rt, (y: Field) => Refused(d, y, rt), (y: Field) => Take(y, d, rt));
    if x: Field :| Refused(d, x, rt) {
      OrderIsComplete(x);
    }
  }

  /** An empty array changes nothing. */
  lemma ApplyEmpty(f: CardFields, rt: Runtime)
    ensures Apply(f, map[], rt) == Updated(f)
  {
    FoldNoOp(Step, f, map[], Order, rt);
  }

  /** Applying the same data twice is applying it once. */
  lemma ApplyIdempotent(f: CardFields, d: map<string, Json>, rt: Runtime)
    requires Apply(f, d, rt).Updated?
    ensures Apply(Apply(f, d, rt).fields, d, rt) == Apply(f, d, rt)
  {
    var g := Apply(f, d, rt).fields;
    ApplyStops(f, d, rt);
    forall x | x in Order
      ensures Step(g, d, x, rt) == Updated(g)
    {
      if Reads(d, x) {
        ApplyStoresRead(f, d, x, rt);
      }
    }
    FoldNoOp(Step, g, d, Order, rt);
  }

  /** `new Card($brand, $expMonth, $expYear, $last4, $cvv)`: a null in one of
      the four non-nullable properties is a TypeError, reported for the first
      one assigned. The expiry has no default, so `new Card()` fails. */
  function New(brand: Option<string> := Some(""), expMonth: Option<Int64> := None, expYear: Option<Int64> := None,
               last4: Option<string> := Some(""), cvv: Option<string> := None): (r: Result<CardFields, PhpError>)
    ensures r.Success? <==> brand.Some? && expMonth.Some? && expYear.Some? && last4.Some?
    ensures brand.None? ==> r == Failure(TypeError("Card::$brand"))
    ensures brand.Some? && expMonth.None? ==> r == Failure(TypeError("Card::$expMonth"))
    ensures brand.Some? && expMonth.Some? && expYear.None? ==> r == Failure(TypeError("Card::$expYear"))
    ensures brand.Some? && expMonth.Some? && expYear.Some? && last4.None? ==> r == Failure(TypeError("Card::$last4"))
    ensures r.Success? ==> r.value.brand == brand.value && r.value.expMonth == expMonth.value &&
                           r.value.expYear == expYear.value && r.value.last4 == last4.value && r.value.cvv == cvv
  {
    if brand.None? then Failure(TypeError("Card::$brand"))
    else if expMonth.None? then Failure(TypeError("Card::$expMonth"))
    else if expYear.None? then Failure(TypeError("Card::$expYear"))
    else if last4.None? then Failure(TypeError("Card::$last4"))
    else Success(CardFields(brand.value, expMonth.value, expYear.value, last4.value, cvv))
  }

  /** `cvv` defaults to null, and a card built without it shows no `cvv`
      key; `new Card()` itself fails on the missing expiry month. */
  lemma CvvDefaultsToNull(brand: string, expMonth: Int64, expYear: Int64, last4: string)
    ensures New() == Failure(TypeError("Card::$expMonth"))
    ensures New(Some(brand), Some(expMonth), Some(expYear), Some(last4)) ==
            Success(CardFields(brand, expMonth, expYear, last4, None))
    ensures "cvv" !in CardFields(brand, expMonth, expYear, last4, None).ToArray()
  {
  }

  /** Feeding `toArray()` back to `setData` reproduces the card. */
  lemma ToArrayRoundTrip(f: CardFields, rt: Runtime)
    ensures Apply(f, f.ToArray(), rt) == Updated(f)
  {
    var d := f.ToArray();
    forall x | x in Order
      ensures Step(f, d, x, rt) == Updated(f)
    {
      if x.Key() in d {
        assert d[x.Key()] == f.Get(x);
      }
    }
    FoldNoOp(Step, f, d, Order, rt);
  }
}
