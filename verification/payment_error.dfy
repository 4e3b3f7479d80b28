/**
 * `ONVO\Models\PaymentError`, declared beside `PaymentIntent`: the last
 * error of a payment intent. Every property is nullable; `errorType` is the
 * property `type`.
 */
module PaymentError {
  import opened Php
  import opened Setter

  /** The state of a PaymentError object. */
  datatype PaymentErrorFields = PaymentErrorFields(
    code: Option<string>,
    message: Option<string>,
    errorType: Option<string>)
  {
    /** Field `x` as JSON: what `toArray` shows of it. */
    function Get(x: Field): Json {
      match x
      case Code => OptStr(code)
      case Message => OptStr(message)
      case Type => OptStr(errorType)
    }

    /** `toArray()`: all three keys, nulls included. */
    function ToArray(): (m: map<string, Json>)
      ensures m.Keys == {"code", "message", "type"}
      ensures forall x: Field :: m[x.Key()] == Get(x)
    {
      map["code" := OptStr(code), "message" := OptStr(message), "type" := OptStr(errorType)]
    }
  }

  /** The keys `setData` looks at. */
  datatype Field = Code | Message | Type {
    function Key(): string {
      match this
      case Code => "code"
      case Message => "message"
      case Type => "type"
    }
  }

  /** The order in which `setData` visits them. */
  const Order: seq<Field> := [Code, Message, Type]

  /** `g` and `f` hold the same value in field `x`. */
  predicate Same(g: PaymentErrorFields, f: PaymentErrorFields, x: Field) {
    match x
    case Code => g.code == f.code
    case Message => g.message == f.message
    case Type => g.errorType == f.errorType
  }

  lemma SameGet(g: PaymentErrorFields, f: PaymentErrorFields, x: Field)
    requires Same(g, f, x)
    ensures g.Get(x) == f.Get(x)
  {
  }

  /** `setData` acts on key `x` of `d`: the key is set (`isset`). */
  predicate Reads(d: map<string, Json>, x: Field) {
    IsSet(d, x.Key())
  }

  /** What `setData` leaves in field `x` when it acts on it, in `Get`'s
      terms, or the error it raises. */
  function Take(x: Field, d: map<string, Json>, rt: Runtime): Result<Json, PhpError> {
    match x
    case Code => (match AsStr(Read(d, "code"), "PaymentError::$code") case Failure(e) => Failure(e) case Success(s) => Success(JString(s)))
    case Message => (match AsStr(Read(d, "message"), "PaymentError::$message") case Failure(e) => Failure(e) case Success(s) => Success(JString(s)))
    case Type => (match AsStr(Read(d, "type"), "PaymentError::$type") case Failure(e) => Failure(e) case Success(s) => Success(JString(s)))
  }

  /** A key `setData` acts on and stops at. */
  predicate Refused(d: map<string, Json>, x: Field, rt: Runtime) {
    Reads(d, x) && Take(x, d, rt).Failure?
  }

  /** One `if (isset($data[key])) { ... }` block of `setData`. */
  function Step(f: PaymentErrorFields, d: map<string, Json>, x: Field, rt: Runtime): (r: Update<PaymentErrorFields>)
    ensures !Reads(d, x) ==> r == Updated(f)
    ensures Reads(d, x) && r.Updated? ==> Take(x, d, rt) == Success(r.fields.Get(x))
    ensures Reads(d, x) && r.Stopped? ==> Take(x, d, rt) == Failure(r.error)
    ensures r.Stopped? ==> r.fields == f
    ensures forall y: Field :: y != x ==> Same(r.fields, f, y)
    ensures Reads(d, x) && Take(x, d, rt) == Success(f.Get(x)) ==> r == Updated(f)
  {
    if !Reads(d, x) then Updated(f)
    else match x
      case Code =>
        (match AsStr(Read(d, "code"), "PaymentError::$code")
          case Failure(e) => Stopped(f, e)
          case Success(s) => Updated(f.(code := Some(s))))
      case Message =>
        (match AsStr(Read(d, "message"), "PaymentError::$message")
          case Failure(e) => Stopped(f, e)
          case Success(s) => Updated(f.(message := Some(s))))
      case Type =>
        (match AsStr(Read(d, "type"), "PaymentError::$type")
          case Failure(e) => Stopped(f, e)
          case Success(s) => Updated(f.(errorType := Some(s))))
  }

  /** `setData($data)` on an object in state `f`. */
  function Apply(f: PaymentErrorFields, d: map<string, Json>, rt: Runtime): Update<PaymentErrorFields> {
    Fold(Step, f, d, Order, rt)
  }

  class PaymentError {
    var code: Option<string>
    var message: Option<string>
    var errorType: Option<string>

    function Fields(): PaymentErrorFields
      reads this
    {
      PaymentErrorFields(code, message, errorType)
    }

    /** An object in state `f`; `New` is the PHP constructor. */
    constructor (f: PaymentErrorFields)
      ensures Fields() == f
    {
      code := f.code;
      message := f.message;
      errorType := f.errorType;
    }

    /** One guarded assignment of `setData`. */
    method Assign(x: Field, data: map<string, Json>, rt: Runtime) returns (r: Result<(), PhpError>)
      modifies this
      ensures Fields() == Step(old(Fields()), data, x, rt).fields
      ensures r.Failure? <==> Step(old(Fields()), data, x, rt).Stopped?
      ensures r.Failure? ==> r.error == Step(old(Fields()), data, x, rt).error
    {
      if Reads(data, x) {
        match x
        case Code =>
          var s :- AsStr(Read(data, "code"), "PaymentError::$code");
          code := Some(s);
        case Message =>
          var s :- AsStr(Read(data, "message"), "PaymentError::$message");
          message := Some(s);
        case Type =>
          var s :- AsStr(Read(data, "type"), "PaymentError::$type");
          errorType := Some(s);
      }
      return Success(());
    }

    /** The blocks for the keys of `xs`, one after the other, up to the
        first error. */
    method AssignAll(xs: seq<Field>, data: map<string, Json>, rt: Runtime) returns (r: Result<(), PhpError>)
      modifies this
      ensures Fields() == Fold(Step, old(Fields()), data, xs, rt).fields
      ensures r.Failure? <==> Fold(Step, old(Fields()), data, xs, rt).Stopped?
      ensures r.Failure? ==> r.error == Fold(Step, old(Fields()), data, xs, rt).error
      decreases |xs|
    {
      if xs == [] {
        return Success(());
      }
      r := Assign(xs[0], data, rt);
      if r.Failure? {
        return;
      }
      r := AssignAll(xs[1..], data, rt);
    }

    /** `setData($data)`: every block, in the order of the source. */
    method SetData(data: map<string, Json>, rt: Runtime) returns (r: Result<(), PhpError>)
      modifies this
      ensures Fields() == Apply(old(Fields()), data, rt).fields
      ensures r.Failure? <==> Apply(old(Fields()), data, rt).Stopped?
      ensures r.Failure? ==> r.error == Apply(old(Fields()), data, rt).error
    {
      r := AssignAll(Order, data, rt);
    }
  }

  // ---------------------------------------------------------------------------
  // Properties of setData

  lemma OrderIsComplete(x: Field)
    ensures x in Order
  {
  }

  /** A field whose key `setData` does not act on keeps its value, even
      when `setData` stops early. */
  lemma ApplyKeepsUnread(f: PaymentErrorFields, d: map<string, Json>, x: Field, rt: Runtime)
    requires !Reads(d, x)
    ensures Apply(f, d, rt).fields.Get(x) == f.Get(x)
  {
    var P := (g: PaymentErrorFields) => g.Get(x) == f.Get(x);
    StepKeepsUnread(d, x, rt, f.Get(x), P);
    FoldKeeps(Step, f, d, Order, rt, P);
  }

  /** No step changes a field whose key `setData` does not act on. */
  lemma StepKeepsUnread(d: map<string, Json>, x: Field, rt: Runtime, v: Json, P: PaymentErrorFields -> bool)
    requires !Reads(d, x)
    requires forall g :: P(g) <==> g.Get(x) == v
    ensures forall g, y :: y in Order && P(g) ==> P(Step(g, d, y, rt).fields)
  {
    forall g, y | y in Order && P(g)
      ensures P(Step(g, d, y, rt).fields)
    {
      if y != x {
        SameGet(Step(g, d, y, rt).fields, g, x);
      }
    }
  }

  /** When `setData` completes, each field it acts on holds what `Take`
      says. */
  lemma ApplyStoresRead(f: PaymentErrorFields, d: map<string, Json>, x: Field, rt: Runtime)
    requires Reads(d, x) && Apply(f, d, rt).Updated?
    ensures Take(x, d, rt) == Success(Apply(f, d, rt).fields.Get(x))
  {
    OrderIsComplete(x);
    var P := (g: PaymentErrorFields) => Take(x, d, rt) == Success(g.Get(x));
    StepStoresRead(d, x, rt, P);
    FoldEstablishes(Step, f, d, Order, rt, x, P);
  }

  /** The step for `x` establishes what `Take` says, and the other steps
      keep it. */
  lemma StepStoresRead(d: map<string, Json>, x: Field, rt: Runtime, P: PaymentErrorFields -> bool)
    requires Reads(d, x)
    requires forall g :: P(g) <==> Take(x, d, rt) == Success(g.Get(x))
    ensures forall g :: Step(g, d, x, rt).Updated? ==> P(Step(g, d, x, rt).fields)
    ensures forall g, y :: y != x && P(g) ==> P(Step(g, d, y, rt).fields)
  {
    forall g, y | y != x && P(g)
      ensures P(Step(g, d, y, rt).fields)
    {
      SameGet(Step(g, d, y, rt).fields, g, x);
    }
  }

  /** `setData` stops exactly when some key it acts on is refused, and
      with the error of the first such key in its order. */
  lemma ApplyStops(f: PaymentErrorFields, d: map<string, Json>, rt: Runtime)
    ensures Apply(f, d, rt).Stopped? <==> exists x: Field :: Refused(d, x, rt)
    ensures Apply(f, d, rt).Stopped? ==>
      exists i :: 0 <= i < |Order| && Refused(d, Order[i], rt) &&
        (forall j :: 0 <= j < i ==> !Refused(d, Order[j], rt)) &&
        Apply(f, d, rt).error == Take(Order[i], d, rt).error
  {
    FoldStops(Step, f, d, Order, rt, (y: Field) => Refused(d, y, rt), (y: Field) => Take(y, d, rt));
    if x: Field :| Refused(d, x, rt) {
      OrderIsComplete(x);
    }
  }

  /** An empty array changes nothing. */
  lemma ApplyEmpty(f: PaymentErrorFields, rt: Runtime)
    ensures Apply(f, map[], rt) == Updated(f)
  {
    FoldNoOp(Step, f, map[], Order, rt);
  }

  /** Applying the same data twice is applying it once. */
  lemma ApplyIdempotent(f: PaymentErrorFields, d: map<string, Json>, rt: Runtime)
    requires Apply(f, d, rt).Updated?
    ensures Apply(Apply(f, d, rt).fields, d, rt) == Apply(f, d, rt)
  {
    var g := Apply(f, d, rt).fields;
    ApplyStops(f, d, rt);
    forall x | x in Order
      ensures Step(g, d, x, rt) == Updated(g)
    {
      if Reads(d, x) {
        ApplyStoresRead(f, d, x, rt);
      }
    }
    FoldNoOp(Step, g, d, Order, rt);
  }

  /** A PaymentError as `new PaymentError()` leaves it: everything null. */
  const Blank := PaymentErrorFields(None, None, None)

  /** `(new PaymentError())->setData($v)` as an expression: `$v` must be an array;
      the fresh object is filled and then discarded, and since `setData`
      returns nothing the expression's value is null. */
  function SetDataOnNew(v: Json, rt: Runtime): (r: Result<Option<PaymentErrorFields>, PhpError>)
    ensures !IsArray(v) ==> r == Failure(TypeError("PaymentError::setData(): Argument #1 ($data)"))
    ensures IsArray(v) ==> (r.Failure? <==> exists x: Field :: Refused(Entries(v), x, rt))
    ensures r.Success? ==> r.value.None?
  {
    if !IsArray(v) then Failure(TypeError("PaymentError::setData(): Argument #1 ($data)"))
    else
      ApplyStops(Blank, Entries(v), rt);
      match Apply(Blank, Entries(v), rt)
      case Updated(_) => Success(None)
      case Stopped(_, e) => Failure(e)
  }

  /** Feeding `toArray()` back to `setData` reproduces the object: null
      properties are not set, and every other value is taken back as it is. */
  lemma ToArrayRoundTrip(f: PaymentErrorFields, rt: Runtime)
    ensures Apply(f, f.ToArray(), rt) == Updated(f)
  {
    var d := f.ToArray();
    forall x | x in Order
      ensures Step(f, d, x, rt) == Updated(f)
    {
      assert d[x.Key()] == f.Get(x);
    }
    FoldNoOp(Step, f, d, Order, rt);
  }
}
