/**
 * `setData` in every model class is a run of guarded assignments
 * `if (isset($data[key])) { $this->p = ...; }`, done in a fixed order and
 * stopped by the first exception. `Fold` is that run over any step
 * function; the lemmas carry facts about single steps to the whole run.
 *
 * Every model module instantiates it the same way, so its members repeat
 * from module to module with that class's own properties:
 * - `<Class>Fields`, the property values, with `Get(x)`, the image of
 *   property `x`, and `Field`, one constructor per property with its
 *   array `Key()`; `Order` lists them in the order of `setData`;
 * - `Step(f, d, x, rt)`, one `if (isset(...))` block, and
 *   `Apply(f, d, rt) == Fold(Step, f, d, Order, rt)`, the whole `setData`;
 * - the class with the same fields, whose `SetData` method is proved to
 *   compute `Apply`;
 * - in the larger classes, one `Store…` function per block with a
 *   `Store…Facts` lemma, gathered by `StepFacts`, and `Overwrite(f, x, g)`,
 *   `f` with only property `x` taken from `g`, which says that a block
 *   touches no other property;
 * - `ApplyKeepsUnread`, `ApplyStoresRead`, `ApplyStops`, `ApplyEmpty`
 *   (and, where the images are one-to-one, `ApplyIdempotent` and
 *   `ToArrayRoundTrip`), each derived from the `Fold` lemmas below.
 */
module Setter {
  import opened Php

  /** Runs `step` for each key of `xs` in order, stopping at the first error. */
  function Fold<T, X>(step: (T, map<string, Json>, X, Runtime) -> Update<T>, f: T, d: map<string, Json>,
                      xs: seq<X>, rt: Runtime): (r: Update<T>)
    ensures xs == [] ==> r == Updated(f)
    decreases |xs|, |d|
  {
    if xs == [] then Updated(f)
    else match step(f, d, xs[0], rt)
      case Stopped(g, e) => Stopped(g, e)
      case Updated(g) => Fold(step, g, d, xs[1..], rt)
  }

  /** A property that no step breaks holds after the run, whether it stops
      or not. */
  lemma {:induction false} FoldKeeps<T, X>(step: (T, map<string, Json>, X, Runtime) -> Update<T>, f: T,
                                          d: map<string, Json>, xs: seq<X>, rt: Runtime, P: T -> bool)
    requires P(f)
    requires forall g, x :: x in xs && P(g) ==> P(step(g, d, x, rt).fields)
    ensures P(Fold(step, f, d, xs, rt).fields)
    decreases |xs|
  {
    if xs != [] {
      match step(f, d, xs[0], rt)
      case Stopped(g, e) =>
      case Updated(g) =>
        assert forall x :: x in xs[1..] ==> x in xs;
        FoldKeeps(step, g, d, xs[1..], rt, P);
    }
  }

  /** A property that the step for `x` establishes and no other step breaks
      holds after a completed run over keys that include `x`. */
  lemma {:induction false} FoldEstablishes<T, X>(step: (T, map<string, Json>, X, Runtime) -> Update<T>, f: T,
                                                d: map<string, Json>, xs: seq<X>, rt: Runtime, x: X, P: T -> bool)
    requires x in xs
    requires forall g :: step(g, d, x, rt).Updated? ==> P(step(g, d, x, rt).fields)
    requires forall g, y :: y != x && P(g) ==> P(step(g, d, y, rt).fields)
    ensures Fold(step, f, d, xs, rt).Updated? ==> P(Fold(step, f, d, xs, rt).fields)
    decreases |xs|
  {
    assert forall y :: y in xs[1..] ==> y in xs;
    match step(f, d, xs[0], rt)
    case Stopped(g, e) =>
    case Updated(g) =>
      if x in xs[1..] {
        FoldEstablishes(step, g, d, xs[1..], rt, x, P);
      } else {
        assert xs[0] == x;
        FoldKeeps(step, g, d, xs[1..], rt, P);
      }
  }

  /** When each step stops exactly on the keys `bad` picks out, with the
      error `why` gives for them, the run stops exactly when one of its keys
      is bad, and with the error of the first one. */
  lemma {:induction false} FoldStops<T, X, U>(step: (T, map<string, Json>, X, Runtime) -> Update<T>, f: T,
                                             d: map<string, Json>, xs: seq<X>, rt: Runtime,
                                             bad: X -> bool, why: X -> Result<U, PhpError>)
    requires forall g, x :: step(g, d, x, rt).Stopped? <==> bad(x)
    requires forall x :: bad(x) ==> why(x).Failure?
    requires forall g, x :: bad(x) ==> step(g, d, x, rt).error == why(x).error
    ensures Fold(step, f, d, xs, rt).Stopped? <==> exists x :: x in xs && bad(x)
    ensures Fold(step, f, d, xs, rt).Stopped? ==>
      exists i :: 0 <= i < |xs| && bad(xs[i]) && (forall j :: 0 <= j < i ==> !bad(xs[j])) &&
                  why(xs[i]).Failure? && Fold(step, f, d, xs, rt).error == why(xs[i]).error
    decreases |xs|
  {
    if xs != [] {
      assert forall y :: y in xs[1..] ==> y in xs;
      assert forall y :: y in xs ==> y == xs[0] || y in xs[1..];
      if !bad(xs[0]) {
        var g := step(f, d, xs[0], rt).fields;
        FoldStops(step, g, d, xs[1..], rt, bad, why);
        if Fold(step, f, d, xs, rt).Stopped? {
          var i :| 0 <= i < |xs[1..]| && bad(xs[1..][i]) && (forall j :: 0 <= j < i ==> !bad(xs[1..][j])) &&
                   why(xs[1..][i]).Failure? && Fold(step, g, d, xs[1..], rt).error == why(xs[1..][i]).error;
          assert forall j :: 0 <= j < i + 1 ==> !bad(xs[j]) by {
            forall j | 0 <= j < i + 1 ensures !bad(xs[j]) {
              if j > 0 { assert xs[j] == xs[1..][j - 1]; }
            }
          }
        }
      }
    }
  }

  /** Steps that change nothing make a run that changes nothing. */
  lemma {:induction false} FoldNoOp<T, X>(step: (T, map<string, Json>, X, Runtime) -> Update<T>, f: T,
                                         d: map<string, Json>, xs: seq<X>, rt: Runtime)
    requires forall x :: x in xs ==> step(f, d, x, rt) == Updated(f)
    ensures Fold(step, f, d, xs, rt) == Updated(f)
    decreases |xs|
  {
    if xs != [] {
      assert forall x :: x in xs[1..] ==> x in xs;
      FoldNoOp(step, f, d, xs[1..], rt);
    }
  }
}
