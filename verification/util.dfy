/** The generic helpers of `include/Util.hpp`. */
module Util {

  /**
   * `clamp(a, min, max)`: `min` below the range, `max` above it, `a` inside it.
   * The template is instantiated with `double` by its one caller; reals stand in for it.
   */
  function Clamp(a: real, lo: real, hi: real): (r: real)
    ensures r == a || r == lo || r == hi
    ensures lo <= hi ==> lo <= r <= hi
    ensures lo <= a <= hi ==> r == a
    ensures a < lo ==> r == lo
    ensures lo <= hi < a ==> r == hi
  {
    if a < lo then lo else if a > hi then hi else a
  }

  /** Clamping an already clamped value changes nothing. */
  lemma ClampIdempotent(a: real, lo: real, hi: real)
    requires lo <= hi
    ensures Clamp(Clamp(a, lo, hi), lo, hi) == Clamp(a, lo, hi)
  {
  }

  /** Clamping preserves the order of its inputs. */
  lemma ClampMonotone(a: real, b: real, lo: real, hi: real)
    requires lo <= hi && a <= b
    ensures Clamp(a, lo, hi) <= Clamp(b, lo, hi)
  {
  }

  /**
   * With an empty range (`min > max`) the comparisons are still made in the
   * source's order: anything below `min` gives `min`, everything else gives `max`.
   */
  lemma ClampEmptyRange(a: real, lo: real, hi: real)
    requires hi < lo
    ensures a < lo ==> Clamp(a, lo, hi) == lo
    ensures lo <= a ==> Clamp(a, lo, hi) == hi
  {
  }

  /** `makeNot(p)`: the predicate that holds exactly where `p` does not. */
  function MakeNot<T(!new)>(p: T -> bool): (q: T -> bool)
    ensures forall x :: q(x) == !p(x)
  {
    x => !p(x)
  }

  /** Negating a predicate twice gives back its original answers. */
  lemma NotNot<T(!new)>(p: T -> bool)
    ensures forall x :: MakeNot(MakeNot(p))(x) == p(x)
  {
  }

  /** `Supplier<R, Op>`: a stored nullary operation. */
  datatype Supplier<R> = Supplier(op: () -> R) {
    /** `get()` forwards to the stored operation. */
    function Get(): (r: R)
      ensures r == op()
    {
      op()
    }
  }

  /** `Function<Y, X, Op>`: a stored unary operation. */
  datatype Function<!X, Y> = Function(op: X -> Y) {
    /** `apply(x)` forwards to the stored operation. */
    function Apply(x: X): (y: Y)
      ensures y == op(x)
    {
      op(x)
    }
  }

  /** A `Supplier` that binds an argument answers what the `Function` answers at that argument. */
  lemma SupplierBindsArgument<X, Y>(f: X -> Y, x: X)
    ensures Supplier(() => f(x)).Get() == Function(f).Apply(x)
  {
  }

  /** Wrapping a negated predicate in a `Function` negates what `apply` answers. */
  lemma ApplyNot<T(!new)>(p: T -> bool, x: T)
    ensures Function(MakeNot(p)).Apply(x) == !Function(p).Apply(x)
  {
  }
}
