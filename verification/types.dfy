/** Value types shared by the simulation model. */
module Types {

  datatype Option<T> = None | Some(value: T)

  /** `unsigned int` in the game's code: 32 bits, arithmetic wraps modulo 2^32. */
  const U32_LIMIT: int := 0x1_0000_0000
  type U32 = x: int | 0 <= x < U32_LIMIT

  /** Unsigned addition as the C++ `+=` on `unsigned int` performs it. */
  function AddU32(a: U32, b: U32): (r: U32)
    ensures a + b < U32_LIMIT ==> r == a + b
    ensures U32_LIMIT <= a + b ==> r == a + b - U32_LIMIT
  {
    (a + b) % U32_LIMIT
  }

  /** `Vect<2u, double>`; doubles are modelled as exact reals. */
  datatype Vec2 = Vec2(x: real, y: real) {
    function Plus(o: Vec2): Vec2 {
      Vec2(x + o.x, y + o.y)
    }
  }

  const ZERO: Vec2 := Vec2(0.0, 0.0)

  /**
   * The elements of `s` for which `gone` is false, in their original order:
   * what `removeIf` on an entity binding and `std::remove_if` + `erase` leave behind.
   * Defined by peeling the last element so that a left-to-right loop can extend it.
   */
  function RemoveIf<T>(s: seq<T>, gone: T -> bool): (r: seq<T>)
    ensures |r| <= |s|
  {
    if s == [] then []
    else RemoveIf(s[..|s| - 1], gone) + (if gone(s[|s| - 1]) then [] else [s[|s| - 1]])
  }

  /** Unsigned addition can wrap once per step or once at the end: the result is the same. */
  lemma AddU32Fold(a: nat, b: nat)
    ensures (a % U32_LIMIT + b) % U32_LIMIT == (a + b) % U32_LIMIT
  {
    var q := a / U32_LIMIT;
    assert a == q * U32_LIMIT + a % U32_LIMIT;
  }

  /** Concatenation is associative; stated once so that element types with costly equality need not be compared. */
  lemma AppendAssoc<T>(a: seq<T>, b: seq<T>, c: seq<T>)
    ensures a + b + c == a + (b + c)
  {
  }

  /** Appending one element extends the survivors by that element if it stays. */
  lemma RemoveIfSnoc<T>(s: seq<T>, x: T, gone: T -> bool)
    ensures RemoveIf(s + [x], gone) == RemoveIf(s, gone) + (if gone(x) then [] else [x])
  {
    assert (s + [x])[..|s|] == s;
  }

  /** The survivors are exactly the elements that are not gone. */
  lemma {:induction false} RemoveIfMembers<T>(s: seq<T>, gone: T -> bool)
    ensures forall x :: x in RemoveIf(s, gone) <==> x in s && !gone(x)
    decreases |s|
  {
    if s != [] {
      var pre := s[..|s| - 1];
      RemoveIfMembers(pre, gone);
      assert s == pre + [s[|s| - 1]];
    }
  }

  /** Removal distributes over concatenation: survivors keep their relative order. */
  lemma {:induction false} RemoveIfAppend<T>(a: seq<T>, b: seq<T>, gone: T -> bool)
    ensures RemoveIf(a + b, gone) == RemoveIf(a, gone) + RemoveIf(b, gone)
    decreases |b|
  {
    if b == [] {
      assert a + b == a;
    } else {
      var b' := b[..|b| - 1];
      assert (a + b)[..|a + b| - 1] == a + b';
      assert (a + b)[|a + b| - 1] == b[|b| - 1];
      RemoveIfAppend(a, b', gone);
    }
  }

  /** Removing twice with the same predicate removes nothing more. */
  lemma {:induction false} RemoveIfIdempotent<T>(s: seq<T>, gone: T -> bool)
    ensures RemoveIf(RemoveIf(s, gone), gone) == RemoveIf(s, gone)
    decreases |s|
  {
    if s != [] {
      var p := s[..|s| - 1];
      var last := s[|s| - 1];
      RemoveIfIdempotent(p, gone);
      var tail := if gone(last) then [] else [last];
      RemoveIfAppend(RemoveIf(p, gone), tail, gone);
      if !gone(last) {
        assert [last][..0] == [];
        assert RemoveIf([last], gone) == RemoveIf([last][..0], gone) + [last];
      }
    }
  }

  /** Nothing is removed when nothing is gone. */
  lemma {:induction false} RemoveIfKeepsAll<T>(s: seq<T>, gone: T -> bool)
    requires forall i :: 0 <= i < |s| ==> !gone(s[i])
    ensures RemoveIf(s, gone) == s
    decreases |s|
  {
    if s != [] {
      RemoveIfKeepsAll(s[..|s| - 1], gone);
    }
  }

  /** Everything is removed when everything is gone. */
  lemma {:induction false} RemoveIfDropsAll<T>(s: seq<T>, gone: T -> bool)
    requires forall i :: 0 <= i < |s| ==> gone(s[i])
    ensures RemoveIf(s, gone) == []
    decreases |s|
  {
    if s != [] {
      RemoveIfDropsAll(s[..|s| - 1], gone);
    }
  }
}
