/**
 * Rearranging sums of multisets. The card games state conservation of cards
 * as multiset equations; these lemmas do the bookkeeping once, element by
 * element, so the game proofs only have to name the pieces.
 */
module Bags {

  /** Adding the same bag on both sides can be undone. */
  lemma Cancel<T>(x: multiset<T>, y: multiset<T>, l: multiset<T>)
    requires x + l == y + l
    ensures x == y
  {
    forall o ensures x[o] == y[o] {
      assert (x + l)[o] == (y + l)[o];
    }
  }

  /** If `x` plus all of `l + a` is `y` plus `l`, then `x` plus `a` is `y`. */
  lemma CancelLeft<T>(x: multiset<T>, y: multiset<T>, l: multiset<T>, a: multiset<T>)
    requires x + (l + a) == y + l
    ensures x + a == y
  {
    forall o ensures (x + a)[o] == y[o] {
      assert (x + (l + a))[o] == (y + l)[o];
    }
  }

  /** If `x` plus `l` is `y` plus all of `l + a`, then `x` is `y` plus `a`. */
  lemma CancelRight<T>(x: multiset<T>, y: multiset<T>, l: multiset<T>, a: multiset<T>)
    requires x + l == y + (l + a)
    ensures x == y + a
  {
    forall o ensures x[o] == (y + a)[o] {
      assert (x + l)[o] == (y + (l + a))[o];
    }
  }

  /** A common part added on the left keeps an equation. */
  lemma AddBoth<T>(h: multiset<T>, r: multiset<T>, s: multiset<T>, x: multiset<T>, y: multiset<T>)
    requires r + x == s + y
    ensures (h + r) + x == (h + s) + y
  {
    forall o ensures ((h + r) + x)[o] == ((h + s) + y)[o] {
      assert (r + x)[o] == (s + y)[o];
    }
  }

  /** Moving one bag from the end of a sum to its front. */
  lemma Rotate<T>(a: multiset<T>, b: multiset<T>)
    ensures a + b == b + a
  {
    forall o ensures (a + b)[o] == (b + a)[o] {
    }
  }

  /** Adding nothing changes nothing. */
  lemma AddEmpty<T>(x: multiset<T>)
    ensures x + multiset{} == x
  {
    forall o ensures (x + multiset{})[o] == x[o] {
    }
  }

  /** An element added in front of `l + r` sits equally well between them. */
  lemma Middle<T>(a: multiset<T>, l: multiset<T>, r: multiset<T>)
    ensures a + (l + r) == (l + a) + r
  {
    forall o ensures (a + (l + r))[o] == ((l + a) + r)[o] {
    }
  }

  /** Taking `a` out of both sides of `a + m == (l + a) + r`. */
  lemma CancelMiddle<T>(a: multiset<T>, m: multiset<T>, l: multiset<T>, r: multiset<T>)
    requires a + m == (l + a) + r
    ensures m == l + r
  {
    forall o ensures m[o] == (l + r)[o] {
      assert (a + m)[o] == ((l + a) + r)[o];
    }
  }

  /** Moving `a` from the right end of one operand to the other. */
  lemma Shift<T>(l: multiset<T>, w: multiset<T>, a: multiset<T>)
    ensures l + (w + a) == (l + a) + w
  {
    forall o ensures (l + (w + a))[o] == ((l + a) + w)[o] {
    }
  }

  /** The last two summands can trade places. */
  lemma Swap<T>(b: multiset<T>, x: multiset<T>, y: multiset<T>)
    ensures (b + x) + y == (b + y) + x
  {
    forall o ensures ((b + x) + y)[o] == ((b + y) + x)[o] {
    }
  }

  /** A common part added in the middle keeps an equation. */
  lemma AddRight<T>(r: multiset<T>, s: multiset<T>, h: multiset<T>, x: multiset<T>, y: multiset<T>)
    requires r + x == s + y
    ensures (r + h) + x == (s + h) + y
  {
    forall o ensures ((r + h) + x)[o] == ((s + h) + y)[o] {
      assert (r + x)[o] == (s + y)[o];
    }
  }

  /** Growing one of four summands grows the sum by as much. */
  lemma Grow4<T>(s: multiset<T>, w: multiset<T>, f: multiset<T>, t: multiset<T>, x: multiset<T>)
    ensures ((s + (w + x)) + f) + t == (((s + w) + f) + t) + x
    ensures ((s + w) + (f + x)) + t == (((s + w) + f) + t) + x
    ensures ((s + w) + f) + (t + x) == (((s + w) + f) + t) + x
  {
    forall o ensures (((s + (w + x)) + f) + t)[o] == ((((s + w) + f) + t) + x)[o] {
    }
    forall o ensures (((s + w) + (f + x)) + t)[o] == ((((s + w) + f) + t) + x)[o] {
    }
    forall o ensures (((s + w) + f) + (t + x))[o] == ((((s + w) + f) + t) + x)[o] {
    }
  }

  /** One element moved from the first of three summands to the second. */
  lemma MoveToSecond<T>(d: multiset<T>, e: multiset<T>, h: multiset<T>, x: multiset<T>)
    ensures (d + (e + x)) + h == ((d + x) + e) + h
  {
    forall o ensures ((d + (e + x)) + h)[o] == (((d + x) + e) + h)[o] {
    }
  }

  /** One element moved from the first of three summands to the third. */
  lemma MoveToThird<T>(d: multiset<T>, e: multiset<T>, h: multiset<T>, x: multiset<T>)
    ensures (d + e) + (h + x) == ((d + x) + e) + h
  {
    forall o ensures ((d + e) + (h + x))[o] == (((d + x) + e) + h)[o] {
    }
  }
}
