/** Order-preserving selection on sequences, the shape of the `for ... push` loop
    and of `Array.prototype.filter` in the handlers. */
module Seqs {

  /** The elements of `s` that satisfy `f`, in their original order, duplicates kept. */
  function Filter<T>(s: seq<T>, f: T -> bool): seq<T>
  {
    if s == [] then [] else (if f(s[0]) then [s[0]] else []) + Filter(s[1..], f)
  }

  /** `xs` is obtained from `ys` by deleting elements, without reordering. */
  predicate IsSubseq<T(==)>(xs: seq<T>, ys: seq<T>)
    decreases |ys|
  {
    xs == [] ||
    (ys != [] &&
     if xs[0] == ys[0] then IsSubseq(xs[1..], ys[1..]) else IsSubseq(xs, ys[1..]))
  }

  lemma {:induction false} FilterMembership<T>(s: seq<T>, f: T -> bool, x: T)
    ensures x in Filter(s, f) <==> x in s && f(x)
  {
    if s != [] {
      FilterMembership(s[1..], f, x);
      assert s == [s[0]] + s[1..];
    }
  }

  /** Filtering keeps every copy of a selected element and no copy of a rejected one:
      nothing is deduplicated. */
  lemma {:induction false} FilterCount<T>(s: seq<T>, f: T -> bool, x: T)
    ensures multiset(Filter(s, f))[x] == if f(x) then multiset(s)[x] else 0
  {
    if s != [] {
      FilterCount(s[1..], f, x);
      assert s == [s[0]] + s[1..];
      assert multiset(s) == multiset([s[0]]) + multiset(s[1..]);
    }
  }

  lemma {:induction false} FilterIsSubseq<T>(s: seq<T>, f: T -> bool)
    ensures IsSubseq(Filter(s, f), s)
  {
    if s != [] {
      FilterIsSubseq(s[1..], f);
      if f(s[0]) {
        assert Filter(s, f) == [s[0]] + Filter(s[1..], f);
        assert Filter(s, f)[1..] == Filter(s[1..], f);
      } else {
        assert Filter(s, f) == Filter(s[1..], f);
        SkipHead(Filter(s, f), s);
      }
    }
  }

  /** If `xs` is a subsequence of the tail of `ys`, it is a subsequence of `ys`. */
  lemma {:induction false} SkipHead<T>(xs: seq<T>, ys: seq<T>)
    requires ys != [] && IsSubseq(xs, ys[1..])
    ensures IsSubseq(xs, ys)
    decreases |ys|, 0
  {
    if xs != [] && xs[0] == ys[0] {
      SubseqTail(xs, ys[1..]);
    }
  }

  /** Dropping the first element of a subsequence leaves a subsequence. */
  lemma {:induction false} SubseqTail<T>(xs: seq<T>, ys: seq<T>)
    requires xs != [] && IsSubseq(xs, ys)
    ensures IsSubseq(xs[1..], ys)
    decreases |ys|, 1
  {
    assert ys != [];
    if xs[0] == ys[0] {
      if xs[1..] != [] {
        SkipHead(xs[1..], ys);
      }
    } else {
      SubseqTail(xs, ys[1..]);
      if xs[1..] != [] {
        SkipHead(xs[1..], ys);
      }
    }
  }

  lemma {:induction false} FilterAppend<T>(a: seq<T>, b: seq<T>, f: T -> bool)
    ensures Filter(a + b, f) == Filter(a, f) + Filter(b, f)
  {
    if a == [] {
      assert a + b == b;
    } else {
      FilterAppend(a[1..], b, f);
      var head := if f(a[0]) then [a[0]] else [];
      assert (a + b)[0] == a[0] && (a + b)[1..] == a[1..] + b;
      assert Filter(a + b, f) == head + Filter(a[1..] + b, f);
      assert Filter(a, f) == head + Filter(a[1..], f);
      assert head + (Filter(a[1..], f) + Filter(b, f)) == (head + Filter(a[1..], f)) + Filter(b, f);
    }
  }

  /** A second pass with the same predicate changes nothing. */
  lemma {:induction false} FilterIdempotent<T>(s: seq<T>, f: T -> bool)
    ensures Filter(Filter(s, f), f) == Filter(s, f)
  {
    forall x | x in Filter(s, f)
      ensures f(x)
    {
      FilterMembership(s, f, x);
    }
    FilterKeepsAll(Filter(s, f), f);
  }

  /** When every element is selected, filtering is the identity. */
  lemma {:induction false} FilterKeepsAll<T>(s: seq<T>, f: T -> bool)
    requires forall x :: x in s ==> f(x)
    ensures Filter(s, f) == s
  {
    if s != [] {
      FilterKeepsAll(s[1..], f);
      assert s == [s[0]] + s[1..];
    }
  }

  /** Two predicates that agree on the elements of `s` select the same elements. */
  lemma {:induction false} FilterCongruent<T>(s: seq<T>, f: T -> bool, g: T -> bool)
    requires forall x :: x in s ==> f(x) == g(x)
    ensures Filter(s, f) == Filter(s, g)
  {
    if s != [] {
      FilterCongruent(s[1..], f, g);
      assert s[0] in s;
    }
  }

  /** The pieces `g(x)` of the elements of `xs`, written one after another. */
  function Concat<T, U>(xs: seq<T>, g: T -> seq<U>): seq<U>
  {
    if xs == [] then [] else g(xs[0]) + Concat(xs[1..], g)
  }

  lemma {:induction false} ConcatAppend<T, U>(xs: seq<T>, ys: seq<T>, g: T -> seq<U>)
    ensures Concat(xs + ys, g) == Concat(xs, g) + Concat(ys, g)
  {
    if xs == [] {
      assert xs + ys == ys;
    } else {
      var rest := xs[1..];
      ConcatAppend(rest, ys, g);
      var first, middle, last := g(xs[0]), Concat(rest, g), Concat(ys, g);
      assert (xs + ys)[0] == xs[0] && (xs + ys)[1..] == rest + ys;
      assert Concat(xs + ys, g) == first + (middle + last);
      assert first + (middle + last) == (first + middle) + last;
    }
  }

  /** One more element adds its piece at the end. */
  lemma {:induction false} ConcatSnoc<T, U>(xs: seq<T>, k: nat, g: T -> seq<U>)
    requires k < |xs|
    ensures Concat(xs[..k + 1], g) == Concat(xs[..k], g) + g(xs[k])
  {
    assert xs[..k + 1] == xs[..k] + [xs[k]];
    ConcatAppend(xs[..k], [xs[k]], g);
    assert [xs[k]][1..] == [];
    assert Concat([xs[k]], g) == g(xs[k]) + Concat([], g);
    assert g(xs[k]) + [] == g(xs[k]);
  }

  /** The pieces of a prefix are a prefix of the pieces. */
  lemma {:induction false} ConcatPrefix<T, U>(xs: seq<T>, j: nat, k: nat, g: T -> seq<U>)
    requires j <= k <= |xs|
    ensures Concat(xs[..j], g) <= Concat(xs[..k], g)
  {
    assert xs[..k] == xs[..j] + xs[j..k];
    ConcatAppend(xs[..j], xs[j..k], g);
    var whole := Concat(xs[..k], g);
    assert whole[..|Concat(xs[..j], g)|] == Concat(xs[..j], g);
  }
}
