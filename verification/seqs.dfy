/** Generic sequence vocabulary shared by every other module: an optional
    value, duplicate-freedom, membership filters, a first-occurrence
    deduplication used as the reference meaning of "a list treated as a set",
    and the small string helpers the reducer needs to build its messages. */
module Seqs {

  /** An optional value; stands for a JavaScript field that may be absent. */
  datatype Option<+T> = None | Some(value: T) {

    /** The wrapped value, or `default` when absent (the `??` operator). */
    function GetOr(default: T): T {
      match this
      case Some(v) => v
      case None => default
    }
  }

  /** The larger of two integers (`Math.max`). */
  function Max(a: int, b: int): (r: int)
    ensures r >= a && r >= b && (r == a || r == b)
  {
    if a >= b then a else b
  }

  /** No element occurs twice. */
  predicate NoDup<T(==,!new)>(s: seq<T>) {
    forall i, j :: 0 <= i < j < |s| ==> s[i] != s[j]
  }

  /** The elements of `xs` that do not occur in `ys`, in their order in `xs`. */
  function Without<T(==,!new)>(xs: seq<T>, ys: seq<T>): (r: seq<T>)
    ensures forall x :: x in r <==> x in xs && x !in ys
    ensures |r| <= |xs|
  {
    if xs == [] then []
    else (if xs[0] in ys then [] else [xs[0]]) + Without(xs[1..], ys)
  }

  /** The elements of `xs` that occur in `ys`, in their order in `xs`. */
  function Keep<T(==,!new)>(xs: seq<T>, ys: seq<T>): (r: seq<T>)
    ensures forall x :: x in r <==> x in xs && x in ys
    ensures |r| <= |xs|
  {
    if xs == [] then []
    else (if xs[0] in ys then [xs[0]] else []) + Keep(xs[1..], ys)
  }

  /** Reference deduplication: keep the first occurrence of every element
      and drop the later ones. */
  function Dedup<T(==,!new)>(xs: seq<T>): (r: seq<T>)
    ensures NoDup(r)
    ensures forall x :: x in r <==> x in xs
    decreases |xs|
  {
    if xs == [] then []
    else
      var rest := Dedup(Without(xs[1..], [xs[0]]));
      NoDupCons(xs[0], rest);
      [xs[0]] + rest
  }

  /** `xs` with its first occurrence of `x` deleted (`indexOf` + `splice`). */
  function RemoveFirst<T(==,!new)>(xs: seq<T>, x: T): (r: seq<T>)
    ensures x !in xs ==> r == xs
    ensures x in xs ==> |r| == |xs| - 1
    ensures forall y :: y in r ==> y in xs
    ensures forall y :: y != x ==> (y in r <==> y in xs)
    ensures NoDup(xs) ==> NoDup(r) && x !in r
  {
    if xs == [] then []
    else
      assert xs == [xs[0]] + xs[1..];
      NoDupTail(xs);
      if xs[0] == x then xs[1..]
      else
        var rest := RemoveFirst(xs[1..], x);
        NoDupCons(xs[0], rest);
        [xs[0]] + rest
  }

  /** The position of the first occurrence of `x`, or -1 (`indexOf`). */
  function IndexOf<T(==)>(xs: seq<T>, x: T): (i: int)
    ensures -1 <= i < |xs|
    ensures i == -1 <==> x !in xs
    ensures 0 <= i ==> xs[i] == x && x !in xs[..i]
  {
    if xs == [] then -1
    else if xs[0] == x then 0
    else
      var j := IndexOf(xs[1..], x);
      assert j >= 0 ==> xs[..j + 1] == [xs[0]] + xs[1..][..j];
      if j == -1 then -1 else j + 1
  }

  /** `RemoveFirst` splices out exactly the first occurrence of `x`: the
      elements before it and after it are kept in order. */
  lemma {:induction false} RemoveFirstSplice<T(!new)>(xs: seq<T>, x: T)
    requires x in xs
    ensures RemoveFirst(xs, x) == xs[..IndexOf(xs, x)] + xs[IndexOf(xs, x) + 1..]
  {
    if xs[0] == x {
      assert xs[..0] + xs[1..] == xs[1..];
    } else {
      assert x in xs[1..];
      RemoveFirstSplice(xs[1..], x);
      SpliceStep(xs, x, IndexOf(xs[1..], x));
    }
  }

  /** One step of the induction above: a head that is not `x` stays in
      front of the splice. */
  lemma SpliceStep<T(!new)>(xs: seq<T>, x: T, i: int)
    requires xs != [] && xs[0] != x && 0 <= i && i + 1 < |xs|
    requires RemoveFirst(xs[1..], x) == xs[1..][..i] + xs[1..][i + 1..]
    ensures RemoveFirst(xs, x) == xs[..i + 1] + xs[i + 2..]
  {
    var tl := xs[1..];
    assert RemoveFirst(xs, x) == [xs[0]] + (tl[..i] + tl[i + 1..]);
    TailSlices(xs, i);
    assert [xs[0]] + (tl[..i] + tl[i + 1..]) == ([xs[0]] + tl[..i]) + tl[i + 1..];
  }

  lemma TailSlices<T>(xs: seq<T>, i: int)
    requires 0 <= i && i + 1 < |xs|
    ensures xs[..i + 1] == [xs[0]] + xs[1..][..i]
    ensures xs[i + 2..] == xs[1..][i + 1..]
  {
  }

  /** `RemoveFirst` takes away exactly one occurrence of `x`, if there is
      one. */
  lemma {:induction false} RemoveFirstCount<T(!new)>(xs: seq<T>, x: T)
    ensures multiset(RemoveFirst(xs, x)) == multiset(xs) - multiset{x}
  {
    if xs != [] {
      assert xs == [xs[0]] + xs[1..];
      if xs[0] != x {
        RemoveFirstCount(xs[1..], x);
      }
    }
  }

  lemma NoDupCons<T(!new)>(x: T, s: seq<T>)
    ensures NoDup([x] + s) <==> x !in s && NoDup(s)
  {
    var c := [x] + s;
    if NoDup(c) {
      assert forall i, j :: 0 <= i < j < |s| ==> s[i] == c[i + 1] && s[j] == c[j + 1];
      assert forall k :: 0 <= k < |s| ==> s[k] == c[k + 1] && c[0] != c[k + 1];
    }
  }

  lemma NoDupTail<T(!new)>(s: seq<T>)
    requires s != []
    ensures NoDup(s) <==> s[0] !in s[1..] && NoDup(s[1..])
  {
    NoDupCons(s[0], s[1..]);
    assert s == [s[0]] + s[1..];
  }

  lemma NoDupSnoc<T(!new)>(s: seq<T>, x: T)
    ensures NoDup(s + [x]) <==> x !in s && NoDup(s)
  {
    var c := s + [x];
    if NoDup(c) {
      assert forall i, j :: 0 <= i < j < |s| ==> s[i] == c[i] && s[j] == c[j];
      assert forall k :: 0 <= k < |s| ==> s[k] == c[k] && c[k] != c[|s|];
    }
  }

  lemma WithoutFreshHead<T(!new)>(xs: seq<T>, ys: seq<T>)
    requires xs != [] && xs[0] !in ys
    ensures Without(xs, ys) == [xs[0]] + Without(xs[1..], ys)
  {
  }

  lemma DedupUnfold<T(!new)>(xs: seq<T>)
    requires xs != []
    ensures Dedup(xs) == [xs[0]] + Dedup(Without(xs[1..], [xs[0]]))
  {
  }

  lemma {:induction false} WithoutEmpty<T(!new)>(xs: seq<T>)
    ensures Without(xs, []) == xs
  {
    if xs != [] {
      WithoutEmpty(xs[1..]);
      assert xs == [xs[0]] + xs[1..];
    }
  }

  /** Filtering out `a` and then `b` is filtering out `a + b`. */
  lemma {:induction false} WithoutWithout<T(!new)>(xs: seq<T>, a: seq<T>, b: seq<T>)
    ensures Without(Without(xs, a), b) == Without(xs, a + b)
  {
    if xs != [] {
      var h, t := xs[0], xs[1..];
      WithoutWithout(t, a, b);
      var w := Without(t, a);
      assert (h in a + b) <==> (h in a || h in b);
      if h in a {
        assert Without(xs, a) == w;
        assert Without(xs, a + b) == Without(t, a + b);
      } else {
        assert Without(xs, a) == [h] + w;
        assert ([h] + w)[0] == h && ([h] + w)[1..] == w;
        assert Without([h] + w, b) == (if h in b then [] else [h]) + Without(w, b);
        assert Without(xs, a + b) == (if h in b then [] else [h]) + Without(t, a + b);
      }
    }
  }

  /** On a duplicate-free list, deleting the first occurrence of `x` is
      filtering `x` out. */
  lemma {:induction false} RemoveFirstOnSet<T(!new)>(xs: seq<T>, x: T)
    requires NoDup(xs)
    ensures RemoveFirst(xs, x) == Without(xs, [x])
  {
    if xs != [] {
      if xs[0] == x {
        NoDupTail(xs);
        WithoutNotIn(xs[1..], x);
      } else {
        NoDupTail(xs);
        RemoveFirstOnSet(xs[1..], x);
      }
    }
  }

  lemma {:induction false} WithoutNotIn<T(!new)>(xs: seq<T>, x: T)
    requires x !in xs
    ensures Without(xs, [x]) == xs
  {
    if xs != [] {
      WithoutNotIn(xs[1..], x);
      assert xs == [xs[0]] + xs[1..];
    }
  }

  /** `xs` joined with `sep` between consecutive elements (`Array.join`). */
  function Join(xs: seq<string>, sep: string): (r: string)
    ensures xs == [] ==> r == ""
    ensures |xs| == 1 ==> r == xs[0]
  {
    if xs == [] then ""
    else if |xs| == 1 then xs[0]
    else xs[0] + sep + Join(xs[1..], sep)
  }

  /** True of a decimal digit character. */
  predicate IsDigit(ch: char) {
    '0' <= ch <= '9'
  }

  /** Decimal rendering of a natural number, as a template string prints it. */
  function NatToString(n: nat): (r: string)
    ensures |r| >= 1
    ensures forall i :: 0 <= i < |r| ==> IsDigit(r[i])
  {
    var d := "0123456789";
    if n < 10 then [d[n]] else NatToString(n / 10) + [d[n % 10]]
  }
}
