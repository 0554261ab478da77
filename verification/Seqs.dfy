/** Facts about sequences that several modules need. */
module Seqs {

  function Nth<T>(s: seq<T>, i: nat, default: T): T {
    if i < |s| then s[i] else default
  }

  function Flatten<T>(ss: seq<seq<T>>): seq<T> {
    if ss == [] then [] else ss[0] + Flatten(ss[1..])
  }

  lemma {:induction false} FlattenAppend<T>(a: seq<seq<T>>, b: seq<seq<T>>)
    ensures Flatten(a + b) == Flatten(a) + Flatten(b)
  {
    if a == [] {
      assert a + b == b;
    } else {
      assert (a + b)[0] == a[0] && (a + b)[1..] == a[1..] + b;
      FlattenAppend(a[1..], b);
      assert Flatten(a + b) == a[0] + (Flatten(a[1..]) + Flatten(b));
      assert a[0] + (Flatten(a[1..]) + Flatten(b)) == (a[0] + Flatten(a[1..])) + Flatten(b);
    }
  }

  lemma FlattenSnoc<T>(a: seq<seq<T>>, s: seq<T>)
    ensures Flatten(a + [s]) == Flatten(a) + s
  {
    FlattenAppend(a, [s]);
    assert Flatten([s]) == s + Flatten([]) == s;
  }

  lemma ConcatAssociates<T>(x: seq<T>, y: seq<T>, z: seq<T>)
    ensures (x + y) + z == x + (y + z)
  {
  }

  lemma SameLength<T>(a: seq<T>, b: seq<T>)
    ensures multiset(a) == multiset(b) ==> |a| == |b|
  {
    assert |multiset(a)| == |a| && |multiset(b)| == |b|;
  }

  /** The sum of `f` over a sequence. */
  function SumBy<T>(f: T -> real, s: seq<T>): real {
    if s == [] then 0.0 else f(s[0]) + SumBy(f, s[1..])
  }

  lemma {:induction false} SumByAppend<T>(f: T -> real, a: seq<T>, b: seq<T>)
    ensures SumBy(f, a + b) == SumBy(f, a) + SumBy(f, b)
  {
    if a == [] {
      assert a + b == b;
    } else {
      SumByAppend(f, a[1..], b);
      assert (a + b)[1..] == a[1..] + b;
    }
  }

  /** A sum does not depend on the order of its terms. */
  lemma {:induction false} SumByPermutation<T>(f: T -> real, a: seq<T>, b: seq<T>)
    requires multiset(a) == multiset(b)
    ensures SumBy(f, a) == SumBy(f, b)
  {
    if a == [] {
      assert |multiset(b)| == |b|;
    } else {
      var i := PositionIn(a, b);
      var rest := b[..i] + b[i + 1..];
      RemoveOne(a, b, i);
      SumByPermutation(f, a[1..], rest);
      assert b == b[..i] + ([b[i]] + b[i + 1..]);
      SumByAppend(f, b[..i], [b[i]] + b[i + 1..]);
      SumByAppend(f, b[..i], b[i + 1..]);
      assert ([b[i]] + b[i + 1..])[1..] == b[i + 1..];
    }
  }

  lemma PositionIn<T>(a: seq<T>, b: seq<T>) returns (i: nat)
    requires a != [] && multiset(a) == multiset(b)
    ensures i < |b| && b[i] == a[0]
  {
    assert a[0] in multiset(a);
    assert a[0] in b;
    i :| 0 <= i < |b| && b[i] == a[0];
  }

  lemma RemoveOne<T>(a: seq<T>, b: seq<T>, i: nat)
    requires a != [] && i < |b| && b[i] == a[0] && multiset(a) == multiset(b)
    ensures multiset(a[1..]) == multiset(b[..i] + b[i + 1..])
  {
    assert a == [a[0]] + a[1..];
    assert b == b[..i] + [b[i]] + b[i + 1..];
    assert multiset(a) == multiset{a[0]} + multiset(a[1..]);
    assert multiset(b) == multiset(b[..i]) + multiset{b[i]} + multiset(b[i + 1..]);
    assert multiset(b[..i] + b[i + 1..]) == multiset(b) - multiset{b[i]};
  }

  function Filter<T>(p: T -> bool, s: seq<T>): seq<T> {
    if s == [] then [] else (if p(s[0]) then [s[0]] else []) + Filter(p, s[1..])
  }

  lemma {:induction false} FilterMembers<T>(p: T -> bool, s: seq<T>)
    ensures forall x :: x in Filter(p, s) <==> x in s && p(x)
  {
    if s != [] {
      FilterMembers(p, s[1..]);
      assert s == [s[0]] + s[1..];
    }
  }

  lemma {:induction false} FilterAppend<T>(p: T -> bool, a: seq<T>, b: seq<T>)
    ensures Filter(p, a + b) == Filter(p, a) + Filter(p, b)
  {
    if a == [] {
      assert a + b == b;
    } else {
      var head := if p(a[0]) then [a[0]] else [];
      assert (a + b)[0] == a[0] && (a + b)[1..] == a[1..] + b;
      FilterAppend(p, a[1..], b);
      assert Filter(p, a + b) == head + (Filter(p, a[1..]) + Filter(p, b));
      assert head + (Filter(p, a[1..]) + Filter(p, b)) == (head + Filter(p, a[1..])) + Filter(p, b);
    }
  }

  lemma MultisetMiddle<T>(a: seq<T>, b: seq<T>, c: seq<T>)
    ensures multiset(a + (b + c)) == multiset(b) + multiset(a + c)
  {
  }

  lemma {:induction false} FilterOnly<T>(p: T -> bool, s: seq<T>, k: nat)
    requires k < |s| && forall i | 0 <= i < |s| :: p(s[i]) <==> i == k
    ensures Filter(p, s) == [s[k]]
  {
    FilterNone(p, s[..k]);
    FilterNone(p, s[k + 1..]);
    FilterAppend(p, [s[k]], s[k + 1..]);
    FilterAppend(p, s[..k], [s[k]] + s[k + 1..]);
    assert s == s[..k] + ([s[k]] + s[k + 1..]);
    assert Filter(p, [s[k]]) == [s[k]] + Filter(p, []);
  }

  lemma {:induction false} FilterNone<T>(p: T -> bool, s: seq<T>)
    requires forall i | 0 <= i < |s| :: !p(s[i])
    ensures Filter(p, s) == []
  {
    if s != [] { FilterNone(p, s[1..]); }
  }

  function FlatMap<T, U>(f: T -> seq<U>, s: seq<T>): seq<U> {
    if s == [] then [] else f(s[0]) + FlatMap(f, s[1..])
  }

  lemma {:induction false} FlatMapAppend<T, U>(f: T -> seq<U>, a: seq<T>, b: seq<T>)
    ensures FlatMap(f, a + b) == FlatMap(f, a) + FlatMap(f, b)
  {
    if a == [] {
      assert a + b == b;
    } else {
      FlatMapAppend(f, a[1..], b);
      assert (a + b)[0] == a[0] && (a + b)[1..] == a[1..] + b;
      ConcatAssociates(f(a[0]), FlatMap(f, a[1..]), FlatMap(f, b));
    }
  }

  lemma FlatMapOne<T, U>(f: T -> seq<U>, x: T)
    ensures FlatMap(f, [x]) == f(x)
  {
    assert FlatMap(f, [x]) == f(x) + FlatMap(f, []);
  }

  lemma FlatMapExcise<T, U>(f: T -> seq<U>, b: seq<T>, i: nat)
    requires i < |b|
    ensures multiset(FlatMap(f, b)) == multiset(f(b[i])) + multiset(FlatMap(f, b[..i] + b[i + 1..]))
  {
    var before, after := b[..i], b[i + 1..];
    assert b == before + ([b[i]] + after);
    FlatMapOne(f, b[i]);
    hide FlatMap;
    FlatMapAppend(f, before, [b[i]] + after);
    FlatMapAppend(f, [b[i]], after);
    FlatMapAppend(f, before, after);
    MultisetMiddle(FlatMap(f, before), f(b[i]), FlatMap(f, after));
  }

  lemma {:induction false} FlatMapPermutation<T, U>(f: T -> seq<U>, a: seq<T>, b: seq<T>)
    requires multiset(a) == multiset(b)
    ensures multiset(FlatMap(f, a)) == multiset(FlatMap(f, b))
  {
    if a == [] {
      assert |multiset(b)| == |b|;
    } else {
      var i := PositionIn(a, b);
      RemoveOne(a, b, i);
      FlatMapPermutation(f, a[1..], b[..i] + b[i + 1..]);
      FlatMapExcise(f, b, i);
      assert multiset(FlatMap(f, a)) == multiset(f(a[0])) + multiset(FlatMap(f, a[1..]));
    }
  }

  function KeepIf<T>(p: T -> bool): T -> seq<T> { x => if p(x) then [x] else [] }

  lemma {:induction false} FilterIsFlatMap<T>(p: T -> bool, s: seq<T>)
    ensures Filter(p, s) == FlatMap(KeepIf(p), s)
  {
    if s != [] { FilterIsFlatMap(p, s[1..]); }
  }

  /** A permutation of the input permutes what a filter keeps. */
  lemma FilterPermutation<T>(p: T -> bool, a: seq<T>, b: seq<T>)
    requires multiset(a) == multiset(b)
    ensures multiset(Filter(p, a)) == multiset(Filter(p, b))
  {
    FilterIsFlatMap(p, a);
    FilterIsFlatMap(p, b);
    FlatMapPermutation(KeepIf(p), a, b);
  }
}
