/**
 * The Kotlin collection operations the model relies on: `filter`,
 * `count`, `filterNotNull`, `sumOf`, and `groupBy { }.mapValues { size }`
 * (a tally of keys in first-appearance order, as a LinkedHashMap keeps them).
 */
module Seqs {
  import opened Wrappers

  /** `filter`: the elements satisfying `p`, in their original order. */
  function Filter<T(!new)>(p: T -> bool, s: seq<T>): (r: seq<T>)
    ensures |r| <= |s|
    ensures forall i :: 0 <= i < |r| ==> p(r[i])
  {
    if s == [] then [] else (if p(s[0]) then [s[0]] else []) + Filter(p, s[1..])
  }

  /** An element is kept exactly when it occurs in the input and satisfies `p`. */
  lemma {:induction false} FilterMembership<T(!new)>(p: T -> bool, s: seq<T>, x: T)
    ensures x in Filter(p, s) <==> x in s && p(x)
  {
    if s != [] {
      FilterMembership(p, s[1..], x);
      assert s == [s[0]] + s[1..];
    }
  }

  /** Filtering distributes over concatenation, so relative order is kept. */
  lemma {:induction false} FilterAppend<T(!new)>(p: T -> bool, a: seq<T>, b: seq<T>)
    ensures Filter(p, a + b) == Filter(p, a) + Filter(p, b)
  {
    if a == [] {
      assert a + b == b;
    } else {
      var ab := a + b;
      assert ab[0] == a[0];
      assert ab[1..] == a[1..] + b;
      FilterAppend(p, a[1..], b);
      var head := if p(a[0]) then [a[0]] else [];
      assert Filter(p, ab) == head + Filter(p, ab[1..]);
      assert Filter(p, a) == head + Filter(p, a[1..]);
    }
  }

  /** `count { p }`. */
  function Count<T>(p: T -> bool, s: seq<T>): nat {
    if s == [] then 0 else (if p(s[0]) then 1 else 0) + Count(p, s[1..])
  }

  /** `count { p }` is the size of `filter { p }`. */
  lemma {:induction false} CountIsFilterSize<T(!new)>(p: T -> bool, s: seq<T>)
    ensures Count(p, s) == |Filter(p, s)|
  {
    if s != [] {
      CountIsFilterSize(p, s[1..]);
    }
  }

  lemma {:induction false} CountPositive<T(!new)>(p: T -> bool, s: seq<T>)
    ensures Count(p, s) > 0 <==> exists i :: 0 <= i < |s| && p(s[i])
  {
    CountIsFilterSize(p, s);
    if Count(p, s) > 0 {
      var x := Filter(p, s)[0];
      FilterMembership(p, s, x);
      var i :| 0 <= i < |s| && s[i] == x;
    } else {
      forall i | 0 <= i < |s| ensures !p(s[i]) {
        FilterMembership(p, s, s[i]);
      }
    }
  }

  /** `filterNotNull`: the present values, in order. */
  function Present<T(!new)>(s: seq<Option<T>>): (r: seq<T>)
    ensures |r| <= |s|
    ensures forall x :: x in r <==> Some(x) in s
  {
    if s == [] then []
    else (if s[0].Some? then [s[0].value] else []) + Present(s[1..])
  }

  lemma {:induction false} PresentAppend<T(!new)>(a: seq<Option<T>>, b: seq<Option<T>>)
    ensures Present(a + b) == Present(a) + Present(b)
  {
    if a == [] {
      assert a + b == b;
    } else {
      var ab := a + b;
      assert ab[0] == a[0];
      assert ab[1..] == a[1..] + b;
      PresentAppend(a[1..], b);
      var head := if a[0].Some? then [a[0].value] else [];
      assert Present(ab) == head + Present(ab[1..]);
      assert Present(a) == head + Present(a[1..]);
    }
  }

  function Sum(s: seq<int>): int {
    if s == [] then 0 else Sum(s[..|s| - 1]) + s[|s| - 1]
  }

  lemma {:induction false} SumAppend(a: seq<int>, b: seq<int>)
    ensures Sum(a + b) == Sum(a) + Sum(b)
  {
    if b == [] {
      assert a + b == a;
    } else {
      SumAppend(a, b[..|b| - 1]);
      assert (a + b)[..|a + b| - 1] == a + b[..|b| - 1];
    }
  }

  /** Number of occurrences of `k` in `s`. */
  function Occurrences<K(==)>(s: seq<K>, k: K): nat {
    if s == [] then 0 else Occurrences(s[..|s| - 1], k) + (if s[|s| - 1] == k then 1 else 0)
  }

  /** The keys of a tally, in order. */
  function Keys<K(==)>(t: seq<(K, nat)>): (r: seq<K>)
    ensures |r| == |t|
    ensures forall i :: 0 <= i < |t| ==> r[i] == t[i].0
  {
    if t == [] then [] else [t[0].0] + Keys(t[1..])
  }

  function Counts<K(==)>(t: seq<(K, nat)>): (r: seq<int>)
    ensures |r| == |t|
    ensures forall i :: 0 <= i < |t| ==> r[i] == t[i].1
  {
    if t == [] then [] else [t[0].1 as int] + Counts(t[1..])
  }

  /** Adds one to the entry for `k`, appending `(k, 1)` when `k` is new. */
  function Bump<K(==)>(t: seq<(K, nat)>, k: K): (r: seq<(K, nat)>)
  {
    if t == [] then [(k, 1)]
    else if t[0].0 == k then [(k, t[0].1 + 1)] + t[1..]
    else [t[0]] + Bump(t[1..], k)
  }

  /** `groupBy { key }.mapValues { it.value.size }` over a list of keys. */
  function Tally<K(==)>(s: seq<K>): seq<(K, nat)> {
    if s == [] then [] else Bump(Tally(s[..|s| - 1]), s[|s| - 1])
  }

  /** The distinct elements of `s` in order of first appearance. */
  function FirstAppearances<K(==)>(s: seq<K>): seq<K> {
    if s == [] then []
    else
      var d := FirstAppearances(s[..|s| - 1]);
      if s[|s| - 1] in d then d else d + [s[|s| - 1]]
  }

  /** What a tally must be: keys in first-appearance order, each with its count. */
  ghost predicate IsTallyOf<K>(t: seq<(K, nat)>, s: seq<K>) {
    && Keys(t) == FirstAppearances(s)
    && (forall i :: 0 <= i < |t| ==> t[i].1 == Occurrences(s, t[i].0))
    && Sum(Counts(t)) == |s|
  }

  lemma {:induction false} BumpShape<K>(t: seq<(K, nat)>, k: K)
    ensures |Bump(t, k)| == if k in Keys(t) then |t| else |t| + 1
    ensures forall i :: 0 <= i < |t| ==> Bump(t, k)[i].0 == t[i].0
    ensures k !in Keys(t) ==> Bump(t, k)[|t|] == (k, 1)
  {
    if t != [] && t[0].0 != k {
      BumpShape(t[1..], k);
      assert Keys(t) == [t[0].0] + Keys(t[1..]);
    }
  }

  lemma {:induction false} BumpKeys<K>(t: seq<(K, nat)>, k: K)
    ensures Keys(Bump(t, k)) == if k in Keys(t) then Keys(t) else Keys(t) + [k]
  {
    BumpShape(t, k);
    var b := Bump(t, k);
    var expected := if k in Keys(t) then Keys(t) else Keys(t) + [k];
    assert |Keys(b)| == |expected|;
    forall i | 0 <= i < |expected| ensures Keys(b)[i] == expected[i] {
      if i < |t| {
        assert Keys(b)[i] == b[i].0 == t[i].0;
      } else {
        assert b[|t|] == (k, 1);
      }
    }
  }

  lemma {:induction false} BumpCounts<K>(t: seq<(K, nat)>, k: K)
    ensures |Bump(t, k)| >= |t|
    ensures forall i :: 0 <= i < |t| && t[i].0 != k ==> Bump(t, k)[i].1 == t[i].1
    ensures forall i :: 0 <= i < |t| && t[i].0 == k && (forall j :: 0 <= j < i ==> t[j].0 != k)
              ==> Bump(t, k)[i].1 == t[i].1 + 1
  {
    if t != [] && t[0].0 != k {
      BumpCounts(t[1..], k);
    }
  }

  lemma {:induction false} BumpSum<K>(t: seq<(K, nat)>, k: K)
    ensures Sum(Counts(Bump(t, k))) == Sum(Counts(t)) + 1
  {
    if t == [] {
      assert Counts([(k, 1)]) == [1];
      assert Sum([1]) == Sum([]) + 1;
    } else {
      SumFront(Counts(t));
      SumFront(Counts(Bump(t, k)));
      if t[0].0 == k {
        assert Counts(Bump(t, k))[1..] == Counts(t)[1..];
      } else {
        BumpSum(t[1..], k);
        assert Counts(Bump(t, k))[1..] == Counts(Bump(t[1..], k));
        assert Counts(t)[1..] == Counts(t[1..]);
      }
    }
  }

  lemma {:induction false} SumFront(s: seq<int>)
    requires s != []
    ensures Sum(s) == s[0] + Sum(s[1..])
  {
    if |s| > 1 {
      SumFront(s[..|s| - 1]);
      assert s[..|s| - 1][1..] == s[1..][..|s[1..]| - 1];
    }
  }

  ghost predicate Distinct<K>(s: seq<K>) {
    forall i, j :: 0 <= i < j < |s| ==> s[i] != s[j]
  }

  lemma {:induction false} FirstAppearancesDistinct<K>(s: seq<K>)
    ensures Distinct(FirstAppearances(s))
  {
    if s != [] {
      FirstAppearancesDistinct(s[..|s| - 1]);
    }
  }

  lemma {:induction false} FirstAppearancesMembership<K>(s: seq<K>, k: K)
    ensures k in FirstAppearances(s) <==> k in s
  {
    if s != [] {
      FirstAppearancesMembership(s[..|s| - 1], k);
      assert s == s[..|s| - 1] + [s[|s| - 1]];
    }
  }

  lemma {:induction false} OccurrencesAbsent<K>(s: seq<K>, k: K)
    requires k !in s
    ensures Occurrences(s, k) == 0
  {
    if s != [] {
      assert s[..|s| - 1] <= s;
      OccurrencesAbsent(s[..|s| - 1], k);
    }
  }

  /** One step of the tally keeps each entry's count equal to the
      number of occurrences of its key. */
  lemma {:induction false} TallyStepCounts<K>(init: seq<K>, k: K)
    requires IsTallyOf(Tally(init), init)
    ensures var t' := Tally(init + [k]);
      forall i :: 0 <= i < |t'| ==> t'[i].1 == Occurrences(init + [k], t'[i].0)
  {
    var s := init + [k];
    assert s[..|s| - 1] == init && s[|s| - 1] == k;
    var t := Tally(init);
    var t' := Tally(s);
    assert t' == Bump(t, k);
    BumpShape(t, k);
    BumpCounts(t, k);
    FirstAppearancesMembership(init, k);
    FirstAppearancesDistinct(init);
    forall i | 0 <= i < |t'|
      ensures t'[i].1 == Occurrences(s, t'[i].0)
    {
      if i == |t| {
        OccurrencesAbsent(init, k);
      } else if t[i].0 == k {
        forall j | 0 <= j < i ensures t[j].0 != k {
          assert Keys(t)[j] != Keys(t)[i];
        }
      }
    }
  }

  lemma {:induction false} TallyStepKeys<K>(init: seq<K>, k: K)
    requires Keys(Tally(init)) == FirstAppearances(init)
    ensures Keys(Tally(init + [k])) == FirstAppearances(init + [k])
  {
    var s := init + [k];
    assert s[..|s| - 1] == init && s[|s| - 1] == k;
    var t := Tally(init);
    assert Tally(s) == Bump(t, k);
    BumpKeys(t, k);
    var d := FirstAppearances(init);
    assert FirstAppearances(s) == if k in d then d else d + [k];
  }

  /** `groupBy`/`mapValues { size }` yields each distinct key once, in
      first-appearance order, with its number of occurrences; the counts
      add up to the size of the list. */
  lemma {:induction false} TallyCorrect<K>(s: seq<K>)
    ensures IsTallyOf(Tally(s), s)
  {
    if s == [] {
      assert Counts<K>([]) == [];
    } else {
      var init, k := s[..|s| - 1], s[|s| - 1];
      assert s == init + [k];
      TallyCorrect(init);
      assert Tally(s) == Bump(Tally(init), k);
      BumpSum(Tally(init), k);
      TallyStepKeys(init, k);
      TallyStepCounts(init, k);
    }
  }
}
