/**
 * The array combinators the pages use (`filter`, `filter(..).length`, `find`,
 * `some`), as functions on sequences, with the facts about them that the rest
 * of the model needs.
 */
module Seqs {
  import opened Wrappers

  /** `s.filter(p)`: the elements satisfying `p`, in their original order. */
  function Filter<T(==,!new)>(s: seq<T>, p: T -> bool): (r: seq<T>)
    ensures |r| <= |s|
    ensures forall x :: x in r <==> x in s && p(x)
    ensures forall i :: 0 <= i < |r| ==> p(r[i])
  {
    if s == [] then []
    else if p(s[0]) then [s[0]] + Filter(s[1..], p)
    else Filter(s[1..], p)
  }

  /** `filter` keeps every copy of a satisfying element and no copy of any other. */
  lemma {:induction false} FilterMultiplicity<T(!new)>(s: seq<T>, p: T -> bool)
    ensures forall x :: multiset(Filter(s, p))[x] == if p(x) then multiset(s)[x] else 0
  {
    if s != [] {
      FilterMultiplicity(s[1..], p);
      assert s == [s[0]] + s[1..];
      assert multiset(s) == multiset([s[0]]) + multiset(s[1..]);
      if p(s[0]) {
        assert multiset(Filter(s, p)) == multiset([s[0]]) + multiset(Filter(s[1..], p));
      }
    }
  }

  /** `r` is `s` with some elements deleted and the rest kept in order. */
  predicate IsSubsequence<T(==)>(r: seq<T>, s: seq<T>)
    decreases |s|
  {
    r == [] || (s != [] && ((r[0] == s[0] && IsSubsequence(r[1..], s[1..])) || IsSubsequence(r, s[1..])))
  }

  lemma {:induction false} FilterIsSubsequence<T(!new)>(s: seq<T>, p: T -> bool)
    ensures IsSubsequence(Filter(s, p), s)
  {
    if s != [] {
      FilterIsSubsequence(s[1..], p);
      if p(s[0]) {
        assert Filter(s, p)[1..] == Filter(s[1..], p);
      }
    }
  }

  lemma {:induction false} SubsequenceTransitive<T>(a: seq<T>, b: seq<T>, c: seq<T>)
    requires IsSubsequence(a, b) && IsSubsequence(b, c)
    ensures IsSubsequence(a, c)
    decreases |c|
  {
    if a != [] {
      assert b != [] && c != [];
      if b[0] == c[0] && IsSubsequence(b[1..], c[1..]) {
        if a[0] == b[0] && IsSubsequence(a[1..], b[1..]) {
          SubsequenceTransitive(a[1..], b[1..], c[1..]);
        } else {
          SubsequenceTransitive(a, b[1..], c[1..]);
        }
      } else {
        SubsequenceTransitive(a, b, c[1..]);
      }
    }
  }

  lemma {:induction false} FilterTrue<T(!new)>(s: seq<T>, p: T -> bool)
    requires forall x :: x in s ==> p(x)
    ensures Filter(s, p) == s
  {
    if s != [] {
      FilterTrue(s[1..], p);
    }
  }

  /** Filters whose predicates agree on every element give the same result. */
  lemma {:induction false} FilterCongruent<T(!new)>(s: seq<T>, p: T -> bool, q: T -> bool)
    requires forall x :: x in s ==> p(x) == q(x)
    ensures Filter(s, p) == Filter(s, q)
  {
    if s != [] {
      FilterCongruent(s[1..], p, q);
    }
  }

  /** Two filters in a row are one filter by the conjunction. */
  lemma {:induction false} FilterFilter<T(!new)>(s: seq<T>, p: T -> bool, q: T -> bool)
    ensures Filter(Filter(s, p), q) == Filter(s, x => p(x) && q(x))
  {
    if s != [] {
      FilterFilter(s[1..], p, q);
      if p(s[0]) {
        assert Filter(s, p) == [s[0]] + Filter(s[1..], p);
        assert Filter(s, p)[1..] == Filter(s[1..], p);
      }
    }
  }

  /** One optional filter step: `if (on) s = s.filter(p)`. */
  function Stage<T(==,!new)>(s: seq<T>, on: bool, p: T -> bool): (r: seq<T>)
    ensures IsSubsequence(r, s)
  {
    FilterIsSubsequence(s, p);
    if on then Filter(s, p) else SubsequenceReflexive(s); s
  }

  lemma {:induction false} SubsequenceReflexive<T>(s: seq<T>)
    ensures IsSubsequence(s, s)
  {
    if s != [] {
      SubsequenceReflexive(s[1..]);
    }
  }

  /** The conjunction of the tests whose switch is on. */
  function Conj3<T>(on1: bool, p1: T -> bool, on2: bool, p2: T -> bool, on3: bool, p3: T -> bool): T -> bool {
    x => (!on1 || p1(x)) && (!on2 || p2(x)) && (!on3 || p3(x))
  }

  /** Three optional filter steps in a row are one filter by the conjunction of the active tests. */
  lemma StagesAreConjunction<T(!new)>(s: seq<T>, on1: bool, p1: T -> bool, on2: bool, p2: T -> bool, on3: bool, p3: T -> bool)
    ensures Stage(Stage(Stage(s, on1, p1), on2, p2), on3, p3) == Filter(s, Conj3(on1, p1, on2, p2, on3, p3))
  {
    var q1 := x => !on1 || p1(x);
    var q2 := x => !on2 || p2(x);
    var q3 := x => !on3 || p3(x);
    var a := Stage(s, on1, p1);
    if on1 { FilterCongruent(s, p1, q1); } else { FilterTrue(s, q1); }
    var b := Stage(a, on2, p2);
    if on2 { FilterCongruent(a, p2, q2); } else { FilterTrue(a, q2); }
    var c := Stage(b, on3, p3);
    if on3 { FilterCongruent(b, p3, q3); } else { FilterTrue(b, q3); }
    FilterFilter(s, q1, q2);
    var q12 := x => q1(x) && q2(x);
    FilterFilter(s, q12, q3);
    FilterCongruent(s, x => q12(x) && q3(x), Conj3(on1, p1, on2, p2, on3, p3));
  }

  /** `s.filter(p).length`. */
  function Count<T(==,!new)>(s: seq<T>, p: T -> bool): (n: nat)
    ensures n <= |s|
  {
    |Filter(s, p)|
  }

  /** The positions of `s` whose element satisfies `p`. */
  function Positions<T>(s: seq<T>, p: T -> bool): set<int> {
    set i | 0 <= i < |s| && p(s[i])
  }

  /** Filtering a sequence with one more element at the end. */
  lemma {:induction false} FilterSnoc<T(!new)>(s: seq<T>, x: T, p: T -> bool)
    ensures Filter(s + [x], p) == Filter(s, p) + (if p(x) then [x] else [])
  {
    var tail := if p(x) then [x] else [];
    if s == [] {
      assert [x][1..] == [];
      assert Filter([x], p) == tail;
    } else {
      var sx := s + [x];
      assert sx[0] == s[0] && sx[1..] == s[1..] + [x];
      FilterSnoc(s[1..], x, p);
      if p(s[0]) {
        calc {
          Filter(sx, p);
          [s[0]] + Filter(s[1..] + [x], p);
          [s[0]] + (Filter(s[1..], p) + tail);
          ([s[0]] + Filter(s[1..], p)) + tail;
          Filter(s, p) + tail;
        }
      } else {
        assert Filter(sx, p) == Filter(s[1..] + [x], p);
      }
    }
  }

  /** The count is the number of positions holding a matching element. */
  lemma {:induction false} CountIsPositions<T(!new)>(s: seq<T>, p: T -> bool)
    ensures Count(s, p) == |Positions(s, p)|
  {
    if s != [] {
      var init, last := s[..|s| - 1], s[|s| - 1];
      assert s == init + [last];
      CountIsPositions(init, p);
      FilterSnoc(init, last, p);
      var before := Positions(init, p);
      assert |s| - 1 !in before;
      if p(last) {
        assert Positions(s, p) == before + {|s| - 1};
      } else {
        assert Positions(s, p) == before;
      }
    }
  }

  /** Three counts by pairwise exclusive predicates add up to at most the length. */
  lemma {:induction false} CountExclusive3<T(!new)>(s: seq<T>, p: T -> bool, q: T -> bool, u: T -> bool)
    requires forall x :: !(p(x) && q(x)) && !(p(x) && u(x)) && !(q(x) && u(x))
    ensures Count(s, p) + Count(s, q) + Count(s, u) <= |s|
  {
    if s != [] {
      CountExclusive3(s[1..], p, q, u);
      assert Count(s, p) == Count(s[1..], p) + (if p(s[0]) then 1 else 0);
      assert Count(s, q) == Count(s[1..], q) + (if q(s[0]) then 1 else 0);
      assert Count(s, u) == Count(s[1..], u) + (if u(s[0]) then 1 else 0);
    }
  }

  /** `s.findIndex(p)` as an option: the position of the first element satisfying `p`. */
  function FirstIndex<T>(s: seq<T>, p: T -> bool): (r: Option<nat>)
    ensures r.Some? ==> r.value < |s| && p(s[r.value]) && forall j :: 0 <= j < r.value ==> !p(s[j])
    ensures r.None? <==> forall j :: 0 <= j < |s| ==> !p(s[j])
  {
    if s == [] then None
    else if p(s[0]) then Some(0)
    else
      var rest := FirstIndex(s[1..], p);
      if rest.Some? then Some(rest.value + 1) else None
  }

  /** `s.find(p)`: the first element satisfying `p`, if any. */
  function Find<T(==,!new)>(s: seq<T>, p: T -> bool): (r: Option<T>)
    ensures r.Some? ==> exists i :: 0 <= i < |s| && s[i] == r.value && p(s[i]) && forall j :: 0 <= j < i ==> !p(s[j])
    ensures r.None? <==> forall x :: x in s ==> !p(x)
  {
    var i := FirstIndex(s, p);
    if i.Some? then Some(s[i.value]) else None
  }
}
