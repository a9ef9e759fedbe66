/** Sequence helpers shared by the model: order-preserving filtering,
    subsequences, occurrence counting and separator joining. */
module Seqs {

  /** The elements of `s` that satisfy `keep`, in their original order
      (a Python list comprehension with an `if`). Defined from the end so
      that it matches a left-to-right loop that appends. */
  function Filter<T>(s: seq<T>, keep: T -> bool): (r: seq<T>)
    ensures |r| <= |s|
    ensures forall i :: 0 <= i < |r| ==> keep(r[i])
    ensures forall x :: x in r ==> x in s
  {
    if s == [] then []
    else Filter(s[..|s| - 1], keep) + (if keep(s[|s| - 1]) then [s[|s| - 1]] else [])
  }

  /** Python's `[f(x) for x in s]`. */
  function Map<T, U>(s: seq<T>, f: T -> U): (r: seq<U>)
    ensures |r| == |s|
    ensures forall i :: 0 <= i < |s| ==> r[i] == f(s[i])
  {
    seq(|s|, i requires 0 <= i < |s| => f(s[i]))
  }

  /** `a` is obtained from `b` by deleting elements, keeping the order. */
  predicate IsSubsequence<T(==)>(a: seq<T>, b: seq<T>)
    decreases |b|
  {
    if a == [] then true
    else if b == [] then false
    else if a[|a| - 1] == b[|b| - 1] then IsSubsequence(a[..|a| - 1], b[..|b| - 1])
    else IsSubsequence(a, b[..|b| - 1])
  }

  /** Number of occurrences of `x` in `s`. */
  function Count<T(==)>(s: seq<T>, x: T): nat
  {
    if s == [] then 0
    else Count(s[..|s| - 1], x) + (if s[|s| - 1] == x then 1 else 0)
  }

  /** Python's `sep.join(parts)`. */
  function Join<T>(parts: seq<seq<T>>, sep: seq<T>): seq<T>
  {
    if |parts| == 0 then []
    else if |parts| == 1 then parts[0]
    else Join(parts[..|parts| - 1], sep) + sep + parts[|parts| - 1]
  }

  function SumLengths<T>(parts: seq<seq<T>>): nat
  {
    if parts == [] then 0 else SumLengths(parts[..|parts| - 1]) + |parts[|parts| - 1]|
  }

  /** Filtering keeps the order: the result is a subsequence of the input. */
  lemma {:induction false} FilterIsSubsequence<T>(s: seq<T>, keep: T -> bool)
    ensures IsSubsequence(Filter(s, keep), s)
  {
    if s != [] {
      var init, last := s[..|s| - 1], s[|s| - 1];
      FilterIsSubsequence(init, keep);
      var f := Filter(init, keep);
      if keep(last) {
        assert Filter(s, keep) == f + [last];
        assert (f + [last])[..|f|] == f;
      } else {
        assert Filter(s, keep) == f;
        if f != [] {
          assert keep(f[|f| - 1]);
          assert f[|f| - 1] != last;
        }
        SubsequenceOfPrefix(f, init, last);
      }
    }
  }

  /** A subsequence of `b` is a subsequence of `b + [x]`. */
  lemma {:induction false} SubsequenceOfPrefix<T>(a: seq<T>, b: seq<T>, x: T)
    requires IsSubsequence(a, b)
    requires a != [] ==> a[|a| - 1] != x
    ensures IsSubsequence(a, b + [x])
  {
    assert (b + [x])[..|b|] == b;
  }

  /** Every element that satisfies `keep` is kept: the filter loses only what it rejects. */
  lemma {:induction false} FilterKeepsAccepted<T>(s: seq<T>, keep: T -> bool, i: int)
    requires 0 <= i < |s| && keep(s[i])
    ensures s[i] in Filter(s, keep)
  {
    var init := s[..|s| - 1];
    if i < |s| - 1 {
      assert init[i] == s[i];
      FilterKeepsAccepted(init, keep, i);
    }
  }

  /** The filter is empty exactly when no element is accepted. */
  lemma {:induction false} FilterEmptyIff<T>(s: seq<T>, keep: T -> bool)
    ensures Filter(s, keep) == [] <==> forall i :: 0 <= i < |s| ==> !keep(s[i])
  {
    if s != [] {
      var init := s[..|s| - 1];
      FilterEmptyIff(init, keep);
      assert forall i :: 0 <= i < |init| ==> init[i] == s[i];
    }
  }

  /** A filter that accepts everything returns its input unchanged. */
  lemma {:induction false} FilterAllAccepted<T>(s: seq<T>, keep: T -> bool)
    requires forall i :: 0 <= i < |s| ==> keep(s[i])
    ensures Filter(s, keep) == s
  {
    if s != [] {
      var init := s[..|s| - 1];
      assert forall i :: 0 <= i < |init| ==> init[i] == s[i];
      FilterAllAccepted(init, keep);
      assert init + [s[|s| - 1]] == s;
    }
  }

  /** Filtering twice with the same test is filtering once. */
  lemma FilterIdempotent<T>(s: seq<T>, keep: T -> bool)
    ensures Filter(Filter(s, keep), keep) == Filter(s, keep)
  {
    FilterAllAccepted(Filter(s, keep), keep);
  }

  /** Filtering distributes over concatenation. */
  lemma {:induction false} FilterAppend<T>(a: seq<T>, b: seq<T>, keep: T -> bool)
    ensures Filter(a + b, keep) == Filter(a, keep) + Filter(b, keep)
  {
    if b != [] {
      var init := b[..|b| - 1];
      assert (a + b)[..|a + b| - 1] == a + init;
      FilterAppend(a, init, keep);
    } else {
      assert a + b == a;
    }
  }

  /** Filtering keeps every accepted occurrence and no rejected one. */
  lemma {:induction false} FilterCount<T>(s: seq<T>, keep: T -> bool, x: T)
    ensures Count(Filter(s, keep), x) == if keep(x) then Count(s, x) else 0
  {
    if s != [] {
      var init, last := s[..|s| - 1], s[|s| - 1];
      FilterCount(init, keep, x);
      if keep(last) {
        CountSnoc(Filter(init, keep), last, x);
      } else {
        assert Filter(s, keep) == Filter(init, keep);
      }
    }
  }

  /** Appending one element adds one to its own count and nothing to any other. */
  lemma CountSnoc<T>(s: seq<T>, x: T, y: T)
    ensures Count(s + [x], y) == Count(s, y) + (if x == y then 1 else 0)
  {
    assert (s + [x])[..|s|] == s;
  }

  /** Occurrences in a concatenation add up. */
  lemma {:induction false} CountAppend<T>(a: seq<T>, b: seq<T>, x: T)
    ensures Count(a + b, x) == Count(a, x) + Count(b, x)
  {
    if b != [] {
      var init := b[..|b| - 1];
      CountAppend(a, init, x);
      assert a + b == (a + init) + [b[|b| - 1]];
      CountSnoc(a + init, b[|b| - 1], x);
      assert b == init + [b[|b| - 1]];
      CountSnoc(init, b[|b| - 1], x);
    } else {
      assert a + b == a;
    }
  }

  /** An element of a sequence occurs in it at least once. */
  lemma {:induction false} CountPositive<T>(s: seq<T>, x: T)
    requires x in s
    ensures Count(s, x) > 0
  {
    var init := s[..|s| - 1];
    if s[|s| - 1] != x {
      assert x in init by {
        var k :| 0 <= k < |s| && s[k] == x;
        assert init[k] == x;
      }
      CountPositive(init, x);
    }
  }

  /** Length of a join: the parts plus one separator between each two of them. */
  lemma {:induction false} JoinLength<T>(parts: seq<seq<T>>, sep: seq<T>)
    requires parts != []
    ensures |Join(parts, sep)| == SumLengths(parts) + |sep| * (|parts| - 1)
  {
    if |parts| > 1 {
      var init := parts[..|parts| - 1];
      JoinLength(init, sep);
      assert SumLengths(init) + |parts[|parts| - 1]| == SumLengths(parts);
    }
  }

  /** Joining more parts extends the joined text: the join of a list is a
      prefix of the join of any longer list that starts with it. */
  lemma {:induction false} JoinPrefix<T>(a: seq<seq<T>>, b: seq<seq<T>>, sep: seq<T>)
    ensures Join(a, sep) <= Join(a + b, sep)
  {
    if b != [] {
      var init := b[..|b| - 1];
      assert (a + b)[..|a + b| - 1] == a + init;
      JoinPrefix(a, init, sep);
    } else {
      assert a + b == a;
    }
  }

  /** Where part `i` starts in the join: the lengths of the parts before it
      plus one separator after each of them. */
  function Offset<T>(parts: seq<seq<T>>, sep: seq<T>, i: nat): nat
    requires i <= |parts|
  {
    SumLengths(parts[..i]) + |sep| * i
  }

  lemma OffsetStep<T>(parts: seq<seq<T>>, sep: seq<T>, i: nat)
    requires i < |parts|
    ensures Offset(parts, sep, i + 1) == Offset(parts, sep, i) + |parts[i]| + |sep|
  {
    assert parts[..i + 1][..i] == parts[..i];
  }

  /** Part `i` sits in the join at its offset. */
  lemma {:induction false} JoinPartAt<T>(parts: seq<seq<T>>, sep: seq<T>, i: nat)
    requires i < |parts|
    ensures Offset(parts, sep, i) + |parts[i]| <= |Join(parts, sep)|
    ensures Join(parts, sep)[Offset(parts, sep, i)..Offset(parts, sep, i) + |parts[i]|] == parts[i]
  {
    var n := |parts|;
    if n == 1 {
      assert parts[..0] == [];
    } else {
      var init := parts[..n - 1];
      assert Join(parts, sep) == Join(init, sep) + sep + parts[n - 1];
      if i < n - 1 {
        JoinPartAt(init, sep, i);
        assert init[..i] == parts[..i];
        assert Offset(init, sep, i) == Offset(parts, sep, i);
      } else {
        JoinLength(init, sep);
        assert parts[..i] == init;
        assert |sep| * (n - 1) == |sep| * (n - 2) + |sep|;
        var head := Join(init, sep) + sep;
        assert Offset(parts, sep, i) == |head|;
        assert Join(parts, sep) == head + parts[i];
        assert (head + parts[i])[|head|..|head| + |parts[i]|] == parts[i];
      }
    }
  }

  /** Between part `i` and part `i + 1` the join holds exactly one separator. */
  lemma {:induction false} JoinSepAt<T>(parts: seq<seq<T>>, sep: seq<T>, i: nat)
    requires i + 1 < |parts|
    ensures Offset(parts, sep, i + 1) == Offset(parts, sep, i) + |parts[i]| + |sep|
    ensures Offset(parts, sep, i + 1) <= |Join(parts, sep)|
    ensures Join(parts, sep)[Offset(parts, sep, i) + |parts[i]|..Offset(parts, sep, i + 1)] == sep
  {
    OffsetStep(parts, sep, i);
    var n := |parts|;
    var init := parts[..n - 1];
    assert Join(parts, sep) == Join(init, sep) + sep + parts[n - 1];
    if i + 1 < n - 1 {
      JoinSepAt(init, sep, i);
      assert init[..i] == parts[..i];
      assert init[..i + 1] == parts[..i + 1];
      assert Offset(init, sep, i) == Offset(parts, sep, i);
      assert Offset(init, sep, i + 1) == Offset(parts, sep, i + 1);
    } else {
      JoinLength(init, sep);
      assert init[..|init| - 1] == parts[..i];
      assert SumLengths(init) == SumLengths(parts[..i]) + |parts[i]|;
      assert |Join(init, sep)| == Offset(parts, sep, i) + |parts[i]|;
    }
  }
}
