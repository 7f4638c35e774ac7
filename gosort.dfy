/**
 * Go's string order (`a < b` on strings, the order `sort.Strings` uses) and sorting.
 * Go compares the UTF-8 bytes of two strings; on Unicode scalar values that is the
 * lexicographic order on code points, which is what `Less` states.
 */
module GoSort {

  /** `a < b` for Go strings. */
  predicate Less(a: string, b: string)
    decreases |a|
  {
    if |a| == 0 then |b| > 0
    else if |b| == 0 then false
    else if a[0] != b[0] then a[0] < b[0]
    else Less(a[1..], b[1..])
  }

  lemma {:induction false} LessIrreflexive(a: string)
    ensures !Less(a, a)
    decreases |a|
  {
    if |a| > 0 {
      LessIrreflexive(a[1..]);
    }
  }

  lemma {:induction false} LessTransitive(a: string, b: string, c: string)
    requires Less(a, b) && Less(b, c)
    ensures Less(a, c)
    decreases |a|
  {
    if |a| > 0 && a[0] == b[0] && b[0] == c[0] {
      LessTransitive(a[1..], b[1..], c[1..]);
    }
  }

  lemma {:induction false} LessTotal(a: string, b: string)
    requires a != b
    ensures Less(a, b) || Less(b, a)
    decreases |a|
  {
    if |a| > 0 && |b| > 0 && a[0] == b[0] {
      assert a == [a[0]] + a[1..] && b == [b[0]] + b[1..];
      LessTotal(a[1..], b[1..]);
    }
  }

  lemma LessAsymmetric(a: string, b: string)
    requires Less(a, b)
    ensures !Less(b, a)
  {
    if Less(b, a) {
      LessTransitive(a, b, a);
      LessIrreflexive(a);
    }
  }

  predicate StrictlySorted(s: seq<string>) {
    forall i, j :: 0 <= i < j < |s| ==> Less(s[i], s[j])
  }

  predicate Distinct(s: seq<string>) {
    forall i, j :: 0 <= i < j < |s| ==> s[i] != s[j]
  }

  /** Inserts `x` at its place in a strictly sorted sequence that does not hold it. */
  function Insert(x: string, s: seq<string>): (r: seq<string>)
    requires StrictlySorted(s) && x !in s
    ensures StrictlySorted(r)
    ensures |r| == |s| + 1
    ensures forall y :: y in r <==> y in s || y == x
  {
    if s == [] then [x]
    else if Less(x, s[0]) then
      assert forall j :: 0 < j < |s| ==> Less(x, s[j]) by {
        forall j | 0 < j < |s| ensures Less(x, s[j]) { LessTransitive(x, s[0], s[j]); }
      }
      [x] + s
    else
      LessTotal(x, s[0]);
      var t := Insert(x, s[1..]);
      assert forall y :: y in s[1..] ==> Less(s[0], y);
      [s[0]] + t
  }

  /**
   * `sort.Strings` on a list whose strings are pairwise distinct (the keys of a map,
   * the only list the signer sorts).
   */
  function SortDistinct(s: seq<string>): (r: seq<string>)
    requires Distinct(s)
    ensures StrictlySorted(r)
    ensures |r| == |s|
    ensures forall y :: y in r <==> y in s
  {
    if s == [] then []
    else
      var last := s[|s| - 1];
      assert Distinct(s[..|s| - 1]);
      assert last !in s[..|s| - 1];
      Insert(last, SortDistinct(s[..|s| - 1]))
  }

  /** Every non-empty finite set of strings has a least element. */
  lemma {:induction false} LeastExists(K: set<string>)
    requires K != {}
    ensures exists m :: m in K && forall k :: k in K && k != m ==> Less(m, k)
    decreases K
  {
    var x :| x in K;
    if K != {x} {
      LeastExists(K - {x});
      var m :| m in K - {x} && forall k :: k in K - {x} && k != m ==> Less(m, k);
      if Less(m, x) {
        assert forall k :: k in K && k != m ==> Less(m, k);
      } else {
        LessTotal(m, x);
        forall k | k in K && k != x ensures Less(x, k) {
          if k != m { LessTransitive(x, m, k); }
        }
      }
    }
  }

  /** The strings of `K` in ascending order. */
  ghost function SortedKeys(K: set<string>): (r: seq<string>)
    ensures StrictlySorted(r)
    ensures |r| == |K|
    ensures forall k :: k in r <==> k in K
    decreases K
  {
    if K == {} then []
    else
      LeastExists(K);
      var m :| m in K && forall k :: k in K && k != m ==> Less(m, k);
      [m] + SortedKeys(K - {m})
  }

  /** Two strictly sorted sequences with the same strings are the same sequence. */
  lemma {:induction false} StrictlySortedUnique(a: seq<string>, b: seq<string>)
    requires StrictlySorted(a) && StrictlySorted(b)
    requires |a| == |b| && forall y :: y in a <==> y in b
    ensures a == b
    decreases |a|
  {
    if a != [] {
      if a[0] != b[0] {
        assert b[0] in a && a[0] in b;
        var i :| 0 <= i < |a| && a[i] == b[0];
        var j :| 0 <= j < |b| && b[j] == a[0];
        assert Less(a[0], b[0]) by { if i == 0 { } }
        assert Less(b[0], a[0]) by { if j == 0 { } }
        LessAsymmetric(a[0], b[0]);
      }
      assert a[0] == b[0];
      assert a == [a[0]] + a[1..] && b == [b[0]] + b[1..];
      forall y ensures y in a[1..] <==> y in b[1..] {
        if y in a[1..] {
          assert y != a[0] by { LessIrreflexiveIn(a, y); }
          assert y in b && y != b[0];
        }
        if y in b[1..] {
          assert y != b[0] by { LessIrreflexiveIn(b, y); }
          assert y in a && y != a[0];
        }
      }
      StrictlySortedUnique(a[1..], b[1..]);
    }
  }

  /** The head of a strictly sorted sequence does not reappear in its tail. */
  lemma LessIrreflexiveIn(a: seq<string>, y: string)
    requires StrictlySorted(a) && a != [] && y in a[1..]
    ensures y != a[0]
  {
    var j :| 0 <= j < |a[1..]| && a[1..][j] == y;
    assert Less(a[0], a[j + 1]);
    if y == a[0] { LessIrreflexive(y); }
  }
}
