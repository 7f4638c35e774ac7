/**
 * The parts of Go's `strings` and `strconv` packages that the downloader relies on,
 * stated over `string` (a sequence of Unicode scalar values, i.e. Go runes).
 */
module GoStrings {
  import opened Wrappers

  const MinInt64: int := -0x8000_0000_0000_0000
  const MaxInt64: int := 0x7FFF_FFFF_FFFF_FFFF

  predicate IsInt64(n: int) {
    MinInt64 <= n <= MaxInt64
  }

  /** `unicode.IsSpace`, the predicate behind `strings.TrimSpace`. */
  predicate IsSpace(c: char) {
    || c == '\t' || c == '\n' || c == '\U{0B}' || c == '\U{0C}' || c == '\r' || c == ' '
    || c == '\U{85}' || c == '\U{A0}' || c == '\U{1680}'
    || ('\U{2000}' <= c <= '\U{200A}')
    || c == '\U{2028}' || c == '\U{2029}' || c == '\U{202F}' || c == '\U{205F}' || c == '\U{3000}'
  }

  predicate AllSpace(s: string) {
    forall i :: 0 <= i < |s| ==> IsSpace(s[i])
  }

  /** The longest prefix of `s` not ending with a space (`strings.TrimRightFunc` with `unicode.IsSpace`). */
  function TrimRight(s: string): (r: string)
    ensures |r| <= |s| && r == s[..|r|]
    ensures AllSpace(s[|r|..])
    ensures r == [] || !IsSpace(r[|r| - 1])
  {
    if |s| > 0 && IsSpace(s[|s| - 1]) then
      var r := TrimRight(s[..|s| - 1]);
      assert s[|r|..] == s[..|s| - 1][|r|..] + [s[|s| - 1]];
      r
    else
      s
  }

  /** `strings.TrimRight(s, string(c))`: drop every trailing `c`. */
  function TrimRightChar(s: string, c: char): (r: string)
    ensures |r| <= |s| && r == s[..|r|]
    ensures forall i :: |r| <= i < |s| ==> s[i] == c
    ensures r == [] || r[|r| - 1] != c
  {
    if |s| > 0 && s[|s| - 1] == c then TrimRightChar(s[..|s| - 1], c) else s
  }

  /** `strings.TrimSpace`. */
  function TrimSpace(s: string): (r: string)
    ensures r == [] <==> AllSpace(s)
    ensures r != [] ==> !IsSpace(r[0]) && !IsSpace(r[|r| - 1])
    ensures |r| <= |s|
    decreases |s|
  {
    if |s| > 0 && IsSpace(s[0]) then
      var r := TrimSpace(s[1..]);
      assert AllSpace(s[1..]) ==> AllSpace(s);
      r
    else if |s| > 0 && IsSpace(s[|s| - 1]) then
      var r := TrimSpace(s[..|s| - 1]);
      assert AllSpace(s[..|s| - 1]) ==> AllSpace(s);
      r
    else s
  }

  /**
   * TrimSpace cuts a run of spaces from each end: its result is the slice of `s` that
   * starts at the returned `k`.
   */
  lemma {:induction false} TrimSpaceSlice(s: string) returns (k: nat)
    ensures Sliced(s, TrimSpace(s), k)
    decreases |s|
  {
    if |s| > 0 && IsSpace(s[0]) {
      var k1 := TrimSpaceSlice(s[1..]);
      k := k1 + 1;
      SlicedCons(s, TrimSpace(s), k1);
    } else if |s| > 0 && IsSpace(s[|s| - 1]) {
      k := TrimSpaceSlice(s[..|s| - 1]);
      SlicedSnoc(s, TrimSpace(s), k);
    } else {
      k := 0;
    }
  }

  /** Every character TrimSpace keeps comes from its argument. */
  lemma TrimSpaceKeepsChars(s: string)
    ensures forall i :: 0 <= i < |TrimSpace(s)| ==> TrimSpace(s)[i] in s
  {
    var k := TrimSpaceSlice(s);
    var r := TrimSpace(s);
    forall i | 0 <= i < |r| ensures r[i] in s {
      assert r[i] == s[k + i];
    }
  }

  /** `r` is the slice of `s` from `k`, and everything outside it is white space. */
  predicate Sliced(s: string, r: string, k: nat) {
    && k + |r| <= |s| && r == s[k..k + |r|]
    && AllSpace(s[..k]) && AllSpace(s[k + |r|..])
  }

  lemma SlicedCons(s: string, r: string, k: nat)
    requires |s| > 0 && IsSpace(s[0]) && Sliced(s[1..], r, k)
    ensures Sliced(s, r, k + 1)
  {
    var t := s[1..];
    assert t[k..k + |r|] == s[k + 1..k + 1 + |r|];
    AllSpaceCons(s[0], t[..k]);
    assert s[..k + 1] == [s[0]] + t[..k];
    assert t[k + |r|..] == s[k + 1 + |r|..];
  }

  lemma SlicedSnoc(s: string, r: string, k: nat)
    requires |s| > 0 && IsSpace(s[|s| - 1]) && Sliced(s[..|s| - 1], r, k)
    ensures Sliced(s, r, k)
  {
    var t := s[..|s| - 1];
    assert t[k..k + |r|] == s[k..k + |r|];
    assert t[..k] == s[..k];
    AllSpaceSnoc(t[k + |r|..], s[|s| - 1]);
    assert s[k + |r|..] == t[k + |r|..] + [s[|s| - 1]];
  }

  lemma AllSpaceCons(c: char, t: string)
    requires IsSpace(c) && AllSpace(t)
    ensures AllSpace([c] + t)
  {
    assert forall i :: 1 <= i < |t| + 1 ==> ([c] + t)[i] == t[i - 1];
  }

  lemma AllSpaceSnoc(t: string, c: char)
    requires IsSpace(c) && AllSpace(t)
    ensures AllSpace(t + [c])
  {
  }

  /** A string without leading or trailing spaces is left alone by TrimSpace. */
  lemma TrimSpaceOfTrimmed(s: string)
    requires s == [] || (!IsSpace(s[0]) && !IsSpace(s[|s| - 1]))
    ensures TrimSpace(s) == s
  {
  }

  /** TrimSpace is idempotent. */
  lemma TrimSpaceIdempotent(s: string)
    ensures TrimSpace(TrimSpace(s)) == TrimSpace(s)
  {
    TrimSpaceOfTrimmed(TrimSpace(s));
  }

  /** A string that holds no space at all is its own TrimSpace. */
  lemma TrimSpaceNoSpace(s: string)
    requires forall i :: 0 <= i < |s| ==> !IsSpace(s[i])
    ensures TrimSpace(s) == s
  {
    TrimSpaceOfTrimmed(s);
  }

  /** `strings.IndexByte(s, c)`: the first position of `c`, or -1. */
  function IndexOfChar(s: string, c: char): (i: int)
    ensures -1 <= i < |s|
    ensures i == -1 <==> c !in s
    ensures 0 <= i ==> s[i] == c && c !in s[..i]
  {
    if |s| == 0 then -1
    else if s[0] == c then 0
    else
      var j := IndexOfChar(s[1..], c);
      if j < 0 then -1
      else
        assert s[..j + 1] == [s[0]] + s[1..][..j];
        j + 1
  }

  /** `strings.LastIndex(s, string(c))`: the last position of `c`, or -1. */
  function LastIndexOfChar(s: string, c: char): (i: int)
    ensures -1 <= i < |s|
    ensures i == -1 <==> c !in s
    ensures 0 <= i ==> s[i] == c && c !in s[i + 1..]
  {
    if |s| == 0 then -1
    else if s[|s| - 1] == c then |s| - 1
    else
      var j := LastIndexOfChar(s[..|s| - 1], c);
      assert j >= 0 ==> s[j + 1..] == s[..|s| - 1][j + 1..] + [s[|s| - 1]];
      j
  }

  /** `sub` occurs in `s` starting at position `i`. */
  predicate OccursAt(s: string, sub: string, i: int) {
    0 <= i && i + |sub| <= |s| && s[i..i + |sub|] == sub
  }

  /** The first occurrence of `sub` at or after `from`, or -1. */
  function IndexFrom(s: string, sub: string, from: nat): (i: int)
    ensures i == -1 || (from <= i && OccursAt(s, sub, i))
    ensures forall k :: from <= k && (i == -1 || k < i) ==> !OccursAt(s, sub, k)
    decreases |s| - from
  {
    if from + |sub| > |s| then -1
    else if s[from..from + |sub|] == sub then from
    else IndexFrom(s, sub, from + 1)
  }

  /** `strings.Index(s, sub)`. */
  function IndexOf(s: string, sub: string): (i: int)
    ensures i == -1 || OccursAt(s, sub, i)
    ensures forall k :: 0 <= k && (i == -1 || k < i) ==> !OccursAt(s, sub, k)
  {
    IndexFrom(s, sub, 0)
  }

  /** `strings.Contains(s, sub)`: `sub` occurs somewhere in `s`. */
  predicate Contains(s: string, sub: string) {
    exists i :: 0 <= i <= |s| && OccursAt(s, sub, i)
  }

  /** Contains agrees with Index, which is how Go computes it. */
  lemma ContainsIndexOf(s: string, sub: string)
    ensures Contains(s, sub) <==> IndexOf(s, sub) >= 0
  {
    if IndexOf(s, sub) >= 0 {
      assert OccursAt(s, sub, IndexOf(s, sub));
    }
  }

  /** `strings.Cut(s, string(c))`: the text before and after the first `c`. */
  function Cut(s: string, c: char): (r: Option<(string, string)>)
    ensures r.None? <==> c !in s
    ensures r.Some? ==> s == r.value.0 + [c] + r.value.1 && c !in r.value.0
  {
    var i := IndexOfChar(s, c);
    if i < 0 then None
    else
      assert s == s[..i] + [c] + s[i + 1..];
      Some((s[..i], s[i + 1..]))
  }

  /** `strings.Join(parts, string(c))`. */
  function Join(parts: seq<string>, c: char): string
  {
    if |parts| == 0 then ""
    else if |parts| == 1 then parts[0]
    else parts[0] + [c] + Join(parts[1..], c)
  }

  /** `strings.Split(s, string(c))`: the pieces between the occurrences of `c`. */
  function Split(s: string, c: char): (parts: seq<string>)
    ensures |parts| >= 1
    ensures forall p :: p in parts ==> c !in p
    decreases |s|
  {
    var i := IndexOfChar(s, c);
    if i < 0 then [s]
    else [s[..i]] + Split(s[i + 1..], c)
  }

  /** Joining the pieces of a Split with the separator gives back the text. */
  lemma {:induction false} JoinSplit(s: string, c: char)
    ensures Join(Split(s, c), c) == s
    decreases |s|
  {
    var i := IndexOfChar(s, c);
    if i >= 0 {
      var rest := Split(s[i + 1..], c);
      JoinSplit(s[i + 1..], c);
      JoinCons(s[..i], rest, c);
      assert s == s[..i] + [c] + s[i + 1..];
    }
  }

  lemma JoinCons(a: string, rest: seq<string>, c: char)
    requires |rest| >= 1
    ensures Join([a] + rest, c) == a + [c] + Join(rest, c)
  {
    assert ([a] + rest)[1..] == rest;
  }

  /** Split undoes Join when no piece holds the separator. */
  lemma {:induction false} SplitJoin(parts: seq<string>, c: char)
    requires |parts| >= 1
    requires forall p :: p in parts ==> c !in p
    ensures Split(Join(parts, c), c) == parts
    decreases |parts|
  {
    if |parts| > 1 {
      var s := Join(parts, c);
      assert s == parts[0] + [c] + Join(parts[1..], c);
      IndexOfCharAfter(parts[0], Join(parts[1..], c), c);
      assert s[..|parts[0]|] == parts[0];
      assert s[|parts[0]| + 1..] == Join(parts[1..], c);
      SplitJoin(parts[1..], c);
    }
  }

  /** Contains with a one-character needle is membership. */
  lemma ContainsChar(s: string, c: char)
    ensures Contains(s, [c]) <==> c in s
  {
    if c in s {
      var i :| 0 <= i < |s| && s[i] == c;
      assert OccursAt(s, [c], i);
    }
    if Contains(s, [c]) {
      var i :| 0 <= i <= |s| && OccursAt(s, [c], i);
      assert s[i..i + 1] == [c];
      assert s[i] == c;
    }
  }

  /** Cut finds the separator right after a prefix that does not hold it. */
  lemma CutAfter(k: string, v: string, c: char)
    requires c !in k
    ensures Cut(k + [c] + v, c) == Some((k, v))
  {
    var s := k + [c] + v;
    IndexOfCharAfter(k, v, c);
    assert s[..|k|] == k && s[|k| + 1..] == v;
  }

  /** The first `c` of `k + [c] + v` is the one after `k` when `k` has none. */
  lemma IndexOfCharAfter(k: string, v: string, c: char)
    requires c !in k
    ensures IndexOfChar(k + [c] + v, c) == |k|
  {
    var s := k + [c] + v;
    var i := IndexOfChar(s, c);
    assert s[|k|] == c && s[..|k|] == k;
  }

  /** Joining one more piece appends the separator and the piece. */
  lemma {:induction false} JoinAppend(parts: seq<string>, p: string, c: char)
    ensures Join(parts + [p], c) == if parts == [] then p else Join(parts, c) + [c] + p
    decreases |parts|
  {
    if |parts| > 1 {
      assert (parts + [p])[1..] == parts[1..] + [p];
      JoinAppend(parts[1..], p, c);
    } else if |parts| == 1 {
      assert (parts + [p])[1..] == [p];
    }
  }

  /** A joined string holds a character only if a piece or the separator does. */
  lemma {:induction false} JoinWithout(parts: seq<string>, c: char, d: char)
    requires c != d
    requires forall p :: p in parts ==> d !in p
    ensures d !in Join(parts, c)
    decreases |parts|
  {
    if |parts| > 1 {
      JoinWithout(parts[1..], c, d);
    }
  }

  /** A joined string holds no space when neither the pieces nor the separator do. */
  lemma {:induction false} JoinNoSpace(parts: seq<string>, c: char)
    requires !IsSpace(c)
    requires forall p :: p in parts ==> forall i :: 0 <= i < |p| ==> !IsSpace(p[i])
    ensures forall i :: 0 <= i < |Join(parts, c)| ==> !IsSpace(Join(parts, c)[i])
    decreases |parts|
  {
    if |parts| > 1 {
      JoinNoSpace(parts[1..], c);
      var s := Join(parts, c);
      var t := Join(parts[1..], c);
      assert s == parts[0] + [c] + t;
      forall i | 0 <= i < |s| ensures !IsSpace(s[i]) {
        if i < |parts[0]| {
          assert s[i] == parts[0][i];
        } else if i > |parts[0]| {
          assert s[i] == t[i - |parts[0]| - 1];
        }
      }
    }
  }

  /** ASCII upper-casing of one character. */
  function UpperChar(c: char): char {
    if 'a' <= c <= 'z' then (c as int - 32) as char else c
  }

  /** `strings.ToUpper`, restricted to the ASCII letters. */
  function ToUpper(s: string): (r: string)
    ensures |r| == |s|
    ensures forall i :: 0 <= i < |s| ==> r[i] == UpperChar(s[i])
    ensures forall i :: 0 <= i < |r| ==> !('a' <= r[i] <= 'z')
    ensures forall i :: 0 <= i < |r| ==> (IsSpace(r[i]) <==> IsSpace(s[i]))
  {
    seq(|s|, i requires 0 <= i < |s| => UpperChar(s[i]))
  }

  predicate IsDigit(c: char) {
    '0' <= c <= '9'
  }

  predicate AllDigits(s: string) {
    forall i :: 0 <= i < |s| ==> IsDigit(s[i])
  }

  function DigitChar(d: nat): (c: char)
    requires d < 10
    ensures IsDigit(c)
  {
    ('0' as int + d) as char
  }

  /** The decimal digits of `n`, without leading zeros. */
  function NatToDecimal(n: nat): (r: string)
    ensures |r| >= 1 && AllDigits(r)
    ensures r[0] == '0' ==> n == 0
    ensures n < 10 <==> |r| == 1
    ensures 10 <= n < 100 ==> |r| == 2
  {
    if n < 10 then [DigitChar(n)] else NatToDecimal(n / 10) + [DigitChar(n % 10)]
  }

  /**
   * `strconv.FormatInt(n, 10)`: a minus sign exactly for a negative number, then the
   * decimal digits of its magnitude.
   */
  function FormatInt(n: int): (r: string)
    ensures r != "" && (r[0] == '-' <==> n < 0)
    ensures var digits := if n < 0 then r[1..] else r;
      && digits != "" && AllDigits(digits) && DecimalValue(digits) == (if n < 0 then -n else n)
      && (digits[0] == '0' ==> digits == "0")
  {
    if n < 0 then
      DecimalValueOfNat(-n);
      assert ("-" + NatToDecimal(-n))[1..] == NatToDecimal(-n);
      "-" + NatToDecimal(-n)
    else
      DecimalValueOfNat(n);
      NatToDecimal(n)
  }

  /** The value of a string of decimal digits. */
  function DecimalValue(s: string): nat
    requires AllDigits(s)
  {
    if |s| == 0 then 0 else DecimalValue(s[..|s| - 1]) * 10 + (s[|s| - 1] as int - '0' as int)
  }

  /**
   * `strconv.ParseInt(s, 10, 64)`: an optional sign, at least one digit, and a 64-bit value.
   * Anything else (`N/A`, `1.5`, `12a`, a lone sign, an out-of-range number) fails.
   */
  function ParseInt(s: string): (r: Option<int>)
    ensures r.Some? ==> IsInt64(r.value)
    ensures r.Some? ==>
      && s != ""
      && var d := if s[0] == '-' || s[0] == '+' then s[1..] else s;
         d != "" && AllDigits(d)
    ensures s == "" ==> r.None?
    ensures s != "" && AllDigits(s) && IsInt64(DecimalValue(s)) ==> r == Some(DecimalValue(s))
    ensures s != "" && AllDigits(s) && !IsInt64(DecimalValue(s)) ==> r.None?
    ensures |s| >= 2 && s[0] == '+' && AllDigits(s[1..]) ==>
      r == if IsInt64(DecimalValue(s[1..])) then Some(DecimalValue(s[1..]) as int) else None
    ensures |s| >= 2 && s[0] == '-' && AllDigits(s[1..]) ==>
      r == if IsInt64(-(DecimalValue(s[1..]) as int)) then Some(-(DecimalValue(s[1..]) as int)) else None
  {
    if s == "" then None
    else
      var negative := s[0] == '-';
      var digits := if s[0] == '-' || s[0] == '+' then s[1..] else s;
      if digits == "" || !AllDigits(digits) then None
      else
        var mag: int := DecimalValue(digits);
        var v := if negative then -mag else mag;
        if IsInt64(v) then Some(v) else None
  }

  lemma {:induction false} DecimalValueOfNat(n: nat)
    ensures DecimalValue(NatToDecimal(n)) == n
  {
    if n >= 10 {
      var r := NatToDecimal(n);
      assert r[..|r| - 1] == NatToDecimal(n / 10);
      DecimalValueOfNat(n / 10);
    }
  }

  /** ParseInt reads back every 64-bit integer that FormatInt writes. */
  lemma FormatIntRoundTrip(n: int)
    requires IsInt64(n)
    ensures ParseInt(FormatInt(n)) == Some(n)
  {
    var s := FormatInt(n);
    if n < 0 {
      var d := NatToDecimal(-n);
      assert s == "-" + d && s[0] == '-' && s[1..] == d;
      DecimalValueOfNat(-n);
    } else {
      var d := NatToDecimal(n);
      assert s == d && IsDigit(s[0]) && s[0] != '-' && s[0] != '+';
      DecimalValueOfNat(n);
    }
  }
}
