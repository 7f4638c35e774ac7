/**
 * The small text rules of the replay downloader (live/replay.go): the `HH:MM:SS`
 * duration display, the title-to-filename cleaner, the first-non-blank choice among
 * metadata fields, and the choice of the highest playback rendition.
 */
module ReplayText {
  import opened GoStrings

  // ---------------------------------------------------------------------------
  // formatDurationSeconds
  // ---------------------------------------------------------------------------

  const NanosPerSecond: int := 1_000_000_000

  /** Shown when the duration is not positive. */
  const Unknown: string := "未知"

  /** `time.Duration(sec * float64(time.Second))` for a positive duration: whole nanoseconds. */
  function Nanos(sec: real): (ns: nat)
    requires sec > 0.0
    ensures ns as real <= sec * 1_000_000_000.0 < ns as real + 1.0
  {
    (sec * 1_000_000_000.0).Floor
  }

  /** Whole seconds of a positive duration, split into hours, minutes and seconds. */
  function HMS(sec: real): (r: (nat, nat, nat))
    requires sec > 0.0
    ensures r.1 < 60 && r.2 < 60
    ensures r.0 * 3600 + r.1 * 60 + r.2 == sec.Floor
  {
    var d := Nanos(sec);
    var h := d / (3600 * NanosPerSecond);
    var d1 := d - h * 3600 * NanosPerSecond;
    var m := d1 / (60 * NanosPerSecond);
    var d2 := d1 - m * 60 * NanosPerSecond;
    var s := d2 / NanosPerSecond;
    WholeSecondsOfNanos(sec);
    assert d / NanosPerSecond == h * 3600 + m * 60 + s;
    (h, m, s)
  }

  /** Dropping the nanoseconds of `Nanos(sec)` gives the whole seconds of `sec`. */
  lemma WholeSecondsOfNanos(sec: real)
    requires sec > 0.0
    ensures Nanos(sec) / NanosPerSecond == sec.Floor
  {
    var k := sec.Floor;
    var n := Nanos(sec);
    assert k as real <= sec < k as real + 1.0;
    assert (k * NanosPerSecond) as real <= sec * 1_000_000_000.0;
    assert sec * 1_000_000_000.0 < ((k + 1) * NanosPerSecond) as real;
    assert k * NanosPerSecond <= n < (k + 1) * NanosPerSecond;
  }

  /**
   * `%02d` for a non-negative number: exactly two digits below 100, otherwise the
   * decimal digits without a leading zero.
   */
  function Pad2(n: nat): (r: string)
    ensures |r| >= 2 && AllDigits(r)
    ensures DecimalValue(r) == n
    ensures n < 100 ==> |r| == 2
    ensures |r| > 2 ==> r[0] != '0'
  {
    DecimalValueOfNat(n);
    if n < 10 then
      var r := "0" + NatToDecimal(n);
      assert r[..1] == "0";
      r
    else
      NatToDecimal(n)
  }

  /** `formatDurationSeconds`: `HH:MM:SS` of the whole seconds, or the unknown marker. */
  function FormatDurationSeconds(sec: real): (r: string)
    ensures sec <= 0.0 ==> r == Unknown
    ensures sec > 0.0 ==> ':' !in Unknown && ':' in r
  {
    if sec <= 0.0 then Unknown
    else
      var (h, m, s) := HMS(sec);
      assert (Pad2(h) + ":" + Pad2(m) + ":" + Pad2(s))[|Pad2(h)|] == ':';
      Pad2(h) + ":" + Pad2(m) + ":" + Pad2(s)
  }

  /**
   * Reading the display back: three fields of digits, the last two below 60, whose
   * values make up the whole seconds of the duration.
   */
  lemma FormatDurationReadsBack(sec: real)
    requires sec > 0.0
    ensures var parts := Split(FormatDurationSeconds(sec), ':');
      && |parts| == 3
      && (forall i :: 0 <= i < 3 ==> |parts[i]| >= 2 && AllDigits(parts[i]) && (|parts[i]| > 2 ==> parts[i][0] != '0'))
      && |parts[1]| == 2 && |parts[2]| == 2
      && DecimalValue(parts[1]) < 60 && DecimalValue(parts[2]) < 60
      && DecimalValue(parts[0]) * 3600 + DecimalValue(parts[1]) * 60 + DecimalValue(parts[2]) == sec.Floor
  {
    var (h, m, s) := HMS(sec);
    DigitsHaveNoColon(Pad2(h));
    DigitsHaveNoColon(Pad2(m));
    DigitsHaveNoColon(Pad2(s));
    assert FormatDurationSeconds(sec) == Pad2(h) + [':'] + Pad2(m) + [':'] + Pad2(s);
    SplitThree(Pad2(h), Pad2(m), Pad2(s), ':');
  }

  /** A string of digits holds no `:`. */
  lemma DigitsHaveNoColon(p: string)
    requires AllDigits(p)
    ensures ':' !in p
  {
  }

  /** Three pieces without the separator, joined by it, split back into the three. */
  lemma SplitThree(a: string, b: string, c: string, sep: char)
    requires sep !in a && sep !in b && sep !in c
    ensures Split(a + [sep] + b + [sep] + c, sep) == [a, b, c]
  {
    var ps := [a, b, c];
    assert ps[1..] == [b, c] && ps[1..][1..] == [c];
    assert Join(ps[1..], sep) == b + [sep] + c;
    assert Join(ps, sep) == a + [sep] + (b + [sep] + c);
    assert a + [sep] + (b + [sep] + c) == a + [sep] + b + [sep] + c;
    SplitJoin(ps, sep);
  }

  // ---------------------------------------------------------------------------
  // sanitizeFilePart
  // ---------------------------------------------------------------------------

  /** The characters `[\\/:*?"<>|]` removes. */
  predicate Forbidden(c: char) {
    c == '\\' || c == '/' || c == ':' || c == '*' || c == '?' || c == '"' || c == '<' || c == '>' || c == '|'
  }

  const MaxRunes: nat := 80

  /**
   * `ReplaceAllString(s, "")` for that class: drop every forbidden character and keep
   * every other one, as often as it occurs.
   */
  function RemoveForbidden(s: string): (r: string)
    ensures |r| <= |s|
    ensures forall i :: 0 <= i < |r| ==> !Forbidden(r[i])
    ensures forall c :: !Forbidden(c) ==> multiset(r)[c] == multiset(s)[c]
  {
    if s == [] then []
    else
      assert s == s[..|s| - 1] + [s[|s| - 1]];
      if Forbidden(s[|s| - 1]) then RemoveForbidden(s[..|s| - 1])
      else RemoveForbidden(s[..|s| - 1]) + [s[|s| - 1]]
  }

  /** A forbidden character on its own is replaced by nothing. */
  lemma RemoveForbiddenDrops(c: char)
    requires Forbidden(c)
    ensures RemoveForbidden([c]) == []
  {
  }

  /** Removal keeps a forbidden-free text as it is. */
  lemma {:induction false} RemoveForbiddenKeeps(s: string)
    requires forall i :: 0 <= i < |s| ==> !Forbidden(s[i])
    ensures RemoveForbidden(s) == s
  {
    if s != [] {
      RemoveForbiddenKeeps(s[..|s| - 1]);
    }
  }

  /** Removal works piece by piece, so it keeps the order of the characters it keeps. */
  lemma {:induction false} RemoveForbiddenAppend(a: string, b: string)
    ensures RemoveForbidden(a + b) == RemoveForbidden(a) + RemoveForbidden(b)
    decreases |b|
  {
    if b != [] {
      var b' := b[..|b| - 1];
      assert (a + b)[..|a + b| - 1] == a + b';
      assert (a + b)[|a + b| - 1] == b[|b| - 1];
      RemoveForbiddenAppend(a, b');
    } else {
      assert a + b == a;
    }
  }

  /** `sanitizeFilePart`: trim, drop the forbidden characters, trim again, keep at most 80 runes. */
  function SanitizeFilePart(s: string): (r: string)
    ensures AllSpace(s) ==> r == ""
    ensures |r| <= MaxRunes
    ensures forall i :: 0 <= i < |r| ==> !Forbidden(r[i])
    ensures r == "" || !IsSpace(r[0])
    ensures var t := TrimSpace(RemoveForbidden(TrimSpace(s)));
      |r| == if |t| > MaxRunes then MaxRunes else |t|
    ensures r <= TrimSpace(RemoveForbidden(TrimSpace(s)))
  {
    var t0 := TrimSpace(s);
    if t0 == "" then ""
    else
      var t1 := TrimSpace(RemoveForbidden(t0));
      TrimSpaceKeepsChars(RemoveForbidden(t0));
      if t1 == "" then ""
      else if |t1| > MaxRunes then t1[..MaxRunes]
      else t1
  }

  /** A title that is already clean and short comes through unchanged. */
  lemma SanitizeKeepsCleanTitle(s: string)
    requires |s| <= MaxRunes
    requires forall i :: 0 <= i < |s| ==> !Forbidden(s[i])
    requires s == "" || (!IsSpace(s[0]) && !IsSpace(s[|s| - 1]))
    ensures SanitizeFilePart(s) == s
  {
    TrimSpaceOfTrimmed(s);
    RemoveForbiddenKeeps(s);
  }

  // ---------------------------------------------------------------------------
  // firstNonEmpty
  // ---------------------------------------------------------------------------

  /** `firstNonEmpty`: the first value that is not blank, returned untrimmed; "" when all are blank. */
  function FirstNonEmpty(values: seq<string>): (r: string)
    ensures r == "" <==> forall i :: 0 <= i < |values| ==> AllSpace(values[i])
    ensures r != "" ==> exists i :: (0 <= i < |values| && values[i] == r && !AllSpace(r)
      && forall j :: 0 <= j < i ==> AllSpace(values[j]))
  {
    if values == [] then ""
    else if !AllSpace(values[0]) then
      assert values[0] != "";
      values[0]
    else
      var r := FirstNonEmpty(values[1..]);
      assert forall i :: 1 <= i < |values| ==> values[i] == values[1..][i - 1];
      if r != "" then
        var i :| 0 <= i < |values[1..]| && values[1..][i] == r && !AllSpace(r)
          && forall j :: 0 <= j < i ==> AllSpace(values[1..][j]);
        assert values[i + 1] == r;
        r
      else r
  }

  // ---------------------------------------------------------------------------
  // Best playback rendition (live/replay.go:93-109)
  // ---------------------------------------------------------------------------

  /** One entry of `data.playbackUrls.0.list`. */
  datatype Rendition = Rendition(fileUrl: string, height: int)

  /** An entry the loop may pick: it has a URL. */
  predicate Selectable(r: Rendition) {
    r.fileUrl != ""
  }

  /**
   * The selection loop: the first entry of strictly greatest positive height among
   * those with a URL. An empty URL means nothing was selectable; the height is then 0.
   */
  method SelectBest(items: seq<Rendition>) returns (bestURL: string, bestHeight: int)
    ensures bestURL == "" <==> forall i :: 0 <= i < |items| && Selectable(items[i]) ==> items[i].height <= 0
    ensures bestURL == "" ==> bestHeight == 0
    ensures bestURL != "" ==> exists i :: (0 <= i < |items| && Selectable(items[i])
      && items[i].fileUrl == bestURL && items[i].height == bestHeight
      && (forall j :: 0 <= j < i && Selectable(items[j]) ==> items[j].height < bestHeight))
    ensures bestHeight >= 0
    ensures forall j :: 0 <= j < |items| && Selectable(items[j]) ==> items[j].height <= bestHeight
  {
    bestURL := "";
    bestHeight := 0;
    ghost var bestIndex := -1;
    var i := 0;
    while i < |items|
      invariant 0 <= i <= |items|
      invariant bestHeight >= 0
      invariant forall j :: 0 <= j < i && Selectable(items[j]) ==> items[j].height <= bestHeight
      invariant bestURL == "" <==> bestIndex == -1
      invariant bestIndex == -1 ==> bestHeight == 0
      invariant bestIndex != -1 ==> (0 <= bestIndex < i && Selectable(items[bestIndex])
        && items[bestIndex].fileUrl == bestURL && items[bestIndex].height == bestHeight
        && bestHeight > 0
        && (forall j :: 0 <= j < bestIndex && Selectable(items[j]) ==> items[j].height < bestHeight))
    {
      var item := items[i];
      if item.fileUrl != "" {
        if item.height > bestHeight {
          bestHeight := item.height;
          bestURL := item.fileUrl;
          bestIndex := i;
        }
      }
      i := i + 1;
    }
  }
}
