/**
 * Playlist-URL discovery and reference resolution (live/url.go).
 *
 * `findFirstM3U8URL` runs the regular expression `https?://[^\s"'<>]+?\.m3u8[^\s"'<>]*`
 * (RE2 syntax, leftmost-first) and trims the match. Here the regular expression is
 * written out: `MatchAt` says when a match starts at a position, `MatchEnd` where it
 * stops, and a scanner finds the leftmost start.
 *
 * `resolveURL` is a thin layer over Go's `net/url`; the library itself (parsing and the
 * reference resolution of section 5.2 of RFC 3986) is a parameter, `URLLib`.
 */
module LiveUrl {
  import opened Wrappers
  import opened GoStrings

  /** A character the bracket `[^\s"'<>]` accepts; RE2's `\s` is exactly `[\t\n\f\r ]`. */
  predicate Allowed(c: char) {
    c != '\t' && c != '\n' && c != '\U{0C}' && c != '\r' && c != ' '
    && c != '"' && c != '\'' && c != '<' && c != '>'
  }

  const Marker: string := ".m3u8"

  /** The length of the `https?://` prefix at `p`, or 0 when there is none. */
  function SchemeLen(text: string, p: nat): (n: nat)
    ensures n == 0 || n == 7 || n == 8
    ensures n == 8 <==> OccursAt(text, "https://", p)
    ensures n == 7 <==> OccursAt(text, "http://", p)
    ensures n > 0 ==> p + n <= |text| && text[p] == 'h'
    ensures forall i :: p <= i < p + n ==> Allowed(text[i])
  {
    if OccursAt(text, "https://", p) then
      assert forall i :: p <= i < p + 8 ==> text[i] == "https://"[i - p];
      assert text[p + 4] == 's';
      assert text[p..p + 7][4] == 's' && "http://"[4] == ':';
      8
    else if OccursAt(text, "http://", p) then
      assert forall i :: p <= i < p + 7 ==> text[i] == "http://"[i - p];
      7
    else 0
  }

  /** The end of the run of allowed characters that starts at `q`. */
  function RunEnd(text: string, q: nat): (e: nat)
    requires q <= |text|
    ensures q <= e <= |text|
    ensures forall i :: q <= i < e ==> Allowed(text[i])
    ensures e == |text| || !Allowed(text[e])
    decreases |text| - q
  {
    if q == |text| || !Allowed(text[q]) then q else RunEnd(text, q + 1)
  }

  /**
   * A match of the expression starts at `p`: a scheme, then at least one allowed
   * character, then `.m3u8`, all inside one run of allowed characters.
   */
  ghost predicate MatchAt(text: string, p: nat) {
    p < |text| && SchemeLen(text, p) > 0 &&
    var q := p + SchemeLen(text, p);
    exists j :: q + 1 <= j && j + |Marker| <= RunEnd(text, q) && OccursAt(text, Marker, j)
  }

  /**
   * Whether a match starts at `p`, decided with one search for the marker; when it
   * does, the match ends where the run of allowed characters ends, because the
   * trailing `[^\s"'<>]*` is greedy.
   */
  function MatchEnd(text: string, p: nat): (r: Option<nat>)
    ensures r.Some? <==> MatchAt(text, p)
    ensures r.Some? ==> r.value == RunEnd(text, p + SchemeLen(text, p))
  {
    if p >= |text| || SchemeLen(text, p) == 0 then None
    else
      var q := p + SchemeLen(text, p);
      var e := RunEnd(text, q);
      var j := IndexFrom(text, Marker, q + 1);
      if j >= 0 && j + |Marker| <= e then Some(e)
      else
        assert forall k :: q + 1 <= k && k + |Marker| <= e ==> !OccursAt(text, Marker, k);
        None
  }

  /** A match as a span of the text. */
  datatype Span = Span(start: nat, end: nat)

  /** The leftmost match starting at or after `p`. */
  function FirstMatchFrom(text: string, p: nat): (r: Option<Span>)
    ensures r.None? ==> forall k :: p <= k ==> !MatchAt(text, k)
    ensures r.Some? ==> p <= r.value.start && MatchAt(text, r.value.start)
    ensures r.Some? ==> forall k :: p <= k < r.value.start ==> !MatchAt(text, k)
    ensures r.Some? ==> MatchEnd(text, r.value.start) == Some(r.value.end)
    decreases |text| - p
  {
    if p >= |text| then None
    else match MatchEnd(text, p)
      case Some(e) => Some(Span(p, e))
      case None => FirstMatchFrom(text, p + 1)
  }

  /** `m3u8URLRe.FindString`: the leftmost match, or "" when there is none. */
  function FindString(text: string): (m: string)
    ensures m == "" <==> forall k :: !MatchAt(text, k)
    ensures m == "" || m[0] == 'h'
  {
    match FirstMatchFrom(text, 0)
      case None => ""
      case Some(sp) => text[sp.start..sp.end]
  }

  /** `findFirstM3U8URL`: the leftmost match with surrounding white space trimmed. */
  function FindFirstM3U8URL(text: string): (r: string)
    ensures r == "" <==> forall k :: !MatchAt(text, k)
    ensures r == "" || r[0] == 'h'
  {
    var m := FindString(text);
    if m == "" then ""
    else
      TrimSpaceStart(m);
      TrimSpace(m)
  }

  /** The finder's result is the trimmed text of the leftmost match, which spans `s..e`. */
  lemma FoundAt(text: string) returns (s: nat, e: nat)
    requires FindFirstM3U8URL(text) != ""
    ensures FirstMatchFrom(text, 0) == Some(Span(s, e))
    ensures MatchEnd(text, s) == Some(e)
    ensures FindFirstM3U8URL(text) == TrimSpace(text[s..e])
  {
    var sp := FirstMatchFrom(text, 0).value;
    s, e := sp.start, sp.end;
  }

  /**
   * Trimming a match cuts only trailing white space, and never reaches back into the
   * first `.m3u8` after the scheme.
   */
  lemma TrimmedMatch(text: string, s: nat, e: nat)
    requires MatchEnd(text, s) == Some(e)
    ensures var r := TrimSpace(text[s..e]);
      var j := IndexFrom(text, Marker, s + SchemeLen(text, s) + 1);
      && s + |r| <= e
      && text[s..s + |r|] == r
      && AllSpace(text[s + |r|..e])
      && s + SchemeLen(text, s) + 1 <= j
      && j + |Marker| <= s + |r|
  {
    var m := text[s..e];
    var j := IndexFrom(text, Marker, s + SchemeLen(text, s) + 1);
    assert 0 <= j && j + |Marker| <= e;
    MarkerEnd(text, j);
    TrimmedPrefix(text, s, e);
    assert m[j + 4 - s] == text[j + 4];
    KeepsNonSpace(m, j + 4 - s);
  }

  /** An occurrence of `.m3u8` ends in `8`, which is not white space. */
  lemma MarkerEnd(text: string, j: int)
    requires OccursAt(text, Marker, j)
    ensures 0 <= j && j + 4 < |text| && text[j + 4] == '8'
  {
    assert text[j..j + 5][4] == text[j + 4];
  }

  /** Trimming a slice that starts with a non-space character keeps a prefix of it. */
  lemma TrimmedPrefix(text: string, s: nat, e: nat)
    requires s < e <= |text| && !IsSpace(text[s])
    ensures var r := TrimSpace(text[s..e]);
      && r == TrimRight(text[s..e])
      && s + |r| <= e
      && text[s..s + |r|] == r
      && AllSpace(text[s + |r|..e])
  {
    var m := text[s..e];
    TrimSpaceStart(m);
    var r := TrimRight(m);
    assert m[..|r|] == text[s..s + |r|];
    assert m[|r|..] == text[s + |r|..e];
  }

  /**
   * A found URL is the text of the leftmost match, read from where that match starts
   * (`s`); the rest of the match's run of allowed characters is white space.
   */
  lemma FoundURLLeftmost(text: string) returns (s: nat)
    requires FindFirstM3U8URL(text) != ""
    ensures LeftmostTrimmed(text, s, FindFirstM3U8URL(text))
  {
    var e;
    s, e := FoundAt(text);
    MatchLeftmost(text, s, e);
  }

  /**
   * `r` is the text at `s`, a match starts at `s` and none earlier, and the rest of the
   * run of allowed characters after `r` is white space.
   */
  ghost predicate LeftmostTrimmed(text: string, s: nat, r: string) {
    && s + |r| <= |text| && text[s..s + |r|] == r
    && MatchAt(text, s) && (forall k :: 0 <= k < s ==> !MatchAt(text, k))
    && s + |r| <= RunEnd(text, s + SchemeLen(text, s))
    && AllSpace(text[s + |r|..RunEnd(text, s + SchemeLen(text, s))])
  }

  lemma MatchLeftmost(text: string, s: nat, e: nat)
    requires FirstMatchFrom(text, 0) == Some(Span(s, e))
    ensures LeftmostTrimmed(text, s, TrimSpace(text[s..e]))
  {
    TrimmedMatch(text, s, e);
  }

  /** A found URL starts with `http://` or `https://` and holds `.m3u8` at least one character later. */
  lemma FoundURLScheme(text: string)
    requires FindFirstM3U8URL(text) != ""
    ensures var r := FindFirstM3U8URL(text);
      && SchemeLen(r, 0) > 0
      && exists j :: SchemeLen(r, 0) + 1 <= j && OccursAt(r, Marker, j)
  {
    var s, e := FoundAt(text);
    MatchScheme(text, s, e);
  }

  /** A found URL holds only characters the expression accepts. */
  lemma FoundURLAllowed(text: string)
    requires FindFirstM3U8URL(text) != ""
    ensures var r := FindFirstM3U8URL(text);
      forall i :: 0 <= i < |r| ==> Allowed(r[i])
  {
    var s, e := FoundAt(text);
    MatchAllowed(text, s, e);
  }

  lemma MatchScheme(text: string, s: nat, e: nat)
    requires MatchEnd(text, s) == Some(e)
    ensures var r := TrimSpace(text[s..e]);
      && SchemeLen(r, 0) > 0
      && exists j :: SchemeLen(r, 0) + 1 <= j && OccursAt(r, Marker, j)
  {
    TrimmedMatch(text, s, e);
    var r := TrimSpace(text[s..e]);
    var L := SchemeLen(text, s);
    var j := IndexFrom(text, Marker, s + L + 1);
    SchemeOfPrefix(text, s, r);
    MarkerInPiece(text, s, r, j);
  }

  lemma MatchAllowed(text: string, s: nat, e: nat)
    requires MatchEnd(text, s) == Some(e)
    ensures var r := TrimSpace(text[s..e]);
      forall i :: 0 <= i < |r| ==> Allowed(r[i])
  {
    TrimmedMatch(text, s, e);
    var r := TrimSpace(text[s..e]);
    forall i | 0 <= i < |r| ensures Allowed(r[i]) {
      assert r[i] == text[s..s + |r|][i];
    }
  }

  /** An occurrence of the marker inside a substring is an occurrence in that substring. */
  lemma MarkerInPiece(text: string, s: nat, r: string, j: nat)
    requires s + |r| <= |text| && text[s..s + |r|] == r
    requires s <= j && j + |Marker| <= s + |r| && OccursAt(text, Marker, j)
    ensures OccursAt(r, Marker, j - s)
  {
    SliceOfSlice(text, s, r, j - s, j - s + |Marker|);
  }

  /** A piece of a substring is the matching piece of the text. */
  lemma SliceOfSlice(text: string, s: nat, r: string, a: nat, b: nat)
    requires s + |r| <= |text| && text[s..s + |r|] == r && a <= b <= |r|
    ensures r[a..b] == text[s + a..s + b]
  {
    assert forall t :: a <= t < b ==> r[t] == text[s + t];
  }

  /** A string laid over the text at `s`, at least as long as the scheme there, has that scheme. */
  lemma SchemeOfPrefix(text: string, s: nat, r: string)
    requires SchemeLen(text, s) > 0
    requires s + |r| <= |text| && text[s..s + |r|] == r && |r| >= SchemeLen(text, s)
    ensures SchemeLen(r, 0) == SchemeLen(text, s)
  {
    var L := SchemeLen(text, s);
    assert r[..L] == text[s..s + L];
    if |r| >= 8 && s + 8 <= |text| {
      assert r[..8] == text[s..s + 8];
    }
    assert r[..7] == text[s..s + 7];
  }

  /** TrimSpace of a string that starts with a non-space keeps its start. */
  lemma {:induction false} TrimSpaceStart(m: string)
    requires m != [] && !IsSpace(m[0])
    ensures TrimSpace(m) == TrimRight(m)
    decreases |m|
  {
    if IsSpace(m[|m| - 1]) {
      TrimSpaceStart(m[..|m| - 1]);
    }
  }

  /** Right-trimming keeps every character up to the last non-space one. */
  lemma KeepsNonSpace(m: string, i: nat)
    requires i < |m| && !IsSpace(m[i])
    ensures |TrimRight(m)| > i
  {
  }

  /** The parts of `net/url` that `resolveURL` calls, over the library's URL type `U`. */
  datatype URLLib<!U> = URLLib(
    parse: string -> Option<U>,
    isAbs: U -> bool,
    render: U -> string,
    resolveReference: (U, U) -> U)

  /**
   * `resolveURL`: it fails exactly when one of the trimmed arguments does not parse; an
   * absolute reference is kept as it is, a relative one is resolved against the base.
   */
  function ResolveURL<U>(lib: URLLib<U>, baseRaw: string, refRaw: string): (r: Option<string>)
    ensures var base := lib.parse(TrimSpace(baseRaw));
      var ref := lib.parse(TrimSpace(refRaw));
      && (r.None? <==> base.None? || ref.None?)
      && (r.Some? && lib.isAbs(ref.value) ==> r.value == lib.render(ref.value))
      && (r.Some? && !lib.isAbs(ref.value) ==> r.value == lib.render(lib.resolveReference(base.value, ref.value)))
  {
    ResolveParsed(lib, lib.parse(TrimSpace(baseRaw)), lib.parse(TrimSpace(refRaw)))
  }

  /** The second half of `resolveURL`, once both arguments have been through the parser. */
  function ResolveParsed<U>(lib: URLLib<U>, base: Option<U>, ref: Option<U>): Option<string> {
    match base
      case None => None
      case Some(b) =>
        match ref
          case None => None
          case Some(f) =>
            if lib.isAbs(f) then Some(lib.render(f))
            else Some(lib.render(lib.resolveReference(b, f)))
  }

  /** White space around either argument makes no difference. */
  lemma ResolveURLTrims<U>(lib: URLLib<U>, baseRaw: string, refRaw: string)
    ensures ResolveURL(lib, TrimSpace(baseRaw), TrimSpace(refRaw)) == ResolveURL(lib, baseRaw, refRaw)
  {
    TrimSpaceIdempotent(baseRaw);
    TrimSpaceIdempotent(refRaw);
  }
}
