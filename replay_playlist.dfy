/**
 * The two places where the replay downloader reads HLS playlists itself
 * (live/replay.go): the duration probe that follows at most three playlists and adds
 * up their `#EXTINF` durations, and `recordVOD`, which walks a media playlist line by
 * line, follows a nested playlist, and hands each segment URL to the downloader.
 *
 * HTTP GET is a parameter `fetch` from URL to response body (`None` for an error), the
 * float parser is a parameter, and URL resolution is the opaque resolver of `LiveUrl`.
 */
module ReplayPlaylist {
  import opened Wrappers
  import opened GoStrings
  import opened LiveUrl

  /** The number of playlists the probe may fetch. */
  const MaxDepth: nat := 3

  const ExtinfTag: string := "#EXTINF:"

  /** Text whose presence marks a URL as a playlist. */
  const PlaylistMarker: string := ".m3u8"

  /** Text whose absence marks a response as something other than a playlist. */
  const PlaylistHeader: string := "#EXTM3U"

  // ---------------------------------------------------------------------------
  // probeDurationSecondsFromM3U8
  // ---------------------------------------------------------------------------

  /** Every line with its surrounding white space trimmed, as both passes of the probe see it. */
  function TrimLines(lines: seq<string>): (t: seq<string>)
    ensures |t| == |lines|
    ensures forall i :: 0 <= i < |lines| ==> t[i] == TrimSpace(lines[i])
    decreases |lines|
  {
    if lines == [] then [] else [TrimSpace(lines[0])] + TrimLines(lines[1..])
  }

  /** The duration field of an `#EXTINF:` line: what follows the tag, up to the first comma. */
  function ExtinfField(line: string): (r: string)
    requires ExtinfTag <= line
    ensures ',' !in r
    ensures line[|ExtinfTag|..] == r || r + "," <= line[|ExtinfTag|..]
  {
    var v := line[|ExtinfTag|..];
    match Cut(v, ',')
    case Some((before, _)) => before
    case None => v
  }

  /** Whether some `#EXTINF` line was seen, and the sum of the durations that parse. */
  datatype Durations = Durations(seen: bool, sum: real)

  /** The first pass over a playlist's trimmed lines. */
  function ScanExtinf(lines: seq<string>, parseFloat: string -> Option<real>): Durations
    decreases |lines|
  {
    if lines == [] then Durations(false, 0.0)
    else AddLine(ScanExtinf(lines[..|lines| - 1], parseFloat), lines[|lines| - 1], parseFloat)
  }

  /** One line of the first pass: an `#EXTINF` line is seen, and its duration added when it parses. */
  function AddLine(r: Durations, line: string, parseFloat: string -> Option<real>): Durations {
    if ExtinfTag <= line then
      var f := parseFloat(TrimSpace(ExtinfField(line)));
      Durations(true, if f.Some? then r.sum + f.value else r.sum)
    else
      r
  }

  /** The first pass over one more trimmed line. */
  lemma ScanExtinfSnoc(lines: seq<string>, i: nat, parseFloat: string -> Option<real>)
    requires i < |lines|
    ensures ScanExtinf(lines[..i + 1], parseFloat) == AddLine(ScanExtinf(lines[..i], parseFloat), lines[i], parseFloat)
  {
    assert lines[..i + 1][..i] == lines[..i] && lines[..i + 1][i] == lines[i];
  }

  /** An `#EXTINF` line has been seen exactly when one of the lines carries the tag. */
  lemma {:induction false} ScanExtinfSeen(lines: seq<string>, parseFloat: string -> Option<real>)
    ensures ScanExtinf(lines, parseFloat).seen <==> exists i :: 0 <= i < |lines| && ExtinfTag <= lines[i]
    decreases |lines|
  {
    if lines != [] {
      var prefix := lines[..|lines| - 1];
      ScanExtinfSeen(prefix, parseFloat);
      assert forall i :: 0 <= i < |prefix| ==> prefix[i] == lines[i];
    }
  }

  /** A trimmed line the probe would follow: not blank, not a tag or comment, naming a playlist. */
  predicate IsPlaylistLine(line: string) {
    line != "" && line[0] != '#' && Contains(line, PlaylistMarker)
  }

  /** A trimmed line the probe follows from playlist `cur`: a playlist line that resolves. */
  predicate Follows<U>(lib: URLLib<U>, cur: string, line: string) {
    IsPlaylistLine(line) && ResolveURL(lib, cur, line).Some?
  }

  /** The position of the first trimmed line the probe follows, or -1 when there is none. */
  function FirstPlaylistLine<U>(lib: URLLib<U>, cur: string, lines: seq<string>): (i: int)
    ensures -1 <= i < |lines|
    ensures 0 <= i ==> Follows(lib, cur, lines[i])
    ensures forall j :: 0 <= j < |lines| && (i == -1 || j < i) ==> !Follows(lib, cur, lines[j])
    decreases |lines|
  {
    if lines == [] then -1
    else if Follows(lib, cur, lines[0]) then 0
    else
      var j := FirstPlaylistLine(lib, cur, lines[1..]);
      assert forall k :: 1 <= k < |lines| ==> lines[k] == lines[1..][k - 1];
      if j < 0 then -1 else j + 1
  }

  /** The second pass: where the probe goes next, or "" when there is nowhere to go. */
  function NextPlaylist<U>(lib: URLLib<U>, cur: string, lines: seq<string>): (next: string)
    decreases |lines|
  {
    if lines == [] then ""
    else if Follows(lib, cur, lines[0]) then ResolveURL(lib, cur, lines[0]).value
    else NextPlaylist(lib, cur, lines[1..])
  }

  /** The probe goes to the resolution of the first line it follows, and nowhere when there is none. */
  lemma {:induction false} NextPlaylistIsFirst<U>(lib: URLLib<U>, cur: string, lines: seq<string>)
    ensures var i := FirstPlaylistLine(lib, cur, lines);
      NextPlaylist(lib, cur, lines) == if i < 0 then "" else ResolveURL(lib, cur, lines[i]).value
    decreases |lines|
  {
    if lines != [] && !Follows(lib, cur, lines[0]) {
      NextPlaylistIsFirst(lib, cur, lines[1..]);
      var j := FirstPlaylistLine(lib, cur, lines[1..]);
      if j >= 0 {
        assert lines[1..][j] == lines[j + 1];
      }
    }
  }

  /** What the probe learns from one fetched playlist. */
  datatype Verdict =
    | Found(seconds: real)  // a positive `#EXTINF` sum
    | Follow(next: string)  // no such sum; the next playlist to fetch
    | GiveUp                // no such sum and nowhere to go

  /** The lines of a fetched playlist, each trimmed. */
  function PlaylistLines(text: string): seq<string> {
    TrimLines(Split(text, '\n'))
  }

  /** The first pass over a fetched playlist. */
  function PlaylistDurations(parseFloat: string -> Option<real>, text: string): Durations {
    ScanExtinf(PlaylistLines(text), parseFloat)
  }

  /** The two passes over one fetched playlist `text`, fetched from `cur`. */
  function Examine<U>(parseFloat: string -> Option<real>, lib: URLLib<U>, cur: string, text: string): (v: Verdict)
    ensures v.Found? ==> v.seconds > 0.0
    ensures v.Follow? ==> v.next != ""
  {
    var d := PlaylistDurations(parseFloat, text);
    if d.seen && d.sum > 0.0 then Found(d.sum)
    else
      var next := NextPlaylist(lib, cur, PlaylistLines(text));
      if next == "" then GiveUp else Follow(next)
  }

  /** The probed duration in seconds (0 for unknown) and the URLs fetched, in order. */
  datatype Probe = Probe(seconds: real, fetched: seq<string>)

  /** The probe, starting from playlist `cur` at depth `depth`. */
  function ProbeFrom<U>(fetch: string -> Option<string>, parseFloat: string -> Option<real>,
                        lib: URLLib<U>, cur: string, depth: nat): Probe
    decreases MaxDepth - depth, 2
  {
    if depth >= MaxDepth then Probe(0.0, [])
    else ProbeResponse(fetch, parseFloat, lib, cur, fetch(cur), depth)
  }

  /** The rest of the probe once the request for playlist `cur` has come back. */
  function ProbeResponse<U>(fetch: string -> Option<string>, parseFloat: string -> Option<real>,
                            lib: URLLib<U>, cur: string, response: Option<string>, depth: nat): Probe
    requires depth < MaxDepth
    decreases MaxDepth - depth, 1
  {
    match response
    case None => Probe(0.0, [cur])
    case Some(text) => ProbeText(fetch, parseFloat, lib, cur, text, depth)
  }

  /** The rest of the probe once playlist `cur` has been fetched as `text`. */
  function ProbeText<U>(fetch: string -> Option<string>, parseFloat: string -> Option<real>,
                        lib: URLLib<U>, cur: string, text: string, depth: nat): Probe
    requires depth < MaxDepth
    decreases MaxDepth - depth, 0
  {
    match Examine(parseFloat, lib, cur, text)
    case Found(seconds) => Probe(seconds, [cur])
    case GiveUp => Probe(0.0, [cur])
    case Follow(next) =>
      var r := ProbeFrom(fetch, parseFloat, lib, next, depth + 1);
      Probe(r.seconds, [cur] + r.fetched)
  }

  /** One step of the probe, given the verdict on the playlist fetched from `cur`. */
  lemma ProbeStep<U>(fetch: string -> Option<string>, parseFloat: string -> Option<real>,
                     lib: URLLib<U>, cur: string, depth: nat, text: string, v: Verdict)
    requires depth < MaxDepth && fetch(cur) == Some(text)
    requires v == Examine(parseFloat, lib, cur, text)
    ensures v.Found? ==> ProbeFrom(fetch, parseFloat, lib, cur, depth) == Probe(v.seconds, [cur])
    ensures v.GiveUp? ==> ProbeFrom(fetch, parseFloat, lib, cur, depth) == Probe(0.0, [cur])
    ensures v.Follow? ==> (ProbeFrom(fetch, parseFloat, lib, cur, depth)
      == var r := ProbeFrom(fetch, parseFloat, lib, v.next, depth + 1); Probe(r.seconds, [cur] + r.fetched))
  {
    assert ProbeFrom(fetch, parseFloat, lib, cur, depth) == ProbeResponse(fetch, parseFloat, lib, cur, Some(text), depth);
    assert ProbeResponse(fetch, parseFloat, lib, cur, Some(text), depth) == ProbeText(fetch, parseFloat, lib, cur, text, depth);
  }

  /**
   * The probe fetches at most three playlists, starting with the one it is given, and
   * never reports a negative duration.
   */
  lemma {:induction false} ProbeBounded<U>(fetch: string -> Option<string>, parseFloat: string -> Option<real>,
                                          lib: URLLib<U>, cur: string, depth: nat)
    requires depth <= MaxDepth
    ensures var r := ProbeFrom(fetch, parseFloat, lib, cur, depth);
      && |r.fetched| <= MaxDepth - depth
      && (depth < MaxDepth ==> |r.fetched| >= 1 && r.fetched[0] == cur)
      && r.seconds >= 0.0
    decreases MaxDepth - depth
  {
    if depth < MaxDepth && fetch(cur).Some? {
      var v := Examine(parseFloat, lib, cur, fetch(cur).value);
      ProbeStep(fetch, parseFloat, lib, cur, depth, fetch(cur).value, v);
      if v.Follow? {
        ProbeBounded(fetch, parseFloat, lib, v.next, depth + 1);
      }
    }
  }

  /** The last playlist of `r` was fetched, has an `#EXTINF` line, and its sum is `r.seconds`. */
  predicate EndsInExtinf(fetch: string -> Option<string>, parseFloat: string -> Option<real>, r: Probe) {
    && r.fetched != []
    && var last := r.fetched[|r.fetched| - 1];
    && fetch(last).Some?
    && PlaylistDurations(parseFloat, fetch(last).value) == Durations(true, r.seconds)
  }

  /**
   * A positive duration is always the `#EXTINF` sum of the last playlist fetched, and
   * that playlist did contain an `#EXTINF` line.
   */
  lemma {:induction false} ProbePositiveIsExtinfSum<U>(fetch: string -> Option<string>, parseFloat: string -> Option<real>,
                                                      lib: URLLib<U>, cur: string, depth: nat)
    requires ProbeFrom(fetch, parseFloat, lib, cur, depth).seconds > 0.0
    ensures EndsInExtinf(fetch, parseFloat, ProbeFrom(fetch, parseFloat, lib, cur, depth))
    decreases MaxDepth - depth
  {
    ProbePositiveFetched(fetch, parseFloat, lib, cur, depth);
    var text := fetch(cur).value;
    var v := Examine(parseFloat, lib, cur, text);
    ProbeStep(fetch, parseFloat, lib, cur, depth, text, v);
    if v.Follow? {
      ProbePositiveIsExtinfSum(fetch, parseFloat, lib, v.next, depth + 1);
      EndsInExtinfAfter(fetch, parseFloat, cur, ProbeFrom(fetch, parseFloat, lib, v.next, depth + 1));
    } else {
      ExamineFound(parseFloat, lib, cur, text);
    }
  }

  /** Fetching one more playlist first does not change which one was fetched last. */
  lemma EndsInExtinfAfter(fetch: string -> Option<string>, parseFloat: string -> Option<real>, cur: string, r: Probe)
    requires EndsInExtinf(fetch, parseFloat, r)
    ensures EndsInExtinf(fetch, parseFloat, Probe(r.seconds, [cur] + r.fetched))
  {
    assert ([cur] + r.fetched)[|r.fetched|] == r.fetched[|r.fetched| - 1];
  }

  /** A positive duration needs a fetch that succeeded, below the depth bound. */
  lemma ProbePositiveFetched<U>(fetch: string -> Option<string>, parseFloat: string -> Option<real>,
                                lib: URLLib<U>, cur: string, depth: nat)
    requires ProbeFrom(fetch, parseFloat, lib, cur, depth).seconds > 0.0
    ensures depth < MaxDepth && fetch(cur).Some?
  {
    if depth < MaxDepth {
      assert ProbeFrom(fetch, parseFloat, lib, cur, depth) == ProbeResponse(fetch, parseFloat, lib, cur, fetch(cur), depth);
    }
  }

  /** A `Found` verdict is the `#EXTINF` sum of a playlist that has an `#EXTINF` line. */
  lemma ExamineFound<U>(parseFloat: string -> Option<real>, lib: URLLib<U>, cur: string, text: string)
    requires Examine(parseFloat, lib, cur, text).Found?
    ensures PlaylistDurations(parseFloat, text) == Durations(true, Examine(parseFloat, lib, cur, text).seconds)
  {
  }

  /**
   * A playlist with no positive `#EXTINF` sum whose first playlist line resolves to
   * itself is fetched exactly three times and gives duration 0.
   */
  lemma ProbeSelfReference<U>(fetch: string -> Option<string>, parseFloat: string -> Option<real>,
                              lib: URLLib<U>, url: string, text: string)
    requires fetch(url) == Some(text)
    requires Examine(parseFloat, lib, url, text) == Follow(url)
    ensures ProbeFrom(fetch, parseFloat, lib, url, 0) == Probe(0.0, [url, url, url])
  {
    var v := Follow(url);
    ProbeStep(fetch, parseFloat, lib, url, 2, text, v);
    assert ProbeFrom(fetch, parseFloat, lib, url, 3) == Probe(0.0, []);
    ProbeStep(fetch, parseFloat, lib, url, 1, text, v);
    ProbeStep(fetch, parseFloat, lib, url, 0, text, v);
  }

  /** The probe result `p` with the URLs `pre` fetched before it. */
  function After(pre: seq<string>, p: Probe): Probe {
    Probe(p.seconds, pre + p.fetched)
  }

  /** `probeDurationSecondsFromM3U8`: also returns the URLs it fetched. */
  method ProbeDurationSecondsFromM3U8<U>(m3u8URL: string, fetch: string -> Option<string>,
                                         parseFloat: string -> Option<real>, lib: URLLib<U>)
    returns (seconds: real, fetched: seq<string>)
    ensures Probe(seconds, fetched) == ProbeFrom(fetch, parseFloat, lib, m3u8URL, 0)
  {
    ghost var goal := ProbeFrom(fetch, parseFloat, lib, m3u8URL, 0);
    var cur := m3u8URL;
    fetched := [];
    var depth: nat := 0;
    while depth < MaxDepth
      invariant depth <= MaxDepth
      invariant goal == After(fetched, ProbeFrom(fetch, parseFloat, lib, cur, depth))
    {
      ghost var before := fetched;
      fetched := fetched + [cur];
      var response := fetch(cur);
      if response.None? {
        return 0.0, fetched;
      }
      var verdict := ExamineFetched(fetch, parseFloat, lib, cur, depth, response.value);
      if verdict.Found? {
        return verdict.seconds, fetched;
      }
      if verdict.GiveUp? {
        return 0.0, fetched;
      }
      AfterAssoc(before, cur, ProbeFrom(fetch, parseFloat, lib, verdict.next, depth + 1));
      cur := verdict.next;
      depth := depth + 1;
    }
    seconds := 0.0;
  }

  lemma AfterAssoc(pre: seq<string>, cur: string, p: Probe)
    ensures After(pre, Probe(p.seconds, [cur] + p.fetched)) == After(pre + [cur], p)
  {
    assert pre + ([cur] + p.fetched) == pre + [cur] + p.fetched;
  }

  /** The verdict on the playlist fetched from `cur`, and what it means for the probe from there. */
  method ExamineFetched<U>(fetch: string -> Option<string>, parseFloat: string -> Option<real>,
                           lib: URLLib<U>, cur: string, depth: nat, text: string) returns (v: Verdict)
    requires depth < MaxDepth && fetch(cur) == Some(text)
    ensures v.Found? ==> ProbeFrom(fetch, parseFloat, lib, cur, depth) == Probe(v.seconds, [cur])
    ensures v.GiveUp? ==> ProbeFrom(fetch, parseFloat, lib, cur, depth) == Probe(0.0, [cur])
    ensures v.Follow? ==> (ProbeFrom(fetch, parseFloat, lib, cur, depth)
      == var r := ProbeFrom(fetch, parseFloat, lib, v.next, depth + 1); Probe(r.seconds, [cur] + r.fetched))
  {
    v := ExaminePlaylist(parseFloat, lib, cur, text);
    ProbeStep(fetch, parseFloat, lib, cur, depth, text, v);
  }

  /** Both loops of the probe over one fetched playlist. */
  method ExaminePlaylist<U>(parseFloat: string -> Option<real>, lib: URLLib<U>, cur: string, text: string)
    returns (v: Verdict)
    ensures v == Examine(parseFloat, lib, cur, text)
  {
    var lines := Split(text, '\n');
    var hasExtinf, sum := SumExtinf(lines, parseFloat);
    if hasExtinf && sum > 0.0 {
      return Found(sum);
    }
    var next := FindNextPlaylist(lib, cur, lines);
    if next == "" {
      return GiveUp;
    }
    return Follow(next);
  }

  /** The first loop of the probe: whether an `#EXTINF` line occurs, and the sum of the durations that parse. */
  method SumExtinf(lines: seq<string>, parseFloat: string -> Option<real>) returns (hasExtinf: bool, sum: real)
    ensures Durations(hasExtinf, sum) == ScanExtinf(TrimLines(lines), parseFloat)
  {
    ghost var trimmed := TrimLines(lines);
    hasExtinf, sum := false, 0.0;
    var i := 0;
    while i < |lines|
      invariant 0 <= i <= |lines|
      invariant Durations(hasExtinf, sum) == ScanExtinf(trimmed[..i], parseFloat)
    {
      var line := TrimSpace(lines[i]);
      ScanExtinfSnoc(trimmed, i, parseFloat);
      if ExtinfTag <= line {
        hasExtinf := true;
        var f := parseFloat(TrimSpace(ExtinfField(line)));
        if f.Some? {
          sum := sum + f.value;
        }
      }
      i := i + 1;
    }
    assert trimmed[..|lines|] == trimmed;
  }

  /** The second loop of the probe: the first playlist line that resolves, resolved. */
  method FindNextPlaylist<U>(lib: URLLib<U>, cur: string, lines: seq<string>) returns (next: string)
    ensures next == NextPlaylist(lib, cur, TrimLines(lines))
  {
    ghost var trimmed := TrimLines(lines);
    var i := 0;
    while i < |lines|
      invariant 0 <= i <= |lines|
      invariant NextPlaylist(lib, cur, trimmed) == NextPlaylist(lib, cur, trimmed[i..])
    {
      var line := TrimSpace(lines[i]);
      assert trimmed[i..][0] == line && trimmed[i..][1..] == trimmed[i + 1..];
      if line == "" || "#" <= line {
        i := i + 1;
        continue;
      }
      if Contains(line, PlaylistMarker) {
        var resolved := ResolveURL(lib, cur, line);
        if resolved.Some? {
          return resolved.value;
        }
      }
      i := i + 1;
    }
    next := "";
  }

  // ---------------------------------------------------------------------------
  // recordVOD
  // ---------------------------------------------------------------------------

  /** How `recordVOD` treats one raw line of a playlist. */
  datatype LineKind =
    | Comment              // begins with '#', before any trimming
    | Blank                // nothing but white space
    | Nested(url: string)  // names a playlist and resolves: followed instead of the rest
    | Segment(url: string) // anything else: downloaded from this URL

  /**
   * The URL used when a segment line does not resolve: the base up to and including its
   * last `/`, followed by the line.
   */
  function Fallback(base: string, line: string): (r: string)
    ensures |line| <= |r| <= |base| + |line|
    ensures var k := |r| - |line|;
      && r == base[..k] + line
      && '/' !in base[k..]
      && (k == 0 || base[k - 1] == '/')
  {
    var i := LastIndexOfChar(base, '/');
    base[..i + 1] + line
  }

  /** The classification of a line that does not begin with `#`, once trimmed. */
  function ClassifyTrimmed<U>(lib: URLLib<U>, base: string, line: string): (k: LineKind)
    ensures k != Comment
    ensures k == Blank <==> line == ""
    ensures k.Nested? <==> line != "" && Contains(line, PlaylistMarker) && ResolveURL(lib, base, line).Some?
    ensures k.Nested? ==> ResolveURL(lib, base, line) == Some(k.url)
    ensures k.Segment? && ResolveURL(lib, base, line).Some? ==> ResolveURL(lib, base, line) == Some(k.url)
    ensures k.Segment? && ResolveURL(lib, base, line).None? ==> k.url == Fallback(base, line)
  {
    if line == "" then Blank
    else
      match ResolveURL(lib, base, line)
      case Some(u) => if Contains(line, PlaylistMarker) then Nested(u) else Segment(u)
      case None => Segment(Fallback(base, line))
  }

  /**
   * The classification of a raw line against the current playlist URL `base`: the `#`
   * test comes before trimming, so an indented `#` line is not a comment.
   */
  function Classify<U>(lib: URLLib<U>, base: string, raw: string): (k: LineKind)
    ensures k == Comment <==> "#" <= raw
    ensures k == Blank <==> !("#" <= raw) && AllSpace(raw)
    ensures !("#" <= raw) ==> k == ClassifyTrimmed(lib, base, TrimSpace(raw))
  {
    if "#" <= raw then Comment else ClassifyTrimmed(lib, base, TrimSpace(raw))
  }

  /** `l.quickReplayURL`, `l.newTsURL`, and the URLs handed to the segment downloader so far. */
  datatype Vod = Vod(quickReplayURL: string, newTsURL: string, downloads: seq<string>)

  /**
   * The state after a call, and whether the call finished: the model follows nested
   * playlists at most `fuel` deep and reports `false` when that is not deep enough.
   */
  datatype Run = Run(state: Vod, done: bool)

  /** The state after handing the segment URLs `urls` to the downloader, in order. */
  function AfterSegments(s: Vod, urls: seq<string>): (r: Vod)
    ensures r.quickReplayURL == s.quickReplayURL
    ensures r.downloads == s.downloads + urls
  {
    Vod(s.quickReplayURL, if urls == [] then s.newTsURL else urls[|urls| - 1], s.downloads + urls)
  }

  /** Whether some line of `lines` is a nested playlist for `base`. */
  predicate HasNested<U>(lib: URLLib<U>, base: string, lines: seq<string>) {
    exists i :: 0 <= i < |lines| && Classify(lib, base, lines[i]).Nested?
  }

  /** The segment URLs of `lines`, in line order. */
  function SegmentURLs<U>(lib: URLLib<U>, base: string, lines: seq<string>): (urls: seq<string>)
    ensures |urls| <= |lines|
    decreases |lines|
  {
    if lines == [] then []
    else
      var rest := SegmentURLs(lib, base, lines[1..]);
      match Classify(lib, base, lines[0])
      case Segment(u) => [u] + rest
      case _ => rest
  }

  /** The playlist `recordVOD` reads: the state once it has settled on a URL, and that URL's text. */
  datatype Loaded = Loaded(state: Vod, text: Option<string>)

  /**
   * The first part of `recordVOD`: fetch the current playlist; when the reply lacks the
   * `#EXTM3U` header and names a playlist, switch to that one and fetch it instead.
   */
  function Load(fetch: string -> Option<string>, s: Vod): (l: Loaded)
    ensures l.state.newTsURL == s.newTsURL && l.state.downloads == s.downloads
    ensures fetch(s.quickReplayURL).None? ==> l == Loaded(s, None)
    ensures (fetch(s.quickReplayURL).Some? && Contains(fetch(s.quickReplayURL).value, PlaylistHeader))
              ==> l == Loaded(s, fetch(s.quickReplayURL))
    ensures l.state.quickReplayURL != s.quickReplayURL ==>
              && fetch(s.quickReplayURL).Some?
              && !Contains(fetch(s.quickReplayURL).value, PlaylistHeader)
              && l.state.quickReplayURL == FindFirstM3U8URL(fetch(s.quickReplayURL).value)
              && l.text == fetch(l.state.quickReplayURL)
    ensures fetch(s.quickReplayURL).Some? && !Contains(fetch(s.quickReplayURL).value, PlaylistHeader) ==>
              var found := FindFirstM3U8URL(fetch(s.quickReplayURL).value);
              && (found != "" ==> l == Loaded(s.(quickReplayURL := found), fetch(found)))
              && (found == "" ==> l == Loaded(s, fetch(s.quickReplayURL)))
  {
    match fetch(s.quickReplayURL)
    case None => Loaded(s, None)
    case Some(str) =>
      if Contains(str, PlaylistHeader) then Loaded(s, Some(str))
      else
        var m := FindFirstM3U8URL(str);
        if m != "" then Loaded(s.(quickReplayURL := m), fetch(m)) else Loaded(s, Some(str))
  }

  /** `recordVOD` on the state `s`. */
  function Record<U>(fetch: string -> Option<string>, lib: URLLib<U>, s: Vod, fuel: nat): Run
    decreases fuel, 2, 0
  {
    if fuel == 0 then Run(s, false) else RecordFrom(fetch, lib, s, fuel)
  }

  /** `recordVOD` with depth to spare: load the playlist; a failed request ends the call quietly. */
  function RecordFrom<U>(fetch: string -> Option<string>, lib: URLLib<U>, s: Vod, fuel: nat): Run
    requires fuel >= 1
    decreases fuel, 1, 0
  {
    var l := Load(fetch, s);
    match l.text
    case None => Run(l.state, true)
    case Some(text) => Walk(fetch, lib, l.state, Split(text, '\n'), fuel)
  }

  /** The line loop of `recordVOD` over the remaining lines. */
  function Walk<U>(fetch: string -> Option<string>, lib: URLLib<U>, s: Vod, lines: seq<string>, fuel: nat): Run
    requires fuel >= 1
    decreases fuel, 0, |lines|, 1
  {
    if lines == [] then Run(s, true)
    else WalkLine(fetch, lib, s, Classify(lib, s.quickReplayURL, lines[0]), lines[1..], fuel)
  }

  /** One turn of the line loop, on a line of kind `k` followed by `rest`. */
  function WalkLine<U>(fetch: string -> Option<string>, lib: URLLib<U>, s: Vod, k: LineKind, rest: seq<string>, fuel: nat): Run
    requires fuel >= 1
    decreases fuel, 0, |rest| + 1, 0
  {
    match k
    case Comment => Walk(fetch, lib, s, rest, fuel)
    case Blank => Walk(fetch, lib, s, rest, fuel)
    case Nested(u) => Record(fetch, lib, s.(quickReplayURL := u), fuel - 1)
    case Segment(u) => Walk(fetch, lib, s.(newTsURL := u, downloads := s.downloads + [u]), rest, fuel)
  }

  /**
   * Lines before the first nested playlist hand their segments to the downloader in
   * order and leave the playlist URL alone; the walk then goes on from the rest.
   */
  lemma {:induction false} WalkPrefix<U>(fetch: string -> Option<string>, lib: URLLib<U>, s: Vod,
                                        pre: seq<string>, rest: seq<string>, fuel: nat)
    requires fuel >= 1
    requires !HasNested(lib, s.quickReplayURL, pre)
    ensures Walk(fetch, lib, s, pre + rest, fuel)
         == Walk(fetch, lib, AfterSegments(s, SegmentURLs(lib, s.quickReplayURL, pre)), rest, fuel)
    decreases |pre|
  {
    if pre == [] {
      assert pre + rest == rest;
      assert AfterSegments(s, []) == s;
    } else {
      var base := s.quickReplayURL;
      assert (pre + rest)[0] == pre[0] && (pre + rest)[1..] == pre[1..] + rest;
      NoNestedTail(lib, base, pre);
      match Classify(lib, base, pre[0])
      case Comment => WalkPrefix(fetch, lib, s, pre[1..], rest, fuel);
      case Blank => WalkPrefix(fetch, lib, s, pre[1..], rest, fuel);
      case Segment(u) =>
        WalkPrefix(fetch, lib, s.(newTsURL := u, downloads := s.downloads + [u]), pre[1..], rest, fuel);
        AfterSegmentsCons(s, u, SegmentURLs(lib, base, pre[1..]));
    }
  }

  /** A list without nested playlists neither starts with one nor has one in its tail. */
  lemma NoNestedTail<U>(lib: URLLib<U>, base: string, pre: seq<string>)
    requires pre != [] && !HasNested(lib, base, pre)
    ensures !Classify(lib, base, pre[0]).Nested? && !HasNested(lib, base, pre[1..])
  {
    forall i | 0 <= i < |pre[1..]| ensures !Classify(lib, base, pre[1..][i]).Nested? {
      assert pre[1..][i] == pre[i + 1];
    }
    assert pre[0] == pre[0];
  }

  /** Downloading `u` and then `urls` is downloading `[u] + urls`. */
  lemma AfterSegmentsCons(s: Vod, u: string, urls: seq<string>)
    ensures AfterSegments(s.(newTsURL := u, downloads := s.downloads + [u]), urls) == AfterSegments(s, [u] + urls)
  {
    assert s.downloads + [u] + urls == s.downloads + ([u] + urls);
  }

  /** A list without nested playlists is walked to its end, downloading its segments in order. */
  lemma SegmentsInOrder<U>(fetch: string -> Option<string>, lib: URLLib<U>, s: Vod, lines: seq<string>, fuel: nat)
    requires fuel >= 1
    requires !HasNested(lib, s.quickReplayURL, lines)
    ensures var r := Walk(fetch, lib, s, lines, fuel);
      && r.done
      && r.state.quickReplayURL == s.quickReplayURL
      && r.state.downloads == s.downloads + SegmentURLs(lib, s.quickReplayURL, lines)
  {
    WalkPrefix(fetch, lib, s, lines, [], fuel);
    assert lines + [] == lines;
  }

  /**
   * The first nested playlist switches the playlist URL and ends the current list:
   * nothing after it is looked at, and the walk continues in the nested playlist.
   */
  lemma NestedEndsList<U>(fetch: string -> Option<string>, lib: URLLib<U>, s: Vod,
                          pre: seq<string>, line: string, post: seq<string>, fuel: nat)
    requires fuel >= 1
    requires !HasNested(lib, s.quickReplayURL, pre)
    requires Classify(lib, s.quickReplayURL, line).Nested?
    ensures Walk(fetch, lib, s, pre + [line] + post, fuel)
         == Record(fetch, lib, AfterSegments(s, SegmentURLs(lib, s.quickReplayURL, pre))
                                 .(quickReplayURL := Classify(lib, s.quickReplayURL, line).url), fuel - 1)
  {
    assert pre + [line] + post == pre + ([line] + post);
    WalkPrefix(fetch, lib, s, pre, [line] + post, fuel);
    assert ([line] + post)[0] == line;
  }

  /**
   * A playlist whose first nested line resolves to the playlist itself is followed
   * again and again: no depth is enough for the call to finish.
   */
  lemma {:induction false} SelfReferenceNeverFinishes<U>(fetch: string -> Option<string>, lib: URLLib<U>, s: Vod,
                                                       text: string, pre: seq<string>, line: string,
                                                       post: seq<string>, fuel: nat)
    requires fetch(s.quickReplayURL) == Some(text) && Contains(text, PlaylistHeader)
    requires Split(text, '\n') == pre + [line] + post
    requires !HasNested(lib, s.quickReplayURL, pre)
    requires Classify(lib, s.quickReplayURL, line) == Nested(s.quickReplayURL)
    ensures !Record(fetch, lib, s, fuel).done
    decreases fuel
  {
    if fuel > 0 {
      NestedEndsList(fetch, lib, s, pre, line, post, fuel);
      var s1 := AfterSegments(s, SegmentURLs(lib, s.quickReplayURL, pre)).(quickReplayURL := s.quickReplayURL);
      SelfReferenceNeverFinishes(fetch, lib, s1, text, pre, line, post, fuel - 1);
    }
  }

  /** The walk from line `i` is one turn on that line, then the walk from the next. */
  lemma WalkStep<U>(fetch: string -> Option<string>, lib: URLLib<U>, s: Vod, lines: seq<string>, i: nat, fuel: nat)
    requires i < |lines| && fuel >= 1
    ensures Walk(fetch, lib, s, lines[i..], fuel)
         == WalkLine(fetch, lib, s, Classify(lib, s.quickReplayURL, lines[i]), lines[i + 1..], fuel)
  {
    assert lines[i..][0] == lines[i] && lines[i..][1..] == lines[i + 1..];
  }

  /** `Live`'s fields that `recordVOD` reads and writes. */
  class Live {
    var quickReplayURL: string
    var newTsURL: string
    /** Every `newTsURL` handed to `downloadAndMergeTsFile`, in order. */
    var downloads: seq<string>

    function State(): Vod
      reads this
    {
      Vod(quickReplayURL, newTsURL, downloads)
    }

    constructor(quickReplayURL: string)
      ensures State() == Vod(quickReplayURL, "", [])
    {
      this.quickReplayURL := quickReplayURL;
      newTsURL := "";
      downloads := [];
    }

    /** `recordVOD`, following nested playlists at most `fuel` deep. */
    method RecordVOD<U>(fetch: string -> Option<string>, lib: URLLib<U>, fuel: nat) returns (done: bool)
      modifies this
      ensures Run(State(), done) == Record(fetch, lib, old(State()), fuel)
      decreases fuel, 2
    {
      if fuel == 0 {
        return false;
      }
      var text := LoadPlaylist(fetch);
      if text.None? {
        return true;
      }
      var lines := Split(text.value, '\n');
      done := WalkLines(fetch, lib, lines, fuel);
    }

    /** The fetch, header check and redirect at the start of `recordVOD`. */
    method LoadPlaylist(fetch: string -> Option<string>) returns (text: Option<string>)
      modifies this
      ensures Loaded(State(), text) == Load(fetch, old(State()))
    {
      text := fetch(quickReplayURL);
      if text.None? {
        return;
      }
      var str := text.value;
      if !Contains(str, PlaylistHeader) {
        var m := FindFirstM3U8URL(str);
        if m != "" {
          quickReplayURL := m;
          text := fetch(quickReplayURL);
        }
      }
    }

    /** The line loop of `recordVOD`: segments are downloaded, the first nested playlist is followed. */
    method WalkLines<U>(fetch: string -> Option<string>, lib: URLLib<U>, lines: seq<string>, fuel: nat)
      returns (done: bool)
      requires fuel >= 1
      modifies this
      ensures Run(State(), done) == Walk(fetch, lib, old(State()), lines, fuel)
      decreases fuel, 1
    {
      var i := 0;
      while i < |lines|
        invariant 0 <= i <= |lines|
        invariant Walk(fetch, lib, old(State()), lines, fuel) == Walk(fetch, lib, State(), lines[i..], fuel)
      {
        var kind := ClassifyLine(lib, quickReplayURL, lines[i]);
        WalkStep(fetch, lib, State(), lines, i, fuel);
        var stop;
        stop, done := Turn(fetch, lib, kind, lines[i + 1..], fuel);
        if stop {
          return;
        }
        i := i + 1;
      }
      done := true;
    }

    /**
     * One turn of the line loop on a line of kind `kind`: a nested playlist is followed
     * and ends the loop (`stop`); a segment is handed to the downloader; anything else
     * is skipped.
     */
    method Turn<U>(fetch: string -> Option<string>, lib: URLLib<U>, kind: LineKind, ghost rest: seq<string>, fuel: nat)
      returns (stop: bool, done: bool)
      requires fuel >= 1
      modifies this
      ensures stop <==> kind.Nested?
      ensures stop ==> Run(State(), done) == WalkLine(fetch, lib, old(State()), kind, rest, fuel)
      ensures !stop ==> WalkLine(fetch, lib, old(State()), kind, rest, fuel) == Walk(fetch, lib, State(), rest, fuel)
      decreases fuel, 0, 1
    {
      stop, done := false, false;
      match kind {
        case Nested(u) =>
          stop := true;
          done := FollowNested(fetch, lib, u, fuel);
        case Segment(u) =>
          newTsURL := u;
          downloads := downloads + [newTsURL];
        case _ =>
      }
    }

    /** A nested playlist line: switch to that playlist and record it, one level deeper. */
    method FollowNested<U>(fetch: string -> Option<string>, lib: URLLib<U>, url: string, fuel: nat) returns (done: bool)
      requires fuel >= 1
      modifies this
      ensures Run(State(), done) == Record(fetch, lib, old(State()).(quickReplayURL := url), fuel - 1)
      decreases fuel, 0, 0
    {
      quickReplayURL := url;
      done := RecordVOD(fetch, lib, fuel - 1);
    }

    /** The tests `recordVOD` makes on one raw line, in its order. */
    static method ClassifyLine<U>(lib: URLLib<U>, base: string, raw: string) returns (kind: LineKind)
      ensures kind == Classify(lib, base, raw)
    {
      if "#" <= raw {
        return Comment;
      }
      var line := TrimSpace(raw);
      if line == "" {
        return Blank;
      }
      var resolved := ResolveURL(lib, base, line);
      if Contains(line, PlaylistMarker) && resolved.Some? {
        return Nested(resolved.value);
      }
      if resolved.Some? {
        return Segment(resolved.value);
      }
      return Segment(Fallback(base, line));
    }
  }
}
