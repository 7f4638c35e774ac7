/**
 * The progress display of the HLS download (live/replay.go:176-262): the
 * `key=value` lines that `ffmpeg -progress pipe:1` writes update three pieces of
 * state, and a throttled redraw shows percent, speed and average rate.
 *
 * The wall clock is an integer number of milliseconds passed in by the caller; the
 * display is recorded as a list of `Output` values rather than written to a terminal.
 */
module ReplayProgress {
  import opened Wrappers
  import opened GoStrings

  /** Minimum time between two unforced redraws, in milliseconds. */
  const ThrottleMs: int := 200

  /** The two progress keys that both carry the output time in microseconds. */
  predicate IsOutTimeKey(key: string) {
    key == "out_time_ms" || key == "out_time_us"
  }

  // ---------------------------------------------------------------------------
  // Integer division as Go does it
  // ---------------------------------------------------------------------------

  /** Go's `v / 1000` on `int64`: the quotient truncated toward zero. */
  function TruncDiv1000(v: int): (q: int)
    ensures 0 <= v ==> 0 <= v - q * 1000 < 1000
    ensures v < 0 ==> 0 <= q * 1000 - v < 1000
    ensures IsInt64(v) ==> IsInt64(q)
  {
    if v >= 0 then v / 1000 else -((-v) / 1000)
  }

  /** For a negative value that is not a multiple of 1000, truncation is one above Dafny's floor division. */
  lemma TruncDivAboveFloor(v: int)
    requires v < 0 && v % 1000 != 0
    ensures TruncDiv1000(v) == v / 1000 + 1
  {
    var q := TruncDiv1000(v);
    assert v / 1000 * 1000 + v % 1000 == v;
    assert 0 < v % 1000 < 1000;
    assert q * 1000 - 1000 < v < q * 1000;
  }

  // ---------------------------------------------------------------------------
  // The state the progress lines update
  // ---------------------------------------------------------------------------

  /** `lastOutTimeMS`, `lastTotalSize` and `lastSpeed`. */
  datatype Sample = Sample(outTimeMS: int, totalSize: int, speed: string)

  /** The zero values the three variables start from. */
  const Start: Sample := Sample(0, 0, "")

  /**
   * The key and value of one line of ffmpeg output: the trimmed line cut at its first
   * `=`. A blank line and a line without `=` give nothing.
   */
  function ParseLine(raw: string): (r: Option<(string, string)>)
    ensures r.None? <==> AllSpace(raw) || '=' !in TrimSpace(raw)
    ensures r.Some? ==> TrimSpace(raw) == r.value.0 + "=" + r.value.1 && '=' !in r.value.0
  {
    var line := TrimSpace(raw);
    if line == "" then None else Cut(line, '=')
  }

  /** The `switch key` of the scanner loop, without its printing. Each key changes at most its own field. */
  function ApplyField(s: Sample, key: string, value: string): (r: Sample)
    ensures r.outTimeMS != s.outTimeMS ==> IsOutTimeKey(key) && ParseInt(value).Some?
    ensures r.totalSize != s.totalSize ==> key == "total_size" && ParseInt(value).Some?
    ensures r.speed != s.speed ==> key == "speed"
    ensures IsOutTimeKey(key) && ParseInt(value).Some? ==> r.outTimeMS == TruncDiv1000(ParseInt(value).value)
    ensures key == "total_size" && ParseInt(value).Some? ==> r.totalSize == ParseInt(value).value
    ensures key == "speed" ==> r.speed == value
  {
    if IsOutTimeKey(key) then
      match ParseInt(value)
      case Some(v) => s.(outTimeMS := TruncDiv1000(v))
      case None => s
    else if key == "total_size" then
      match ParseInt(value)
      case Some(v) => s.(totalSize := v)
      case None => s
    else if key == "speed" then
      s.(speed := value)
    else
      s
  }

  /** What one raw line does to the three variables. */
  function ApplyLine(s: Sample, raw: string): (r: Sample)
    ensures ParseLine(raw).None? ==> r == s
  {
    match ParseLine(raw)
    case None => s
    case Some((key, value)) => ApplyField(s, key, value)
  }

  /** The three variables after a whole stream of lines. */
  function ApplyLines(s: Sample, lines: seq<string>): Sample
    decreases |lines|
  {
    if lines == [] then s else ApplyLines(ApplyLine(s, lines[0]), lines[1..])
  }

  // ---------------------------------------------------------------------------
  // The display rules of printProgress
  // ---------------------------------------------------------------------------

  /** One thing written to the terminal: a progress frame or the newline after it. */
  datatype Output =
    | Frame(percent: Option<real>, speed: string, rate: Option<real>)
    | LineBreak

  /**
   * The percent shown: absent (`--`) unless both the total duration and the output time
   * are positive; otherwise the share of the duration already written, capped at 100.
   */
  function Percent(totalDurationSec: real, outTimeMS: int): (r: Option<real>)
    ensures r.Some? <==> totalDurationSec > 0.0 && outTimeMS > 0
    ensures r.Some? ==> 0.0 <= r.value <= 100.0
    ensures r.Some? && outTimeMS as real <= totalDurationSec * 1000.0 ==>
      r.value * totalDurationSec * 10.0 == outTimeMS as real
    ensures r.Some? && outTimeMS as real >= totalDurationSec * 1000.0 ==> r.value == 100.0
  {
    if totalDurationSec > 0.0 && outTimeMS > 0 then
      var p := outTimeMS as real / (totalDurationSec * 1000.0) * 100.0;
      var p1 := if p < 0.0 then 0.0 else p;
      Some(if p1 > 100.0 then 100.0 else p1)
    else
      None
  }

  /** The speed shown: the last reported speed, trimmed, or `--` when it is blank. */
  function SpeedText(lastSpeed: string): (r: string)
    ensures r != ""
    ensures AllSpace(lastSpeed) ==> r == "--"
    ensures !AllSpace(lastSpeed) ==> r == TrimSpace(lastSpeed)
  {
    var t := TrimSpace(lastSpeed);
    if t == "" then "--" else t
  }

  /**
   * The average rate in MiB per second, shown only after more than one second and once
   * some bytes were written; rate times elapsed seconds is the MiB written.
   */
  function Rate(elapsedMs: int, totalSize: int): (r: Option<real>)
    ensures r.Some? <==> elapsedMs > 1000 && totalSize > 0
    ensures r.Some? ==> r.value > 0.0
    ensures r.Some? ==> r.value * (elapsedMs as real / 1000.0) == totalSize as real / 1048576.0
  {
    var elapsed := elapsedMs as real / 1000.0;
    if elapsed > 1.0 && totalSize > 0 then
      Some((totalSize as real / 1024.0 / 1024.0) / elapsed)
    else
      None
  }

  /** The fixed inputs of the display: the probed duration and the start time. */
  datatype Setup = Setup(totalDurationSec: real, startWall: int)

  /**
   * The frame drawn for a sample at time `now`: a percent between 0 and 100 once the
   * duration and the output time are known, a speed that is never blank, and a rate
   * once more than a second has passed with bytes written.
   */
  function Render(cfg: Setup, s: Sample, now: int): (r: Output)
    ensures r.Frame?
    ensures r.percent.Some? <==> cfg.totalDurationSec > 0.0 && s.outTimeMS > 0
    ensures r.percent.Some? ==> 0.0 <= r.percent.value <= 100.0
    ensures r.speed != "" && (AllSpace(s.speed) ==> r.speed == "--")
    ensures !AllSpace(s.speed) ==> r.speed == TrimSpace(s.speed)
    ensures r.rate.Some? <==> now - cfg.startWall > 1000 && s.totalSize > 0
    ensures r.rate.Some? ==> r.rate.value > 0.0
  {
    Frame(Percent(cfg.totalDurationSec, s.outTimeMS), SpeedText(s.speed), Rate(now - cfg.startWall, s.totalSize))
  }

  /**
   * Redrawing the same sample later changes only the rate, and the rate can only fall:
   * the same bytes are spread over a longer time.
   */
  lemma {:induction false} LaterFrameSameButRate(cfg: Setup, s: Sample, t1: int, t2: int)
    requires t1 <= t2
    ensures var f1 := Render(cfg, s, t1); var f2 := Render(cfg, s, t2);
      && f1.percent == f2.percent && f1.speed == f2.speed
      && (f1.rate.Some? ==> f2.rate.Some? && f2.rate.value <= f1.rate.value)
  {
    var f1 := Render(cfg, s, t1);
    var f2 := Render(cfg, s, t2);
    if f1.rate.Some? {
      var e1 := (t1 - cfg.startWall) as real / 1000.0;
      var e2 := (t2 - cfg.startWall) as real / 1000.0;
      var mib := s.totalSize as real / 1048576.0;
      var v1, v2 := f1.rate.value, f2.rate.value;
      assert v1 * e1 == mib;
      assert v2 * e2 == mib;
      SameProductLongerSmaller(v1, e1, v2, e2, mib);
    }
  }

  /** Of two positive rates with the same product, the one over the longer time is smaller. */
  lemma SameProductLongerSmaller(v1: real, e1: real, v2: real, e2: real, m: real)
    requires 0.0 < e1 <= e2 && v2 > 0.0
    requires v1 * e1 == m && v2 * e2 == m
    ensures v2 <= v1
  {
    ScalePositive(v2, e1, e2);
    CancelPositive(v2, v1, e1);
  }

  /** Multiplying by a positive factor keeps `<=`. */
  lemma ScalePositive(k: real, x: real, y: real)
    requires k > 0.0 && x <= y
    ensures k * x <= k * y
  {
  }

  /** A positive factor can be cancelled from both sides of `<=`. */
  lemma CancelPositive(x: real, y: real, k: real)
    requires k > 0.0 && x * k <= y * k
    ensures x <= y
  {
  }

  /**
   * Whether printProgress draws: when forced, before the first drawing (the zero time
   * lies arbitrarily far back) or when at least 200 ms passed since the last one.
   */
  predicate Due(force: bool, lastPrint: Option<int>, now: int) {
    force || lastPrint.None? || now - lastPrint.value >= ThrottleMs
  }

  // ---------------------------------------------------------------------------
  // The whole display state and its steps
  // ---------------------------------------------------------------------------

  /** The variables the closure captures, with everything drawn so far. */
  datatype Monitor = Monitor(sample: Sample, lastPrint: Option<int>, printed: seq<Output>)

  /** `printProgress(force)` at time `now`. */
  function Print(cfg: Setup, m: Monitor, force: bool, now: int): (r: Monitor)
    ensures r.sample == m.sample
    ensures Due(force, m.lastPrint, now) ==>
      r.lastPrint == Some(now) && r.printed == m.printed + [Render(cfg, m.sample, now)]
    ensures !Due(force, m.lastPrint, now) ==> r == m
  {
    if Due(force, m.lastPrint, now) then
      Monitor(m.sample, Some(now), m.printed + [Render(cfg, m.sample, now)])
    else
      m
  }

  /**
   * The clock as the two `printProgress` calls of one loop iteration read it: `forced`
   * in the forced call a `progress` line makes, `after` in the unforced call that ends
   * every iteration.
   */
  datatype Tick = Tick(forced: int, after: int)

  /** One iteration of the scanner loop. */
  function LineStep(cfg: Setup, m: Monitor, raw: string, t: Tick): (r: Monitor)
    ensures r.sample == ApplyLine(m.sample, raw)
  {
    match ParseLine(raw)
    case None => m
    case Some((key, value)) =>
      var m1 := m.(sample := ApplyField(m.sample, key, value));
      var m2 := if key == "progress" then Print(cfg, m1, true, t.forced) else m1;
      var m3 := if key == "progress" && value == "end" then m2.(printed := m2.printed + [LineBreak]) else m2;
      Print(cfg, m3, false, t.after)
  }

  /** The scanner loop over a stream of lines; `clock[i]` holds the readings of line `i`. */
  function RunLines(cfg: Setup, m: Monitor, lines: seq<string>, clock: seq<Tick>): Monitor
    requires |clock| == |lines|
    decreases |lines|
  {
    if lines == [] then m else RunLines(cfg, LineStep(cfg, m, lines[0], clock[0]), lines[1..], clock[1..])
  }

  /** A blank line, or one without `=`, changes nothing and draws nothing. */
  lemma IgnoredLine(cfg: Setup, m: Monitor, raw: string, t: Tick)
    requires AllSpace(raw) || '=' !in TrimSpace(raw)
    ensures LineStep(cfg, m, raw, t) == m
  {
  }

  /**
   * A `progress` line forces a frame of the state before it, then a newline when the
   * value is `end`; the unforced call that follows draws a second frame exactly when
   * 200 ms passed between the two calls.
   */
  lemma ProgressLineForcesFrame(cfg: Setup, m: Monitor, raw: string, t: Tick, value: string)
    requires ParseLine(raw) == Some(("progress", value))
    ensures var r := LineStep(cfg, m, raw, t);
      var first := m.printed + [Render(cfg, m.sample, t.forced)] + (if value == "end" then [LineBreak] else []);
      && (t.after - t.forced < ThrottleMs ==> r.lastPrint == Some(t.forced) && r.printed == first)
      && (t.after - t.forced >= ThrottleMs ==>
            r.lastPrint == Some(t.after) && r.printed == first + [Render(cfg, m.sample, t.after)])
  {
    var m1 := m.(sample := ApplyField(m.sample, "progress", value));
    assert m1.sample == m.sample;
    var m2 := Print(cfg, m1, true, t.forced);
    var m3 := if value == "end" then m2.(printed := m2.printed + [LineBreak]) else m2;
    assert m3.lastPrint == Some(t.forced) && m3.sample == m.sample;
  }

  /**
   * Any other line draws a frame of the updated state exactly when 200 ms passed since
   * the last frame (or none was drawn yet), and otherwise leaves the display alone.
   */
  lemma OtherLineThrottled(cfg: Setup, m: Monitor, raw: string, t: Tick, key: string, value: string)
    requires ParseLine(raw) == Some((key, value)) && key != "progress"
    ensures var r := LineStep(cfg, m, raw, t);
      && (Due(false, m.lastPrint, t.after) ==>
            r.lastPrint == Some(t.after) && r.printed == m.printed + [Render(cfg, r.sample, t.after)])
      && (!Due(false, m.lastPrint, t.after) ==> r.lastPrint == m.lastPrint && r.printed == m.printed)
  {
  }

  /** Drawing only appends: what is on the terminal is never taken back. */
  lemma {:induction false} RunLinesAppends(cfg: Setup, m: Monitor, lines: seq<string>, clock: seq<Tick>)
    requires |clock| == |lines|
    ensures m.printed <= RunLines(cfg, m, lines, clock).printed
    decreases |lines|
  {
    if lines != [] {
      var m' := LineStep(cfg, m, lines[0], clock[0]);
      assert m.printed <= m'.printed;
      RunLinesAppends(cfg, m', lines[1..], clock[1..]);
    }
  }

  /**
   * The three variables after a stream depend on the lines alone: neither the clock nor
   * the throttling has any effect on them.
   */
  lemma {:induction false} RunLinesSample(cfg: Setup, m: Monitor, lines: seq<string>, clock: seq<Tick>)
    requires |clock| == |lines|
    ensures RunLines(cfg, m, lines, clock).sample == ApplyLines(m.sample, lines)
    decreases |lines|
  {
    if lines != [] {
      RunLinesSample(cfg, LineStep(cfg, m, lines[0], clock[0]), lines[1..], clock[1..]);
    }
  }

  /** The error returned when ffmpeg fails: its error, followed by its trimmed stderr when that is not blank. */
  function ExitMessage(err: string, stderr: string): (r: string)
    ensures err <= r
    ensures r == err <==> AllSpace(stderr)
    ensures r != err ==> r[|err|..] == ": " + TrimSpace(stderr)
  {
    var msg := TrimSpace(stderr);
    if msg == "" then err else err + ": " + msg
  }

  // ---------------------------------------------------------------------------
  // The loop itself, over mutable state
  // ---------------------------------------------------------------------------

  /** The closure's captured variables, updated in place as ffmpeg reports progress. */
  class ProgressPrinter {
    const totalDurationSec: real
    const startWall: int
    var lastPrint: Option<int>
    var lastSpeed: string
    var lastOutTimeMS: int
    var lastTotalSize: int
    var printed: seq<Output>

    function Config(): Setup {
      Setup(totalDurationSec, startWall)
    }

    function State(): Monitor
      reads this
    {
      Monitor(Sample(lastOutTimeMS, lastTotalSize, lastSpeed), lastPrint, printed)
    }

    constructor(totalDurationSec: real, startWall: int)
      ensures Config() == Setup(totalDurationSec, startWall)
      ensures State() == Monitor(Start, None, [])
    {
      this.totalDurationSec := totalDurationSec;
      this.startWall := startWall;
      lastPrint := None;
      lastSpeed := "";
      lastOutTimeMS := 0;
      lastTotalSize := 0;
      printed := [];
    }

    /** `printProgress(force)` with the clock reading `now`. */
    method PrintProgress(force: bool, now: int)
      modifies this
      ensures State() == Print(Config(), old(State()), force, now)
    {
      if !force && lastPrint.Some? && now - lastPrint.value < ThrottleMs {
        return;
      }
      lastPrint := Some(now);
      printed := printed + [Render(Config(), Sample(lastOutTimeMS, lastTotalSize, lastSpeed), now)];
    }

    /** The `switch key` of the scanner loop, apart from its printing. */
    method Record(key: string, value: string)
      modifies this
      ensures State() == old(State()).(sample := ApplyField(old(State()).sample, key, value))
    {
      if IsOutTimeKey(key) {
        var v := ParseInt(value);
        if v.Some? {
          lastOutTimeMS := TruncDiv1000(v.value);
        }
      } else if key == "total_size" {
        var v := ParseInt(value);
        if v.Some? {
          lastTotalSize := v.value;
        }
      } else if key == "speed" {
        lastSpeed := value;
      }
    }

    /** One iteration of the scanner loop, with the clock readings of its two `printProgress` calls. */
    method HandleLine(raw: string, t: Tick)
      modifies this
      ensures State() == LineStep(Config(), old(State()), raw, t)
    {
      var line := TrimSpace(raw);
      if line == "" {
        return;
      }
      var kv := Cut(line, '=');
      if kv.None? {
        return;
      }
      var (key, value) := kv.value;
      assert ParseLine(raw) == Some((key, value));
      Record(key, value);
      if key == "progress" {
        PrintProgress(true, t.forced);
        if value == "end" {
          printed := printed + [LineBreak];
        }
      }
      PrintProgress(false, t.after);
    }

    /** The scanner loop over ffmpeg's output; `clock[i]` holds the readings of line `i`. */
    method Consume(lines: seq<string>, clock: seq<Tick>)
      requires |clock| == |lines|
      modifies this
      ensures State() == RunLines(Config(), old(State()), lines, clock)
    {
      var i := 0;
      while i < |lines|
        invariant 0 <= i <= |lines|
        invariant RunLines(Config(), old(State()), lines, clock)
               == RunLines(Config(), State(), lines[i..], clock[i..])
      {
        assert lines[i..][1..] == lines[i + 1..] && clock[i..][1..] == clock[i + 1..];
        HandleLine(lines[i], clock[i]);
        i := i + 1;
      }
    }

    /**
     * After ffmpeg exits: a failure is reported with its stderr and draws nothing; on
     * success a final frame is forced and followed by a newline.
     */
    method Finish(waitErr: Option<string>, stderr: string, now: int) returns (err: Option<string>)
      modifies this
      ensures waitErr.Some? ==> err == Some(ExitMessage(waitErr.value, stderr)) && State() == old(State())
      ensures waitErr.None? ==> err.None?
      ensures waitErr.None? ==>
        var m := Print(Config(), old(State()), true, now);
        State() == m.(printed := m.printed + [LineBreak])
    {
      if waitErr.Some? {
        var msg := TrimSpace(stderr);
        if msg == "" {
          return Some(waitErr.value);
        }
        return Some(waitErr.value + ": " + msg);
      }
      PrintProgress(true, now);
      printed := printed + [LineBreak];
      err := None;
    }
  }
}
