# KouShare-dl core in Dafny

A model of the engineering core of KouShare-dl, a downloader for the KouShare lecture
platform, with proofs about that model:

- **Request signing** (`Kssign`, internal/kssign/kssign.go). This covers the tolerant
  query-string parser that copies the platform's web front end. It does no
  percent-decoding, and tokens without a proper `key=` part are glued onto the pending
  token. It also covers the `Ks-Sign` / `Ks-Timestamp` pair: non-empty parameters in
  ascending key order, then the request method, the timestamp and the salt digest.
- **Base URLs** (`Config`, internal/config/config.go). This covers `normalizeBaseURL`
  and the three stored bases. The three setters ignore a blank override. Start-up
  applies the `KOUSHARE_*_BASE` overrides.
- **Playlist URLs** (`LiveUrl`, live/url.go). `findFirstM3U8URL` is written out as a
  scanner for the regular expression `https?://[^\s"'<>]+?\.m3u8[^\s"'<>]*`.
  `resolveURL` sits on top of an abstract URL library.
- **Replay downloader** (live/replay.go):
  - `ReplayProgress` covers the ffmpeg progress loop. It includes the throttled redraw
    with its percent, speed and MB/s rules, and the exit message.
  - `ReplayText` covers the `HH:MM:SS` duration format, the filename sanitiser,
    `firstNonEmpty` and the choice of the highest rendition.
  - `ReplayPlaylist` covers the duration probe, which follows at most three playlists.
    It also covers `recordVOD`, which walks a media playlist, follows a nested playlist
    and hands each segment URL to the downloader.

Two modules support the rest:

- `GoStrings` holds the parts of Go's `strings` and `strconv` that the core uses.
- `GoSort` holds Go's string order and `sort.Strings`.

The code's state is modelled with the code's own structure:

- **Global configuration** becomes the class `Config.BaseURLs`. Its getters
  `APIBaseURL`, `WebBaseURL` and `LoginBaseURL` are reads of its fields.
- **The progress closure's captured variables** become the class
  `ReplayProgress.ProgressPrinter`.
- **The `Live` receiver of `recordVOD`** becomes the class `ReplayPlaylist.Live`. Its
  `downloads` field records, in order, every segment URL that was handed to
  `downloadAndMergeTsFile`.

The loops of the source that update variables are methods with loop invariants. Each
is proved against a function that states the whole computation, and the properties are
proved about those functions. The one exception is `firstNonEmpty`
(live/replay.go:402-409): its loop only returns the first non-blank value, updating
nothing, and it is the recursive function `ReplayText.FirstNonEmpty`.

Some of the code's dependencies are outside the model and appear as parameters:

| parameter | stands for |
|---|---|
| `md5Hex` | MD5 hex digests |
| `timestampMs` | the clock reading in `Sign` |
| `fetch` | HTTP GET: URL to body, or `None` on error |
| `parseFloat` | `strconv.ParseFloat` |
| `URLLib` | `net/url` parsing and reference resolution |
| `now`, `Tick` | the wall clock of the progress display: one reading per `printProgress` call, so a loop iteration has two (`Tick`) |

## Model

| member | source | states |
|---|---|---|
| Kssign.IsAllEquals | internal/kssign/kssign.go:69-76 | true exactly when every character is `=` (the empty string included) |
| Kssign.ContinuationSimplified | internal/kssign/kssign.go:51-53 | for a non-empty token the three-way continuation test is "no `=`, or starts with `=`"; the all-`=` case adds nothing |
| Kssign.ParseQueryLikeFrontend | internal/kssign/kssign.go:24-67 | the token loop computes the parse `ParseQuery`; blank input gives the empty map; every key is non-empty and free of `=` |
| Kssign.Flush | internal/kssign/kssign.go:34-45 | the flush closure: empty pending, no `=`, or empty key leaves the map alone; otherwise stores key/value split at the first `=` |
| Kssign.FlushPair | internal/kssign/kssign.go:38-43 | flushing `k=v` with a non-empty key free of `=` stores exactly `k := v` |
| Kssign.StepPlain | internal/kssign/kssign.go:53-62 | a token `k=v` with a proper key flushes the pending token and becomes the new pending token |
| Kssign.StepEquals | internal/kssign/kssign.go:53-59 | a token starting with `=` is glued onto the pending token with `&` (or becomes it when nothing is pending) |
| Kssign.StepNoEquals | internal/kssign/kssign.go:53-59 | a non-empty token without `=` is glued onto the pending token with `&` (or becomes it) |
| Kssign.FlushKeepsWellFormed | internal/kssign/kssign.go:38-43 | a flush never adds an empty key or a key containing `=` |
| Kssign.ScanPartsWellFormed | internal/kssign/kssign.go:47-63 | the map built by the token loop only has well-formed keys |
| Kssign.ParseQueryWellFormed | internal/kssign/kssign.go:24-67 | every key of a parse result is non-empty and holds no `=` |
| Kssign.PlainFlush | internal/kssign/kssign.go:47-64 | on tokens that are all `key=value` with proper keys, loop plus final flush equals the plain left-to-right pair map (later keys overwrite) |
| Kssign.ParsePlainQuery | internal/kssign/kssign.go:24-67 | when every `&`-token is a plain pair, the parser is the ordinary split-on-`&`, split-on-first-`=` map |
| Kssign.TwoPairs | internal/kssign/kssign.go:24-67 | `k1=v1&k2=v2` parses to `{k1: v1, k2: v2}` |
| Kssign.LaterKeyWins | internal/kssign/kssign.go:43 | a repeated key keeps its last value |
| Kssign.LeadingJunkDropped | internal/kssign/kssign.go:35-41 | a leading token without `=` is flushed without a key and dropped: `foo&a=1` gives `{a: 1}` |
| Kssign.EqualsTokenContinues | internal/kssign/kssign.go:53-58 | a token starting with `=` continues the previous value instead of starting a new pair: `a=1&=x` gives `{a: "1&=x"}` |
| Kssign.GluedKey | internal/kssign/kssign.go:38-58 | `foo&=x` is one pending token cut at its first `=`: `{"foo&": "x"}` |
| Kssign.ParseURLQueryLikeFrontend | internal/kssign/kssign.go:79-85 | a URL without `?` gives the empty map |
| Kssign.URLQueryAfterFirstMark | internal/kssign/kssign.go:79-85 | with the first `?` at `i`: empty map when `?` is the last character, otherwise the query parse of everything after it |
| Kssign.CanonicalMethod | internal/kssign/kssign.go:91-94 | the signed method is non-empty, has no lower-case ASCII letter, no surrounding space, and is `GET` for a blank method |
| Kssign.CanonicalMethodIdempotent | internal/kssign/kssign.go:91-94 | canonicalising a canonical method changes nothing |
| Kssign.Clean | internal/kssign/kssign.go:96-102 | keeps exactly the parameters with a non-empty value, with their values |
| Kssign.CleanParams | internal/kssign/kssign.go:96-102 | the filtering loop builds `Clean(params)` |
| Kssign.CollectKeys | internal/kssign/kssign.go:104-107 | the key list has no repeats and holds exactly the keys of the cleaned map |
| Kssign.Pairs | internal/kssign/kssign.go:111-118 | one `key=value` piece per key, in key order |
| Kssign.BuildQuery | internal/kssign/kssign.go:110-118 | the builder loop writes the pieces joined by `&` |
| Kssign.Sign | internal/kssign/kssign.go:89-125 | the returned timestamp is the one signed; the signature is `md5Hex` of the sign input (sorted non-empty pairs, then method, timestamp and salt digest) |
| Kssign.CanonicalQueryEmpty | internal/kssign/kssign.go:110-124 | the query part is empty exactly when no parameter has a non-empty value |
| Kssign.CanonicalQueryOrder | internal/kssign/kssign.go:104-118 | any strictly ascending list of the non-empty keys produces the signed query, so the order is fixed by `sort.Strings` alone |
| Kssign.SignIgnoresEmptyValues | internal/kssign/kssign.go:97-101 | removing a parameter whose value is empty does not change the sign input, and that key is never signed |
| Kssign.SignInputLayout | internal/kssign/kssign.go:120-124 | the sign input is `method=M&timestamp=T&saltmd5=D`, preceded by the query and `&` exactly when the query is non-empty |
| Kssign.CanonicalQueryParsesBack | internal/kssign/kssign.go:24-67 | for keys and values free of `&`, `=` (keys) and space, the front-end parser reads the signed query back as the cleaned parameters |
| GoSort.LessTransitive | internal/kssign/kssign.go:108 | Go's string order is transitive |
| GoSort.LessTotal | internal/kssign/kssign.go:108 | any two different strings are ordered one way |
| GoSort.SortDistinct | internal/kssign/kssign.go:108 | sorting distinct keys gives a strictly ascending permutation of them |
| GoSort.SortedKeys | internal/kssign/kssign.go:104-108 | the keys of a set in ascending order, as many as the set has |
| GoSort.StrictlySortedUnique | internal/kssign/kssign.go:108 | two strictly ascending lists with the same members are equal, so the signed order is unique |
| GoStrings.TrimSpace | internal/kssign/kssign.go:25 | the result is empty exactly for blank input, otherwise starts and ends with a non-space |
| GoStrings.TrimSpaceIdempotent | internal/config/config.go:27 | trimming twice is trimming once |
| GoStrings.Cut | internal/kssign/kssign.go:38 | splits at the first separator, or reports that there is none |
| GoStrings.Split | internal/kssign/kssign.go:30 | at least one part, and no part holds the separator |
| GoStrings.JoinSplit | internal/kssign/kssign.go:30 | joining the parts of a split gives back the string |
| GoStrings.SplitJoin | internal/kssign/kssign.go:30 | splitting a join of separator-free parts gives back the parts |
| GoStrings.IndexOfChar | internal/kssign/kssign.go:80 | the first position of the character, or -1 exactly when it is absent |
| GoStrings.LastIndexOfChar | live/replay.go:452 | the last position of the character, or -1 exactly when it is absent |
| GoStrings.ToUpper | internal/kssign/kssign.go:91 | same length, each character upper-cased, no lower-case ASCII left |
| GoStrings.FormatInt | internal/kssign/kssign.go:128-130 | a minus sign exactly for a negative number, followed by non-empty decimal digits whose value is the magnitude and that have no leading zero (only `0` itself starts with `0`) |
| GoStrings.ParseInt | live/replay.go:228 | `strconv.ParseInt(s, 10, 64)`: a result exists only for an optional `+`/`-` followed by at least one digit, so `N/A`, `1.5`, `12a` and a lone sign fail; plain, `+` and `-` digit strings give their (negated) value exactly when it fits in `int64`, and fail otherwise |
| GoStrings.FormatIntRoundTrip | internal/kssign/kssign.go:128-130 | the decimal form of an `int64` parses back to the same number |
| GoStrings.TrimRightChar | internal/config/config.go:31 | the longest prefix not ending in `/`; only `/` was removed |
| Config.NormalizeBaseURL | internal/config/config.go:26-36 | empty exactly for blank input; otherwise it has a scheme, and it is the trimmed value without trailing `/`, prefixed with `https://` when it had no scheme |
| Config.NormalizeIgnoresSurroundingSpace | internal/config/config.go:27 | surrounding white space does not matter |
| Config.NormalizeOnlySlashes | internal/config/config.go:26-36 | a value of slashes only normalises to the bare `https://` |
| Config.NormalizeNotIdempotent | internal/config/config.go:31-35 | `/` gives `https://`, and normalising that again gives `https://https:` |
| Config.NormalizeFixpoint | internal/config/config.go:26-36 | a trimmed URL with a scheme and no trailing `/` is left unchanged |
| Config.BaseURLs.constructor | internal/config/config.go:8-12 | the three defaults |
| Config.BaseURLs.APIBaseURL | internal/config/config.go:38 | the stored API base, which always starts with a scheme |
| Config.BaseURLs.WebBaseURL | internal/config/config.go:40 | the stored web base, which always starts with a scheme |
| Config.BaseURLs.LoginBaseURL | internal/config/config.go:42 | the stored login base, which always starts with a scheme |
| Config.BaseURLs.SetAPIBaseURL | internal/config/config.go:44-48 | a blank value changes nothing; otherwise the API base becomes the normalised value; the other bases are untouched; every base keeps a scheme |
| Config.BaseURLs.SetWebBaseURL | internal/config/config.go:50-54 | the same guarded update for the web base |
| Config.BaseURLs.SetLoginBaseURL | internal/config/config.go:56-60 | the same guarded update for the login base |
| Config.BaseURLs.Init | internal/config/config.go:14-24 | each base becomes its override when the environment value is non-blank, and keeps its value otherwise |
| Config.Override | internal/config/config.go:15-23 | a non-blank override replaces the base with the normalised value, which has a scheme; a blank one keeps it |
| LiveUrl.SchemeLen | live/url.go:9 | 8 exactly at `https://`, 7 exactly at `http://`, otherwise 0 |
| LiveUrl.RunEnd | live/url.go:9 | the end of the run of characters `[^\s"'<>]` accepts |
| LiveUrl.MatchEnd | live/url.go:9 | a match starts at `p` exactly when a scheme is followed by at least one allowed character and then `.m3u8` within the run; the greedy tail makes the match end where the run ends |
| LiveUrl.FirstMatchFrom | live/url.go:9-12 | the leftmost match start at or after `p`, or none when there is none |
| LiveUrl.FindString | live/url.go:9-12 | `FindString` of the expression: empty exactly when the text holds no match, otherwise starting with `h` |
| LiveUrl.FindFirstM3U8URL | live/url.go:11-13 | the result is empty exactly when the text holds no match, and otherwise starts with `h` |
| LiveUrl.FoundAt | live/url.go:11-13 | a found URL is the trimmed leftmost match |
| LiveUrl.TrimmedMatch | live/url.go:11-13 | trimming only removes trailing white space, never the scheme or the `.m3u8` |
| LiveUrl.FoundURLLeftmost | live/url.go:11-13 | the result is a substring of the text at the leftmost match start, extended over the whole allowed run except trailing white space |
| LiveUrl.FoundURLScheme | live/url.go:9-13 | the result starts with `http://` or `https://` and holds `.m3u8` after at least one character |
| LiveUrl.FoundURLAllowed | live/url.go:9-13 | the result holds no `\s`, quote or angle bracket |
| LiveUrl.ResolveURL | live/url.go:15-28 | resolution fails exactly when the trimmed base or reference does not parse; an absolute reference is rendered as it is, a relative one resolved against the base |
| LiveUrl.ResolveURLTrims | live/url.go:16-20 | white space around either argument makes no difference |
| ReplayText.HMS | live/replay.go:298-303 | hours, minutes (<60) and seconds (<60) that add up to the whole seconds |
| ReplayText.WholeSecondsOfNanos | live/replay.go:298-303 | converting to whole nanoseconds and dividing keeps the floor of the seconds |
| ReplayText.Pad2 | live/replay.go:304 | `%02d`: digits that read back as the number, exactly two below 100, and without a leading zero when longer |
| ReplayText.FormatDurationSeconds | live/replay.go:294-305 | a non-positive duration shows the "unknown" text (no `:`) |
| ReplayText.FormatDurationReadsBack | live/replay.go:294-305 | a positive duration shows three colon-separated digit fields: hours of two or more digits with no leading zero beyond two, minutes and seconds of exactly two digits and below 60, and `h*3600+m*60+s` the whole seconds |
| ReplayText.RemoveForbidden | live/replay.go:364-365 | no forbidden file-name character is left, and every other character occurs exactly as often as in the input |
| ReplayText.RemoveForbiddenDrops | live/replay.go:364-365 | a forbidden character is replaced by nothing |
| ReplayText.RemoveForbiddenAppend | live/replay.go:364-365 | removal works piece by piece, so the kept characters stay in their order |
| ReplayText.RemoveForbiddenKeeps | live/replay.go:364-365 | a string without forbidden characters is kept as it is |
| ReplayText.SanitizeFilePart | live/replay.go:359-375 | blank gives empty; at most 80 characters, none forbidden, no leading space; a prefix of the cleaned and trimmed title, truncated to 80 |
| ReplayText.SanitizeKeepsCleanTitle | live/replay.go:359-375 | a short trimmed title with no forbidden character is kept |
| ReplayText.FirstNonEmpty | live/replay.go:402-409 | empty exactly when every value is blank; otherwise the first non-blank value, untrimmed |
| ReplayText.SelectBest | live/replay.go:93-109 | the URL is empty exactly when no entry with a URL has a positive height; otherwise the first entry of greatest height among those with a URL; the height bounds every such entry |
| ReplayProgress.TruncDiv1000 | live/replay.go:230 | Go's `/ 1000` truncating toward zero, within `int64` |
| ReplayProgress.TruncDivAboveFloor | live/replay.go:230 | for a negative value that is not a multiple it is one above the floor quotient |
| ReplayProgress.ParseLine | live/replay.go:218-225 | nothing for a blank line or one without `=`; otherwise the trimmed line cut at its first `=` |
| ReplayProgress.ApplyField | live/replay.go:226-241 | which key changes which variable, and only when the number parses; `out_time_ms` and `out_time_us` both divide by 1000 and set the same variable, so whichever line comes last wins |
| ReplayProgress.ApplyLine | live/replay.go:216-241 | ignored lines change nothing |
| ReplayProgress.Percent | live/replay.go:189-199 | shown only when both the duration and the output time are positive; the share of the duration, clamped to 100 |
| ReplayProgress.SpeedText | live/replay.go:201-204 | the trimmed speed, or `--` when blank |
| ReplayProgress.Rate | live/replay.go:206-211 | shown only after more than a second with bytes written; MB per second |
| ReplayProgress.Render | live/replay.go:189-213 | a frame shows a percent in 0..100 exactly when the duration and the output time are positive, a never-blank speed (`--` for a blank one, else the trimmed speed), and a positive rate exactly after more than one second with bytes written |
| ReplayProgress.LaterFrameSameButRate | live/replay.go:189-213 | redrawing the same variables later changes only the rate, which stays shown and can only fall |
| ReplayProgress.Print | live/replay.go:183-188 | when forced or 200 ms have passed, one frame is drawn and the time recorded; otherwise nothing changes |
| ReplayProgress.LineStep | live/replay.go:216-249 | one loop iteration, with separate clock readings for the forced and the unforced `printProgress` call; the variables after a line are those the line sets |
| ReplayProgress.IgnoredLine | live/replay.go:218-225 | a blank line or one without `=` neither updates nor draws |
| ReplayProgress.ProgressLineForcesFrame | live/replay.go:242-248 | a `progress` line forces a frame of the state before it at the first reading, then a newline for `end`; the unforced call draws a second frame exactly when 200 ms passed between the two readings |
| ReplayProgress.OtherLineThrottled | live/replay.go:184-248 | any other line draws one frame with the updated values only when 200 ms have passed since the last frame at the unforced call's reading |
| ReplayProgress.RunLinesAppends | live/replay.go:216-249 | the loop only appends to the display |
| ReplayProgress.RunLinesSample | live/replay.go:216-249 | the variables after the loop depend on the lines only, not on the clock |
| ReplayProgress.ExitMessage | live/replay.go:252-258 | the wait error, followed by `: ` and the trimmed stderr exactly when stderr is not blank |
| ReplayProgress.ProgressPrinter.constructor | live/replay.go:177-181 | zero variables, nothing drawn |
| ReplayProgress.ProgressPrinter.PrintProgress | live/replay.go:183-214 | the new state is the throttled redraw `Print` |
| ReplayProgress.ProgressPrinter.Record | live/replay.go:226-241 | the `switch key`: the three variables become `ApplyField` of their old values; the display and its time are untouched |
| ReplayProgress.ProgressPrinter.HandleLine | live/replay.go:218-248 | one loop turn, each `printProgress` call with its own clock reading: the new state is `LineStep` |
| ReplayProgress.ProgressPrinter.Consume | live/replay.go:216-249 | the scanner loop over all lines the scanner yields: the new state is `RunLines` |
| ReplayProgress.ProgressPrinter.Finish | live/replay.go:252-262 | a wait error is returned with stderr attached and nothing drawn, so no final frame follows a failure; only success forces a last frame and a newline |
| ReplayPlaylist.TrimLines | live/replay.go:319-339 | every line trimmed, same count |
| ReplayPlaylist.ExtinfField | live/replay.go:324-327 | the text after `#EXTINF:` up to the first comma |
| ReplayPlaylist.ScanExtinfSeen | live/replay.go:318-323 | the `#EXTINF` flag is set exactly when some trimmed line starts with `#EXTINF:` |
| ReplayPlaylist.SumExtinf | live/replay.go:317-332 | the first pass's loop computes the flag and sum `ScanExtinf` |
| ReplayPlaylist.FirstPlaylistLine | live/replay.go:337-349 | the first non-blank, non-comment trimmed line holding `.m3u8` that resolves |
| ReplayPlaylist.NextPlaylistIsFirst | live/replay.go:337-349 | the next playlist is that line resolved, or empty when there is none |
| ReplayPlaylist.FindNextPlaylist | live/replay.go:337-349 | the second pass's loop finds the next playlist |
| ReplayPlaylist.Examine | live/replay.go:317-353 | a found duration is positive; a followed playlist URL is non-empty |
| ReplayPlaylist.ExaminePlaylist | live/replay.go:317-353 | the two passes compute the verdict `Examine` |
| ReplayPlaylist.ProbeStep | live/replay.go:311-354 | one round: a found sum ends the probe, no next playlist gives 0, otherwise the probe goes on from the next URL |
| ReplayPlaylist.ProbeBounded | live/replay.go:308-356 | at most three fetches, the first being the starting URL, and never a negative duration |
| ReplayPlaylist.ProbePositiveIsExtinfSum | live/replay.go:317-335 | a positive duration is the `#EXTINF` sum of the last playlist fetched, which did hold an `#EXTINF` line |
| ReplayPlaylist.ProbeSelfReference | live/replay.go:308-356 | a playlist that points to itself is fetched three times and gives 0 |
| ReplayPlaylist.ProbeDurationSecondsFromM3U8 | live/replay.go:307-357 | the loop computes the duration and the fetched URLs of `ProbeFrom` |
| ReplayPlaylist.Fallback | live/replay.go:452 | the base up to and including its last `/`, followed by the line |
| ReplayPlaylist.ClassifyTrimmed | live/replay.go:437-453 | blank is skipped; a `.m3u8` line that resolves is nested; any other line is a segment whose URL is the resolved one or the fallback |
| ReplayPlaylist.Classify | live/replay.go:432-453 | a line starting with `#` is a comment, tested before trimming; a blank line is skipped; anything else is classified trimmed |
| ReplayPlaylist.AfterSegments | live/replay.go:449-454 | handing over segments appends them to the downloads and keeps the playlist URL |
| ReplayPlaylist.SegmentURLs | live/replay.go:432-455 | at most one segment per line |
| ReplayPlaylist.Load | live/replay.go:413-429 | a failed fetch stops; a response with `#EXTM3U` is used as it is; a response without it that names a playlist switches to that URL and fetches it, and one that names none is used as it is; the URL changes in no other case |
| ReplayPlaylist.WalkPrefix | live/replay.go:432-455 | lines before any nested playlist only append their segments in order |
| ReplayPlaylist.SegmentsInOrder | live/replay.go:432-456 | without a nested playlist, every segment URL is downloaded in line order and the walk finishes |
| ReplayPlaylist.NestedEndsList | live/replay.go:440-445 | the first nested playlist switches the playlist URL and restarts on it; the rest of the list is not read |
| ReplayPlaylist.SelfReferenceNeverFinishes | live/replay.go:440-445 | a playlist whose first nested line resolves to itself never finishes |
| ReplayPlaylist.WalkStep | live/replay.go:432-455 | the walk from line `i` is the step for that line followed by the walk of the rest |
| ReplayPlaylist.Live.constructor | live/replay.go:411-414 | starts from the replay URL with no segment downloaded |
| ReplayPlaylist.Live.RecordVOD | live/replay.go:411-457 | the new state and the finished flag are those of `Record` |
| ReplayPlaylist.Live.LoadPlaylist | live/replay.go:413-429 | fetch and header check, as `Load` |
| ReplayPlaylist.Live.WalkLines | live/replay.go:431-456 | the line loop, as `Walk` |
| ReplayPlaylist.Live.Turn | live/replay.go:440-454 | a nested line stops the loop after the recursive call; a segment line updates `newTsURL` and downloads it |
| ReplayPlaylist.Live.FollowNested | live/replay.go:441-444 | switch the playlist URL and record from it |
| ReplayPlaylist.Live.ClassifyLine | live/replay.go:433-453 | the tests in the loop body decide `Classify` |

## Left out

- ks.go (the command-line front end) is not part of this model.
- MD5 is not modelled: `md5Hex` is a parameter, and the salt's digest is `md5Hex(Salt)`.
- The clock is a parameter. This covers `time.Now` in `Sign`, the progress display's
  wall clock, and the timestamp in the output file name (live/replay.go:115-122). The
  file name is not modelled.
- ReplayProgress.ProgressPrinter.PrintProgress: takes one clock reading per call. Go
  reads the clock up to three times within one `printProgress` call (the throttle test
  at live/replay.go:184, the new `lastPrint` at 187, the elapsed time at 207); the model
  uses the same reading for all three.
- ReplayProgress.ProgressPrinter.Consume: handles every line it is given. Go's
  `bufio.Scanner` (live/replay.go:216) stops at the first line longer than its 64 KiB
  token limit, or at a read error, and the error is discarded (250), so no later line
  is handled. The caller passes only the lines the scanner yields; the limit is not
  modelled, because the model counts characters, not UTF-8 bytes.
- GoStrings.ToUpper: upper-cases ASCII letters only. Go's `strings.ToUpper` also maps
  other Unicode letters, and an HTTP method is ASCII.
- Floating point is modelled with `real`:
  - `strconv.ParseFloat` is a parameter.
  - The `%.2f` rounding of percent and rate is not modelled; `Output` holds the exact
    value.
  - `time.Duration`'s `int64` nanoseconds are unbounded, so durations above about 292
    years do not overflow.
- ffmpeg and ffprobe are not modelled. This covers locating them, the command lines,
  the pipes, the goroutine that collects stderr, and `probeDurationSeconds`'s ffprobe
  path. The progress lines and the exit error are inputs.
- Terminal output is not modelled: no `fmt.Print*`, and the display is a list of
  `Output` values.
- HTTP and the JSON field access (gjson) are not modelled:
  - `fetch` is a parameter;
  - `SelectBest` receives the list entries as `Rendition` values;
  - `FirstNonEmpty` receives the field values.
- `net/url` is an abstract `URLLib`: parsing, `IsAbs`, `String` and `ResolveReference`.
- `downloadReplayViaAPICore` is only modelled through its pieces: the selection loop
  (93-109) and `sanitizeFilePart`. Its request and its error printing are not modelled,
  and neither are `DownloadReplayVideo`'s dispatch (live/replay.go:24-62), `os.MkdirAll`
  and `os.Getenv`. `Init` receives the three environment values.
- `downloadAndMergeTsFile` is not modelled. `Live.downloads` records the URL handed to
  each call.
- ReplayPlaylist.Live.RecordVOD: carries a `fuel` bound on the recursion into nested
  playlists, with the bound set by the caller. Go's `recordVOD` recurses without a
  bound, and `SelfReferenceNeverFinishes` shows that for a self-referencing playlist
  every bound runs out.
- ReplayPlaylist.ProbeDurationSecondsFromM3U8: also returns the list of URLs it
  fetched, which the Go function does not. The list makes the three-fetch bound
  (`ProbeBounded`) statable.
- `recordVOD`'s single body is split into several methods that together run the same
  steps in the same order:
  - `LoadPlaylist`;
  - `WalkLines`;
  - `Turn`, one loop turn;
  - `FollowNested`, the recursive call;
  - `ClassifyLine`, the tests on one line.
- The test that needs ffmpeg (live/replay_progress_test.go) is not modelled.

