/**
 * Request signing for the KouShare API (internal/kssign/kssign.go): the query-string
 * parser that mimics the web front end, and the `Ks-Sign` / `Ks-Timestamp` pair.
 * MD5 is left uninterpreted: it is a parameter `md5Hex`, and the salt's digest is
 * `md5Hex(Salt)`. The clock reading is the parameter `timestampMs`.
 */
module Kssign {
  import opened Wrappers
  import opened GoStrings
  import opened GoSort

  /** The fixed secret whose digest ends every signed string. */
  const Salt: string := "arfw2r4k4rdwrlmchvcu7q61fs"

  // ---------------------------------------------------------------------------
  // ParseQueryLikeFrontend
  // ---------------------------------------------------------------------------

  predicate AllEquals(s: string) {
    forall i :: 0 <= i < |s| ==> s[i] == '='
  }

  /** `isAllEquals`: every character of `s` is `=`. */
  method IsAllEquals(s: string) returns (b: bool)
    ensures b <==> AllEquals(s)
  {
    var i := 0;
    while i < |s|
      invariant 0 <= i <= |s|
      invariant forall j :: 0 <= j < i ==> s[j] == '='
    {
      if s[i] != '=' {
        return false;
      }
      i := i + 1;
    }
    return true;
  }

  /**
   * A token glued onto the pending one instead of starting an entry of its own: it has
   * no `=` (for a one-character needle `strings.Contains` is membership, see
   * `ContainsChar`), starts with `=`, or is all `=`.
   */
  predicate IsContinuation(part: string) {
    '=' !in part || "=" <= part || AllEquals(part)
  }

  /** For a non-empty token the all-`=` test adds nothing: it already starts with `=`. */
  lemma ContinuationSimplified(part: string)
    requires part != ""
    ensures IsContinuation(part) <==> '=' !in part || part[0] == '='
  {
    ContainsChar(part, '=');
  }

  /** The closure `flush`: store the pending token split at its first `=`, unless its key is empty. */
  function FlushInto(out: map<string, string>, pending: string): map<string, string> {
    if pending == "" then out
    else match Cut(pending, '=')
      case None => out
      case Some((key, val)) => if key == "" then out else out[key := val]
  }

  /** The parser's state between tokens: the entries so far and the pending token. */
  datatype Scan = Scan(out: map<string, string>, pending: string)

  /** One turn of the token loop. */
  function Step(st: Scan, part: string): Scan {
    if part == "" then st
    else if IsContinuation(part) then
      Scan(st.out, if st.pending == "" then part else st.pending + "&" + part)
    else
      Scan(FlushInto(st.out, st.pending), part)
  }

  /** The state after the token loop has consumed `parts`. */
  function ScanParts(parts: seq<string>): Scan {
    if parts == [] then Scan(map[], "")
    else Step(ScanParts(parts[..|parts| - 1]), parts[|parts| - 1])
  }

  /** What `ParseQueryLikeFrontend` returns for `raw`. */
  function ParseQuery(raw: string): map<string, string> {
    var t := TrimSpace(raw);
    if t == "" then map[]
    else
      var st := ScanParts(Split(t, '&'));
      FlushInto(st.out, st.pending)
  }

  /** Every key is non-empty and holds no `=`. */
  predicate WellFormedKeys(m: map<string, string>) {
    forall k :: k in m ==> k != "" && '=' !in k
  }

  /** `ParseQueryLikeFrontend`: split on `&`, glue continuations onto the pending token, flush at first `=`. */
  method ParseQueryLikeFrontend(raw: string) returns (out: map<string, string>)
    ensures out == ParseQuery(raw)
    ensures AllSpace(raw) ==> out == map[]
    ensures WellFormedKeys(out)
  {
    ParseQueryWellFormed(raw);
    var t := TrimSpace(raw);
    if t == "" {
      return map[];
    }
    var parts := Split(t, '&');
    out := map[];
    var pending := "";
    var i := 0;
    while i < |parts|
      invariant 0 <= i <= |parts|
      invariant Scan(out, pending) == ScanParts(parts[..i])
    {
      var part := parts[i];
      assert parts[..i + 1][..i] == parts[..i];
      if part != "" {
        ContainsChar(part, '=');
        var continuation := !Contains(part, "=") || "=" <= part;
        if !continuation {
          continuation := IsAllEquals(part);
        }
        if continuation {
          if pending == "" {
            pending := part;
          } else {
            pending := pending + "&" + part;
          }
        } else {
          out := Flush(out, pending);
          pending := part;
        }
      }
      i := i + 1;
    }
    assert parts[..i] == parts;
    out := Flush(out, pending);
  }

  /** The body of the closure `flush`. */
  method Flush(out: map<string, string>, pending: string) returns (out': map<string, string>)
    ensures out' == FlushInto(out, pending)
  {
    out' := out;
    if pending == "" {
      return;
    }
    var cut := Cut(pending, '=');
    if cut.None? || cut.value.0 == "" {
      return;
    }
    out' := out[cut.value.0 := cut.value.1];
  }

  lemma FlushKeepsWellFormed(out: map<string, string>, pending: string)
    requires WellFormedKeys(out)
    ensures WellFormedKeys(FlushInto(out, pending))
  {
  }

  lemma {:induction false} ScanPartsWellFormed(parts: seq<string>)
    ensures WellFormedKeys(ScanParts(parts).out)
  {
    if parts != [] {
      var st := ScanParts(parts[..|parts| - 1]);
      ScanPartsWellFormed(parts[..|parts| - 1]);
      FlushKeepsWellFormed(st.out, st.pending);
    }
  }

  /** Every key the parser produces is non-empty and free of `=`. */
  lemma ParseQueryWellFormed(raw: string)
    ensures WellFormedKeys(ParseQuery(raw))
  {
    var t := TrimSpace(raw);
    if t != "" {
      var st := ScanParts(Split(t, '&'));
      ScanPartsWellFormed(Split(t, '&'));
      FlushKeepsWellFormed(st.out, st.pending);
    }
  }

  /** A token of the form `key=value` with a non-empty key. */
  predicate PlainToken(p: string) {
    '=' in p && p[0] != '='
  }

  predicate AllHaveEquals(parts: seq<string>) {
    forall i :: 0 <= i < |parts| ==> '=' in parts[i]
  }

  predicate AllPlain(parts: seq<string>) {
    forall i :: 0 <= i < |parts| ==> PlainToken(parts[i])
  }

  /** The textbook reading of `k=v&k=v…`: split each token at its first `=`, later keys win. */
  function SimpleParse(parts: seq<string>): map<string, string>
    requires AllHaveEquals(parts)
  {
    if parts == [] then map[]
    else
      var kv := Cut(parts[|parts| - 1], '=').value;
      SimpleParse(parts[..|parts| - 1])[kv.0 := kv.1]
  }

  lemma {:induction false} ScanPlainParts(parts: seq<string>)
    requires |parts| >= 1
    requires AllPlain(parts)
    ensures ScanParts(parts) == Scan(SimpleParse(parts[..|parts| - 1]), parts[|parts| - 1])
  {
    var last := parts[|parts| - 1];
    ContinuationSimplified(last);
    if |parts| > 1 {
      var init := parts[..|parts| - 1];
      ScanPlainParts(init);
      assert init[..|init| - 1] == parts[..|parts| - 2];
      ContinuationSimplified(init[|init| - 1]);
    }
  }

  /**
   * On a query made only of `key=value` tokens the front-end parser agrees with the
   * textbook reading: the continuation rule never fires.
   */
  lemma ParsePlainQuery(raw: string)
    requires TrimSpace(raw) != ""
    requires AllPlain(Split(TrimSpace(raw), '&'))
    ensures ParseQuery(raw) == SimpleParse(Split(TrimSpace(raw), '&'))
  {
    PlainFlush(Split(TrimSpace(raw), '&'));
  }

  /** The final flush of a scan over `key=value` tokens stores the last token. */
  lemma PlainFlush(parts: seq<string>)
    requires |parts| >= 1
    requires AllPlain(parts)
    ensures var st := ScanParts(parts); FlushInto(st.out, st.pending) == SimpleParse(parts)
  {
    ScanPlainParts(parts);
    var last := parts[|parts| - 1];
    var kv := Cut(last, '=').value;
    assert FlushInto(SimpleParse(parts[..|parts| - 1]), last) == SimpleParse(parts[..|parts| - 1])[kv.0 := kv.1];
  }

  lemma JoinTwo(a: string, b: string)
    ensures Join([a, b], '&') == a + "&" + b
  {
    assert [a, b][1..] == [b];
  }

  lemma TrimTwo(a: string, b: string)
    requires forall i :: 0 <= i < |a| ==> !IsSpace(a[i])
    requires forall i :: 0 <= i < |b| ==> !IsSpace(b[i])
    ensures TrimSpace(a + "&" + b) == a + "&" + b
  {
    JoinTwo(a, b);
    JoinNoSpace([a, b], '&');
    TrimSpaceNoSpace(a + "&" + b);
  }

  /** Trimming and splitting a space-free `a&b` gives back the two tokens. */
  lemma SplitTwoTokens(a: string, b: string)
    requires '&' !in a && '&' !in b
    requires forall i :: 0 <= i < |a| ==> !IsSpace(a[i])
    requires forall i :: 0 <= i < |b| ==> !IsSpace(b[i])
    ensures Split(TrimSpace(a + "&" + b), '&') == [a, b]
  {
    TrimTwo(a, b);
    JoinTwo(a, b);
    SplitJoin([a, b], '&');
  }

  lemma ScanTwo(a: string, b: string)
    ensures ScanParts([a, b]) == Step(Step(Scan(map[], ""), a), b)
  {
    var empty: seq<string> := [];
    assert [a, b][..1] == [a] && [a][..0] == empty;
    assert ScanParts([a]) == Step(ScanParts(empty), a);
  }

  /** A two-token query with no spaces parses as the loop run over those two tokens. */
  lemma ParseTwoTokens(a: string, b: string)
    requires '&' !in a && '&' !in b
    requires forall i :: 0 <= i < |a| ==> !IsSpace(a[i])
    requires forall i :: 0 <= i < |b| ==> !IsSpace(b[i])
    ensures var st := Step(Step(Scan(map[], ""), a), b);
      ParseQuery(a + "&" + b) == FlushInto(st.out, st.pending)
  {
    SplitTwoTokens(a, b);
    TrimTwo(a, b);
    ScanTwo(a, b);
  }

  /** A `key=value` token flushes the pending one and becomes pending itself. */
  lemma StepPlain(st: Scan, k: string, v: string)
    requires k != "" && '=' !in k
    ensures Step(st, k + "=" + v) == Scan(FlushInto(st.out, st.pending), k + "=" + v)
  {
    var p := k + "=" + v;
    assert p[|k|] == '=' && p[0] == k[0];
    ContinuationSimplified(p);
  }

  /** A token that starts with `=` is glued onto the pending one. */
  lemma StepEquals(st: Scan, v: string)
    ensures Step(st, "=" + v) == Scan(st.out, if st.pending == "" then "=" + v else st.pending + "&" + "=" + v)
  {
    ContinuationSimplified("=" + v);
  }

  /** A token without `=` is glued onto the pending one. */
  lemma StepNoEquals(st: Scan, p: string)
    requires p != "" && '=' !in p
    ensures Step(st, p) == Scan(st.out, if st.pending == "" then p else st.pending + "&" + p)
  {
    ContinuationSimplified(p);
  }

  /** Flushing `key=value` stores the value under the key. */
  lemma FlushPair(out: map<string, string>, k: string, v: string)
    requires k != "" && '=' !in k
    ensures FlushInto(out, k + "=" + v) == out[k := v]
  {
    CutAfter(k, v, '=');
  }

  /** Text holding no `&`, no `=` and no white space. */
  predicate Bare(s: string) {
    forall i :: 0 <= i < |s| ==> s[i] != '&' && s[i] != '=' && !IsSpace(s[i])
  }

  /** `k=v` is a token with no `&` and no space. */
  lemma PairToken(k: string, v: string)
    requires Bare(k) && Bare(v)
    ensures '&' !in k + "=" + v
    ensures forall i :: 0 <= i < |k + "=" + v| ==> !IsSpace((k + "=" + v)[i])
  {
    var p := k + "=" + v;
    forall i | 0 <= i < |p| ensures p[i] != '&' && !IsSpace(p[i]) {
      if i < |k| { assert p[i] == k[i]; } else if i > |k| { assert p[i] == v[i - |k| - 1]; }
    }
  }

  /** `k1=v1&k2=v2` with distinct keys gives both entries. */
  lemma TwoPairs(k1: string, v1: string, k2: string, v2: string)
    requires Bare(k1) && Bare(v1) && Bare(k2) && Bare(v2) && k1 != "" && k2 != ""
    ensures ParseQuery(k1 + "=" + v1 + "&" + k2 + "=" + v2) == map[k1 := v1, k2 := v2]
  {
    PairToken(k1, v1);
    PairToken(k2, v2);
    assert k1 + "=" + v1 + "&" + k2 + "=" + v2 == (k1 + "=" + v1) + "&" + (k2 + "=" + v2);
    ParseTwoTokens(k1 + "=" + v1, k2 + "=" + v2);
    StepPlain(Scan(map[], ""), k1, v1);
    StepPlain(Scan(map[], k1 + "=" + v1), k2, v2);
    FlushPair(map[], k1, v1);
    FlushPair(map[k1 := v1], k2, v2);
  }

  /** A later duplicate key overwrites the earlier value: `k=v1&k=v2` gives `{k: v2}`. */
  lemma LaterKeyWins(k: string, v1: string, v2: string)
    requires Bare(k) && Bare(v1) && Bare(v2) && k != ""
    ensures ParseQuery(k + "=" + v1 + "&" + k + "=" + v2) == map[k := v2]
  {
    assert ParseQuery(k + "=" + v1 + "&" + k + "=" + v2) == map[k := v1, k := v2] by {
      TwoPairs(k, v1, k, v2);
    }
    assert map[k := v1, k := v2] == map[k := v2];
  }

  /** A leading token without `=` is dropped: `j&k=v` gives `{k: v}`. */
  lemma LeadingJunkDropped(j: string, k: string, v: string)
    requires Bare(j) && Bare(k) && Bare(v) && j != "" && k != ""
    ensures ParseQuery(j + "&" + k + "=" + v) == map[k := v]
  {
    PairToken(k, v);
    assert j + "&" + k + "=" + v == j + "&" + (k + "=" + v);
    ParseTwoTokens(j, k + "=" + v);
    StepNoEquals(Scan(map[], ""), j);
    StepPlain(Scan(map[], j), k, v);
    FlushPair(map[], k, v);
  }

  /** A token starting with `=` continues the value: `k=v&=w` gives `{k: "v&=w"}`. */
  lemma EqualsTokenContinues(k: string, v: string, w: string)
    requires Bare(k) && Bare(v) && Bare(w) && k != ""
    ensures ParseQuery(k + "=" + v + "&=" + w) == map[k := v + "&=" + w]
  {
    PairToken(k, v);
    PairToken([], w);
    assert k + "=" + v + "&=" + w == (k + "=" + v) + "&" + ([] + "=" + w);
    ParseTwoTokens(k + "=" + v, [] + "=" + w);
    StepPlain(Scan(map[], ""), k, v);
    assert [] + "=" + w == "=" + w;
    StepEquals(Scan(map[], k + "=" + v), w);
    GlueAssoc(k, v, w);
    FlushPair(map[], k, v + "&=" + w);
  }

  lemma GlueAssoc(k: string, v: string, w: string)
    ensures (k + "=" + v) + "&" + ("=" + w) == k + "=" + (v + "&=" + w)
  {
    Reassociate(k, "=", v, "&", w);
    assert "&=" == "&" + "=";
  }

  lemma Reassociate(k: string, e: string, v: string, a: string, w: string)
    ensures (k + e + v) + a + (e + w) == k + e + (v + a + e + w)
  {
  }

  /** A key-less token glues onto a `=`-less one: `j&=w` gives `{"j&": w}`. */
  lemma GluedKey(j: string, w: string)
    requires Bare(j) && Bare(w) && j != ""
    ensures ParseQuery(j + "&=" + w) == map[j + "&" := w]
  {
    PairToken([], w);
    GluedAssoc(j, w);
    ParseTwoTokens(j, "=" + w);
    StepNoEquals(Scan(map[], ""), j);
    StepEquals(Scan(map[], j), w);
    FlushPair(map[], j + "&", w);
  }

  lemma GluedAssoc(j: string, w: string)
    ensures [] + "=" + w == "=" + w
    ensures j + "&=" + w == j + "&" + ("=" + w)
    ensures j + "&" + ("=" + w) == (j + "&") + "=" + w
  {
    assert "&=" == "&" + "=";
  }

  /** A character has at most one first occurrence. */
  lemma FirstOccurrenceUnique(s: string, c: char, i: int, j: int)
    requires 0 <= i < |s| && s[i] == c && c !in s[..i]
    requires 0 <= j < |s| && s[j] == c && c !in s[..j]
    ensures i == j
  {
    assert forall k :: 0 <= k < j ==> s[k] == s[..j][k];
    assert forall k :: 0 <= k < i ==> s[k] == s[..i][k];
  }

  /** `ParseURLQueryLikeFrontend`: parse what follows the first `?`, or nothing. */
  function ParseURLQueryLikeFrontend(url: string): (r: map<string, string>)
    ensures '?' !in url ==> r == map[]
  {
    var idx := IndexOfChar(url, '?');
    if idx < 0 || idx + 1 >= |url| then map[] else ParseQuery(url[idx + 1..])
  }

  /**
   * With the first `?` at position `i`, the result is nothing when the `?` ends the URL
   * and otherwise the query parse of everything after it.
   */
  lemma URLQueryAfterFirstMark(url: string, i: int)
    requires 0 <= i < |url| && url[i] == '?' && '?' !in url[..i]
    ensures ParseURLQueryLikeFrontend(url) == if i + 1 == |url| then map[] else ParseQuery(url[i + 1..])
  {
    var j := IndexOfChar(url, '?');
    FirstOccurrenceUnique(url, '?', i, j);
    assert i == j;
  }

  // ---------------------------------------------------------------------------
  // Sign
  // ---------------------------------------------------------------------------

  /** The request method as signed: trimmed, upper-cased, `GET` when blank. */
  function CanonicalMethod(m: string): (r: string)
    ensures r != ""
    ensures AllSpace(m) ==> r == "GET"
    ensures forall i :: 0 <= i < |r| ==> !('a' <= r[i] <= 'z')
    ensures !IsSpace(r[0]) && !IsSpace(r[|r| - 1])
  {
    var t := TrimSpace(m);
    var u := ToUpper(t);
    if u == "" then "GET" else u
  }

  /** Canonicalising a method that is already canonical changes nothing. */
  lemma CanonicalMethodIdempotent(m: string)
    ensures CanonicalMethod(CanonicalMethod(m)) == CanonicalMethod(m)
  {
    var r := CanonicalMethod(m);
    TrimSpaceOfTrimmed(r);
    ToUpperIdempotent(r);
  }

  lemma ToUpperIdempotent(s: string)
    requires forall i :: 0 <= i < |s| ==> !('a' <= s[i] <= 'z')
    ensures ToUpper(s) == s
  {
  }

  /** `clean`: the parameters whose value is not empty. */
  function Clean(params: map<string, string>): (c: map<string, string>)
    ensures forall k :: k in c <==> k in params && params[k] != ""
    ensures forall k :: k in c ==> c[k] == params[k]
  {
    map k | k in params && params[k] != "" :: params[k]
  }

  /** The `key=value` pieces for `keys`, in that order. */
  function Pairs(keys: seq<string>, m: map<string, string>): (r: seq<string>)
    requires forall k :: k in keys ==> k in m
    ensures |r| == |keys|
    ensures forall i :: 0 <= i < |keys| ==> r[i] == keys[i] + "=" + m[keys[i]]
  {
    if keys == [] then [] else [keys[0] + "=" + m[keys[0]]] + Pairs(keys[1..], m)
  }

  lemma PairsAppend(keys: seq<string>, k: string, m: map<string, string>)
    requires forall x :: x in keys ==> x in m
    requires k in m
    ensures Pairs(keys + [k], m) == Pairs(keys, m) + [k + "=" + m[k]]
  {
    var l := Pairs(keys + [k], m);
    var r := Pairs(keys, m) + [k + "=" + m[k]];
    assert |l| == |r|;
    forall i | 0 <= i < |l| ensures l[i] == r[i] {
      assert (keys + [k])[i] == if i < |keys| then keys[i] else k;
    }
  }

  /** The canonical query: the non-empty parameters as `k=v`, keys ascending, joined by `&`. */
  ghost function CanonicalQuery(params: map<string, string>): string {
    var c := Clean(params);
    Join(Pairs(SortedKeys(c.Keys), c), '&')
  }

  /** `signBase`: method, timestamp and the salt's digest. */
  function SignBase(httpMethod: string, timestampMs: int, md5Hex: string -> string): string {
    "method=" + CanonicalMethod(httpMethod) + "&timestamp=" + FormatInt(timestampMs) + "&saltmd5=" + md5Hex(Salt)
  }

  /** The string whose digest is the signature. */
  ghost function SignInput(params: map<string, string>, httpMethod: string, timestampMs: int, md5Hex: string -> string): string {
    var q := CanonicalQuery(params);
    var base := SignBase(httpMethod, timestampMs, md5Hex);
    if q == "" then base else q + "&" + base
  }

  /** `Sign`: the digest of the sign input, and the timestamp it embeds. */
  method Sign(params: map<string, string>, httpMethod: string, timestampMs: int, md5Hex: string -> string)
    returns (sign: string, ts: int)
    ensures ts == timestampMs
    ensures sign == md5Hex(SignInput(params, httpMethod, timestampMs, md5Hex))
  {
    ts := timestampMs;
    var m := CanonicalMethod(httpMethod);
    var clean := CleanParams(params);
    var keys := CollectKeys(clean);
    keys := SortDistinct(keys);
    CanonicalQueryOrder(params, keys);
    var b := BuildQuery(keys, clean);
    var signBase := "method=" + m + "&timestamp=" + FormatInt(ts) + "&saltmd5=" + md5Hex(Salt);
    var signInput := signBase;
    if |b| > 0 {
      signInput := b + "&" + signBase;
    }
    sign := md5Hex(signInput);
  }

  /** The first loop of `Sign`: copy the parameters whose value is not empty. */
  method CleanParams(params: map<string, string>) returns (clean: map<string, string>)
    ensures clean == Clean(params)
  {
    clean := map[];
    var todo := params.Keys;
    while todo != {}
      invariant todo <= params.Keys
      invariant forall k :: k in clean <==> k in params && k !in todo && params[k] != ""
      invariant forall k :: k in clean ==> clean[k] == params[k]
      decreases todo
    {
      var k :| k in todo;
      if params[k] != "" {
        clean := clean[k := params[k]];
      }
      todo := todo - {k};
    }
  }

  /** The second loop of `Sign`: list the keys of `clean`, each once, in map order. */
  method CollectKeys(clean: map<string, string>) returns (keys: seq<string>)
    ensures Distinct(keys)
    ensures forall k :: k in keys <==> k in clean
  {
    keys := [];
    var left := clean.Keys;
    while left != {}
      invariant left <= clean.Keys
      invariant Distinct(keys)
      invariant forall k :: k in keys <==> k in clean && k !in left
      decreases left
    {
      var k :| k in left;
      keys := keys + [k];
      left := left - {k};
    }
  }

  /** The builder loop of `Sign`: `k=v` for each key, `&` between them. */
  method BuildQuery(keys: seq<string>, clean: map<string, string>) returns (b: string)
    requires forall k :: k in keys ==> k in clean
    ensures b == Join(Pairs(keys, clean), '&')
  {
    b := "";
    var i := 0;
    while i < |keys|
      invariant 0 <= i <= |keys|
      invariant b == Join(Pairs(keys[..i], clean), '&')
    {
      BuildStep(keys, clean, i);
      if i > 0 {
        b := b + "&";
      }
      b := b + keys[i] + "=" + clean[keys[i]];
      i := i + 1;
    }
    assert keys[..i] == keys;
  }

  /** The query for one more key: an `&` unless it is the first, then `key=value`. */
  lemma BuildStep(keys: seq<string>, clean: map<string, string>, i: nat)
    requires i < |keys| && forall k :: k in keys ==> k in clean
    ensures Join(Pairs(keys[..i + 1], clean), '&')
         == (if i == 0 then "" else Join(Pairs(keys[..i], clean), '&') + "&") + keys[i] + "=" + clean[keys[i]]
  {
    assert keys[..i + 1] == keys[..i] + [keys[i]];
    PairsAppend(keys[..i], keys[i], clean);
    JoinAppend(Pairs(keys[..i], clean), keys[i] + "=" + clean[keys[i]], '&');
  }

  /** Every `key=value` piece is non-empty, so the query is empty exactly when no parameter survives. */
  lemma CanonicalQueryEmpty(params: map<string, string>)
    ensures CanonicalQuery(params) == "" <==> Clean(params) == map[]
  {
    var c := Clean(params);
    var ps := Pairs(SortedKeys(c.Keys), c);
    if c != map[] {
      var k :| k in c;
      assert |ps| >= 1;
      assert |ps[0]| >= 1;
      JoinAppend([], ps[0], '&');
      if |ps| > 1 {
        assert Join(ps, '&') == ps[0] + "&" + Join(ps[1..], '&');
      }
    } else {
      assert c.Keys == {};
    }
  }

  /**
   * The canonical query lists exactly the parameters with a non-empty value, keys in
   * ascending byte order: any listing with that property yields the same string.
   */
  lemma CanonicalQueryOrder(params: map<string, string>, keys: seq<string>)
    requires StrictlySorted(keys)
    requires forall k :: k in keys <==> k in params && params[k] != ""
    ensures forall k :: k in keys ==> k in Clean(params)
    ensures CanonicalQuery(params) == Join(Pairs(keys, Clean(params)), '&')
  {
    var c := Clean(params);
    StrictlySortedDistinctCount(keys, c.Keys);
    StrictlySortedUnique(keys, SortedKeys(c.Keys));
  }

  /** A strictly sorted listing of a set has as many entries as the set. */
  lemma {:induction false} StrictlySortedDistinctCount(keys: seq<string>, K: set<string>)
    requires StrictlySorted(keys)
    requires forall k :: k in keys <==> k in K
    ensures |keys| == |K|
    decreases |keys|
  {
    if keys != [] {
      var rest := keys[1..];
      assert keys[0] !in rest by {
        if keys[0] in rest { LessIrreflexiveIn(keys, keys[0]); }
      }
      assert forall k :: k in rest <==> k in K - {keys[0]} by {
        assert keys == [keys[0]] + rest;
        forall k | k in rest ensures k != keys[0] {
          if k == keys[0] { LessIrreflexiveIn(keys, k); }
        }
      }
      StrictlySortedDistinctCount(rest, K - {keys[0]});
    } else {
      assert forall k :: k !in K;
      assert K == {};
    }
  }

  /** Parameters with an empty value do not change the signed string. */
  lemma SignIgnoresEmptyValues(params: map<string, string>, k: string, httpMethod: string, timestampMs: int, md5Hex: string -> string)
    requires k in params && params[k] == ""
    ensures SignInput(params, httpMethod, timestampMs, md5Hex) == SignInput(params - {k}, httpMethod, timestampMs, md5Hex)
    ensures k !in SortedKeys(Clean(params).Keys)
  {
    assert Clean(params) == Clean(params - {k});
  }

  /** The sign input is the canonical query and `&` (both omitted when nothing survives), then the base. */
  lemma SignInputLayout(params: map<string, string>, httpMethod: string, timestampMs: int, md5Hex: string -> string)
    ensures Clean(params) == map[] ==>
      SignInput(params, httpMethod, timestampMs, md5Hex) == SignBase(httpMethod, timestampMs, md5Hex)
    ensures Clean(params) != map[] ==>
      SignInput(params, httpMethod, timestampMs, md5Hex) == CanonicalQuery(params) + "&" + SignBase(httpMethod, timestampMs, md5Hex)
    ensures SignBase(httpMethod, timestampMs, md5Hex) ==
      "method=" + CanonicalMethod(httpMethod) + "&timestamp=" + FormatInt(timestampMs) + "&saltmd5=" + md5Hex(Salt)
  {
    CanonicalQueryEmpty(params);
  }

  /** Keys and values that survive the front-end parser unchanged. */
  predicate QuerySafe(params: map<string, string>) {
    forall k :: k in params && params[k] != "" ==>
      && k != "" && '=' !in k && '&' !in k && '&' !in params[k]
      && (forall i :: 0 <= i < |k| ==> !IsSpace(k[i]))
      && (forall i :: 0 <= i < |params[k]| ==> !IsSpace(params[k][i]))
  }

  /** Each `key=value` piece holds `=`; a key-free-of-`=` piece is `PlainToken` when its key is non-empty. */
  lemma PairsShape(keys: seq<string>, c: map<string, string>)
    requires forall k :: k in keys ==> k in c && '=' !in k
    ensures AllHaveEquals(Pairs(keys, c))
  {
    var ps := Pairs(keys, c);
    forall i | 0 <= i < |ps| ensures '=' in ps[i] {
      assert ps[i][|keys[i]|] == '=';
    }
  }

  lemma {:induction false} SimpleParsePairs(keys: seq<string>, c: map<string, string>)
    requires forall k :: k in keys ==> k in c && '=' !in k
    ensures AllHaveEquals(Pairs(keys, c))
    ensures SimpleParse(Pairs(keys, c)) == map k | k in keys :: c[k]
    decreases |keys|
  {
    PairsShape(keys, c);
    if keys != [] {
      var init := keys[..|keys| - 1];
      assert forall k :: k in init ==> k in keys;
      SimpleParsePairs(init, c);
      SimpleParsePairsSnoc(keys, c);
      RestrictSnoc(keys, c);
    }
  }

  /** The last `key=value` piece adds its key to the map read off the pieces before it. */
  lemma SimpleParsePairsSnoc(keys: seq<string>, c: map<string, string>)
    requires keys != [] && forall k :: k in keys ==> k in c && '=' !in k
    ensures AllHaveEquals(Pairs(keys[..|keys| - 1], c)) && AllHaveEquals(Pairs(keys, c))
    ensures var last := keys[|keys| - 1];
      SimpleParse(Pairs(keys, c)) == SimpleParse(Pairs(keys[..|keys| - 1], c))[last := c[last]]
  {
    var init := keys[..|keys| - 1];
    var last := keys[|keys| - 1];
    assert keys == init + [last];
    PairsShape(init, c);
    PairsShape(keys, c);
    var ps := Pairs(keys, c);
    PairsAppend(init, last, c);
    assert ps[..|ps| - 1] == Pairs(init, c);
    CutAfter(last, c[last], '=');
  }

  /** Reading off one more key extends the map read off the others by that key. */
  lemma RestrictSnoc(keys: seq<string>, c: map<string, string>)
    requires keys != [] && forall k :: k in keys ==> k in c
    ensures var last := keys[|keys| - 1];
      (map k | k in keys :: c[k]) == (map k | k in keys[..|keys| - 1] :: c[k])[last := c[last]]
  {
    var last := keys[|keys| - 1];
    assert keys == keys[..|keys| - 1] + [last];
    assert forall k :: k in keys <==> k in keys[..|keys| - 1] || k == last;
  }

  /**
   * Round trip: when no key or value holds `&`, `=` in a key, or white space, the front-end
   * parser reads the canonical query back as exactly the parameters with non-empty values.
   */
  lemma CanonicalQueryParsesBack(params: map<string, string>)
    requires QuerySafe(params)
    ensures ParseQuery(CanonicalQuery(params)) == Clean(params)
  {
    var c := Clean(params);
    var keys := SortedKeys(c.Keys);
    var ps := Pairs(keys, c);
    CanonicalQueryEmpty(params);
    if c != map[] {
      CanonicalSplits(params);
      SimpleParsePairs(keys, c);
      ParsePlainQuery(CanonicalQuery(params));
      RestrictToAllKeys(keys, c);
    }
  }

  /** A safe, non-empty canonical query trims to itself and splits back into its pieces. */
  lemma CanonicalSplits(params: map<string, string>)
    requires QuerySafe(params) && Clean(params) != map[]
    ensures var c := Clean(params);
      && TrimSpace(CanonicalQuery(params)) != ""
      && Split(TrimSpace(CanonicalQuery(params)), '&') == Pairs(SortedKeys(c.Keys), c)
      && AllPlain(Pairs(SortedKeys(c.Keys), c))
  {
    var c := Clean(params);
    var ps := Pairs(SortedKeys(c.Keys), c);
    CanonicalPiecesSafe(params);
    assert !IsSpace('&');
    JoinNoSpace(ps, '&');
    TrimSpaceNoSpace(Join(ps, '&'));
    SplitJoin(ps, '&');
    CanonicalQueryEmpty(params);
  }

  /** Every piece of a safe canonical query is a plain token with no `&` and no white space. */
  lemma CanonicalPiecesSafe(params: map<string, string>)
    requires QuerySafe(params)
    ensures var c := Clean(params);
      var ps := Pairs(SortedKeys(c.Keys), c);
      && AllPlain(ps)
      && forall p :: p in ps ==> '&' !in p && forall i :: 0 <= i < |p| ==> !IsSpace(p[i])
  {
    var c := Clean(params);
    var keys := SortedKeys(c.Keys);
    var ps := Pairs(keys, c);
    forall j | 0 <= j < |ps|
      ensures '&' !in ps[j] && PlainToken(ps[j]) && forall i :: 0 <= i < |ps[j]| ==> !IsSpace(ps[j][i])
    {
      PieceSafe(params, keys[j]);
    }
  }

  /** The map read off a list holding exactly its keys is the map itself. */
  lemma RestrictToAllKeys(keys: seq<string>, c: map<string, string>)
    requires forall k :: k in keys <==> k in c
    ensures (map k | k in keys :: c[k]) == c
  {
    var m := map k | k in keys :: c[k];
    assert m.Keys == c.Keys;
  }

  /** One piece `k=v` of a safe parameter map is a plain, space-free token without `&`. */
  lemma PieceSafe(params: map<string, string>, k: string)
    requires QuerySafe(params) && k in Clean(params)
    ensures var p := k + "=" + Clean(params)[k];
      '&' !in p && PlainToken(p) && forall i :: 0 <= i < |p| ==> !IsSpace(p[i])
  {
    var v := Clean(params)[k];
    var p := k + "=" + v;
    assert p[|k|] == '=' && p[0] == k[0];
    forall i | 0 <= i < |p| ensures p[i] != '&' && !IsSpace(p[i]) {
      if i < |k| { assert p[i] == k[i]; } else if i > |k| { assert p[i] == v[i - |k| - 1]; }
    }
  }
}
