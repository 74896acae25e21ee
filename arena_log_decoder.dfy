/** The incremental decoder of the game client's log: text arrives in chunks of any
    size, label matches are classified as full, partial or invalid, full ones are
    emitted as typed entries, and the consumed prefix of the buffer is dropped. */
module ArenaLogDecoder {
  import opened Wrappers
  import opened Strings
  import opened LogPatterns

  // ---------------------------------------------------------------------------
  // Entries and outcomes

  datatype EntryType = LabelJson | LabelArrowJson

  /** The named groups a label pattern captures (each possibly absent). */
  datatype Captures = Captures(
    timestamp: Option<string>,
    playerId: Option<string>,
    labelText: Option<string>,
    arrow: Option<string>)

  /** What `parseLogEntry` builds: the type, the captured groups, the position-bound
      hash and, for `label_json` only, the raw JSON text. */
  datatype Entry = Entry(entryType: EntryType, captures: Captures, hash: string, text: Option<string>)

  /** What the callback receives: the entry with its absolute stream position. */
  datatype LogEntry = LogEntry(entry: Entry, position: nat)

  /** The classification of one label match. `Unrecognised` is the thrown
      "Could not parse an entry". */
  datatype Outcome =
    | Full(length: nat, entry: Entry)
    | Partial
    | Invalid(length: nat)
    | Unrecognised

  /** One result of the global label search: where it starts in the buffer and the text it matched. */
  datatype LabelMatch = LabelMatch(index: nat, text: string)

  // ---------------------------------------------------------------------------
  // Collaborators the decoder calls but whose code is not part of this model

  datatype Env = Env(
    /** `logEntryPattern.exec(buffer)` with `lastIndex` set to the second argument */
    nextMatch: (string, nat) -> Option<LabelMatch>,
    /** `matchText.match(LABEL_ARROW_JSON_PATTERN)`, giving its named groups */
    arrowPattern: string -> Option<Captures>,
    /** `matchText.match(p)` for each `p` of `LABEL_JSON_PATTERNS`, in table order */
    jsonPatterns: seq<string -> Option<Captures>>,
    /** `jsonText.starts(text, pos)` */
    jsonStarts: (string, nat) -> bool,
    /** `jsonText.length(text, pos)`: -1 while the value is incomplete */
    jsonLength: (string, nat) -> int,
    /** `sha1` */
    sha1: string -> string)

  /** The JSON scanner reports -1 or a length that stays inside the text. */
  ghost predicate ScannerSound(env: Env) {
    forall text: string, pos: nat {:trigger env.jsonLength(text, pos)} ::
      pos < |text| ==> env.jsonLength(text, pos) == -1 || 1 <= env.jsonLength(text, pos) <= |text| - pos
  }

  /** A search result lies at or after the search start, is non-empty, and is a piece of the buffer. */
  predicate MatchWithin(buf: string, from: nat, m: Option<LabelMatch>) {
    m.Some? ==>
      && from <= m.value.index
      && 0 < |m.value.text|
      && m.value.index + |m.value.text| <= |buf|
      && buf[m.value.index..m.value.index + |m.value.text|] == m.value.text
  }

  ghost predicate MatcherSound(env: Env) {
    forall buf: string, from: nat {:trigger env.nextMatch(buf, from)} ::
      MatchWithin(buf, from, env.nextMatch(buf, from))
  }

  /** `matchText` is matched by the arrow pattern or by some plain pattern. */
  predicate Recognised(env: Env, matchText: string) {
    || env.arrowPattern(matchText).Some?
    || exists k :: 0 <= k < |env.jsonPatterns| && env.jsonPatterns[k](matchText).Some?
  }

  /** Every text the combined search finds is recognised by one of the patterns it was
      built from (the combined pattern is the alternation of the table). */
  ghost predicate PatternsAgree(env: Env) {
    forall buf: string, from: nat {:trigger env.nextMatch(buf, from)} ::
      env.nextMatch(buf, from).Some? ==> Recognised(env, env.nextMatch(buf, from).value.text)
  }

  // ---------------------------------------------------------------------------
  // parseLogEntry

  /** The plain pattern tried first among those that match, scanning the table in order. */
  function FirstPatternMatch(patterns: seq<string -> Option<Captures>>, matchText: string): (r: Option<Captures>)
    ensures r.None? <==> forall k :: 0 <= k < |patterns| ==> patterns[k](matchText).None?
    ensures r.Some? ==>
      exists k :: 0 <= k < |patterns| && patterns[k](matchText) == r
        && forall j :: 0 <= j < k ==> patterns[j](matchText).None?
  {
    if patterns == [] then None
    else if patterns[0](matchText).Some? then patterns[0](matchText)
    else
      var r := FirstPatternMatch(patterns[1..], matchText);
      assert forall k :: 1 <= k < |patterns| ==> patterns[k] == patterns[1..][k - 1];
      r
  }

  predicate CrLfAt(text: string, at: nat) {
    at + 2 <= |text| && text[at..at + 2] == "\r\n"
  }

  predicate LfAt(text: string, at: nat) {
    at < |text| && text[at] == '\n'
  }

  /** Length of the line terminator at `at`: "\r\n" is tried first, then "\n"; 0 for none. */
  function TerminatorLength(text: string, at: nat): nat {
    if CrLfAt(text, at) then 2 else if LfAt(text, at) then 1 else 0
  }

  /** The JSON-and-terminator part of `parseLogEntry`, shared by both entry types. */
  function ParsePayload(env: Env, text: string, matchText: string, position: nat, absPosition: nat,
                        entryType: EntryType, captures: Captures): Outcome
    requires ScannerSound(env)
  {
    var jsonStart := position + |matchText|;
    if jsonStart >= |text| then Partial
    else if !env.jsonStarts(text, jsonStart) then Invalid(|matchText|)
    else
      var jsonLen := env.jsonLength(text, jsonStart);
      if jsonLen == -1 then Partial
      else
        var terminator := TerminatorLength(text, jsonStart + jsonLen);
        if terminator == 0 then Partial
        else
          var jsonString := text[jsonStart..jsonStart + jsonLen];
          var hash := env.sha1(jsonString + NatToString(absPosition));
          Full(|matchText| + jsonLen + terminator,
               Entry(entryType, captures, hash, if entryType == LabelJson then Some(jsonString) else None))
  }

  /** Classifies the label match `matchText` found at `position` of `text`;
      `absPosition` is that place in the whole stream. */
  function ParseLogEntry(env: Env, text: string, matchText: string, position: nat, absPosition: nat): (r: Outcome)
    requires ScannerSound(env)
    // the thrown error, exactly when no pattern recognises the match
    ensures r.Unrecognised? <==> !Recognised(env, matchText)
    // the three ways of needing more input
    ensures Recognised(env, matchText) ==>
      var jsonStart := position + |matchText|;
      var jsonLen := env.jsonLength(text, jsonStart);
      (r.Partial? <==>
        || jsonStart >= |text|
        || (env.jsonStarts(text, jsonStart) && jsonLen == -1)
        || (env.jsonStarts(text, jsonStart) && jsonLen != -1
            && !CrLfAt(text, jsonStart + jsonLen) && !LfAt(text, jsonStart + jsonLen)))
    // no JSON can start after the label: skip the label only
    ensures r.Invalid? <==>
      Recognised(env, matchText) && position + |matchText| < |text|
      && !env.jsonStarts(text, position + |matchText|)
    ensures r.Invalid? ==> r.length == |matchText|
    // a complete entry: label, JSON and terminator, all inside the text
    ensures r.Full? ==>
      var jsonStart := position + |matchText|;
      var jsonLen := env.jsonLength(text, jsonStart);
      && jsonStart < |text| && env.jsonStarts(text, jsonStart)
      && 1 <= jsonLen && jsonStart + jsonLen <= |text|
      && (CrLfAt(text, jsonStart + jsonLen) ==> r.length == |matchText| + jsonLen + 2)
      && (!CrLfAt(text, jsonStart + jsonLen) ==>
            LfAt(text, jsonStart + jsonLen) && r.length == |matchText| + jsonLen + 1)
      && position + r.length <= |text|
      && r.entry.hash == env.sha1(text[jsonStart..jsonStart + jsonLen] + NatToString(absPosition))
      && (r.entry.entryType == LabelJson ==> r.entry.text == Some(text[jsonStart..jsonStart + jsonLen]))
    // the arrow pattern has priority and gives an entry without text
    ensures r.Full? ==>
      (r.entry.entryType == LabelArrowJson <==> env.arrowPattern(matchText).Some?)
    ensures r.Full? && env.arrowPattern(matchText).Some? ==>
      r.entry.captures == env.arrowPattern(matchText).value && r.entry.text == None
    // otherwise the first plain pattern in table order supplies the groups
    ensures r.Full? && env.arrowPattern(matchText).None? ==>
      Some(r.entry.captures) == FirstPatternMatch(env.jsonPatterns, matchText)
  {
    match env.arrowPattern(matchText)
    case Some(groups) => ParsePayload(env, text, matchText, position, absPosition, LabelArrowJson, groups)
    case None =>
      match FirstPatternMatch(env.jsonPatterns, matchText)
      case Some(groups) => ParsePayload(env, text, matchText, position, absPosition, LabelJson, groups)
      case None => Unrecognised
  }

  /** The text hashed for a payload: equal payloads at distinct positions hash distinct inputs. */
  lemma HashInputsDiffer(jsonString: string, p: nat, q: nat)
    requires p != q
    ensures jsonString + NatToString(p) != jsonString + NatToString(q)
  {
    if jsonString + NatToString(p) == jsonString + NatToString(q) {
      assert NatToString(p) == (jsonString + NatToString(p))[|jsonString|..];
      assert NatToString(q) == (jsonString + NatToString(q))[|jsonString|..];
      NatToStringInjective(p, q);
    }
  }

  // ---------------------------------------------------------------------------
  // The scan loop of `append`, as functions: the matches the global search finds,
  // their classification, and the `switch` folded over them

  /** Entries handed to the callback, the final `bufferUsed`, and whether the scan threw. */
  datatype Scan = Scan(entries: seq<LogEntry>, used: nat, failed: bool)

  /** Where a match ends, which is where the global search resumes. */
  function End(m: LabelMatch): nat {
    m.index + |m.text|
  }

  /** The results of `exec` from search position `cursor` on, each search resuming at
      the end of the previous match, until one finds nothing. */
  function Matches(env: Env, buf: string, cursor: nat): (ms: seq<LabelMatch>)
    requires MatcherSound(env)
    ensures forall i :: 0 <= i < |ms| ==> cursor <= ms[i].index && End(ms[i]) <= |buf|
    decreases |buf| - cursor
  {
    var next := env.nextMatch(buf, cursor);
    assert MatchWithin(buf, cursor, next);
    match next
    case None => []
    case Some(m) => [m] + Matches(env, buf, End(m))
  }

  /** Where the search that found `ms[i]` started. */
  function SearchStart(ms: seq<LabelMatch>, cursor: nat, i: nat): nat
    requires i <= |ms|
  {
    if i == 0 then cursor else End(ms[i - 1])
  }

  /** Non-empty matches in order, apart from each other, the first at or after `lo`,
      all ending by `hi`. */
  ghost predicate Chained(ms: seq<LabelMatch>, lo: nat, hi: nat)
    decreases |ms|
  {
    ms == [] || (lo <= ms[0].index && 0 < |ms[0].text| && End(ms[0]) <= hi && Chained(ms[1..], End(ms[0]), hi))
  }

  lemma MatchesStep(env: Env, buf: string, cursor: nat)
    requires MatcherSound(env)
    requires env.nextMatch(buf, cursor).Some?
    ensures var m := env.nextMatch(buf, cursor).value;
      && cursor <= m.index && 0 < |m.text| && End(m) <= |buf|
      && Matches(env, buf, cursor) == [m] + Matches(env, buf, End(m))
  {
    assert MatchWithin(buf, cursor, env.nextMatch(buf, cursor));
  }

  /** The matches are chained inside the buffer. */
  lemma {:induction false} MatchesChained(env: Env, buf: string, cursor: nat)
    requires MatcherSound(env)
    ensures Chained(Matches(env, buf, cursor), cursor, |buf|)
    decreases |buf| - cursor
  {
    if env.nextMatch(buf, cursor).Some? {
      var m := env.nextMatch(buf, cursor).value;
      MatchesStep(env, buf, cursor);
      MatchesChained(env, buf, End(m));
      assert Matches(env, buf, cursor)[1..] == Matches(env, buf, End(m));
    }
  }

  /** Each match is what `exec` returns when started where the previous match ended,
      and `exec` started after the last one finds nothing. */
  lemma {:induction false} MatchesFound(env: Env, buf: string, cursor: nat)
    requires MatcherSound(env)
    ensures var ms := Matches(env, buf, cursor);
      && (forall i :: 0 <= i < |ms| ==> env.nextMatch(buf, SearchStart(ms, cursor, i)) == Some(ms[i]))
      && env.nextMatch(buf, SearchStart(ms, cursor, |ms|)).None?
    decreases |buf| - cursor
  {
    if env.nextMatch(buf, cursor).Some? {
      var m := env.nextMatch(buf, cursor).value;
      MatchesStep(env, buf, cursor);
      MatchesFound(env, buf, End(m));
      var ms, rest := Matches(env, buf, cursor), Matches(env, buf, End(m));
      assert ms == [m] + rest;
      forall i | 1 <= i <= |ms|
        ensures SearchStart(ms, cursor, i) == SearchStart(rest, End(m), i - 1)
      {
        if i > 1 {
          assert ms[i - 1] == rest[i - 2];
        }
      }
      forall i | 0 <= i < |ms|
        ensures env.nextMatch(buf, SearchStart(ms, cursor, i)) == Some(ms[i])
      {
        if i > 0 {
          assert ms[i] == rest[i - 1];
        }
      }
    }
  }

  /** `parseLogEntry(buffer, match[0], match.index, position)` for one match. */
  function Classify(env: Env, buf: string, discarded: nat, m: LabelMatch): Outcome
    requires ScannerSound(env)
  {
    ParseLogEntry(env, buf, m.text, m.index, discarded + m.index)
  }

  /** The classification of every match, in order. */
  function Outcomes(env: Env, buf: string, discarded: nat, ms: seq<LabelMatch>): (os: seq<Outcome>)
    requires ScannerSound(env)
    ensures |os| == |ms|
  {
    if ms == [] then [] else [Classify(env, buf, discarded, ms[0])] + Outcomes(env, buf, discarded, ms[1..])
  }

  /** The `i`-th outcome is the classification of the `i`-th match. */
  lemma {:induction false} OutcomeAt(env: Env, buf: string, discarded: nat, ms: seq<LabelMatch>, i: nat)
    requires ScannerSound(env) && i < |ms|
    ensures Outcomes(env, buf, discarded, ms)[i] == Classify(env, buf, discarded, ms[i])
    decreases i
  {
    if i > 0 {
      OutcomeAt(env, buf, discarded, ms[1..], i - 1);
    }
  }

  lemma OutcomesAll(env: Env, buf: string, discarded: nat, ms: seq<LabelMatch>)
    requires ScannerSound(env)
    ensures forall i :: 0 <= i < |ms| ==> Outcomes(env, buf, discarded, ms)[i] == Classify(env, buf, discarded, ms[i])
  {
    forall i | 0 <= i < |ms| ensures Outcomes(env, buf, discarded, ms)[i] == Classify(env, buf, discarded, ms[i]) {
      OutcomeAt(env, buf, discarded, ms, i);
    }
  }

  /** `bufferUsed` after one classified match at `index`. */
  function UsedAfter(index: nat, o: Outcome): nat {
    match o
    case Invalid(n) => index + n
    case Partial => index
    case Full(n, _) => index + n
    case Unrecognised => index
  }

  /** What the callback receives for one classified match at absolute `position`. */
  function EmittedBy(o: Outcome, position: nat): (es: seq<LogEntry>)
    ensures |es| <= 1
  {
    if o.Full? then [LogEntry(o.entry, position)] else []
  }

  /** Entries already delivered before the rest of a scan. */
  function Prepend(es: seq<LogEntry>, s: Scan): Scan {
    s.(entries := es + s.entries)
  }

  /** The search from a cursor whose matches are the rest `ms[k..]` of a known sequence. */
  lemma MatchesAt(env: Env, buf: string, cursor: nat, ms: seq<LabelMatch>, k: nat)
    requires MatcherSound(env)
    requires k <= |ms| && Matches(env, buf, cursor) == ms[k..]
    ensures env.nextMatch(buf, cursor).None? ==> k == |ms|
    ensures env.nextMatch(buf, cursor).Some? ==>
      && k < |ms| && ms[k] == env.nextMatch(buf, cursor).value
      && Matches(env, buf, End(ms[k])) == ms[k + 1..]
  {
    if env.nextMatch(buf, cursor).Some? {
      MatchesStep(env, buf, cursor);
      assert ms[k..][1..] == ms[k + 1..];
    }
  }

  lemma RunDone(discarded: nat, ms: seq<LabelMatch>, os: seq<Outcome>, k: nat, used: nat)
    requires |os| == |ms| && k == |ms|
    ensures Run(discarded, ms[k..], os[k..], used) == Scan([], used, false)
  {
    assert ms[k..] == [];
  }

  lemma RunThrows(discarded: nat, ms: seq<LabelMatch>, os: seq<Outcome>, k: nat, used: nat)
    requires |os| == |ms| && k < |ms| && os[k].Unrecognised?
    ensures Run(discarded, ms[k..], os[k..], used) == Scan([], used, true)
  {
    assert os[k..][0] == os[k];
  }

  /** The loop invariant of the scan, carried over one recognised match. */
  lemma RunAdvance(discarded: nat, ms: seq<LabelMatch>, os: seq<Outcome>, k: nat, used: nat, before: seq<LogEntry>)
    requires |os| == |ms| && k < |ms| && !os[k].Unrecognised?
    ensures Prepend(before, Run(discarded, ms[k..], os[k..], used))
         == Prepend(before + EmittedBy(os[k], discarded + ms[k].index),
                    Run(discarded, ms[k + 1..], os[k + 1..], UsedAfter(ms[k].index, os[k])))
  {
    RunStep(discarded, ms, os, k, used);
    PrependPrepend(before, EmittedBy(os[k], discarded + ms[k].index),
                   Run(discarded, ms[k + 1..], os[k + 1..], UsedAfter(ms[k].index, os[k])));
  }

  /** One turn of the scan loop: the search at `cursor` returns the `k`-th match `m`. */
  lemma ScanLoopStep(env: Env, buf: string, discarded: nat, ms: seq<LabelMatch>, os: seq<Outcome>,
                     k: nat, cursor: nat, m: LabelMatch, used: nat, before: seq<LogEntry>)
    requires ScannerSound(env) && MatcherSound(env)
    requires os == Outcomes(env, buf, discarded, ms)
    requires k <= |ms| && Matches(env, buf, cursor) == ms[k..]
    requires env.nextMatch(buf, cursor) == Some(m)
    ensures k < |ms| && Matches(env, buf, End(m)) == ms[k + 1..]
    ensures var o := Classify(env, buf, discarded, m);
      && (o.Unrecognised? ==> Run(discarded, ms[k..], os[k..], used) == Scan([], used, true))
      && (!o.Unrecognised? ==>
            Prepend(before, Run(discarded, ms[k..], os[k..], used))
              == Prepend(before + EmittedBy(o, discarded + m.index),
                         Run(discarded, ms[k + 1..], os[k + 1..], UsedAfter(m.index, o))))
  {
    MatchesAt(env, buf, cursor, ms, k);
    OutcomeAt(env, buf, discarded, ms, k);
    if os[k].Unrecognised? {
      RunThrows(discarded, ms, os, k, used);
    } else {
      RunAdvance(discarded, ms, os, k, used, before);
    }
  }

  lemma PrependPrepend(es: seq<LogEntry>, head: seq<LogEntry>, s: Scan)
    ensures Prepend(es, Prepend(head, s)) == Prepend(es + head, s)
  {
    assert es + (head + s.entries) == (es + head) + s.entries;
  }

  /** The `switch` over the classified matches, from `bufferUsed == used`: each match
      overwrites `bufferUsed`, a `full` one calls back, and the first unrecognised one
      throws and ends the scan. */
  function Run(discarded: nat, ms: seq<LabelMatch>, os: seq<Outcome>, used: nat): (r: Scan)
    requires |os| == |ms|
    ensures r.failed <==> exists i :: 0 <= i < |os| && os[i].Unrecognised?
    ensures |r.entries| <= |ms|
    decreases |ms|
  {
    if ms == [] then Scan([], used, false)
    else if os[0].Unrecognised? then Scan([], used, true)
    else
      assert forall i :: 1 <= i < |os| ==> os[i] == os[1..][i - 1];
      Prepend(EmittedBy(os[0], discarded + ms[0].index),
                 Run(discarded, ms[1..], os[1..], UsedAfter(ms[0].index, os[0])))
  }

  lemma RunStep(discarded: nat, ms: seq<LabelMatch>, os: seq<Outcome>, k: nat, used: nat)
    requires |os| == |ms| && k < |ms| && !os[k].Unrecognised?
    ensures Run(discarded, ms[k..], os[k..], used)
         == Prepend(EmittedBy(os[k], discarded + ms[k].index),
                    Run(discarded, ms[k + 1..], os[k + 1..], UsedAfter(ms[k].index, os[k])))
  {
    assert ms[k..][1..] == ms[k + 1..] && os[k..][1..] == os[k + 1..];
  }

  /** Every classification leaves `bufferUsed` inside the buffer. */
  lemma OutcomesWithin(env: Env, buf: string, discarded: nat, ms: seq<LabelMatch>)
    requires ScannerSound(env)
    requires forall i :: 0 <= i < |ms| ==> End(ms[i]) <= |buf|
    ensures var os := Outcomes(env, buf, discarded, ms);
      forall i :: 0 <= i < |ms| ==> UsedAfter(ms[i].index, os[i]) <= |buf|
  {
    OutcomesAll(env, buf, discarded, ms);
  }

  lemma {:induction false} ChainedWithin(ms: seq<LabelMatch>, lo: nat, hi: nat)
    requires Chained(ms, lo, hi)
    ensures forall i :: 0 <= i < |ms| ==> lo <= ms[i].index && End(ms[i]) <= hi
    decreases |ms|
  {
    if ms != [] {
      ChainedWithin(ms[1..], End(ms[0]), hi);
      assert forall i :: 1 <= i < |ms| ==> ms[i] == ms[1..][i - 1];
    }
  }

  /** The final `bufferUsed` is the one the last match set, or the initial one when
      there was no match. */
  lemma {:induction false} RunUsedIsLast(discarded: nat, ms: seq<LabelMatch>, os: seq<Outcome>, used: nat)
    requires |os| == |ms|
    requires forall i :: 0 <= i < |os| ==> !os[i].Unrecognised?
    ensures var r := Run(discarded, ms, os, used);
      && !r.failed
      && r.used == if ms == [] then used else UsedAfter(ms[|ms| - 1].index, os[|os| - 1])
    decreases |ms|
  {
    if ms != [] {
      RunUsedIsLast(discarded, ms[1..], os[1..], UsedAfter(ms[0].index, os[0]));
      if |ms| > 1 {
        assert ms[1..][|ms| - 2] == ms[|ms| - 1] && os[1..][|os| - 2] == os[|os| - 1];
      }
    }
  }

  /** `bufferUsed` stays inside the buffer. */
  lemma {:induction false} RunUsedWithin(discarded: nat, ms: seq<LabelMatch>, os: seq<Outcome>, used: nat, hi: nat)
    requires |os| == |ms| && used <= hi
    requires forall i :: 0 <= i < |ms| ==> UsedAfter(ms[i].index, os[i]) <= hi
    ensures Run(discarded, ms, os, used).used <= hi
    decreases |ms|
  {
    if ms != [] && !os[0].Unrecognised? {
      assert UsedAfter(ms[0].index, os[0]) <= hi;
      RunUsedWithin(discarded, ms[1..], os[1..], UsedAfter(ms[0].index, os[0]), hi);
    }
  }

  /** The whole scan of `append` over the buffer. */
  function ScanBuffer(env: Env, buf: string, discarded: nat): Scan
    requires ScannerSound(env) && MatcherSound(env)
  {
    var ms := Matches(env, buf, 0);
    Run(discarded, ms, Outcomes(env, buf, discarded, ms), 0)
  }

  /** The final `bufferUsed` lies inside the buffer, so the trim can cut there. */
  lemma ScanUsedWithin(env: Env, buf: string, discarded: nat)
    requires ScannerSound(env) && MatcherSound(env)
    ensures ScanBuffer(env, buf, discarded).used <= |buf|
  {
    var ms := Matches(env, buf, 0);
    var os := Outcomes(env, buf, discarded, ms);
    MatchesChained(env, buf, 0);
    ChainedWithin(ms, 0, |buf|);
    OutcomesWithin(env, buf, discarded, ms);
    RunUsedWithin(discarded, ms, os, 0, |buf|);
  }

  /** Positions strictly increasing, the first at least `lo`, all below `hi`. */
  ghost predicate Ascending(es: seq<LogEntry>, lo: nat, hi: nat) {
    && (forall i :: 0 <= i < |es| ==> lo <= es[i].position < hi)
    && (forall i, j :: 0 <= i < j < |es| ==> es[i].position < es[j].position)
  }

  /** Callbacks fire in the order of the matches: strictly increasing positions, inside
      the part of the stream the buffer covers. */
  lemma {:induction false} RunInOrder(discarded: nat, ms: seq<LabelMatch>, os: seq<Outcome>, used: nat, lo: nat, hi: nat)
    requires |os| == |ms| && Chained(ms, lo, hi)
    ensures Ascending(Run(discarded, ms, os, used).entries, discarded + lo, discarded + hi)
    decreases |ms|
  {
    if ms != [] && !os[0].Unrecognised? {
      var rest := Run(discarded, ms[1..], os[1..], UsedAfter(ms[0].index, os[0])).entries;
      var head := EmittedBy(os[0], discarded + ms[0].index);
      RunInOrder(discarded, ms[1..], os[1..], UsedAfter(ms[0].index, os[0]), End(ms[0]), hi);
      var es := head + rest;
      assert Run(discarded, ms, os, used).entries == es;
      forall i, j | 0 <= i < j < |es| ensures es[i].position < es[j].position {
        if |head| == 1 && i == 0 {
          assert es[j] == rest[j - 1];
        } else {
          assert es[i] == rest[i - |head|] && es[j] == rest[j - |head|];
        }
      }
      forall i | 0 <= i < |es| ensures discarded + lo <= es[i].position < discarded + hi {
        if i >= |head| {
          assert es[i] == rest[i - |head|];
        }
      }
    }
  }

  /** Each entry is the `full` classification of one of the matches, at that match's
      absolute position. */
  lemma {:induction false} RunEntriesClassified(discarded: nat, ms: seq<LabelMatch>, os: seq<Outcome>, used: nat)
    requires |os| == |ms|
    ensures forall e :: e in Run(discarded, ms, os, used).entries ==>
      exists i :: 0 <= i < |ms| && os[i].Full? && e == LogEntry(os[i].entry, discarded + ms[i].index)
    decreases |ms|
  {
    if ms != [] && !os[0].Unrecognised? {
      RunEntriesClassified(discarded, ms[1..], os[1..], UsedAfter(ms[0].index, os[0]));
      var rest := Run(discarded, ms[1..], os[1..], UsedAfter(ms[0].index, os[0])).entries;
      forall e | e in rest
        ensures exists i :: 0 <= i < |ms| && os[i].Full? && e == LogEntry(os[i].entry, discarded + ms[i].index)
      {
        var i :| 0 <= i < |ms| - 1 && os[1..][i].Full? && e == LogEntry(os[1..][i].entry, discarded + ms[1..][i].index);
        assert os[i + 1].Full? && e == LogEntry(os[i + 1].entry, discarded + ms[i + 1].index);
      }
    }
  }

  /** No match is lost: with every match classified, the callback receives one entry
      for each `full` match. */
  lemma {:induction false} RunEmitsEveryFull(discarded: nat, ms: seq<LabelMatch>, os: seq<Outcome>, used: nat)
    requires |os| == |ms|
    requires forall i :: 0 <= i < |os| ==> !os[i].Unrecognised?
    ensures forall i :: 0 <= i < |ms| && os[i].Full? ==>
      LogEntry(os[i].entry, discarded + ms[i].index) in Run(discarded, ms, os, used).entries
    decreases |ms|
  {
    if ms != [] {
      RunEmitsEveryFull(discarded, ms[1..], os[1..], UsedAfter(ms[0].index, os[0]));
      forall i | 1 <= i < |ms| && os[i].Full?
        ensures LogEntry(os[i].entry, discarded + ms[i].index) in Run(discarded, ms, os, used).entries
      {
        assert os[1..][i - 1] == os[i] && ms[1..][i - 1] == ms[i];
      }
    }
  }

  /** The body of the scan loop for one match: `parseLogEntry`, then the `switch` on
      its type, which sets `bufferUsed` and calls back on `full`; `thrown` when
      `parseLogEntry` threw. */
  method SwitchOn(env: Env, buf: string, discarded: nat, m: LabelMatch, emitted: seq<LogEntry>)
    returns (bufferUsed: nat, emittedNow: seq<LogEntry>, thrown: bool)
    requires ScannerSound(env)
    ensures var o := Classify(env, buf, discarded, m);
      && thrown == o.Unrecognised?
      && (!thrown ==> bufferUsed == UsedAfter(m.index, o)
                      && emittedNow == emitted + EmittedBy(o, discarded + m.index))
  {
    var position := discarded + m.index;
    var o := ParseLogEntry(env, buf, m.text, m.index, position);
    emittedNow := emitted;
    thrown := false;
    match o {
      case Invalid(n) =>
        bufferUsed := m.index + n;
      case Partial =>
        bufferUsed := m.index;
      case Full(n, entry) =>
        bufferUsed := m.index + n;
        emittedNow := emitted + [LogEntry(entry, position)];
      case Unrecognised =>
        bufferUsed := 0;
        thrown := true;
    }
  }

  /** The `while ((match = logEntryPattern.exec(buffer)))` loop of `append` with its
      `switch`: the entries passed to the callback, the final `bufferUsed`, and
      `completed == false` when `parseLogEntry` threw. */
  method ScanMatches(env: Env, buf: string, discarded: nat) returns (emitted: seq<LogEntry>, bufferUsed: nat, completed: bool)
    requires ScannerSound(env) && MatcherSound(env)
    ensures var scan := ScanBuffer(env, buf, discarded);
      emitted == scan.entries && bufferUsed == scan.used && completed == !scan.failed
  {
    ghost var ms := Matches(env, buf, 0);
    ghost var os := Outcomes(env, buf, discarded, ms);
    ghost var k := 0;
    var lastIndex: nat := 0;
    bufferUsed := 0;
    emitted := [];
    completed := true;
    while true
      invariant k <= |ms|
      invariant Matches(env, buf, lastIndex) == ms[k..]
      invariant Run(discarded, ms, os, 0) == Prepend(emitted, Run(discarded, ms[k..], os[k..], bufferUsed))
      decreases |ms| - k
    {
      var next := env.nextMatch(buf, lastIndex);
      if next.None? {
        MatchesAt(env, buf, lastIndex, ms, k);
        RunDone(discarded, ms, os, k, bufferUsed);
        break;
      }
      var m := next.value;
      ScanLoopStep(env, buf, discarded, ms, os, k, lastIndex, m, bufferUsed, emitted);
      var used, emittedNow, thrown := SwitchOn(env, buf, discarded, m, emitted);
      if thrown {
        completed := false;
        return;
      }
      bufferUsed, emitted := used, emittedNow;
      lastIndex := End(m);
      k := k + 1;
    }
  }

  /** The decoder's central promise for one `append`: the entries come out in stream
      order, each is `parseLogEntry`'s `full` result for a match of the global search,
      and `bufferUsed` stays inside the buffer. */
  lemma ScanEntriesInOrder(env: Env, buf: string, discarded: nat)
    requires ScannerSound(env) && MatcherSound(env)
    ensures Ascending(ScanBuffer(env, buf, discarded).entries, discarded, discarded + |buf|)
  {
    var ms := Matches(env, buf, 0);
    MatchesChained(env, buf, 0);
    RunInOrder(discarded, ms, Outcomes(env, buf, discarded, ms), 0, 0, |buf|);
  }

  /** Each entry is the `full` classification of a match that some search returned. */
  lemma ScanEntriesParsed(env: Env, buf: string, discarded: nat)
    requires ScannerSound(env) && MatcherSound(env)
    ensures var ms := Matches(env, buf, 0);
      forall e :: e in ScanBuffer(env, buf, discarded).entries ==>
        exists i :: 0 <= i < |ms|
          && env.nextMatch(buf, SearchStart(ms, 0, i)) == Some(ms[i])
          && e.position == discarded + ms[i].index
          && Classify(env, buf, discarded, ms[i]).Full?
          && e.entry == Classify(env, buf, discarded, ms[i]).entry
  {
    var ms := Matches(env, buf, 0);
    var os := Outcomes(env, buf, discarded, ms);
    MatchesFound(env, buf, 0);
    RunEntriesClassified(discarded, ms, os, 0);
    assert ScanBuffer(env, buf, discarded) == Run(discarded, ms, os, 0);
    forall e | e in Run(discarded, ms, os, 0).entries
      ensures exists i :: 0 <= i < |ms|
                && env.nextMatch(buf, SearchStart(ms, 0, i)) == Some(ms[i])
                && e.position == discarded + ms[i].index
                && Classify(env, buf, discarded, ms[i]).Full?
                && e.entry == Classify(env, buf, discarded, ms[i]).entry
    {
      var i :| 0 <= i < |ms| && os[i].Full? && e == LogEntry(os[i].entry, discarded + ms[i].index);
      OutcomeAt(env, buf, discarded, ms, i);
    }
  }

  /** With the pattern table and the combined search in agreement, no match is unrecognised. */
  lemma AllRecognised(env: Env, buf: string, discarded: nat)
    requires ScannerSound(env) && MatcherSound(env) && PatternsAgree(env)
    ensures forall m :: m in Matches(env, buf, 0) ==> !Classify(env, buf, discarded, m).Unrecognised?
  {
    var ms := Matches(env, buf, 0);
    MatchesFound(env, buf, 0);
    forall m | m in ms ensures !Classify(env, buf, discarded, m).Unrecognised? {
      var i :| 0 <= i < |ms| && ms[i] == m;
      assert env.nextMatch(buf, SearchStart(ms, 0, i)) == Some(m);
      assert Recognised(env, m.text);
    }
  }

  /** With the pattern table and the combined search in agreement, the error is never
      thrown and the final `bufferUsed` is the one the last match set. */
  lemma ScanNeverFails(env: Env, buf: string, discarded: nat)
    requires ScannerSound(env) && MatcherSound(env) && PatternsAgree(env)
    ensures var ms := Matches(env, buf, 0);
      var r := ScanBuffer(env, buf, discarded);
      && !r.failed
      && r.used == if ms == [] then 0 else UsedAfter(ms[|ms| - 1].index, Classify(env, buf, discarded, ms[|ms| - 1]))
  {
    var ms := Matches(env, buf, 0);
    var os := Outcomes(env, buf, discarded, ms);
    OutcomesRecognised(env, buf, discarded, ms, os);
    assert ScanBuffer(env, buf, discarded) == Run(discarded, ms, os, 0);
    RunUsedIsLast(discarded, ms, os, 0);
    if ms != [] {
      OutcomeAt(env, buf, discarded, ms, |ms| - 1);
    }
  }

  /** With the pattern table and the combined search in agreement, no `full` match is
      lost: each one calls back with its entry at its absolute position. */
  lemma ScanEmitsEveryFull(env: Env, buf: string, discarded: nat)
    requires ScannerSound(env) && MatcherSound(env) && PatternsAgree(env)
    ensures var ms := Matches(env, buf, 0);
      forall i :: 0 <= i < |ms| && Classify(env, buf, discarded, ms[i]).Full? ==>
        LogEntry(Classify(env, buf, discarded, ms[i]).entry, discarded + ms[i].index)
          in ScanBuffer(env, buf, discarded).entries
  {
    var ms := Matches(env, buf, 0);
    forall i | 0 <= i < |ms| && Classify(env, buf, discarded, ms[i]).Full?
      ensures LogEntry(Classify(env, buf, discarded, ms[i]).entry, discarded + ms[i].index)
                in ScanBuffer(env, buf, discarded).entries
    {
      ScanEmitsFullAt(env, buf, discarded, ms, i);
    }
  }

  lemma ScanEmitsFullAt(env: Env, buf: string, discarded: nat, ms: seq<LabelMatch>, i: nat)
    requires ScannerSound(env) && MatcherSound(env) && PatternsAgree(env)
    requires ms == Matches(env, buf, 0) && i < |ms|
    requires Classify(env, buf, discarded, ms[i]).Full?
    ensures LogEntry(Classify(env, buf, discarded, ms[i]).entry, discarded + ms[i].index)
              in ScanBuffer(env, buf, discarded).entries
  {
    var os := Outcomes(env, buf, discarded, ms);
    OutcomesRecognised(env, buf, discarded, ms, os);
    assert ScanBuffer(env, buf, discarded) == Run(discarded, ms, os, 0);
    RunEmitsEveryFull(discarded, ms, os, 0);
    OutcomeAt(env, buf, discarded, ms, i);
  }

  lemma OutcomesRecognised(env: Env, buf: string, discarded: nat, ms: seq<LabelMatch>, os: seq<Outcome>)
    requires ScannerSound(env) && MatcherSound(env) && PatternsAgree(env)
    requires ms == Matches(env, buf, 0) && os == Outcomes(env, buf, discarded, ms)
    ensures forall i :: 0 <= i < |os| ==> !os[i].Unrecognised?
  {
    AllRecognised(env, buf, discarded);
    forall i | 0 <= i < |os| ensures !os[i].Unrecognised? {
      assert ms[i] in ms;
      OutcomeAt(env, buf, discarded, ms, i);
    }
  }

  // ---------------------------------------------------------------------------
  // The trim

  /** Number of occurrences of `c` in `s`. */
  function CountChar(s: string, c: char): nat {
    if s == [] then 0 else CountChar(s[..|s| - 1], c) + (if s[|s| - 1] == c then 1 else 0)
  }

  /** `nthLastIndexOf(s, c, n)`: the index of the n-th occurrence of `c` counted from
      the end, or -1 when `s` holds fewer than `n` of them. */
  function NthLastIndexOf(s: string, c: char, n: nat): (r: int)
    requires n >= 1
    ensures -1 <= r < |s|
    ensures r == -1 <==> CountChar(s, c) < n
    ensures r >= 0 ==> s[r] == c && CountChar(s[r..], c) == n
    decreases |s|
  {
    if s == [] then -1
    else
      var prefix := s[..|s| - 1];
      if s[|s| - 1] == c then
        if n == 1 then
          assert s[|s| - 1..][..0] == [];
          |s| - 1
        else
          var r := NthLastIndexOf(prefix, c, n - 1);
          assert r >= 0 ==> s[r..][..|s| - 1 - r] == prefix[r..];
          r
      else
        var r := NthLastIndexOf(prefix, c, n);
        assert r >= 0 ==> s[r..][..|s| - 1 - r] == prefix[r..];
        r
  }

  /** How much of the buffer `append` drops: `bufferUsed` when some match set it,
      otherwise the index of the `maxLines`-th last line break, 0 when there is none. */
  function CutPoint(buf: string, used: nat, maxLines: nat): (cut: nat)
    requires used <= |buf| && maxLines >= 1
    ensures cut <= |buf|
    ensures used > 0 ==> cut == used
    ensures used == 0 && CountChar(buf, '\n') < maxLines ==> cut == 0
    ensures used == 0 && CountChar(buf, '\n') >= maxLines ==>
      cut < |buf| && buf[cut] == '\n' && CountChar(buf[cut..], '\n') == maxLines
  {
    if used > 0 then used
    else
      var i := NthLastIndexOf(buf, '\n', maxLines);
      if i == -1 then 0 else i
  }

  /** After the line-based trim the kept text holds at most `maxLines` line breaks. */
  lemma TrimKeepsMaxLines(buf: string, maxLines: nat)
    requires maxLines >= 1
    ensures CountChar(buf[CutPoint(buf, 0, maxLines)..], '\n') <= maxLines
  {
    if CutPoint(buf, 0, maxLines) == 0 {
      assert buf[0..] == buf;
    }
  }

  /** When the buffer holds no label at all, what is kept holds at most two line breaks,
      however much text has been appended. */
  lemma NoLabelKeepsTwoLines(env: Env, buf: string, discarded: nat)
    requires ScannerSound(env) && MatcherSound(env)
    requires env.nextMatch(buf, 0).None?
    ensures MaxLinesOfAnyPattern() >= 1
    ensures CountChar(buf[CutPoint(buf, ScanBuffer(env, buf, discarded).used, MaxLinesOfAnyPattern())..], '\n') <= 2
  {
    MaxLinesIsTwo();
    assert Matches(env, buf, 0) == [];
    assert ScanBuffer(env, buf, discarded).used == 0;
    TrimKeepsMaxLines(buf, 2);
  }

  /** Chained matches do not overlap: each ends before the next one starts. */
  lemma {:induction false} ChainedOrder(ms: seq<LabelMatch>, lo: nat, hi: nat)
    requires Chained(ms, lo, hi)
    ensures forall i, j :: 0 <= i < j < |ms| ==> End(ms[i]) <= ms[j].index
    ensures forall i :: 0 <= i < |ms| ==> 0 < |ms[i].text|
    decreases |ms|
  {
    if ms != [] {
      ChainedOrder(ms[1..], End(ms[0]), hi);
      assert forall i :: 1 <= i < |ms| ==> ms[i] == ms[1..][i - 1];
      ChainedWithin(ms[1..], End(ms[0]), hi);
      forall i, j | 0 <= i < j < |ms| ensures End(ms[i]) <= ms[j].index {
        assert ms[j] == ms[1..][j - 1];
        if i > 0 {
          assert ms[i] == ms[1..][i - 1];
        }
      }
    }
  }

  /** The scan does not stop at a `partial` match: the cut is decided by the last match
      alone. A `partial` last match away from the buffer start is kept from its label on;
      an earlier `partial` one followed by a `full` or `invalid` match is cut away. */
  lemma CutFollowsLastMatch(env: Env, buf: string, discarded: nat, maxLines: nat)
    requires ScannerSound(env) && MatcherSound(env) && PatternsAgree(env) && maxLines >= 1
    ensures var ms := Matches(env, buf, 0);
      var scan := ScanBuffer(env, buf, discarded);
      && scan.used <= |buf|
      && (ms != [] ==>
            var last := ms[|ms| - 1];
            var cut := CutPoint(buf, scan.used, maxLines);
            && (Classify(env, buf, discarded, last).Partial? && last.index > 0 ==> cut == last.index)
            && (!Classify(env, buf, discarded, last).Partial? ==>
                  forall i :: 0 <= i < |ms| - 1 ==> ms[i].index < cut))
  {
    var ms := Matches(env, buf, 0);
    ScanNeverFails(env, buf, discarded);
    ScanUsedWithin(env, buf, discarded);
    if ms != [] {
      MatchesChained(env, buf, 0);
      ChainedOrder(ms, 0, |buf|);
      CutByLast(buf, ms, Classify(env, buf, discarded, ms[|ms| - 1]), ScanBuffer(env, buf, discarded).used, maxLines);
    }
  }

  /** A trailing `partial` match at the very start of the buffer sets `bufferUsed` to 0,
      so the line-based trim applies: once the buffer holds `maxLines` line breaks and does
      not begin with one, the trim drops the start of that incomplete entry. */
  lemma PartialAtStartIsTrimmed(env: Env, buf: string, discarded: nat, maxLines: nat)
    requires ScannerSound(env) && MatcherSound(env) && PatternsAgree(env) && maxLines >= 1
    requires var ms := Matches(env, buf, 0);
      ms != [] && ms[|ms| - 1].index == 0 && Classify(env, buf, discarded, ms[|ms| - 1]).Partial?
    requires CountChar(buf, '\n') >= maxLines && buf[0] != '\n'
    ensures var scan := ScanBuffer(env, buf, discarded);
      scan.used == 0 && 0 < CutPoint(buf, 0, maxLines) < |buf|
  {
    ScanNeverFails(env, buf, discarded);
  }

  lemma CutByLast(buf: string, ms: seq<LabelMatch>, o: Outcome, used: nat, maxLines: nat)
    requires ms != [] && used <= |buf| && maxLines >= 1
    requires used == UsedAfter(ms[|ms| - 1].index, o)
    requires forall i, j :: 0 <= i < j < |ms| ==> End(ms[i]) <= ms[j].index
    requires forall i :: 0 <= i < |ms| ==> 0 < |ms[i].text|
    ensures o.Partial? && ms[|ms| - 1].index > 0 ==> CutPoint(buf, used, maxLines) == ms[|ms| - 1].index
    ensures !o.Partial? ==> forall i :: 0 <= i < |ms| - 1 ==> ms[i].index < CutPoint(buf, used, maxLines)
  {
    forall i | 0 <= i < |ms| - 1 ensures ms[i].index < ms[|ms| - 1].index {
      assert End(ms[i]) <= ms[|ms| - 1].index;
    }
  }

  /** What one `append` computes from the joined buffer: the entries passed to the
      callback, whether the scan completed, and how much of the buffer it drops (the
      scan's `bufferUsed`, or else the line-based trim; nothing when the scan threw). */
  method ScanAndCut(env: Env, text: string, discarded: nat, maxLines: nat)
    returns (emitted: seq<LogEntry>, completed: bool, cut: nat)
    requires ScannerSound(env) && MatcherSound(env) && maxLines >= 1
    ensures var scan := ScanBuffer(env, text, discarded);
      && scan.used <= |text|
      && emitted == scan.entries
      && completed == !scan.failed
      && cut == (if scan.failed then 0 else CutPoint(text, scan.used, maxLines))
      && cut <= |text|
  {
    ScanUsedWithin(env, text, discarded);
    var bufferUsed;
    emitted, bufferUsed, completed := ScanMatches(env, text, discarded);
    if !completed {
      return emitted, completed, 0;
    }
    if bufferUsed == 0 {
      var i := NthLastIndexOf(text, '\n', maxLines);
      bufferUsed := if i == -1 then 0 else i;
    }
    cut := bufferUsed;
  }

  lemma AppendedTail(s: string, t: string, from: nat)
    requires from <= |s|
    ensures (s + t)[from..] == s[from..] + t
  {
  }

  lemma TailOfTail(s: string, a: nat, b: nat)
    requires a + b <= |s|
    ensures s[a..][b..] == s[a + b..]
  {
  }

  // ---------------------------------------------------------------------------
  // The decoder object

  /** `ArenaLogDecoder()`: the closure state `buffer` and `bufferDiscarded`, and `append`. */
  class ArenaLogDecoder {
    const env: Env
    /** `maxLinesOfAnyPattern`, computed once from the pattern sources. */
    const maxLinesOfAnyPattern: nat
    var buffer: string
    var bufferDiscarded: nat
    /** Everything appended so far. */
    ghost var stream: string

    ghost predicate Valid()
      reads this
    {
      && ScannerSound(env) && MatcherSound(env)
      && maxLinesOfAnyPattern >= 1
      && bufferDiscarded + |buffer| == |stream|
      && buffer == stream[bufferDiscarded..]
    }

    constructor (env: Env)
      requires ScannerSound(env) && MatcherSound(env)
      ensures Valid()
      ensures this.env == env && buffer == [] && bufferDiscarded == 0 && stream == []
      ensures maxLinesOfAnyPattern == MaxLinesOfAnyPattern()
    {
      this.env := env;
      MaxLinesIsTwo();
      maxLinesOfAnyPattern := MaxLinesOfAnyPattern();
      buffer := [];
      bufferDiscarded := 0;
      stream := [];
    }

    /** Appends a chunk and returns the entries the callback receives, in order.
        `completed` is false when the scan threw; the state is then the concatenated
        buffer with nothing discarded. */
    method Append(newText: string) returns (emitted: seq<LogEntry>, completed: bool)
      requires Valid()
      modifies this
      ensures Valid()
      ensures stream == old(stream) + newText
      ensures bufferDiscarded >= old(bufferDiscarded)
      ensures var joined := old(buffer) + newText;
        var scan := ScanBuffer(env, joined, old(bufferDiscarded));
        && scan.used <= |joined|
        && emitted == scan.entries
        && completed == !scan.failed
        && var cut := if scan.failed then 0 else CutPoint(joined, scan.used, maxLinesOfAnyPattern);
        && bufferDiscarded == old(bufferDiscarded) + cut
        && buffer == joined[cut..]
    {
      var text := if |buffer| > 0 then buffer + newText else newText;
      assert text == buffer + newText;
      var discarded := bufferDiscarded;
      var cut;
      emitted, completed, cut := ScanAndCut(env, text, discarded, maxLinesOfAnyPattern);
      AppendedTail(stream, newText, discarded);
      TailOfTail(stream + newText, discarded, cut);
      stream := stream + newText;
      bufferDiscarded := discarded + cut;
      buffer := text[cut..];
    }
  }
}
