/** The dashboard's aggregate state and the two string helpers its panels
    use. The terminal, the keyboard and the refresh loop are outside the
    model; what is kept is how each incoming event changes the totals, the
    request log and the last prompt, and the text transformations `truncate`
    and `format_number`. */
module Dashboard {
  import opened Common
  import opened Event
  import opened Config

  // ---------------------------------------------------------------------------
  // Aggregate state
  // ---------------------------------------------------------------------------

  /** The four fields `add_request` updates, as a value. */
  datatype Stats = Stats(totalTokens: nat, requests: seq<RequestInfo>, lastPrompt: string, lastProvider: string)

  /** The first `cap` entries of the log, or all of it when it is shorter:
      what `pop_back` until `len() <= cap` leaves. */
  function KeepNewest(log: seq<RequestInfo>, cap: nat): seq<RequestInfo>
  {
    if |log| <= cap then log else log[..cap]
  }

  /** The trimmed log is the prefix of the log of length `min(|log|, cap)`. */
  lemma KeepNewestShape(log: seq<RequestInfo>, cap: nat)
    ensures |KeepNewest(log, cap)| == (if |log| <= cap then |log| else cap)
    ensures KeepNewest(log, cap) == log[..|KeepNewest(log, cap)|]
  {
  }

  /** The effect of one `add_request` on the aggregate state. */
  function Added(st: Stats, event: RequestEvent, cap: nat): Stats
  {
    var prompt := LastUserMessage(event.messages);
    Stats(st.totalTokens + event.tokens,
          KeepNewest([ToInfo(event)] + st.requests, cap),
          if prompt.Some? then prompt.value else st.lastPrompt,
          event.provider)
  }

  /** After `add_request`: the total grows by the event's tokens; the
      provider is the event's; the prompt is the event's last user message,
      or unchanged when it has none; the log holds at most `cap` rows; and
      when `cap >= 1`, the event's row is at the front, followed by the
      newest rows of the old log, so only the oldest rows are dropped. */
  lemma AddedShape(st: Stats, event: RequestEvent, cap: nat)
    ensures Added(st, event, cap).totalTokens == st.totalTokens + event.tokens
    ensures Added(st, event, cap).lastProvider == event.provider
    ensures LastUserMessage(event.messages).Some? ==>
              Added(st, event, cap).lastPrompt == LastUserMessage(event.messages).value
    ensures LastUserMessage(event.messages).None? ==> Added(st, event, cap).lastPrompt == st.lastPrompt
    ensures |Added(st, event, cap).requests| == (if |st.requests| < cap then |st.requests| + 1 else cap)
    ensures cap >= 1 ==> Added(st, event, cap).requests[0] == ToInfo(event)
    ensures cap >= 1 ==> Added(st, event, cap).requests[1..] == st.requests[..|Added(st, event, cap).requests| - 1]
  {
    var r := Added(st, event, cap).requests;
    KeepNewestShape([ToInfo(event)] + st.requests, cap);
    if cap >= 1 {
      assert r[1..] == st.requests[..|r| - 1];
    }
  }

  /** The dashboard of `dashboard.rs`. */
  class Dashboard {
    const config: DashboardConfig
    var totalTokens: nat
    var requests: seq<RequestInfo>
    var lastPrompt: string
    var lastProvider: string

    /** The aggregate fields as one value. */
    function Snapshot(): Stats
      reads this
    {
      Stats(totalTokens, requests, lastPrompt, lastProvider)
    }

    /** `Dashboard::new`: no tokens, no requests, no prompt, no provider. */
    constructor(config: DashboardConfig)
      ensures this.config == config
      ensures Snapshot() == Stats(0, [], "", "")
    {
      this.config := config;
      totalTokens := 0;
      requests := [];
      lastPrompt := "";
      lastProvider := "";
    }

    /** `add_request`: add the tokens, record the provider and (if any) the
        last user message, push the event's row to the front of the log and
        then drop rows from the back until the log fits. */
    method AddRequest(event: RequestEvent)
      modifies this
      ensures Snapshot() == Added(old(Snapshot()), event, config.maxLogEntries)
      ensures |requests| <= config.maxLogEntries
    {
      totalTokens := totalTokens + event.tokens;
      lastProvider := event.provider;
      var prompt := LastUserMessage(event.messages);
      if prompt.Some? {
        lastPrompt := prompt.value;
      }
      var info := ToInfo(event);
      requests := [info] + requests;
      ghost var pushed := requests;
      ghost var before := Snapshot();
      while |requests| > config.maxLogEntries
        invariant Snapshot() == before.(requests := requests)
        invariant requests == pushed[..|requests|]
        invariant |requests| == |pushed| || |requests| >= config.maxLogEntries
        decreases |requests|
      {
        requests := requests[..|requests| - 1];
      }
    }
  }

  // ---------------------------------------------------------------------------
  // A stream of events
  // ---------------------------------------------------------------------------

  /** The state after `add_request` has been applied to each event in turn. */
  function Replay(st: Stats, events: seq<RequestEvent>, cap: nat): Stats
    decreases |events|
  {
    if events == [] then st else Replay(Added(st, events[0], cap), events[1..], cap)
  }

  function TokenSum(events: seq<RequestEvent>): nat
  {
    if events == [] then 0 else events[0].tokens + TokenSum(events[1..])
  }

  /** The rows of the events, newest (last) first. */
  function NewestFirst(events: seq<RequestEvent>): (r: seq<RequestInfo>)
    ensures |r| == |events|
  {
    if events == [] then [] else NewestFirst(events[1..]) + [ToInfo(events[0])]
  }

  /** The total is the sum of all tokens seen. */
  lemma {:induction false} ReplayTotal(st: Stats, events: seq<RequestEvent>, cap: nat)
    ensures Replay(st, events, cap).totalTokens == st.totalTokens + TokenSum(events)
    decreases |events|
  {
    if events != [] {
      ReplayTotal(Added(st, events[0], cap), events[1..], cap);
    }
  }

  /** Trimming to `cap` before prepending more rows, and trimming again, is
      trimming once. */
  lemma KeepNewestAbsorb(a: seq<RequestInfo>, b: seq<RequestInfo>, cap: nat)
    ensures KeepNewest(a + KeepNewest(b, cap), cap) == KeepNewest(a + b, cap)
  {
    if |b| > cap {
      var left := KeepNewest(a + b[..cap], cap);
      var right := KeepNewest(a + b, cap);
      assert |left| == |right| == cap;
      forall k | 0 <= k < cap ensures left[k] == right[k] {
        if k < |a| {
          assert left[k] == a[k] && right[k] == a[k];
        } else {
          assert left[k] == b[k - |a|] == right[k];
        }
      }
    }
  }

  /** The log always holds the newest `cap` rows, newest first, ahead of
      what was there before. */
  lemma {:induction false} ReplayLog(st: Stats, events: seq<RequestEvent>, cap: nat)
    requires |st.requests| <= cap
    ensures Replay(st, events, cap).requests == KeepNewest(NewestFirst(events) + st.requests, cap)
    decreases |events|
  {
    if events == [] {
      assert NewestFirst(events) + st.requests == st.requests;
    } else {
      var next := Added(st, events[0], cap);
      KeepNewestShape([ToInfo(events[0])] + st.requests, cap);
      ReplayLog(next, events[1..], cap);
      ReplayLogStep(st, events, cap);
    }
  }

  /** The inductive step of `ReplayLog`. */
  lemma ReplayLogStep(st: Stats, events: seq<RequestEvent>, cap: nat)
    requires events != []
    requires Replay(Added(st, events[0], cap), events[1..], cap).requests
             == KeepNewest(NewestFirst(events[1..]) + Added(st, events[0], cap).requests, cap)
    ensures Replay(st, events, cap).requests == KeepNewest(NewestFirst(events) + st.requests, cap)
  {
    var rest := events[1..];
    var pushed := [ToInfo(events[0])] + st.requests;
    KeepNewestAbsorb(NewestFirst(rest), pushed, cap);
    assert NewestFirst(events) + st.requests == NewestFirst(rest) + pushed by {
      assert NewestFirst(events) == NewestFirst(rest) + [ToInfo(events[0])];
    }
  }

  /** The provider shown is the provider of the newest event. */
  lemma {:induction false} ReplayLastProvider(st: Stats, events: seq<RequestEvent>, cap: nat)
    requires events != []
    ensures Replay(st, events, cap).lastProvider == events[|events| - 1].provider
    decreases |events|
  {
    if |events| > 1 {
      ReplayLastProvider(Added(st, events[0], cap), events[1..], cap);
    }
  }

  // ---------------------------------------------------------------------------
  // `truncate`
  // ---------------------------------------------------------------------------

  function SaturatingSub(a: nat, b: nat): nat
  {
    if a >= b then a - b else 0
  }

  /** What `truncate(s, maxLen)` returns: `s` when it has at most `maxLen`
      characters, otherwise its first `maxLen - 3` (saturating) characters
      followed by "...". */
  function Truncated(s: string, maxLen: nat): string
  {
    if |s| <= maxLen then s else s[..SaturatingSub(maxLen, 3)] + "..."
  }

  /** The single pass of `truncate` over the characters of `s`: the cut point
      is remembered on reaching character `maxLen - 3`, and reaching
      character `maxLen` means the string is too long. */
  method Truncate(s: string, maxLen: nat) returns (r: string)
    ensures r == Truncated(s, maxLen)
  {
    var truncAt := SaturatingSub(maxLen, 3);
    var truncIdx := 0;
    var i := 0;
    while i < |s|
      invariant 0 <= i <= |s| && i <= maxLen
      invariant truncIdx == (if i > truncAt then truncAt else 0)
    {
      if i == truncAt {
        truncIdx := i;
      }
      if i == maxLen {
        return s[..truncIdx] + "...";
      }
      i := i + 1;
    }
    return s;
  }

  /** A short string is kept; a long one is cut to exactly `maxLen`
      characters (when `maxLen >= 3`) that start with a prefix of `s` and end
      in "...". */
  lemma TruncatedShape(s: string, maxLen: nat)
    ensures |s| <= maxLen ==> Truncated(s, maxLen) == s
    ensures |s| > maxLen && maxLen >= 3 ==>
              |Truncated(s, maxLen)| == maxLen
              && Truncated(s, maxLen)[..maxLen - 3] == s[..maxLen - 3]
              && Truncated(s, maxLen)[maxLen - 3..] == "..."
    ensures |Truncated(s, maxLen)| <= if maxLen >= 3 then maxLen else 3
  {
  }

  /** Below three characters the limit cannot be met: a longer string
      becomes just "...". */
  lemma TruncatedTiny(s: string, maxLen: nat)
    requires maxLen < 3 && |s| > maxLen
    ensures Truncated(s, maxLen) == "..."
  {
  }

  /** Truncating a truncated string changes nothing. Below a limit of 3 a
      long string becomes the bare ellipsis, which truncates to itself. */
  lemma TruncatedIdempotent(s: string, maxLen: nat)
    ensures Truncated(Truncated(s, maxLen), maxLen) == Truncated(s, maxLen)
  {
  }

  /** The source's unit test. */
  lemma TruncatedExamples()
    ensures Truncated("hello", 10) == "hello"
    ensures Truncated("hello world", 8) == "hello..."
  {
    assert "hello world"[..5] == "hello";
  }

  // ---------------------------------------------------------------------------
  // `format_number`
  // ---------------------------------------------------------------------------

  predicate AllDigits(s: string) {
    forall i :: 0 <= i < |s| ==> IsDigit(s[i])
  }

  /** The digit string `d` with a comma after every character that has a
      non-zero multiple of three characters after it. */
  function Grouped(d: string): string
  {
    if d == [] then [] else [d[0]] + Sep(|d| - 1) + Grouped(d[1..])
  }

  /** The comma written before a run of `n` already placed digits. */
  function Sep(n: nat): string
  {
    if GroupBoundary(n) then [','] else []
  }

  /** `n` is a positive multiple of three. */
  predicate GroupBoundary(n: nat)
    decreases n
  {
    n == 3 || (n > 3 && GroupBoundary(n - 3))
  }

  lemma {:induction false} GroupBoundaryMod(n: nat)
    ensures GroupBoundary(n) <==> n > 0 && n % 3 == 0
    decreases n
  {
    if n > 3 {
      GroupBoundaryMod(n - 3);
    }
  }

  /** `format_number`: the characters of the decimal rendering, walked from
      the right, each inserted at the front, with a comma inserted first
      before every third one. */
  method FormatNumber(n: u64) returns (r: string)
    ensures r == Grouped(Decimal(n))
  {
    var s := Decimal(n);
    r := [];
    for i := 0 to |s|
      invariant r == Grouped(s[|s| - i..])
    {
      ghost var prev := r;
      var c := s[|s| - 1 - i];
      if i > 0 && i % 3 == 0 {
        r := [','] + r;
      }
      r := [c] + r;
      GroupBoundaryMod(i);
      assert r == [c] + (Sep(i) + prev);
      GroupedSuffixStep(s, i);
    }
  }

  /** One iteration of `format_number`: taking one more character from the
      right puts it, and the comma it may need, in front. */
  lemma GroupedSuffixStep(s: string, i: nat)
    requires i < |s|
    ensures Grouped(s[|s| - (i + 1)..]) == [s[|s| - 1 - i]] + (Sep(i) + Grouped(s[|s| - i..]))
  {
    var t := s[|s| - i..];
    assert s[|s| - (i + 1)..] == [s[|s| - 1 - i]] + t;
    GroupedCons(s[|s| - 1 - i], t);
  }

  /** The text without its commas. */
  function StripCommas(s: string): string
  {
    if s == [] then [] else (if s[0] == ',' then [] else [s[0]]) + StripCommas(s[1..])
  }

  /** Removing the commas gives back the digits. */
  lemma {:induction false} StripGrouped(d: string)
    requires AllDigits(d)
    ensures StripCommas(Grouped(d)) == d
  {
    if d != [] {
      StripGrouped(d[1..]);
      var rest := Grouped(d[1..]);
      var sep := Sep(|d| - 1);
      var g := [d[0]] + sep + rest;
      assert g[0] == d[0] && g[1..] == sep + rest;
      if sep != [] {
        assert (sep + rest)[0] == ',' && (sep + rest)[1..] == rest;
      }
      assert StripCommas(sep + rest) == d[1..];
    }
  }

  /** A well-formed grouping: a leading group of one to three digits, then
      groups of a comma and exactly three digits. */
  ghost predicate WellGrouped(r: string)
    decreases |r|
  {
    (1 <= |r| <= 3 && AllDigits(r))
    || (|r| > 4 && r[|r| - 4] == ',' && AllDigits(r[|r| - 3..]) && WellGrouped(r[..|r| - 4]))
  }

  /** Up to three digits need no comma. */
  lemma {:induction false} GroupedShort(d: string)
    requires |d| <= 3
    ensures Grouped(d) == d
  {
    if d != [] {
      GroupedShort(d[1..]);
      assert Sep(|d| - 1) == [];
      assert d == [d[0]] + d[1..];
    }
  }

  /** Appending a multiple of three digits adds one comma at the junction. */
  lemma {:induction false} GroupedAppend(a: string, b: string)
    requires GroupBoundary(|b|)
    ensures Grouped(a + b) == Grouped(a) + (if a != [] then [','] else []) + Grouped(b)
  {
    if a == [] {
      assert a + b == b;
    } else {
      var c, t := a[0], a[1..];
      assert a == [c] + t && a + b == [c] + (t + b);
      GroupedCons(c, t + b);
      GroupedCons(c, t);
      SepShift(|t|, |b|);
      if t != [] {
        GroupedAppend(t, b);
        Regroup([c], Sep(|t|), Grouped(t), [','], Grouped(b));
      }
    }
  }

  /** A comma decision is unchanged by a multiple of three more digits. */
  lemma SepShift(m: nat, n: nat)
    requires GroupBoundary(n)
    ensures Sep(m + n) == if m == 0 then [','] else Sep(m)
  {
    GroupBoundaryMod(n);
    GroupBoundaryMod(m);
    GroupBoundaryMod(m + n);
  }

  /** One step of `Grouped`, for a string given as its first character and the rest. */
  lemma GroupedCons(c: char, t: string)
    ensures Grouped([c] + t) == [c] + Sep(|t|) + Grouped(t)
  {
    assert ([c] + t)[1..] == t;
  }

  /** `format_number` groups every non-empty digit string correctly. */
  lemma {:induction false} GroupedWell(d: string)
    requires d != [] && AllDigits(d)
    ensures WellGrouped(Grouped(d))
    decreases |d|
  {
    if |d| <= 3 {
      GroupedShort(d);
    } else {
      var a, b := d[..|d| - 3], d[|d| - 3..];
      assert d == a + b;
      GroupedAppend(a, b);
      GroupedShort(b);
      GroupedWell(a);
      var r := Grouped(d);
      assert r == Grouped(a) + [','] + b;
      assert r[..|r| - 4] == Grouped(a);
      assert r[|r| - 3..] == b;
    }
  }

  /** The properties the dashboard relies on, for every number. */
  lemma FormatNumberCorrect(n: nat)
    ensures StripCommas(Grouped(Decimal(n))) == Decimal(n)
    ensures WellGrouped(Grouped(Decimal(n)))
  {
    StripGrouped(Decimal(n));
    GroupedWell(Decimal(n));
  }

  /** The source's unit test. */
  lemma FormatNumberZero()
    ensures Grouped(Decimal(0)) == "0"
  {
  }

  lemma FormatNumberHundred()
    ensures Grouped(Decimal(100)) == "100"
  {
    assert Decimal(100) == "100";
    GroupedShort("100");
  }

  lemma FormatNumberThousand()
    ensures Grouped(Decimal(1000)) == "1,000"
  {
  }

  lemma FormatNumberMillions(n: nat)
    requires n == 1234567
    ensures Grouped(Decimal(n)) == "1,234,567"
  {
    DecimalMillions(n);
    GroupedMillions("1234567");
  }

  lemma DecimalMillions(n: nat)
    requires n == 1234567
    ensures Decimal(n) == "1234567"
  {
    assert Decimal(n) == Decimal(123456) + [DigitChar(7)];
    assert Decimal(123456) == Decimal(12345) + [DigitChar(6)];
    assert Decimal(12345) == Decimal(1234) + [DigitChar(5)];
    assert Decimal(1234) == "1234";
  }

  lemma GroupedMillions(d: string)
    requires d == "1234567"
    ensures Grouped(d) == "1,234,567"
  {
    assert d == "1234" + "567";
    GroupedThousands("1234");
    GroupedAppend("1234", "567");
    GroupedShort("567");
  }

  lemma GroupedThousands(d: string)
    requires d == "1234"
    ensures Grouped(d) == "1,234"
  {
    assert d == "1" + "234";
    GroupedAppend("1", "234");
    GroupedShort("1");
    GroupedShort("234");
  }
}
