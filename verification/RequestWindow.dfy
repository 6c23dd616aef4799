/** The worker's request counters: a sliding window pruned in place, and totals since the last reset. */
module RequestWindow {
  import opened GoInts
  import opened Lists
  import opened Results
  import opened SpanAggregator
  import opened Sums

  const NS_PER_SECOND := 1_000_000_000
  const MAX_MESSAGES := 100

  datatype Entry = Entry(timestamp: int, count: int)

  /** The entries strictly after the cutoff, in order. */
  function After(s: seq<Entry>, cutoff: int): seq<Entry> {
    if s == [] then []
    else
      var init, last := After(s[..|s| - 1], cutoff), s[|s| - 1];
      if last.timestamp > cutoff then init + [last] else init
  }

  function CountOf(s: seq<Entry>): int {
    if s == [] then 0 else CountOf(s[..|s| - 1]) + s[|s| - 1].count
  }

  lemma AfterSnoc(s: seq<Entry>, e: Entry, cutoff: int)
    ensures After(s + [e], cutoff) == if e.timestamp > cutoff then After(s, cutoff) + [e] else After(s, cutoff)
  {
    assert (s + [e])[..|s + [e]| - 1] == s;
  }

  /** Pruning earlier with an older cutoff loses nothing that a later cutoff keeps. */
  lemma {:induction false} AfterAfter(s: seq<Entry>, older: int, newer: int)
    requires older <= newer
    ensures After(After(s, older), newer) == After(s, newer)
  {
    if s != [] {
      AfterAfter(s[..|s| - 1], older, newer);
      AfterSnoc(After(s[..|s| - 1], older), s[|s| - 1], newer);
    }
  }

  /** The length of the window in whole seconds, at least one. */
  function WindowSeconds(windowSize: int): (seconds: int)
    ensures seconds != 0
  {
    var seconds := Quotient(windowSize, NS_PER_SECOND);
    if seconds == 0 then 1 else seconds
  }

  /** A count over a time in nanoseconds, as a rate; zero when no time has passed. */
  function PerSecond(count: int, elapsed: int): real {
    if elapsed > 0 then count as real * NS_PER_SECOND as real / elapsed as real else 0.0
  }

  function Percentage(part: int, whole: int): real {
    if whole > 0 then part as real / whole as real * 100.0 else 0.0
  }

  function Rate(count: int, seconds: int): real
    requires seconds != 0
  {
    count as real / seconds as real
  }

  /** What the three quotients mean, and that they are zero where they would divide by nothing. */
  lemma QuotientsMean(count: int, seconds: int, elapsed: int, part: int, whole: int)
    ensures seconds != 0 ==> Rate(count, seconds) * seconds as real == count as real
    ensures elapsed > 0 ==> PerSecond(count, elapsed) * elapsed as real == count as real * 1_000_000_000.0
    ensures elapsed <= 0 ==> PerSecond(count, elapsed) == 0.0
    ensures whole > 0 ==> Percentage(part, whole) * whole as real == part as real * 100.0
    ensures whole <= 0 ==> Percentage(part, whole) == 0.0
  {
  }

  /** A window counts in whole seconds, and never as less than one. */
  lemma WindowSecondsAre(windowSize: int)
    requires windowSize >= 0
    ensures windowSize < 1_000_000_000 ==> WindowSeconds(windowSize) == 1
    ensures windowSize >= 1_000_000_000 ==>
      WindowSeconds(windowSize) * 1_000_000_000 <= windowSize < (WindowSeconds(windowSize) + 1) * 1_000_000_000
  {
    QuotientBounds(windowSize, NS_PER_SECOND);
  }

  /** The entries after a cutoff are those that are, each as often and in the same order. */
  lemma {:induction false} AfterConcat(a: seq<Entry>, b: seq<Entry>, cutoff: int)
    ensures After(a + b, cutoff) == After(a, cutoff) + After(b, cutoff)
  {
    if b == [] {
      assert a + b == a;
    } else {
      AfterConcat(a, b[..|b| - 1], cutoff);
      ConcatSnoc(a, b);
    }
  }

  lemma AfterOne(e: Entry, cutoff: int)
    ensures After([e], cutoff) == (if e.timestamp > cutoff then [e] else []) && CountOf([e]) == e.count
  {
    Snoc([], e);
    assert [] + [e] == [e];
  }

  lemma {:induction false} CountOfConcat(a: seq<Entry>, b: seq<Entry>)
    ensures CountOf(a + b) == CountOf(a) + CountOf(b)
  {
    if b == [] {
      assert a + b == a;
    } else {
      CountOfConcat(a, b[..|b| - 1]);
      ConcatSnoc(a, b);
    }
  }

  /** The rate a snapshot must report, from everything recorded since the last reset. */
  function RateAt(history: seq<Entry>, now: int, windowSize: int): real {
    Rate(CountOf(After(history, now - windowSize)), WindowSeconds(windowSize))
  }

  /** Seconds times rate is the number of requests after the start of the window. */
  lemma RateAtMeans(history: seq<Entry>, now: int, windowSize: int)
    ensures RateAt(history, now, windowSize) * WindowSeconds(windowSize) as real
            == CountOf(After(history, now - windowSize)) as real
  {
  }

  function PeakOf(rates: seq<real>): real {
    if rates == [] then 0.0
    else
      var peak, last := PeakOf(rates[..|rates| - 1]), rates[|rates| - 1];
      if last > peak then last else peak
  }

  lemma PeakNext(rates: seq<real>, r: real)
    ensures PeakOf(rates + [r]) == if r > PeakOf(rates) then r else PeakOf(rates)
  {
    assert (rates + [r])[..|rates + [r]| - 1] == rates;
  }

  lemma {:induction false} PeakIsMax(rates: seq<real>)
    ensures PeakOf(rates) >= 0.0 && forall r :: r in rates ==> r <= PeakOf(rates)
    ensures PeakOf(rates) == 0.0 || PeakOf(rates) in rates
  {
    if rates != [] {
      PeakIsMax(rates[..|rates| - 1]);
      assert rates == rates[..|rates| - 1] + [rates[|rates| - 1]];
    }
  }

  datatype Snapshot = Snapshot(currentRPS: real, averageRPS: real, peakRPS: real, windowSeconds: int, latency: Latency,
                               errorRate: real, errorPct: real, statusCodes: map<int, int>, messages: seq<string>,
                               totalRequests: int, totalErrors: int)

  /** What is left after pruning twice is what pruning once would leave of the full history. */
  lemma WindowNext(history: seq<Entry>, pruned: int, kept: seq<Entry>, e: Entry, cutoff: int)
    requires kept == After(history, pruned) && pruned <= cutoff
    ensures After(kept + [e], cutoff) == After(history + [e], cutoff)
  {
    AfterAfter(history, pruned, cutoff);
    AfterSnoc(history, e, cutoff);
    AfterSnoc(kept, e, cutoff);
  }

  lemma AfterNext(s: seq<Entry>, i: nat, cutoff: int)
    requires i < |s|
    ensures After(s[..i + 1], cutoff)
            == if s[i].timestamp > cutoff then After(s[..i], cutoff) + [s[i]] else After(s[..i], cutoff)
  {
    assert s[..i + 1] == s[..i] + [s[i]];
    AfterSnoc(s[..i], s[i], cutoff);
  }

  lemma CountOfSnoc(s: seq<Entry>, e: Entry)
    ensures CountOf(s + [e]) == CountOf(s) + e.count
  {
    assert (s + [e])[..|s + [e]| - 1] == s;
  }

  /** Compacts the first `n` elements of a slice into their own backing array. */
  method Compact(a: array<Entry>, n: nat, cutoff: int) returns (m: nat)
    requires n <= a.Length
    modifies a
    ensures m <= n && a[..m] == After(old(a[..n]), cutoff)
  {
    ghost var was, kept := a[..n], [];
    m := 0;
    for i := 0 to n
      invariant kept == After(was[..i], cutoff) && m == |kept| <= i
      invariant a[..m] == kept && a[i..n] == was[i..]
    {
      var e := a[i];
      assert e == a[i..n][0] == was[i] && a[i + 1..n] == a[i..n][1..];
      AfterNext(was, i, cutoff);
      if e.timestamp > cutoff {
        kept := kept + [e];
        a[m] := e;
        m := m + 1;
      }
    }
    assert was[..n] == was;
  }

  /** Go's append: in place while there is capacity, else into a bigger copy. */
  method Append(a: array<Entry>, n: nat, e: Entry) returns (b: array<Entry>)
    requires n <= a.Length
    modifies a
    ensures n < b.Length && b[..n + 1] == old(a[..n]) + [e]
    ensures if n < a.Length then b == a else fresh(b)
  {
    if n < a.Length {
      b := a;
    } else {
      b := new Entry[2 * n + 1](i requires 0 <= i < 2 * n + 1 reads a => if i < n then a[i] else e);
    }
    b[n] := e;
  }

  /** Appends a request to a pruned window and prunes again: what pruning the full history would leave. */
  method SlideIn(a: array<Entry>, n: nat, e: Entry, cutoff: int, ghost history: seq<Entry>, ghost pruned: int)
    returns (b: array<Entry>, m: nat)
    requires n <= a.Length && a[..n] == After(history, pruned) && pruned <= cutoff
    modifies a
    ensures m <= b.Length && b[..m] == After(history + [e], cutoff)
    ensures b == a || fresh(b)
  {
    WindowNext(history, pruned, a[..n], e, cutoff);
    b := Append(a, n, e);
    m := Compact(b, n + 1, cutoff);
  }

  /** Counts what is in the window now, from what was left at the last pruning. */
  method CountAfter(a: array<Entry>, n: nat, cutoff: int, ghost history: seq<Entry>, ghost pruned: int)
    returns (total: int)
    requires n <= a.Length && a[..n] == After(history, pruned) && pruned <= cutoff
    ensures total == CountOf(After(history, cutoff))
  {
    total := 0;
    ghost var s := a[..n];
    for i := 0 to n
      invariant total == CountOf(After(s[..i], cutoff))
    {
      AfterNext(s, i, cutoff);
      CountOfSnoc(After(s[..i], cutoff), s[i]);
      if a[i].timestamp > cutoff {
        total := total + a[i].count;
      }
    }
    assert s[..n] == s;
    AfterAfter(history, pruned, cutoff);
  }

  /** How often each status code was seen. */
  function CodeCounts(seen: seq<int>): map<int, int> {
    if seen == [] then map[]
    else
      var counts, last := CodeCounts(seen[..|seen| - 1]), seen[|seen| - 1];
      counts[last := Get(counts, last) + 1]
  }

  lemma CodeCountsSnoc(seen: seq<int>, code: int, counts: map<int, int>)
    requires counts == CodeCounts(seen)
    ensures CodeCounts(seen + [code]) == counts[code := Get(counts, code) + 1]
  {
    assert (seen + [code])[..|seen + [code]| - 1] == seen;
  }

  /** The counters of a snapshot add up to its requests. */
  lemma {:induction false} CodeCountsAddUp(seen: seq<int>)
    ensures SumMap(CodeCounts(seen)) == |seen|
  {
    if seen != [] {
      var init, last := seen[..|seen| - 1], seen[|seen| - 1];
      CodeCountsAddUp(init);
      SumMapUpdate(CodeCounts(init), last, Get(CodeCounts(init), last) + 1);
    }
  }

  /** Each counter is the number of times its code was seen. */
  lemma {:induction false} CodeCountIs(seen: seq<int>, code: int)
    ensures Get(CodeCounts(seen), code) == multiset(seen)[code]
  {
    if seen != [] {
      CodeCountIs(seen[..|seen| - 1], code);
      assert seen == seen[..|seen| - 1] + [seen[|seen| - 1]];
    }
  }

  /** A failure's message is kept unless it is empty, and the first hundred are. */
  lemma MessagesKept(kept: seq<string>, messages: seq<string>, message: string)
    requires FirstMessages(kept, messages)
    ensures Noted(messages, "") == messages && (message != "" ==> Noted(messages, message) == messages + [message])
    ensures kept <= messages && (|messages| <= 100 ==> kept == messages) && (|messages| >= 100 ==> |kept| == 100)
  {
  }

  function Noted(messages: seq<string>, message: string): seq<string> {
    if message == "" then messages else messages + [message]
  }

  predicate FirstMessages(kept: seq<string>, messages: seq<string>) {
    kept == if |messages| < MAX_MESSAGES then messages else messages[..MAX_MESSAGES]
  }

  /** Everything recorded and shown since the last reset, the cutoff of the last compaction, and the clock. */
  datatype Past = Past(entries: seq<Entry>, rates: seq<real>, codes: seq<int>, messages: seq<string>,
                       pruned: int, clock: int)

  class MetricsCollector {
    const aggregator: SpanAggregator      // the latency histogram
    var requestCounts: array<Entry>       // backing array of the slice
    var length: nat                       // length of the slice
    const windowSize: int
    var peakRPS: real
    var totalRequests: int
    var totalErrors: int
    var statusCodes: map<int, int>
    var errorMessages: seq<string>
    var startTime: int
    ghost var past: Past

    ghost predicate Valid()
      reads this, requestCounts, aggregator
    {
      aggregator.Valid() && CountsOk()
    }

    ghost predicate CountsOk()
      reads this, requestCounts
    {
      && length <= requestCounts.Length
      && requestCounts[..length] == After(past.entries, past.pruned)
      && past.pruned <= past.clock - windowSize
      && peakRPS == PeakOf(past.rates)
      && totalRequests == |past.entries| == |past.codes|
      && statusCodes == CodeCounts(past.codes)
      && FirstMessages(errorMessages, past.messages)
    }

    constructor (library: Library, windowSize: int, now: int)
      ensures Valid() && fresh(requestCounts) && fresh(aggregator) && aggregator.recorded == []
      ensures aggregator.library == library && past == Past([], [], [], [], now - windowSize, now)
      ensures this.windowSize == windowSize && startTime == now && totalErrors == 0
    {
      this.windowSize, length, peakRPS, totalRequests, totalErrors := windowSize, 0, 0.0, 0, 0;
      requestCounts := new Entry[0];
      aggregator := new SpanAggregator(library);
      statusCodes, errorMessages, startTime := map[], [], now;
      past := Past([], [], [], [], now - windowSize, now);
    }

    /** Counts a request, records how long it took, and prunes the window in place. */
    method RecordRequest(now: int, success: bool, duration: int, statusCode: int, message: string)
      requires Valid() && past.clock <= now
      modifies this, requestCounts, aggregator
      ensures Valid() && (requestCounts == old(requestCounts) || fresh(requestCounts))
      ensures past == Past(old(past).entries + [Entry(now, 1)], old(past).rates, old(past).codes + [statusCode],
                           if success then old(past).messages else Noted(old(past).messages, message),
                           now - windowSize, now)
      ensures requestCounts[..length] == After(past.entries, now - windowSize)
      ensures totalErrors == old(totalErrors) + (if success then 0 else 1) && startTime == old(startTime)
      ensures aggregator.recorded
              == if duration > 0 then Recorded(aggregator.library, old(aggregator.recorded), duration)
                 else old(aggregator.recorded)
    {
      RecordDuration(duration);
      RecordCounts(now, success, statusCode, message);
    }

    method RecordCounts(now: int, success: bool, statusCode: int, message: string)
      requires CountsOk() && past.clock <= now
      modifies this, requestCounts
      ensures CountsOk() && (requestCounts == old(requestCounts) || fresh(requestCounts))
      ensures past == Past(old(past).entries + [Entry(now, 1)], old(past).rates, old(past).codes + [statusCode],
                           if success then old(past).messages else Noted(old(past).messages, message),
                           now - windowSize, now)
      ensures totalErrors == old(totalErrors) + (if success then 0 else 1) && startTime == old(startTime)
    {
      CountRequest(success, statusCode, message);
      Slide(now);
    }

    /** A request that took no measurable time leaves no sample. */
    method RecordDuration(duration: int)
      requires aggregator.Valid()
      modifies aggregator
      ensures aggregator.Valid()
      ensures aggregator.recorded
              == if duration > 0 then Recorded(aggregator.library, old(aggregator.recorded), duration)
                 else old(aggregator.recorded)
    {
      if duration > 0 {
        aggregator.Record(duration);
      }
    }

    /** The totals part. */
    method CountRequest(success: bool, statusCode: int, message: string)
      requires statusCodes == CodeCounts(past.codes) && FirstMessages(errorMessages, past.messages)
      modifies this`totalRequests, this`totalErrors, this`statusCodes, this`errorMessages, this`past
      ensures totalRequests == old(totalRequests) + 1 && totalErrors == old(totalErrors) + if success then 0 else 1
      ensures past == old(past).(codes := old(past).codes + [statusCode], messages := past.messages)
      ensures past.messages == if success then old(past).messages else Noted(old(past).messages, message)
      ensures statusCodes == CodeCounts(past.codes) && FirstMessages(errorMessages, past.messages)
    {
      totalRequests := totalRequests + 1;
      if !success {
        totalErrors := totalErrors + 1;
        if message != "" {
          AddMessage(message);
        }
      }
      CountCode(statusCode);
    }

    method CountCode(statusCode: int)
      requires statusCodes == CodeCounts(past.codes)
      modifies this`statusCodes, this`past
      ensures past == old(past).(codes := old(past).codes + [statusCode]) && statusCodes == CodeCounts(past.codes)
    {
      CodeCountsSnoc(past.codes, statusCode, statusCodes);
      statusCodes := statusCodes[statusCode := Get(statusCodes, statusCode) + 1];
      past := past.(codes := past.codes + [statusCode]);
    }

    /** The window part: append the request, then drop what is too old. */
    method Slide(now: int)
      requires length <= requestCounts.Length && requestCounts[..length] == After(past.entries, past.pruned)
      requires past.pruned <= now - windowSize
      modifies this`requestCounts, this`length, this`past, requestCounts
      ensures requestCounts == old(requestCounts) || fresh(requestCounts)
      ensures past == old(past).(entries := old(past).entries + [Entry(now, 1)],
                                 pruned := now - windowSize, clock := now)
      ensures length <= requestCounts.Length && requestCounts[..length] == After(past.entries, past.pruned)
    {
      requestCounts, length :=
        SlideIn(requestCounts, length, Entry(now, 1), now - windowSize, past.entries, past.pruned);
      past := past.(entries := past.entries + [Entry(now, 1)], pruned := now - windowSize, clock := now);
    }

    method AddMessage(message: string)
      requires FirstMessages(errorMessages, past.messages)
      modifies this`errorMessages, this`past
      ensures past == old(past).(messages := old(past).messages + [message])
      ensures FirstMessages(errorMessages, past.messages)
    {
      if |errorMessages| < MAX_MESSAGES {
        errorMessages := errorMessages + [message];
      }
      past := past.(messages := past.messages + [message]);
    }

    /** Requests in the window that ends now, per second of its length. */
    method CurrentRate(now: int) returns (current: real, seconds: int)
      requires Valid() && past.clock <= now
      ensures current == RateAt(past.entries, now, windowSize) && seconds == WindowSeconds(windowSize)
    {
      var total := CountAfter(requestCounts, length, now - windowSize, past.entries, past.pruned);
      seconds := Quotient(windowSize, NS_PER_SECOND);
      if seconds == 0 {
        seconds := 1;
      }
      current := Rate(total, seconds);
    }

    /** Raises the peak if need be. */
    method ShowRate(current: real, now: int)
      requires peakRPS == PeakOf(past.rates)
      modifies this`peakRPS, this`past
      ensures peakRPS == PeakOf(past.rates)
      ensures past == old(past).(rates := old(past).rates + [current], clock := now)
    {
      PeakNext(past.rates, current);
      if current > peakRPS {
        peakRPS := current;
      }
      past := past.(rates := past.rates + [current], clock := now);
    }

    /** The rates shown are those of the full history, although most of it has been pruned away. */
    method GetSnapshot(now: int) returns (r: Snapshot)
      requires Valid() && past.clock <= now
      modifies this`peakRPS, this`past
      ensures Valid() && past == old(past).(rates := old(past).rates + [r.currentRPS], clock := now)
      ensures r.currentRPS == RateAt(past.entries, now, windowSize) && r.windowSeconds == WindowSeconds(windowSize)
      ensures r.peakRPS == peakRPS == PeakOf(past.rates)
      ensures r.totalRequests == |past.entries| && r.totalErrors == totalErrors
          && r.statusCodes == CodeCounts(past.codes)
      ensures WholeMillis(r.latency) && IsReading(r.latency, aggregator.library, aggregator.recorded)
      ensures r.messages == errorMessages && |r.messages| <= MAX_MESSAGES
      ensures r.averageRPS == PerSecond(|past.entries|, now - startTime)
      ensures r.errorPct == Percentage(totalErrors, |past.entries|)
      ensures r.errorRate == if |past.entries| > 0 then PerSecond(totalErrors, now - startTime) else 0.0
    {
      var current, seconds := CurrentRate(now);
      ShowRate(current, now);
      var latency := aggregator.GetPercentiles();
      var elapsed := now - startTime;
      var errorRate := if totalRequests > 0 then PerSecond(totalErrors, elapsed) else 0.0;
      r := Snapshot(current, PerSecond(totalRequests, elapsed), peakRPS, seconds, latency, errorRate,
                    Percentage(totalErrors, totalRequests), statusCodes, errorMessages, totalRequests, totalErrors);
    }

    /** An error outside a request is counted, but is no request. */
    method RecordError(err: Option<string>)
      requires Valid()
      modifies this`totalErrors, this`errorMessages, this`past
      ensures Valid() && totalErrors == old(totalErrors) + 1
      ensures past == if err.Some? then old(past).(messages := old(past).messages + [err.value]) else old(past)
    {
      totalErrors := totalErrors + 1;
      if err.Some? {
        AddMessage(err.value);
      }
    }

    /** Starts over, keeping the backing array. */
    method Reset(now: int)
      requires Valid() && past.clock <= now
      modifies this, aggregator
      ensures Valid() && requestCounts == old(requestCounts) && aggregator.recorded == []
      ensures past == Past([], [], [], [], now - windowSize, now)
      ensures startTime == now && totalErrors == 0
    {
      aggregator.Reset();
      length, totalRequests, totalErrors, peakRPS := 0, 0, 0, 0.0;
      statusCodes, errorMessages, startTime := map[], [], now;
      past := Past([], [], [], [], now - windowSize, now);
    }
  }
}
