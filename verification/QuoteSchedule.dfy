/** The synthetic quote schedule of the capacity qualifier: a uniform placement over 4,860 seconds, its
    busiest minute, and the merge of quotes and scans into one time-ordered stream. */
module QuoteSchedule {
  const WINDOW: int := 4860
  const MINUTE: int := 60
  const ADMISSION_SECONDS: int := 3900

  /** _quote_at, in seconds from the start. */
  function QuoteAt(index: nat, total: nat): nat
    requires total > 0
  {
    index * WINDOW / total
  }

  /** How many quotes come before second `k`. */
  function QuotesBefore(k: nat, total: nat): nat {
    (k * total + WINDOW - 1) / WINDOW
  }

  function CeilDiv(a: nat, b: nat): nat
    requires b > 0
  {
    (a + b - 1) / b
  }

  lemma TimesMonotone(a: nat, b: nat, c: nat)
    requires a <= b
    ensures a * c <= b * c
  {
  }

  /** A quotient reaches `k` exactly when the dividend reaches `k` times the divisor. */
  lemma DivAtLeast(a: nat, d: nat, k: nat)
    requires d > 0
    ensures k * d <= a <==> k <= a / d
  {
    var q := a / d;
    assert q * d <= a < (q + 1) * d by { assert a == q * d + a % d; }
    if k <= q {
      TimesMonotone(k, q, d);
    } else {
      TimesMonotone(q + 1, k, d);
    }
  }

  lemma QuoteBeforeSecond(index: nat, total: nat, k: nat)
    requires total > 0
    ensures QuoteAt(index, total) < k <==> index < QuotesBefore(k, total)
  {
    var x, y := index * WINDOW, k * total;
    DivAtLeast(x, total, k);
    assert index < QuotesBefore(k, total) <==> x < y;
  }

  lemma QuoteWithinWindow(index: nat, total: nat)
    requires index < total
    ensures QuoteAt(index, total) < WINDOW
  {
    assert QuotesBefore(WINDOW, total) == total by { assert (WINDOW * total + WINDOW - 1) / WINDOW == total; }
    QuoteBeforeSecond(index, total, WINDOW);
  }

  lemma QuoteAtMonotone(i: nat, j: nat, total: nat)
    requires total > 0 && i <= j
    ensures QuoteAt(i, total) <= QuoteAt(j, total)
  {
    QuoteBeforeSecond(i, total, QuoteAt(j, total) + 1);
    QuoteBeforeSecond(j, total, QuoteAt(j, total) + 1);
  }

  // ---- the busiest minute -----------------------------------------------------------------------------

  /** Of the first `n` quotes, those before second `k`. */
  function PlacedBefore(n: nat, k: nat, total: nat): nat {
    if n <= QuotesBefore(k, total) then n else QuotesBefore(k, total)
  }

  lemma MinuteCount(start: nat, total: nat)
    ensures QuotesBefore(start, total) <= QuotesBefore(start + MINUTE, total)
    ensures QuotesBefore(start + MINUTE, total) - QuotesBefore(start, total) <= CeilDiv(total, 81)
  {
    var a := start * total;
    assert (start + MINUTE) * total == a + 60 * total;
  }

  lemma FirstMinute(total: nat)
    ensures QuotesBefore(0, total) == 0 && QuotesBefore(MINUTE, total) == CeilDiv(total, 81)
  {
  }

  lemma PlaceOne(n: nat, total: nat, k: nat)
    requires n < total
    ensures PlacedBefore(n + 1, k, total) == PlacedBefore(n, k, total) + if QuoteAt(n, total) < k then 1 else 0
  {
    QuoteBeforeSecond(n, total, k);
  }

  method Fill(total: nat) returns (buckets: array<nat>)
    requires total > 0
    ensures fresh(buckets) && buckets.Length == WINDOW
    ensures forall b :: 0 <= b < WINDOW ==> buckets[b] == QuotesBefore(b + 1, total) - QuotesBefore(b, total)
  {
    hide QuoteAt, QuotesBefore, PlacedBefore;
    buckets := new nat[WINDOW](_ => 0);
    forall b | 0 <= b < WINDOW ensures PlacedBefore(0, b + 1, total) - PlacedBefore(0, b, total) == 0 {
      NothingPlaced(b, total);
      NothingPlaced(b + 1, total);
    }
    for index := 0 to total
      invariant forall b :: 0 <= b < WINDOW ==>
                  buckets[b] == PlacedBefore(index, b + 1, total) - PlacedBefore(index, b, total)
    {
      QuoteWithinWindow(index, total);
      var second := QuoteAt(index, total);
      ghost var was := buckets[..];
      buckets[second] := buckets[second] + 1;
      forall b | 0 <= b < WINDOW
        ensures buckets[b] == PlacedBefore(index + 1, b + 1, total) - PlacedBefore(index + 1, b, total)
      {
        PlaceOne(index, total, b);
        PlaceOne(index, total, b + 1);
        assert was[b] == PlacedBefore(index, b + 1, total) - PlacedBefore(index, b, total);
        assert buckets[b] == was[b] + if b == second then 1 else 0;
      }
    }
    forall b | 0 <= b <= WINDOW ensures PlacedBefore(total, b, total) == QuotesBefore(b, total) {
      AllPlaced(b, total);
    }
  }

  lemma NothingPlaced(k: nat, total: nat)
    ensures PlacedBefore(0, k, total) == 0
  {
  }

  lemma AllPlaced(k: nat, total: nat)
    requires k <= WINDOW
    ensures PlacedBefore(total, k, total) == QuotesBefore(k, total)
  {
    assert k * total <= WINDOW * total;
  }

  /** The array algorithm meets the closed form, for every total; the stress case's documented basis is
      4,140 a minute. */
  method Rolling60Peak(total: nat) returns (peak: nat)
    ensures peak == CeilDiv(total, 81)
    ensures total == 335340 ==> peak == 4140
  {
    hide QuotesBefore;
    if total == 0 { return 0; }
    var buckets := Fill(total);
    ghost var filled := buckets[..];
    peak := 0;
    FirstMinute(total);
    for start := 0 to 4801
      invariant buckets[..] == filled
      invariant peak <= CeilDiv(total, 81)
      invariant start > 0 ==> peak == CeilDiv(total, 81)
    {
      var sum: nat := 0;
      for b := start to start + MINUTE
        invariant buckets[..] == filled
        invariant sum == QuotesBefore(b, total) - QuotesBefore(start, total)
      {
        assert filled[b] == QuotesBefore(b + 1, total) - QuotesBefore(b, total);
        sum := sum + buckets[b];
      }
      MinuteCount(start, total);
      if sum > peak { peak := sum; }
    }
  }

  function Quotes(start: nat, total: nat): set<nat>
    requires total > 0
  {
    set i: nat | i < total && start <= QuoteAt(i, total) < start + MINUTE
  }

  lemma {:induction false} IntervalSize(s: set<nat>, low: nat, high: nat)
    requires low <= high && forall i :: i in s <==> low <= i < high
    ensures |s| == high - low
  {
    if low < high {
      IntervalSize(s - {high - 1}, low, high - 1);
    } else {
      assert s == {};
    }
  }

  /** What that number means: no minute holds more quotes, and the first one holds as many. */
  lemma PeakIsTheBusiestMinute(total: nat, start: nat)
    requires total > 0 && start <= 4800
    ensures |Quotes(start, total)| <= CeilDiv(total, 81)
    ensures |Quotes(0, total)| == CeilDiv(total, 81)
  {
    MinuteSize(start, total);
    MinuteSize(0, total);
    MinuteCount(start, total);
    FirstMinute(total);
  }

  lemma MinuteSize(start: nat, total: nat)
    requires total > 0 && start <= 4800
    ensures |Quotes(start, total)| == QuotesBefore(start + MINUTE, total) - QuotesBefore(start, total)
  {
    hide QuoteAt, QuotesBefore, CeilDiv;
    var low, high := QuotesBefore(start, total), QuotesBefore(start + MINUTE, total);
    MinuteCount(start, total);
    AllPlaced(start + MINUTE, total);
    assert high <= total;
    forall i: nat | i < total ensures i in Quotes(start, total) <==> low <= i < high {
      QuoteBeforeSecond(i, total, start);
      QuoteBeforeSecond(i, total, start + MINUTE);
    }
    IntervalSize(Quotes(start, total), low, high);
  }

  // ---- the merged stream ------------------------------------------------------------------------------

  datatype Kind =
    | ScanStart
    | Selection(candidate: nat) | Gate(candidate: nat)
    | Signal(candidate: nat) | Ready(candidate: nat) | Admission(candidate: nat)

  /** One published record and the clock at which it was published. */
  datatype Record =
    | Quote(index: nat, at: nat)
    | Meta(scan: nat, kind: Kind, at: nat)
    | End(at: nat)

  /** _at over the admission window, in seconds from the start. */
  function ScanAt(scan: nat, scans: nat): nat {
    if scans <= 1 then 0 else scan * (ADMISSION_SECONDS - 1) / (scans - 1)
  }

  lemma ScanAtMonotone(i: nat, j: nat, scans: nat)
    requires i <= j < scans
    ensures ScanAt(i, scans) <= ScanAt(j, scans) < ADMISSION_SECONDS
  {
    if scans > 1 {
      var d := scans - 1;
      DivAtLeast(j * (ADMISSION_SECONDS - 1), d, ADMISSION_SECONDS);
      assert j * (ADMISSION_SECONDS - 1) < ADMISSION_SECONDS * d;
      DivAtLeast(i * (ADMISSION_SECONDS - 1), d, ScanAt(i, scans));
      DivAtLeast(j * (ADMISSION_SECONDS - 1), d, ScanAt(i, scans));
    }
  }

  /** The scans are spread evenly, down to the second: the first at the start, the last in the last second of
      the admission window, a lone one at the start. */
  lemma ScansAreEven(scan: nat, scans: nat)
    requires scan < scans
    ensures scans == 1 ==> ScanAt(scan, scans) == 0
    ensures ScanAt(0, scans) == 0 && (scans > 1 ==> ScanAt(scans - 1, scans) == ADMISSION_SECONDS - 1)
    ensures ScanAt(scan, scans) * (scans - 1) <= scan * (ADMISSION_SECONDS - 1)
    ensures scans > 1 ==> scan * (ADMISSION_SECONDS - 1) < (ScanAt(scan, scans) + 1) * (scans - 1)
  {
    if scans > 1 {
      var d := scans - 1;
      DivAtLeast(scan * (ADMISSION_SECONDS - 1), d, ScanAt(scan, scans));
      DivAtLeast(scan * (ADMISSION_SECONDS - 1), d, ScanAt(scan, scans) + 1);
      DivAtLeast(d * (ADMISSION_SECONDS - 1), d, ADMISSION_SECONDS - 1);
      DivAtLeast(d * (ADMISSION_SECONDS - 1), d, ADMISSION_SECONDS);
      DivAtLeast(0, d, 1);
    }
  }

  function QuotesOf(log: seq<Record>): seq<nat> {
    if log == [] then []
    else QuotesOf(log[..|log| - 1]) + if log[|log| - 1].Quote? then [log[|log| - 1].index] else []
  }

  function FirstNumbers(n: nat): seq<nat> {
    seq(n, (i: nat) => i)
  }

  /** Records in time order; a quote comes before a scan's records only if it is strictly earlier. */
  ghost predicate TimeOrdered(log: seq<Record>) {
    forall p, q :: 0 <= p < q < |log| ==>
      log[p].at <= log[q].at && (log[p].Quote? && log[q].Meta? ==> log[p].at < log[q].at)
  }

  function ScansOf(log: seq<Record>): seq<nat> {
    if log == [] then []
    else ScansOf(log[..|log| - 1])
         + if log[|log| - 1].Meta? && log[|log| - 1].kind.ScanStart? then [log[|log| - 1].scan] else []
  }

  /** What the scans have published, in order: which scan, and what. */
  function MetasOf(log: seq<Record>): seq<(nat, Kind)> {
    if log == [] then []
    else
      var last := log[|log| - 1];
      MetasOf(log[..|log| - 1]) + if last.Meta? then [(last.scan, last.kind)] else []
  }

  /** A candidate's records: its selection and its gate, and for the first seven of the first scan its signal,
      that it is ready, and the admission. */
  function CandidateKinds(scan: nat, candidate: nat): seq<(nat, Kind)> {
    [(scan, Selection(candidate)), (scan, Gate(candidate))]
    + if scan > 0 || candidate > 6 then []
      else [(scan, Signal(candidate)), (scan, Ready(candidate)), (scan, Admission(candidate))]
  }

  /** A scan's records: that it starts, then its candidates in turn. */
  function ScanKinds(scan: nat, candidates: nat): seq<(nat, Kind)> {
    if candidates == 0 then [(scan, ScanStart)]
    else ScanKinds(scan, candidates - 1) + CandidateKinds(scan, candidates - 1)
  }

  function AllKinds(scans: nat, candidates: nat): seq<(nat, Kind)> {
    if scans == 0 then [] else AllKinds(scans - 1, candidates) + ScanKinds(scans - 1, candidates)
  }

  lemma ViewsSnoc(log: seq<Record>, r: Record)
    ensures MetasOf(log + [r]) == MetasOf(log) + if r.Meta? then [(r.scan, r.kind)] else []
    ensures QuotesOf(log + [r]) == QuotesOf(log) + if r.Quote? then [r.index] else []
    ensures ScansOf(log + [r]) == ScansOf(log) + if r.Meta? && r.kind.ScanStart? then [r.scan] else []
  {
    assert (log + [r])[..|log|] == log;
  }

  lemma NextNumber(n: nat)
    ensures FirstNumbers(n) + [n] == FirstNumbers(n + 1)
  {
  }

  /** A quote or scan record carries the scheduled time of what it reports. */
  ghost predicate OnSchedule(r: Record, quotes: nat, scans: nat) {
    match r
    case Quote(index, at) => index < quotes && at == QuoteAt(index, quotes)
    case Meta(scan, _, at) => scan < scans && at == ScanAt(scan, scans)
    case End(_) => false
  }

  ghost predicate AllOnSchedule(log: seq<Record>, quotes: nat, scans: nat) {
    forall p :: 0 <= p < |log| ==> OnSchedule(log[p], quotes, scans)
  }

  /** Nothing is later than `clock`, and every quote is before `limit`. */
  ghost predicate UpTo(log: seq<Record>, clock: nat, limit: nat) {
    forall p :: 0 <= p < |log| ==> log[p].at <= clock && (log[p].Quote? ==> log[p].at < limit)
  }

  lemma Append(log: seq<Record>, r: Record, quotes: nat, scans: nat, clock: nat, limit: nat)
    requires TimeOrdered(log) && AllOnSchedule(log, quotes, scans) && UpTo(log, clock, limit)
    requires OnSchedule(r, quotes, scans) && clock <= r.at
    requires r.Quote? ==> r.at < limit
    requires r.Meta? ==> limit <= r.at
    ensures TimeOrdered(log + [r]) && AllOnSchedule(log + [r], quotes, scans) && UpTo(log + [r], r.at, limit)
  {
    hide OnSchedule;
    var t := log + [r];
    forall p, q | 0 <= p < q < |t|
      ensures t[p].at <= t[q].at && (t[p].Quote? && t[q].Meta? ==> t[p].at < t[q].at)
    {
      assert t[p] == log[p];
    }
  }

  function Signals(scan: nat, candidates: nat): nat {
    if scan > 0 then 0 else if candidates < 7 then candidates else 7
  }

  function MetaCount(scans: nat, candidates: nat): nat {
    if scans == 0 then 0
    else MetaCount(scans - 1, candidates) + 1 + 2 * candidates + 3 * Signals(scans - 1, candidates)
  }

  /** What the qualifier expects to have been offered: the scans with two records a candidate, and three
      for each of the up to seven candidates that signal. */
  function ExpectedMeta(scans: nat, candidates: nat): nat {
    scans * (1 + 2 * candidates) + 3 * (if candidates > 7 then 7 else candidates)
  }

  /** The plan of a capture is validated before the stream starts, and refuses no scan and no candidate. */
  predicate PlanAccepts(scans: nat, candidates: nat) {
    1 <= scans <= 100 && 1 <= candidates <= 100
  }

  lemma {:induction false} MetaCountFormula(scans: nat, candidates: nat)
    ensures MetaCount(scans, candidates)
            == scans * (1 + 2 * candidates) + if scans > 0 then 3 * Signals(0, candidates) else 0
  {
    if scans > 0 {
      MetaCountFormula(scans - 1, candidates);
      assert scans * (1 + 2 * candidates) == (scans - 1) * (1 + 2 * candidates) + 1 + 2 * candidates;
    }
  }

  /** Every plan that is accepted publishes as many scan and control records as the qualifier expects. */
  lemma ExpectedIsPublished(scans: nat, candidates: nat)
    requires PlanAccepts(scans, candidates)
    ensures MetaCount(scans, candidates) == ExpectedMeta(scans, candidates)
  {
    MetaCountFormula(scans, candidates);
  }

  /** Everything published at one scan: the scan, then each candidate's records; the first seven of the
      first scan also signal and become ready, and each becoming ready makes the buffer add an admission. */
  method PublishScan(log0: seq<Record>, scan: nat, candidates: nat, at: nat,
                     ghost quotes: nat, ghost scans: nat) returns (log: seq<Record>)
    requires scan < scans && at == ScanAt(scan, scans)
    requires TimeOrdered(log0) && AllOnSchedule(log0, quotes, scans) && UpTo(log0, at, at)
    ensures TimeOrdered(log) && AllOnSchedule(log, quotes, scans) && UpTo(log, at, at)
    ensures QuotesOf(log) == QuotesOf(log0) && ScansOf(log) == ScansOf(log0) + [scan]
    ensures |log| == |log0| + 1 + 2 * candidates + 3 * Signals(scan, candidates)
    ensures MetasOf(log) == MetasOf(log0) + ScanKinds(scan, candidates)
  {
    hide ScanAt, QuoteAt, TimeOrdered, AllOnSchedule, UpTo, QuotesOf, ScansOf, MetasOf, CandidateKinds;
    var first := Meta(scan, ScanStart, at);
    ViewsSnoc(log0, first);
    Append(log0, first, quotes, scans, at, at);
    log := log0 + [first];
    for candidate := 0 to candidates
      invariant TimeOrdered(log) && AllOnSchedule(log, quotes, scans) && UpTo(log, at, at)
      invariant QuotesOf(log) == QuotesOf(log0) && ScansOf(log) == ScansOf(log0) + [scan]
      invariant |log| == |log0| + 1 + 2 * candidate + 3 * Signals(scan, candidate)
      invariant MetasOf(log) == MetasOf(log0) + ScanKinds(scan, candidate)
    {
      var records := [Meta(scan, Selection(candidate), at), Meta(scan, Gate(candidate), at)];
      if scan == 0 && candidate < 7 {
        records := records + [Meta(scan, Signal(candidate), at), Meta(scan, Ready(candidate), at),
                              Meta(scan, Admission(candidate), at)];
      }
      ghost var before, kinds := |log|, MetasOf(log);
      KindsOfACandidate(scan, candidate, at, records);
      for k := 0 to |records|
        invariant MetasOf(log) == kinds + CandidateKinds(scan, candidate)[..k]
        invariant TimeOrdered(log) && AllOnSchedule(log, quotes, scans) && UpTo(log, at, at)
        invariant QuotesOf(log) == QuotesOf(log0) && ScansOf(log) == ScansOf(log0) + [scan]
        invariant |log| == before + k
      {
        ViewsSnoc(log, records[k]);
        Append(log, records[k], quotes, scans, at, at);
        log := log + [records[k]];
      }
      assert CandidateKinds(scan, candidate)[..|records|] == CandidateKinds(scan, candidate);
    }
  }

  lemma KindsOfACandidate(scan: nat, candidate: nat, at: nat, records: seq<Record>)
    requires records == [Meta(scan, Selection(candidate), at), Meta(scan, Gate(candidate), at)]
                        + if scan == 0 && candidate < 7
                          then [Meta(scan, Signal(candidate), at), Meta(scan, Ready(candidate), at),
                                Meta(scan, Admission(candidate), at)] else []
    ensures |CandidateKinds(scan, candidate)| == |records|
    ensures forall k :: 0 <= k < |records| ==>
              records[k] == Meta(CandidateKinds(scan, candidate)[k].0, CandidateKinds(scan, candidate)[k].1, at)
  {
  }

  lemma Loosen(log: seq<Record>, clock: nat, limit: nat, later: nat, higher: nat)
    requires UpTo(log, clock, limit) && clock <= later && limit <= higher
    ensures UpTo(log, later, higher)
  {
  }

  lemma Close(log: seq<Record>, clock: nat, limit: nat)
    requires TimeOrdered(log) && UpTo(log, clock, limit) && clock <= WINDOW
    ensures TimeOrdered(log + [End(WINDOW)])
  {
  }

  /** The merge loop: every scan in turn, each after all strictly earlier quotes, then the remaining
      quotes, then the close. */
  method Capture(scans: nat, candidates: nat, quotes: nat) returns (log: seq<Record>)
    ensures log != [] && log[|log| - 1] == End(WINDOW)
    ensures TimeOrdered(log) && AllOnSchedule(log[..|log| - 1], quotes, scans)
    ensures QuotesOf(log) == FirstNumbers(quotes) && ScansOf(log) == FirstNumbers(scans)
    ensures |log| == quotes + MetaCount(scans, candidates) + 1
    ensures PlanAccepts(scans, candidates) ==> |log| == quotes + ExpectedMeta(scans, candidates) + 1
    ensures MetasOf(log) == AllKinds(scans, candidates)
  {
    hide ScanAt, QuoteAt, TimeOrdered, AllOnSchedule, UpTo, QuotesOf, ScansOf, MetasOf, ScanKinds;
    log := [];
    EmptyStream(quotes, scans);
    var quoteIndex: nat, clock: nat := 0, 0;
    for scan := 0 to scans
      invariant quoteIndex <= quotes && (scan == 0 ==> clock == 0) && (scan > 0 ==> clock == ScanAt(scan - 1, scans))
      invariant quoteIndex < quotes ==> clock <= QuoteAt(quoteIndex, quotes)
      invariant TimeOrdered(log) && AllOnSchedule(log, quotes, scans) && UpTo(log, clock, clock)
      invariant QuotesOf(log) == FirstNumbers(quoteIndex) && ScansOf(log) == FirstNumbers(scan)
      invariant |log| == quoteIndex + MetaCount(scan, candidates)
      invariant MetasOf(log) == AllKinds(scan, candidates)
    {
      var scanAt := ScanAt(scan, scans);
      if scan > 0 { ScanAtMonotone(scan - 1, scan, scans); }
      Loosen(log, clock, clock, clock, scanAt);
      ghost var before, n := |log|, quoteIndex;
      while quoteIndex < quotes && QuoteAt(quoteIndex, quotes) < scanAt
        invariant n <= quoteIndex <= quotes && clock <= scanAt
        invariant quoteIndex < quotes ==> clock <= QuoteAt(quoteIndex, quotes)
        invariant TimeOrdered(log) && AllOnSchedule(log, quotes, scans) && UpTo(log, clock, scanAt)
        invariant QuotesOf(log) == FirstNumbers(quoteIndex) && ScansOf(log) == FirstNumbers(scan)
        invariant |log| == before + quoteIndex - n && MetasOf(log) == AllKinds(scan, candidates)
      {
        log, clock := PublishQuote(log, quoteIndex, quotes, scans, clock, scanAt);
        quoteIndex := quoteIndex + 1;
      }
      Loosen(log, clock, scanAt, scanAt, scanAt);
      clock := scanAt;
      NextNumber(scan);
      log := PublishScan(log, scan, candidates, clock, quotes, scans);
    }
    if scans > 0 { ScanAtMonotone(scans - 1, scans - 1, scans); }
    Loosen(log, clock, clock, clock, WINDOW);
    ghost var before, n := |log|, quoteIndex;
    while quoteIndex < quotes
      invariant n <= quoteIndex <= quotes && clock <= WINDOW
      invariant quoteIndex < quotes ==> clock <= QuoteAt(quoteIndex, quotes)
      invariant TimeOrdered(log) && AllOnSchedule(log, quotes, scans) && UpTo(log, clock, WINDOW)
      invariant QuotesOf(log) == FirstNumbers(quoteIndex) && ScansOf(log) == FirstNumbers(scans)
      invariant |log| == before + quoteIndex - n && MetasOf(log) == AllKinds(scans, candidates)
    {
      QuoteWithinWindow(quoteIndex, quotes);
      log, clock := PublishQuote(log, quoteIndex, quotes, scans, clock, WINDOW);
      quoteIndex := quoteIndex + 1;
    }
    ViewsSnoc(log, End(WINDOW));
    Close(log, clock, WINDOW);
    assert (log + [End(WINDOW)])[..|log|] == log;
    log := log + [End(WINDOW)];
    if PlanAccepts(scans, candidates) { ExpectedIsPublished(scans, candidates); }
  }

  lemma EmptyStream(quotes: nat, scans: nat)
    ensures TimeOrdered([]) && AllOnSchedule([], quotes, scans) && UpTo([], 0, 0)
    ensures QuotesOf([]) == FirstNumbers(0) && ScansOf([]) == FirstNumbers(0) && MetasOf([]) == []
  {
  }

  method PublishQuote(log0: seq<Record>, index: nat, quotes: nat, ghost scans: nat, ghost clock0: nat, ghost limit: nat)
    returns (log: seq<Record>, clock: nat)
    requires index < quotes && clock0 <= QuoteAt(index, quotes) < limit
    requires TimeOrdered(log0) && AllOnSchedule(log0, quotes, scans) && UpTo(log0, clock0, limit)
    requires QuotesOf(log0) == FirstNumbers(index)
    ensures clock == QuoteAt(index, quotes) && (index + 1 < quotes ==> clock <= QuoteAt(index + 1, quotes))
    ensures TimeOrdered(log) && AllOnSchedule(log, quotes, scans) && UpTo(log, clock, limit)
    ensures QuotesOf(log) == FirstNumbers(index + 1) && ScansOf(log) == ScansOf(log0)
    ensures MetasOf(log) == MetasOf(log0)
    ensures |log| == |log0| + 1
  {
    hide ScanAt, QuoteAt, TimeOrdered, AllOnSchedule, UpTo, QuotesOf, ScansOf, MetasOf;
    clock := QuoteAt(index, quotes);
    var quote := Quote(index, clock);
    ViewsSnoc(log0, quote);
    NextNumber(index);
    Append(log0, quote, quotes, scans, clock0, limit);
    QuoteAtMonotone(index, index + 1, quotes);
    log := log0 + [quote];
  }
}
