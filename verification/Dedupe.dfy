/** The greedy filter that keeps independent samples: per symbol, candidates more than an assumed
    holding period apart, earliest first. */
module Dedupe {
  import opened Basics
  import opened PolicyLadder

  /** A date as written: its place in the order of strings, and its day number when it parses. */
  datatype Date = Date(text: nat, ordinal: Option<int>)

  datatype Candidate = Candidate(symbol: nat, date: Date, score: real)

  datatype Week = Iso(index: int) | Raw(text: nat)

  const HOLD_DAYS: int := MAX_HOLD_DAYS * 7 / 5

  /** Day 1 is a Monday, so a calendar week is seven consecutive day numbers from there. */
  function WeekKey(d: Date): Week {
    if d.ordinal.Some? then Iso((d.ordinal.value - 1) / 7) else Raw(d.text)
  }

  predicate NotAfter(a: Candidate, b: Candidate) {
    a.symbol < b.symbol || (a.symbol == b.symbol && a.date.text <= b.date.text)
  }

  ghost predicate Ordered(s: seq<Candidate>) {
    forall i, j :: 0 <= i < j < |s| ==> NotAfter(s[i], s[j])
  }

  // ---- sorted() by symbol and date ----------------------------------------------------------------

  /** Behind everything that is not after it, so equal keys keep their order. */
  function Insert(s: seq<Candidate>, c: Candidate): seq<Candidate> {
    if s == [] || NotAfter(s[|s| - 1], c) then s + [c]
    else Insert(s[..|s| - 1], c) + [s[|s| - 1]]
  }

  function Sort(s: seq<Candidate>): seq<Candidate> {
    if s == [] then [] else Insert(Sort(s[..|s| - 1]), s[|s| - 1])
  }

  lemma {:induction false} InsertAdds(s: seq<Candidate>, c: Candidate)
    ensures multiset(Insert(s, c)) == multiset(s) + multiset{c}
  {
    if s != [] && !NotAfter(s[|s| - 1], c) {
      assert s == s[..|s| - 1] + [s[|s| - 1]];
      InsertAdds(s[..|s| - 1], c);
    }
  }

  lemma OrderedSnoc(s: seq<Candidate>, c: Candidate)
    requires Ordered(s) && (s != [] ==> NotAfter(s[|s| - 1], c))
    ensures Ordered(s + [c])
  {
  }

  lemma {:induction false} InsertSorts(s: seq<Candidate>, c: Candidate)
    requires Ordered(s)
    ensures Ordered(Insert(s, c))
    ensures s != [] && !NotAfter(s[|s| - 1], c) ==>
              Insert(s, c)[|Insert(s, c)| - 1] == s[|s| - 1]
  {
    if s == [] || NotAfter(s[|s| - 1], c) {
      OrderedSnoc(s, c);
    } else {
      var init, last := s[..|s| - 1], s[|s| - 1];
      InsertSorts(init, c);
      OrderedSnoc(Insert(init, c), last);
    }
  }

  lemma {:induction false} SortSorts(s: seq<Candidate>)
    ensures Ordered(Sort(s)) && multiset(Sort(s)) == multiset(s)
  {
    if s != [] {
      var init, last := s[..|s| - 1], s[|s| - 1];
      assert s == init + [last];
      SortSorts(init);
      InsertSorts(Sort(init), last);
      InsertAdds(Sort(init), last);
    }
  }

  // ---- the greedy pass ------------------------------------------------------------------------------

  datatype Pass = Pass(kept: seq<Candidate>, dropped: seq<Candidate>, prevEnd: map<nat, int>, seen: set<(nat, Week)>)

  predicate Overlaps(prevEnd: map<nat, int>, c: Candidate) {
    c.symbol in prevEnd && c.date.ordinal.Some? && c.date.ordinal.value <= prevEnd[c.symbol]
  }

  function KeptNext(p: Pass, c: Candidate): Pass {
    p.(kept := p.kept + [c],
       seen := p.seen + {(c.symbol, WeekKey(c.date))},
       prevEnd := if c.date.ordinal.Some? then p.prevEnd[c.symbol := c.date.ordinal.value + HOLD_DAYS] else p.prevEnd)
  }

  function OnePass(p: Pass, c: Candidate): Pass {
    if Drops(p, c) then p.(dropped := p.dropped + [c]) else KeptNext(p, c)
  }

  function Greedy(s: seq<Candidate>): Pass {
    if s == [] then Pass([], [], map[], {}) else OnePass(Greedy(s[..|s| - 1]), s[|s| - 1])
  }

  /** The same without the calendar-week test. */
  function GreedyBySpacing(s: seq<Candidate>): seq<Candidate> {
    if s == [] then []
    else
      var kept, c := GreedyBySpacing(s[..|s| - 1]), s[|s| - 1];
      if SomeNear(kept, c) then kept else kept + [c]
  }

  /** Same symbol, and `c` at most the holding period after `k`. */
  predicate Near(k: Candidate, c: Candidate) {
    && k.symbol == c.symbol && k.date.ordinal.Some? && c.date.ordinal.Some?
    && c.date.ordinal.value - k.date.ordinal.value <= HOLD_DAYS
  }

  method DedupeCorrelated(candidates: seq<Candidate>)
    returns (kept: seq<Candidate>, excluded: nat, ghost dropped: seq<Candidate>)
    ensures kept == Greedy(Sort(candidates)).kept
    ensures excluded == |dropped| && dropped == Greedy(Sort(candidates)).dropped
  {
    var ordered := Sort(candidates);
    kept, excluded, dropped := [], 0, [];
    var prevEnd: map<nat, int> := map[];
    var seen: set<(nat, Week)> := {};
    for i := 0 to |ordered|
      invariant Pass(kept, dropped, prevEnd, seen) == Greedy(ordered[..i])
      invariant excluded == |dropped|
    {
      var c := ordered[i];
      assert ordered[..i + 1][..i] == ordered[..i];
      var week := (c.symbol, WeekKey(c.date));
      if week in seen || Overlaps(prevEnd, c) {
        excluded := excluded + 1;
        dropped := dropped + [c];
      } else {
        seen := seen + {week};
        if c.date.ordinal.Some? {
          prevEnd := prevEnd[c.symbol := c.date.ordinal.value + HOLD_DAYS];
        }
        kept := kept + [c];
      }
    }
    assert ordered[..|ordered|] == ordered;
  }

  // ---- nothing is lost ------------------------------------------------------------------------------

  lemma {:induction false} GreedyPartitions(s: seq<Candidate>)
    ensures multiset(Greedy(s).kept) + multiset(Greedy(s).dropped) == multiset(s)
  {
    if s != [] {
      assert s == s[..|s| - 1] + [s[|s| - 1]];
      GreedyPartitions(s[..|s| - 1]);
    }
  }

  /** Kept and excluded candidates are the input, one for one. */
  lemma KeptPlusExcludedIsInput(candidates: seq<Candidate>)
    ensures var p := Greedy(Sort(candidates));
            multiset(p.kept) + multiset(p.dropped) == multiset(candidates) && |p.kept| + |p.dropped| == |candidates|
  {
    var p := Greedy(Sort(candidates));
    SortSorts(candidates);
    GreedyPartitions(Sort(candidates));
    assert |multiset(p.kept) + multiset(p.dropped)| == |p.kept| + |p.dropped|;
    assert |multiset(candidates)| == |candidates|;
  }

  // ---- valid dates ------------------------------------------------------------------------------------

  /** Every date parses, and the order of the texts is the order of the days. */
  ghost predicate Canonical(s: seq<Candidate>) {
    && (forall c :: c in s ==> c.date.ordinal.Some?)
    && (forall a, b :: a in s && b in s ==>
          (a.date.text <= b.date.text <==> a.date.ordinal.value <= b.date.ordinal.value))
  }

  function Day(c: Candidate): int {
    if c.date.ordinal.Some? then c.date.ordinal.value else 0
  }

  ghost predicate Spaced(s: seq<Candidate>) {
    forall i, j :: 0 <= i < j < |s| && s[i].symbol == s[j].symbol ==>
      Day(s[j]) - Day(s[i]) > HOLD_DAYS || Day(s[i]) - Day(s[j]) > HOLD_DAYS
  }

  /** The kept candidates in time order: later ones come more than the holding period after. */
  ghost predicate Apart(kept: seq<Candidate>) {
    forall i, j :: 0 <= i < j < |kept| && kept[i].symbol == kept[j].symbol ==> Day(kept[j]) - Day(kept[i]) > HOLD_DAYS
  }

  ghost predicate CoveredBy(kept: seq<Candidate>, c: Candidate, i: nat) {
    i < |kept| && kept[i].symbol == c.symbol && Day(kept[i]) <= Day(c) <= Day(kept[i]) + HOLD_DAYS
  }

  /** The end table holds, per symbol, the latest kept day plus the holding period. */
  ghost predicate EndsSound(kept: seq<Candidate>, prevEnd: map<nat, int>) {
    && (forall i :: 0 <= i < |kept| ==>
          kept[i].symbol in prevEnd && Day(kept[i]) + HOLD_DAYS <= prevEnd[kept[i].symbol])
    && (forall y :: y in prevEnd ==> exists i :: EndsAt(kept, i, y, prevEnd[y]))
  }

  ghost predicate EndsAt(kept: seq<Candidate>, i: nat, symbol: nat, end: int) {
    i < |kept| && kept[i].symbol == symbol && Day(kept[i]) + HOLD_DAYS == end
  }

  /** Every recorded week is the week of a kept candidate. */
  ghost predicate SeenSound(kept: seq<Candidate>, seen: set<(nat, Week)>) {
    forall w :: w in seen ==> exists i :: SeenAt(kept, i, w)
  }

  ghost predicate SeenAt(kept: seq<Candidate>, i: nat, w: (nat, Week)) {
    i < |kept| && (kept[i].symbol, WeekKey(kept[i].date)) == w
  }

  ghost predicate AllFrom(kept: seq<Candidate>, s: seq<Candidate>) {
    forall i :: 0 <= i < |kept| ==> kept[i] in s
  }

  ghost predicate AllCovered(kept: seq<Candidate>, s: seq<Candidate>) {
    forall c :: c in s ==> exists i :: CoveredBy(kept, c, i)
  }

  lemma SameWeekIsNear(a: int, b: int)
    requires (a - 1) / 7 == (b - 1) / 7
    ensures -6 <= a - b <= 6
  {
  }

  /** What the pass keeps over an ordered prefix with valid dates. */
  ghost predicate PassSound(s: seq<Candidate>, p: Pass) {
    && EndsSound(p.kept, p.prevEnd) && SeenSound(p.kept, p.seen)
    && Apart(p.kept) && AllFrom(p.kept, s) && AllCovered(p.kept, s)
  }

  /** The kept candidates have valid dates, and those of `c`'s symbol come no later than `c`. */
  ghost predicate AllBefore(kept: seq<Candidate>, c: Candidate) {
    && c.date.ordinal.Some?
    && forall i :: 0 <= i < |kept| ==>
         kept[i].date.ordinal.Some? && (kept[i].symbol == c.symbol ==> Day(kept[i]) <= Day(c))
  }

  lemma KeptComeBefore(s: seq<Candidate>, kept: seq<Candidate>, c: Candidate)
    requires AllFrom(kept, s) && Canonical(s + [c]) && Ordered(s + [c])
    ensures AllBefore(kept, c)
  {
    var t := s + [c];
    assert c == t[|s|];
    forall i | 0 <= i < |kept|
      ensures kept[i].date.ordinal.Some? && (kept[i].symbol == c.symbol ==> Day(kept[i]) <= Day(c))
    {
      var j :| 0 <= j < |s| && s[j] == kept[i];
      assert t[j] == kept[i];
      assert NotAfter(t[j], t[|s|]);
    }
  }

  predicate SomeNear(kept: seq<Candidate>, c: Candidate) {
    exists i :: 0 <= i < |kept| && Near(kept[i], c)
  }

  lemma SeenMeansNear(kept: seq<Candidate>, seen: set<(nat, Week)>, c: Candidate)
    requires SeenSound(kept, seen) && AllBefore(kept, c) && (c.symbol, WeekKey(c.date)) in seen
    ensures SomeNear(kept, c)
  {
    var i: nat :| SeenAt(kept, i, (c.symbol, WeekKey(c.date)));
    SameWeekIsNear(Day(kept[i]), Day(c));
    assert Near(kept[i], c);
  }

  lemma OverlapMeansNear(kept: seq<Candidate>, prevEnd: map<nat, int>, c: Candidate)
    requires EndsSound(kept, prevEnd) && AllBefore(kept, c)
    ensures Overlaps(prevEnd, c) <==> SomeNear(kept, c)
  {
    if Overlaps(prevEnd, c) {
      var i: nat :| EndsAt(kept, i, c.symbol, prevEnd[c.symbol]);
      assert Near(kept[i], c);
    }
  }

  predicate Drops(p: Pass, c: Candidate) {
    (c.symbol, WeekKey(c.date)) in p.seen || Overlaps(p.prevEnd, c)
  }

  /** A candidate is dropped exactly when a kept one of its symbol is within the holding period: whoever
      shares a calendar week with a kept one is already that near. */
  lemma DroppedMeansNear(s: seq<Candidate>, p: Pass, c: Candidate)
    requires PassSound(s, p) && Canonical(s + [c]) && Ordered(s + [c])
    ensures Drops(p, c) <==> SomeNear(p.kept, c)
  {
    hide Canonical, Ordered, Overlaps, SomeNear, WeekKey, AllBefore;
    KeptComeBefore(s, p.kept, c);
    OverlapMeansNear(p.kept, p.prevEnd, c);
    if (c.symbol, WeekKey(c.date)) in p.seen {
      SeenMeansNear(p.kept, p.seen, c);
    }
  }

  lemma NearMeansCovered(kept: seq<Candidate>, s: seq<Candidate>, c: Candidate)
    requires AllCovered(kept, s) && AllBefore(kept, c) && SomeNear(kept, c)
    ensures AllCovered(kept, s + [c])
  {
    var i :| 0 <= i < |kept| && Near(kept[i], c);
    assert CoveredBy(kept, c, i);
  }

  lemma KeepingCovers(kept: seq<Candidate>, s: seq<Candidate>, c: Candidate)
    requires AllCovered(kept, s)
    ensures AllCovered(kept + [c], s + [c])
  {
    forall d | d in s + [c] ensures exists i :: CoveredBy(kept + [c], d, i) {
      if d in s {
        var i: nat :| CoveredBy(kept, d, i);
        assert CoveredBy(kept + [c], d, i);
      } else {
        assert CoveredBy(kept + [c], c, |kept|);
      }
    }
  }

  lemma KeepingStaysApart(kept: seq<Candidate>, c: Candidate)
    requires Apart(kept) && AllBefore(kept, c) && !SomeNear(kept, c)
    ensures Apart(kept + [c])
  {
    forall i | 0 <= i < |kept| && kept[i].symbol == c.symbol ensures Day(c) - Day(kept[i]) > HOLD_DAYS {
      assert !Near(kept[i], c);
    }
  }

  lemma KeepingUpdatesEnds(kept: seq<Candidate>, prevEnd: map<nat, int>, c: Candidate)
    requires EndsSound(kept, prevEnd) && AllBefore(kept, c)
    ensures EndsSound(kept + [c], prevEnd[c.symbol := Day(c) + HOLD_DAYS])
  {
    var ends := prevEnd[c.symbol := Day(c) + HOLD_DAYS];
    forall y | y in ends ensures exists i :: EndsAt(kept + [c], i, y, ends[y]) {
      if y == c.symbol {
        assert EndsAt(kept + [c], |kept|, y, ends[y]);
      } else {
        var i: nat :| EndsAt(kept, i, y, prevEnd[y]);
        assert EndsAt(kept + [c], i, y, ends[y]);
      }
    }
  }

  lemma KeepingUpdatesSeen(kept: seq<Candidate>, seen: set<(nat, Week)>, c: Candidate)
    requires SeenSound(kept, seen)
    ensures SeenSound(kept + [c], seen + {(c.symbol, WeekKey(c.date))})
  {
    forall w | w in seen + {(c.symbol, WeekKey(c.date))} ensures exists i :: SeenAt(kept + [c], i, w) {
      if w in seen {
        var i: nat :| SeenAt(kept, i, w);
        assert SeenAt(kept + [c], i, w);
      } else {
        assert SeenAt(kept + [c], |kept|, w);
      }
    }
  }

  lemma OnePassKeeps(s: seq<Candidate>, p: Pass, c: Candidate)
    requires PassSound(s, p) && Canonical(s + [c]) && Ordered(s + [c])
    ensures PassSound(s + [c], OnePass(p, c))
  {
    hide Canonical, Ordered, SomeNear, AllCovered, Apart, EndsSound, SeenSound, Overlaps, WeekKey;
    KeptComeBefore(s, p.kept, c);
    DroppedMeansNear(s, p, c);
    if Drops(p, c) {
      NearMeansCovered(p.kept, s, c);
    } else {
      KeepingCovers(p.kept, s, c);
      KeepingStaysApart(p.kept, c);
      KeepingUpdatesEnds(p.kept, p.prevEnd, c);
      KeepingUpdatesSeen(p.kept, p.seen, c);
    }
  }

  lemma PrefixOf(s: seq<Candidate>)
    requires s != [] && Canonical(s) && Ordered(s)
    ensures s == s[..|s| - 1] + [s[|s| - 1]]
    ensures Canonical(s[..|s| - 1]) && Ordered(s[..|s| - 1])
  {
    assert s == s[..|s| - 1] + [s[|s| - 1]];
  }

  /** The tables never matter beyond the spacing they stand for. */
  lemma {:induction false} GreedySound(s: seq<Candidate>)
    requires Canonical(s) && Ordered(s)
    ensures PassSound(s, Greedy(s)) && Greedy(s).kept == GreedyBySpacing(s)
  {
    hide Canonical, Ordered, Near;
    if s != [] {
      PrefixOf(s);
      var before, c := s[..|s| - 1], s[|s| - 1];
      GreedySound(before);
      OnePassKeeps(before, Greedy(before), c);
      DroppedMeansNear(before, Greedy(before), c);
    }
  }

  lemma CanonicalSorted(candidates: seq<Candidate>)
    requires Canonical(candidates)
    ensures Canonical(Sort(candidates)) && Ordered(Sort(candidates))
    ensures forall c :: c in Sort(candidates) <==> c in candidates
  {
    SortSorts(candidates);
    assert forall c :: c in Sort(candidates) <==> c in multiset(Sort(candidates));
    assert forall c :: c in candidates <==> c in multiset(candidates);
  }

  /** For valid dates: what is kept is spaced, and the calendar-week test never decides anything. */
  lemma KeptAreSpacedAndWeekNeverMatters(candidates: seq<Candidate>)
    requires Canonical(candidates)
    ensures var kept := Greedy(Sort(candidates)).kept;
            Apart(kept) && Spaced(kept) && kept == GreedyBySpacing(Sort(candidates))
  {
    CanonicalSorted(candidates);
    GreedySound(Sort(candidates));
  }

  // ---- no larger choice exists ------------------------------------------------------------------------

  /** A list of distinct numbers below n has at most n entries. */
  lemma {:induction false} Pigeonhole(f: seq<nat>, n: nat)
    requires forall i :: 0 <= i < |f| ==> f[i] < n
    requires forall i, j :: 0 <= i < j < |f| ==> f[i] != f[j]
    ensures |f| <= n
    decreases n
  {
    if f != [] {
      assert f[0] < n;
      if k :| 0 <= k < |f| && f[k] == n - 1 {
        Pigeonhole(f[..k] + f[k + 1..], n - 1);
      } else {
        Pigeonhole(f, n - 1);
      }
    }
  }

  ghost function Cover(kept: seq<Candidate>, chosen: seq<Candidate>): (f: seq<nat>)
    requires AllCovered(kept, chosen)
    ensures |f| == |chosen| && forall k :: 0 <= k < |f| ==> CoveredBy(kept, chosen[k], f[k])
  {
    if chosen == [] then []
    else
      var init, last := chosen[..|chosen| - 1], chosen[|chosen| - 1];
      assert last in chosen && (forall c :: c in init ==> c in chosen);
      assert AllCovered(kept, init);
      var i: nat :| CoveredBy(kept, last, i);
      Cover(kept, init) + [i]
  }

  lemma CoversDiffer(kept: seq<Candidate>, a: Candidate, i: nat, b: Candidate, j: nat)
    requires CoveredBy(kept, a, i) && CoveredBy(kept, b, j)
    requires a.symbol == b.symbol ==> Day(b) - Day(a) > HOLD_DAYS || Day(a) - Day(b) > HOLD_DAYS
    ensures i != j
  {
  }

  lemma CoverIsAnIndex(kept: seq<Candidate>, c: Candidate, i: nat)
    requires CoveredBy(kept, c, i)
    ensures i < |kept|
  {
  }

  /** No spaced choice of candidates, however made, is larger than the kept list. */
  lemma GreedyIsOptimal(candidates: seq<Candidate>, chosen: seq<Candidate>)
    requires Canonical(candidates)
    requires forall c :: c in chosen ==> c in candidates
    requires Spaced(chosen)
    ensures |chosen| <= |Greedy(Sort(candidates)).kept|
  {
    hide Canonical, Sort, Greedy, CoveredBy, EndsSound, SeenSound, Apart, Day;
    CanonicalSorted(candidates);
    var s := Sort(candidates);
    GreedySound(s);
    var kept := Greedy(s).kept;
    var f := Cover(kept, chosen);
    forall i, j | 0 <= i < j < |f| ensures f[i] != f[j] {
      CoversDiffer(kept, chosen[i], f[i], chosen[j], f[j]);
    }
    forall i | 0 <= i < |f| ensures f[i] < |kept| {
      CoverIsAnIndex(kept, chosen[i], f[i]);
    }
    Pigeonhole(f, |kept|);
  }
}
