/** What an activation that is left to itself comes to: where every step goes well it completes with the one
    restart, and for each step that may fail, what is undone and what is left behind. */
module ActivationProgress {
  import opened Basics
  import opened Activation

  // ---- everything goes well -------------------------------------------------------------------------------

  /** The step after `k` when `k` succeeds. */
  function Next(cfg: Config, k: Pc): Pc {
    if k == PREFLIGHT_PENDING && cfg.engineOnly then CHECKOUT
    else if k == TOSS || (k == BEFORE_COMPLETE && cfg.engineOnly) then FINALLY
    else if k == RETURNED then RETURNED
    else k + 1
  }

  /** Steps still to go. */
  function ToGo(cfg: Config, k: Pc): nat
    requires OnPath(cfg, k)
  {
    if k >= FINALLY then RETURNED - k
    else if cfg.engineOnly then if k <= PREFLIGHT_PENDING then 24 - k else 25 - k
    else 26 - k
  }

  predicate OnPath(cfg: Config, k: Pc) {
    (k <= TOSS || FINALLY <= k <= RETURNED) && (cfg.engineOnly ==> k != LAUNCHER && k != TOSS)
  }

  /** A lone activation that has got to `k` with every step a success: what it has done so far, no more and
      no less.  `id` is the identity its drop-in gets. */
  ghost predicate OnCourse(w: World, p: Pid, cfg: Config, id: FileId, k: Pc) {
    var m := w.machine;
    && OnPath(cfg, k) && w.procs.Keys == {p}
    && var x := w.procs[p];
       && x.cfg == cfg && x.pc == k && x.rollback == NotNeeded
       && x.status == (if k >= FINALLY then Completed else Undecided)
       && DoneBy(x.v, cfg, id, k)
       && m.receipt == (k > RECEIPT_OPEN) && m.statusFile == (k > STATUS_OPEN)
       && m.lock == (if DEPLOY_LOCK < k <= FINALLY then Some(Mine(p)) else None)
       && m.head == (if k > CHECKOUT then cfg.newHead else cfg.oldHead)
       && m.dropin == (if k > DROPIN_CREATE then Some(id) else None)
       && m.nextId == (if k > DROPIN_CREATE then id + 1 else id)
       && m.removals == []
       && (if k > RESTART then |m.restarts| == 1 && m.restarts[0].p == p && m.restarts[0].cfg == cfg
           else m.restarts == [])
  }

  ghost predicate DoneBy(v: Locals, cfg: Config, id: FileId, k: Pc) {
    && v.created == (k > RECEIPT_OPEN) && v.receipt == (k > RECEIPT_SYNC)
    && v.changed == (k > CHECKOUT && cfg.oldHead != cfg.newHead)
    && v.installed == (k > DROPIN_CREATE) && (v.installed ==> v.madeId == id)
    && v.identity == (if k > DROPIN_STAT then Some(id) else None)
    && v.restartAttempted == (k > RESTART) && v.tossAttempted == (k >= FINALLY && !cfg.engineOnly)
    && v.sawReady == (k > READINESS) && v.sawPendingClear == (k > FINAL_PENDING)
    && v.sawHead == (if k > HEAD_CHECK then Some(cfg.newHead) else None)
    && v.statusWritten == (k == RETURNED) && !v.disturbed
  }

  /** Nothing stands in the way of this activation. */
  ghost predicate Clear(w: World, cfg: Config) {
    var m := w.machine;
    && Initial(w) && !m.receipt && !m.statusFile && m.lock.None? && m.dropin.None? && m.head == cfg.oldHead
    && (cfg.sameHeadRequired ==> cfg.oldHead == cfg.newHead)
  }

  /** Inside the window, which is at most two minutes. */
  predicate OnTime(cfg: Config, now: int) {
    now >= cfg.notBefore && now < cfg.latestStart && cfg.latestStart <= cfg.notBefore + 120
  }

  lemma OnTimeIs(cfg: Config, now: int)
    ensures OnTime(cfg, now) <==> InWindow(cfg, now)
  {
  }

  ghost predicate GoodSteps(p: Pid, cfg: Config, events: seq<Event>) {
    forall e :: e in events ==> e.Do? && e.p == p && e.outcome == Good && OnTime(cfg, e.now)
  }

  lemma Starts(w: World, p: Pid, cfg: Config)
    requires Clear(w, cfg)
    ensures OnCourse(Step(w, Begin(p, cfg)), p, cfg, w.machine.nextId, WINDOW)
  {
  }

  lemma GoodPrologue(w: World, p: Pid, cfg: Config, id: FileId, k: Pc, now: int)
    requires OnCourse(w, p, cfg, id, k) && InWindow(cfg, now) && (cfg.sameHeadRequired ==> cfg.oldHead == cfg.newHead)
    requires k <= LAUNCHER
    ensures OnCourse(Step(w, Do(p, now, Good)), p, cfg, id, Next(cfg, k))
  {
    hide InWindow;
  }

  lemma GoodInstall(w: World, p: Pid, cfg: Config, id: FileId, k: Pc, now: int)
    requires OnCourse(w, p, cfg, id, k) && InWindow(cfg, now) && CHECKOUT <= k <= DROPIN_WRITE
    ensures OnCourse(Step(w, Do(p, now, Good)), p, cfg, id, Next(cfg, k))
  {
    hide InWindow;
  }

  lemma GoodRestart(w: World, p: Pid, cfg: Config, id: FileId, k: Pc, now: int)
    requires OnCourse(w, p, cfg, id, k) && InWindow(cfg, now) && BEFORE_RESTART <= k <= TOSS
    ensures OnCourse(Step(w, Do(p, now, Good)), p, cfg, id, Next(cfg, k))
  {
    hide InWindow;
  }

  lemma GoodEpilogue(w: World, p: Pid, cfg: Config, id: FileId, k: Pc, now: int)
    requires OnCourse(w, p, cfg, id, k) && FINALLY <= k
    ensures OnCourse(Step(w, Do(p, now, Good)), p, cfg, id, Next(cfg, k))
  {
    hide InWindow;
  }

  lemma GoodStep(w: World, p: Pid, cfg: Config, id: FileId, k: Pc, now: int)
    requires OnCourse(w, p, cfg, id, k) && InWindow(cfg, now) && (cfg.sameHeadRequired ==> cfg.oldHead == cfg.newHead)
    ensures OnCourse(Step(w, Do(p, now, Good)), p, cfg, id, Next(cfg, k))
  {
    hide Step, InWindow;
    if k <= LAUNCHER { GoodPrologue(w, p, cfg, id, k, now); }
    else if k <= DROPIN_WRITE { GoodInstall(w, p, cfg, id, k, now); }
    else if k <= TOSS { GoodRestart(w, p, cfg, id, k, now); }
    else { GoodEpilogue(w, p, cfg, id, k, now); }
  }

  /** After `n` good steps the activation is `n` steps on. */
  lemma {:induction false} GoodRun(w: World, p: Pid, cfg: Config, steps: seq<Event>) returns (k: Pc)
    requires Clear(w, cfg) && GoodSteps(p, cfg, steps)
    ensures OnCourse(Run(w, [Begin(p, cfg)] + steps), p, cfg, w.machine.nextId, k)
    ensures ToGo(cfg, k) == if |steps| <= ToGo(cfg, WINDOW) then ToGo(cfg, WINDOW) - |steps| else 0
  {
    hide Step, Clear, OnCourse, InWindow, OnTime;
    var begin := [Begin(p, cfg)];
    if steps == [] {
      Starts(w, p, cfg);
      assert begin + steps == [] + begin;
      Extend(w, [], Begin(p, cfg));
      k := WINDOW;
    } else {
      var init, last := steps[..|steps| - 1], steps[|steps| - 1];
      assert begin + steps == (begin + init) + [last];
      Extend(w, begin + init, last);
      var j := GoodRun(w, p, cfg, init);
      assert last in steps && last == Do(p, last.now, Good);
      OnTimeIs(cfg, last.now);
      SameHead(w, cfg);
      CourseIsPath(Run(w, begin + init), p, cfg, w.machine.nextId, j);
      GoodStep(Run(w, begin + init), p, cfg, w.machine.nextId, j, last.now);
      k := Next(cfg, j);
    }
  }

  lemma SameHead(w: World, cfg: Config)
    requires Clear(w, cfg)
    ensures cfg.sameHeadRequired ==> cfg.oldHead == cfg.newHead
  {
  }

  lemma CourseIsPath(w: World, p: Pid, cfg: Config, id: FileId, k: Pc)
    requires OnCourse(w, p, cfg, id, k)
    ensures OnPath(cfg, k)
  {
  }

  /** Left to itself, with every step a success inside the window, an activation completes: exactly one restart
      command and that its own, HEAD at the new commit, its drop-in in place, nothing removed, the lock free
      again, and the status file written. */
  lemma UndisturbedCompletes(w: World, p: Pid, cfg: Config, steps: seq<Event>)
    requires Clear(w, cfg) && GoodSteps(p, cfg, steps)
    requires |steps| >= if cfg.engineOnly then 24 else 26
    ensures var t := Run(w, [Begin(p, cfg)] + steps);
            && p in t.procs && t.procs[p].pc == RETURNED && t.procs[p].status == Completed
            && |t.machine.restarts| == 1 && t.machine.restarts[0].p == p
            && t.machine.head == cfg.newHead && t.machine.dropin == Some(w.machine.nextId)
            && t.machine.removals == [] && t.machine.lock.None?
            && t.machine.receipt && t.machine.statusFile && t.procs[p].v.statusWritten
            && t.procs[p].v.restartAttempted && t.procs[p].v.tossAttempted == !cfg.engineOnly
  {
    hide Run, Clear, GoodSteps;
    var k := GoodRun(w, p, cfg, steps);
    CourseIsPath(Run(w, [Begin(p, cfg)] + steps), p, cfg, w.machine.nextId, k);
    assert k == RETURNED;
  }

  // ---- one step fails ---------------------------------------------------------------------------------------

  /** The steps that look at the clock. */
  predicate Timed(k: Pc) {
    k in {WINDOW, PREFLIGHT_HEAD, PREFLIGHT_REST, LAUNCHER, CHECKOUT, HEAD_CHECK, DROPIN_WRITE, BEFORE_RESTART,
          FINAL_GUARDS, RESTART, READINESS, BEFORE_COMPLETE, TOSS}
  }

  /** How step `k` can fail: out of the window where it looks at the clock, or by a command that fails.  A
      checkout of the commit that is already there does nothing, and readiness is asked for again and again. */
  predicate Fails(cfg: Config, k: Pc, now: int, o: Outcome) {
    && k <= TOSS && (k == CHECKOUT ==> cfg.oldHead != cfg.newHead)
    && ((Timed(k) && !OnTime(cfg, now)) || (o != Good && k != WINDOW && k != READINESS))
  }

  predicate ChangedBy(cfg: Config, f: Pc) {
    f >= CHECKOUT && cfg.oldHead != cfg.newHead
  }

  /** A failure at `f` has something to undo, and is still allowed to. */
  predicate MustUndo(cfg: Config, f: Pc) {
    f <= RESTART - 1 && (ChangedBy(cfg, f) || f > DROPIN_CREATE)
  }

  /** The step after `k` when a failure at `f` is being cleaned up. */
  function NextBack(f: Pc, k: Pc): Pc {
    if k == RB_CHECK_DROPIN then
      if f <= DROPIN_CREATE then RB_PROTECTED else if f == DROPIN_STAT then FINALLY else RB_UNLINK
    else if k == RB_PROTECTED then FINALLY
    else if k == FINALLY && f <= RECEIPT_SYNC then RETURNED
    else if k == RETURNED then RETURNED
    else k + 1
  }

  predicate OnWayBack(cfg: Config, f: Pc, k: Pc) {
    && f <= TOSS && (FINALLY <= k <= RETURNED || (MustUndo(cfg, f) && RB_CHECKOUT <= k <= RB_PROTECTED))
    && (f <= DROPIN_CREATE ==> k != RB_UNLINK && k != RB_SYNC)
    && (f == DROPIN_STAT ==> k != RB_UNLINK && k != RB_SYNC && k != RB_PROTECTED)
    && (f <= RECEIPT_SYNC ==> k != STATUS_OPEN && k != STATUS_SYNC)
  }

  /** At most this many steps to go. */
  function ToGoBack(k: Pc): nat
    requires RB_CHECKOUT <= k <= RB_PROTECTED || FINALLY <= k <= RETURNED
  {
    if k <= RB_PROTECTED then 38 - k else RETURNED - k
  }

  /** A lone activation that failed at `f` and has got to `k` cleaning up, with every step since a success. */
  ghost predicate OnReturn(w: World, p: Pid, cfg: Config, id: FileId, f: Pc, issued: bool, k: Pc) {
    var m := w.machine;
    && OnWayBack(cfg, f, k) && w.procs.Keys == {p}
    && var x := w.procs[p];
       && x.cfg == cfg && x.pc == k
       && x.status == (if f > RECEIPT_SYNC then Failed else Rejected)
       && x.rollback == UndoneBy(cfg, f, k)
       && LeftIn(x.v, cfg, id, f, k)
       && m.receipt == (f > RECEIPT_OPEN) && m.statusFile == (f > RECEIPT_SYNC && k > STATUS_OPEN)
       && m.lock == (if f > DEPLOY_LOCK && k <= FINALLY then Some(Mine(p)) else None)
       && (k != RB_CHECKOUT ==> m.head == if f >= RESTART then cfg.newHead else cfg.oldHead)
       && (k == RB_CHECKOUT && !ChangedBy(cfg, f) ==> m.head == cfg.oldHead)
       && m.dropin == (if f > DROPIN_CREATE && !RemovedBy(f, k) then Some(id) else None)
       && m.removals == (if RemovedBy(f, k) then [Removal(p, id, id, false)] else [])
       && |m.restarts| == (if f > RESTART || (f == RESTART && issued) then 1 else 0)
       && forall r :: r in m.restarts ==> r.p == p
  }

  /** The rollback counts as failed until it is through. */
  function UndoneBy(cfg: Config, f: Pc, k: Pc): Rollback {
    if !MustUndo(cfg, f) then NotNeeded
    else if k >= FINALLY && f != DROPIN_STAT then RolledBack else RollbackFailed
  }

  predicate RemovedBy(f: Pc, k: Pc) {
    DROPIN_STAT < f <= FINAL_GUARDS && k > RB_UNLINK
  }

  ghost predicate LeftIn(v: Locals, cfg: Config, id: FileId, f: Pc, k: Pc) {
    && v.receipt == (f > RECEIPT_SYNC)
    && v.changed == ChangedBy(cfg, f)
    && v.installed == (f > DROPIN_CREATE) && (v.installed ==> v.madeId == id)
    && v.identity == (if f > DROPIN_STAT then Some(id) else None)
    && v.restartAttempted == (f >= RESTART) && v.tossAttempted == (f == TOSS)
    && v.statusWritten == (k == RETURNED && f > RECEIPT_SYNC) && !v.disturbed
  }

  lemma FailsEarly(w: World, p: Pid, cfg: Config, id: FileId, f: Pc, now: int, o: Outcome)
    requires OnCourse(w, p, cfg, id, f) && Fails(cfg, f, now, o) && f <= LAUNCHER
    ensures OnReturn(Step(w, Do(p, now, o)), p, cfg, id, f, false, FINALLY)
  {
    hide InWindow, OnTime;
    OnTimeIs(cfg, now);
  }

  lemma FailsInstalling(w: World, p: Pid, cfg: Config, id: FileId, f: Pc, now: int, o: Outcome)
    requires OnCourse(w, p, cfg, id, f) && Fails(cfg, f, now, o) && CHECKOUT <= f <= DROPIN_WRITE
    ensures OnReturn(Step(w, Do(p, now, o)), p, cfg, id, f, false, if MustUndo(cfg, f) then RB_CHECKOUT else FINALLY)
  {
    hide InWindow, OnTime;
    OnTimeIs(cfg, now);
  }

  lemma FailsLate(w: World, p: Pid, cfg: Config, id: FileId, f: Pc, now: int, o: Outcome)
    requires OnCourse(w, p, cfg, id, f) && Fails(cfg, f, now, o) && BEFORE_RESTART <= f
    ensures OnReturn(Step(w, Do(p, now, o)), p, cfg, id, f, InWindow(cfg, now),
                     if MustUndo(cfg, f) then RB_CHECKOUT else FINALLY)
  {
    hide InWindow, OnTime;
    OnTimeIs(cfg, now);
  }

  lemma GoodUndo(w: World, p: Pid, cfg: Config, id: FileId, f: Pc, issued: bool, k: Pc, now: int)
    requires OnReturn(w, p, cfg, id, f, issued, k) && k <= RB_PROTECTED
    ensures OnReturn(Step(w, Do(p, now, Good)), p, cfg, id, f, issued, NextBack(f, k))
  {
  }

  lemma GoodEnding(w: World, p: Pid, cfg: Config, id: FileId, f: Pc, issued: bool, k: Pc, now: int)
    requires OnReturn(w, p, cfg, id, f, issued, k) && FINALLY <= k
    ensures OnReturn(Step(w, Do(p, now, Good)), p, cfg, id, f, issued, NextBack(f, k))
  {
  }

  /** The same, on the clock or off it: rollback is not bound to the window. */
  ghost predicate Successes(p: Pid, events: seq<Event>) {
    forall e :: e in events ==> e.Do? && e.p == p && e.outcome == Good
  }

  lemma ReturnIsWay(w: World, p: Pid, cfg: Config, id: FileId, f: Pc, issued: bool, k: Pc)
    requires OnReturn(w, p, cfg, id, f, issued, k)
    ensures OnWayBack(cfg, f, k)
  {
  }

  lemma {:induction false} GoodWayBack(w: World, before: seq<Event>, p: Pid, cfg: Config, id: FileId, f: Pc,
                                       issued: bool, from: Pc, steps: seq<Event>)
    returns (k: Pc)
    requires OnReturn(Run(w, before), p, cfg, id, f, issued, from) && Successes(p, steps)
    ensures OnReturn(Run(w, before + steps), p, cfg, id, f, issued, k)
    ensures OnWayBack(cfg, f, k) && OnWayBack(cfg, f, from)
    ensures ToGoBack(k) <= if |steps| <= ToGoBack(from) then ToGoBack(from) - |steps| else 0
  {
    hide Step, OnReturn, Run, MustUndo;
    if steps == [] {
      assert before + steps == before;
      k := from;
      ReturnIsWay(Run(w, before), p, cfg, id, f, issued, from);
    } else {
      var init, last := steps[..|steps| - 1], steps[|steps| - 1];
      assert before + steps == (before + init) + [last];
      Extend(w, before + init, last);
      var j := GoodWayBack(w, before, p, cfg, id, f, issued, from, init);
      assert last in steps && last == Do(p, last.now, Good);
      var t := Run(w, before + init);
      if j <= RB_PROTECTED { GoodUndo(t, p, cfg, id, f, issued, j, last.now); }
      else { GoodEnding(t, p, cfg, id, f, issued, j, last.now); }
      k := NextBack(f, j);
      ReturnIsWay(Step(t, last), p, cfg, id, f, issued, k);
    }
  }

  /** What a lone activation that failed at `f` leaves once it has returned. */
  ghost predicate LeftBehind(t: World, p: Pid, cfg: Config, id: FileId, f: Pc, issued: bool) {
    && p in t.procs
    && var m, x := t.machine, t.procs[p];
       && x.pc == RETURNED && m.lock.None?
       && m.receipt == (f > RECEIPT_OPEN)
       && m.statusFile == (f > RECEIPT_SYNC) && x.v.statusWritten == (f > RECEIPT_SYNC)
       && x.status == (if f > RECEIPT_SYNC then Failed else Rejected)
       && x.rollback == (if !MustUndo(cfg, f) then NotNeeded
                         else if f == DROPIN_STAT then RollbackFailed else RolledBack)
       && m.head == (if f >= RESTART then cfg.newHead else cfg.oldHead)
       && m.dropin == (if f >= RESTART || f == DROPIN_STAT then Some(id) else None)
       && m.removals == (if DROPIN_STAT < f < RESTART then [Removal(p, id, id, false)] else [])
       && |m.restarts| == (if f > RESTART || (f == RESTART && issued) then 1 else 0)
       && x.v.restartAttempted == (f >= RESTART) && x.v.tossAttempted == (f == TOSS)
  }

  /** One step of a lone activation fails, at any point, in any way, and the cleaning up succeeds.  Before the
      receipt nothing has happened; before the checkout there is nothing to undo; from the checkout up to the
      restart HEAD is back at the old commit and the own drop-in gone, reported as rolled back, but for a
      drop-in whose identity could not be read, which stays and is reported; from the restart on nothing is
      undone, and at most the one command was issued. */
  lemma OneFailureLeaves(w: World, p: Pid, cfg: Config, good: seq<Event>, now: int, o: Outcome, back: seq<Event>)
    requires Clear(w, cfg) && GoodSteps(p, cfg, good) && Successes(p, back) && |back| >= 8
    requires p in Run(w, [Begin(p, cfg)] + good).procs
             && Fails(cfg, Run(w, [Begin(p, cfg)] + good).procs[p].pc, now, o)
    ensures LeftBehind(Run(w, [Begin(p, cfg)] + good + [Do(p, now, o)] + back), p, cfg, w.machine.nextId,
                       Run(w, [Begin(p, cfg)] + good).procs[p].pc, OnTime(cfg, now))
  {
    hide Step, Clear, Run, GoodSteps, Fails, InWindow, OnTime;
    OnTimeIs(cfg, now);
    var id := w.machine.nextId;
    var begun := [Begin(p, cfg)] + good;
    var f := GoodRun(w, p, cfg, good);
    CourseAt(Run(w, begun), p, cfg, id, f);
    Extend(w, begun, Do(p, now, o));
    var issued := f >= BEFORE_RESTART && InWindow(cfg, now);
    var from := if MustUndo(cfg, f) then RB_CHECKOUT else FINALLY;
    FailsSomewhere(Run(w, begun), p, cfg, id, f, now, o);
    var k := GoodWayBack(w, begun + [Do(p, now, o)], p, cfg, id, f, issued, from, back);
    Returned(Run(w, begun + [Do(p, now, o)] + back), p, cfg, id, f, issued, k);
  }

  lemma CourseAt(w: World, p: Pid, cfg: Config, id: FileId, k: Pc)
    requires OnCourse(w, p, cfg, id, k)
    ensures p in w.procs && w.procs[p].pc == k
  {
  }

  lemma FailsSomewhere(w: World, p: Pid, cfg: Config, id: FileId, f: Pc, now: int, o: Outcome)
    requires OnCourse(w, p, cfg, id, f) && Fails(cfg, f, now, o)
    ensures OnReturn(Step(w, Do(p, now, o)), p, cfg, id, f, f >= BEFORE_RESTART && InWindow(cfg, now),
                     if MustUndo(cfg, f) then RB_CHECKOUT else FINALLY)
  {
    hide Step, OnCourse, OnReturn, InWindow;
    FailsBeforeTheEnd(cfg, f, now, o);
    if f <= LAUNCHER { FailsEarly(w, p, cfg, id, f, now, o); }
    else if f <= DROPIN_WRITE { FailsInstalling(w, p, cfg, id, f, now, o); }
    else { FailsLate(w, p, cfg, id, f, now, o); }
  }

  lemma FailsBeforeTheEnd(cfg: Config, f: Pc, now: int, o: Outcome)
    requires Fails(cfg, f, now, o)
    ensures f <= TOSS
  {
  }

  lemma Returned(t: World, p: Pid, cfg: Config, id: FileId, f: Pc, issued: bool, k: Pc)
    requires OnReturn(t, p, cfg, id, f, issued, k) && k == RETURNED
    ensures LeftBehind(t, p, cfg, id, f, issued)
  {
  }

  /** The restart is out and all is well, but the status file cannot be written anew: the activation says so. */
  lemma UnwrittenStatusFails(w: World, p: Pid, cfg: Config, id: FileId, k: Pc, now: int, o: Outcome)
    requires OnCourse(w, p, cfg, id, k) && (k == STATUS_OPEN || k == STATUS_SYNC) && o != Good
    ensures var t := Step(w, Do(p, now, o));
            && p in t.procs && t.procs[p].pc == RETURNED && t.procs[p].status == Failed && !t.procs[p].v.statusWritten
            && t.machine == w.machine
  {
  }

  /** A status file that is already there is never replaced, whatever the activation has done. */
  lemma OldStatusStands(w: World, p: Pid, now: int, o: Outcome)
    requires p in w.procs && w.procs[p].pc == STATUS_OPEN && w.machine.statusFile
    ensures var t := Step(w, Do(p, now, o));
            && p in t.procs && t.procs[p].pc == RETURNED && t.procs[p].status == Failed && t.machine == w.machine
            && t.procs[p].v == w.procs[p].v
  {
  }
}
