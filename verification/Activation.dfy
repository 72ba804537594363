/** The one-shot activation of the observation window, as a step machine.  Any number of
    activations may run against one state directory, interleaved step by step; every step may
    fail, any process may crash anywhere, and an outsider may move HEAD, swap the drop-in or take
    the deploy lock at any time. */
module Activation {
  import opened Basics

  type Pid = nat
  type Commit = nat
  type FileId = nat

  datatype Config = Config(oldHead: Commit, newHead: Commit, notBefore: int, latestStart: int,
                           engineOnly: bool, sameHeadRequired: bool, checksDropinBeforeRestart: bool)

  /** Program counters, in the order of the program text; the exception handler and the epilogue
      come last. */
  type Pc = nat

  const WINDOW: Pc := 0
  const PRIOR: Pc := 1
  const RECEIPT_OPEN: Pc := 2
  const RECEIPT_SYNC: Pc := 3
  const DEPLOY_LOCK: Pc := 4

  const PREFLIGHT_FILES: Pc := 5
  const PREFLIGHT_HEAD: Pc := 6
  const PREFLIGHT_REST: Pc := 7
  const PREFLIGHT_PENDING: Pc := 8
  const LAUNCHER: Pc := 9

  const CHECKOUT: Pc := 10
  const HEAD_CHECK: Pc := 11
  const SOURCE_CHECK: Pc := 12
  const DROPIN_CREATE: Pc := 13
  const DROPIN_STAT: Pc := 14
  const DROPIN_WRITE: Pc := 15

  const BEFORE_RESTART: Pc := 16
  const FINAL_PENDING: Pc := 17
  const FINAL_GUARDS: Pc := 18
  const RESTART: Pc := 19
  const READINESS: Pc := 20
  const BEFORE_COMPLETE: Pc := 21
  const TOSS: Pc := 22

  const RB_CHECKOUT: Pc := 30
  const RB_CHECK_DROPIN: Pc := 31
  const RB_UNLINK: Pc := 32
  const RB_SYNC: Pc := 33
  const RB_PROTECTED: Pc := 34

  const FINALLY: Pc := 40
  const STATUS_OPEN: Pc := 41
  const STATUS_SYNC: Pc := 42
  const RETURNED: Pc := 43
  const DEAD: Pc := 44

  datatype Rollback = NotNeeded | RolledBack | RollbackFailed
  datatype Status = Undecided | Rejected | Failed | Completed

  /** The local variables of one call of `activate`, and what it has observed. */
  datatype Locals = Locals(created: bool,               // this process created the receipt file
                           receipt: bool, changed: bool, installed: bool,
                           madeId: FileId, identity: Option<FileId>,
                           restartAttempted: bool, tossAttempted: bool,
                           sawHead: Option<Commit>, sawPendingClear: bool, sawReady: bool, statusWritten: bool,
                           disturbed: bool)             // the drop-in was swapped between check and unlink

  datatype Proc = Proc(cfg: Config, pc: Pc, status: Status, rollback: Rollback, v: Locals)

  datatype Holder = Mine(p: Pid) | Outsider

  /** A restart command as issued: by whom, when, and what the issuer had checked. */
  datatype RestartCommand = RestartCommand(p: Pid, cfg: Config, now: int, receipt: bool, lock: Option<Holder>,
                                           sawHead: Option<Commit>, sawPendingClear: bool)

  /** A drop-in removed during rollback. */
  datatype Removal = Removal(p: Pid, own: FileId, deleted: FileId, disturbed: bool)

  /** The machine all activations share: the state directory, the deploy lock, HEAD, the drop-in
      path, and a record of what was done to it.  `winner` is whoever created the receipt. */
  datatype Machine = Machine(receipt: bool, winner: Option<Pid>, statusFile: bool, lock: Option<Holder>, head: Commit,
                             dropin: Option<FileId>, nextId: FileId,
                             restarts: seq<RestartCommand>, removals: seq<Removal>)

  datatype World = World(machine: Machine, procs: map<Pid, Proc>)

  /** What one step of one process leaves behind. */
  datatype After = After(m: Machine, x: Proc)

  /** How the environment answers a step. `BadMoved` is a failing checkout that moved HEAD anyway. */
  datatype Outcome = Good | Bad | BadMoved

  datatype Event =
    | Begin(p: Pid, cfg: Config)
    | Do(p: Pid, now: int, outcome: Outcome)
    | Crash(p: Pid)
    | OutsiderHead(commit: Commit)
    | OutsiderDropin(present: bool)
    | OutsiderLock
    | OutsiderUnlock

  predicate InWindow(cfg: Config, now: int) {
    cfg.notBefore <= now < cfg.latestStart && 0 < cfg.latestStart - cfg.notBefore <= 120
  }

  function Fresh(cfg: Config): Proc {
    Proc(cfg, WINDOW, Undecided, NotNeeded,
         Locals(false, false, false, false, 0, None, false, false, None, false, false, false, false))
  }

  function Goto(m: Machine, x: Proc, pc: Pc): After {
    After(m, x.(pc := pc))
  }

  predicate NeedsRollback(x: Proc) {
    (x.v.changed || x.v.installed) && !x.v.restartAttempted
  }

  /** The `except` clause up to its first action. */
  function Raise(m: Machine, x: Proc): After {
    After(m, x.(status := if x.v.receipt then Failed else Rejected,
                rollback := if NeedsRollback(x) then RollbackFailed else x.rollback,
                pc := if NeedsRollback(x) then RB_CHECKOUT else FINALLY))
  }

  function Unlocked(m: Machine, p: Pid): Machine {
    if m.lock == Some(Mine(p)) then m.(lock := None) else m
  }

  /** Window, receipt, deploy lock. */
  function DoPrologue(m: Machine, p: Pid, x: Proc, now: int, o: Outcome): After {
    if x.pc == WINDOW then if InWindow(x.cfg, now) then Goto(m, x, PRIOR) else Raise(m, x)
    else if x.pc == PRIOR then
      if o.Good? && !(x.cfg.sameHeadRequired && x.cfg.oldHead != x.cfg.newHead)
      then Goto(m, x, RECEIPT_OPEN) else Raise(m, x)
    else if x.pc == RECEIPT_OPEN then
      if o.Good? && !m.receipt
      then Goto(m.(receipt := true, winner := Some(p)), x.(v := x.v.(created := true)), RECEIPT_SYNC) else Raise(m, x)
    else if x.pc == RECEIPT_SYNC then
      if o.Good? then Goto(m, x.(v := x.v.(receipt := true)), DEPLOY_LOCK) else Raise(m, x)
    else if x.pc == DEPLOY_LOCK then
      if o.Good? && m.lock.None? then Goto(m.(lock := Some(Mine(p))), x, PREFLIGHT_FILES) else Raise(m, x)
    else After(m, x)
  }

  function DoPreflight(m: Machine, x: Proc, now: int, o: Outcome): After {
    if x.pc == PREFLIGHT_FILES then
      if o.Good? && m.dropin.None? then Goto(m, x, PREFLIGHT_HEAD) else Raise(m, x)
    else if x.pc == PREFLIGHT_HEAD then
      if o.Good? && InWindow(x.cfg, now) && m.head == x.cfg.oldHead then Goto(m, x, PREFLIGHT_REST) else Raise(m, x)
    else if x.pc == PREFLIGHT_REST then
      if o.Good? && InWindow(x.cfg, now) then Goto(m, x, PREFLIGHT_PENDING) else Raise(m, x)
    else if x.pc == PREFLIGHT_PENDING then
      if o.Good? then Goto(m, x, if x.cfg.engineOnly then CHECKOUT else LAUNCHER) else Raise(m, x)
    else if x.pc == LAUNCHER then
      if o.Good? && InWindow(x.cfg, now) then Goto(m, x, CHECKOUT) else Raise(m, x)
    else After(m, x)
  }

  /** `changed` is set before the checkout is tried. */
  function DoCheckout(m: Machine, x: Proc, now: int, o: Outcome): After {
    if x.pc == CHECKOUT then
      if x.cfg.oldHead == x.cfg.newHead then Goto(m, x, HEAD_CHECK)
      else
        var y := x.(v := x.v.(changed := true));
        if !InWindow(x.cfg, now) then Raise(m, y)
        else if o.Good? then Goto(m.(head := x.cfg.newHead), y, HEAD_CHECK)
        else Raise(if o.BadMoved? then m.(head := x.cfg.newHead) else m, y)
    else if x.pc == HEAD_CHECK then
      if o.Good? && InWindow(x.cfg, now) && m.head == x.cfg.newHead
      then Goto(m, x.(v := x.v.(sawHead := Some(m.head))), SOURCE_CHECK) else Raise(m, x)
    else if x.pc == SOURCE_CHECK then
      if o.Good? then Goto(m, x, DROPIN_CREATE) else Raise(m, x)
    else After(m, x)
  }

  /** The drop-in counts as installed from its creation on, before its identity is known. */
  function DoDropin(m: Machine, x: Proc, now: int, o: Outcome): After {
    if x.pc == DROPIN_CREATE then
      if o.Good? && m.dropin.None?
      then Goto(m.(dropin := Some(m.nextId), nextId := m.nextId + 1),
                x.(v := x.v.(installed := true, madeId := m.nextId)), DROPIN_STAT)
      else Raise(m, x)
    else if x.pc == DROPIN_STAT then
      if o.Good? then Goto(m, x.(v := x.v.(identity := Some(x.v.madeId))), DROPIN_WRITE) else Raise(m, x)
    else if x.pc == DROPIN_WRITE then
      if o.Good? && InWindow(x.cfg, now) then Goto(m, x, BEFORE_RESTART) else Raise(m, x)
    else After(m, x)
  }

  function Issued(m: Machine, p: Pid, x: Proc, now: int): Machine {
    m.(restarts := m.restarts + [RestartCommand(p, x.cfg, now, m.receipt, m.lock, x.v.sawHead, x.v.sawPendingClear)])
  }

  /** The attempt is on record before the command's own window check can refuse it. */
  function DoRestart(m: Machine, p: Pid, x: Proc, now: int, o: Outcome): After {
    if x.pc == BEFORE_RESTART then
      if o.Good? && InWindow(x.cfg, now) then Goto(m, x, FINAL_PENDING) else Raise(m, x)
    else if x.pc == FINAL_PENDING then
      if o.Good? then Goto(m, x.(v := x.v.(sawPendingClear := true)), FINAL_GUARDS) else Raise(m, x)
    else if x.pc == FINAL_GUARDS then
      if o.Good? && InWindow(x.cfg, now) && (x.cfg.checksDropinBeforeRestart ==> m.dropin == x.v.identity)
      then Goto(m, x, RESTART) else Raise(m, x)
    else if x.pc == RESTART then
      var y := x.(v := x.v.(restartAttempted := true));
      if !InWindow(x.cfg, now) then Raise(m, y)
      else if o.Good? then Goto(Issued(m, p, y, now), y, READINESS)
      else Raise(Issued(m, p, y, now), y)
    else After(m, x)
  }

  /** Polling until ready, then the other service unless the engine runs alone. */
  function DoCompletion(m: Machine, x: Proc, now: int, o: Outcome): After {
    if x.pc == READINESS then
      if !InWindow(x.cfg, now) then Raise(m, x)
      else if o.Good? then Goto(m, x.(v := x.v.(sawReady := true)), BEFORE_COMPLETE)
      else After(m, x)
    else if x.pc == BEFORE_COMPLETE then
      if o.Good? && InWindow(x.cfg, now)
      then (if x.cfg.engineOnly then After(m, x.(status := Completed, pc := FINALLY)) else Goto(m, x, TOSS))
      else Raise(m, x)
    else if x.pc == TOSS then
      var y := x.(v := x.v.(tossAttempted := true));
      if o.Good? && InWindow(x.cfg, now) then After(m, y.(status := Completed, pc := FINALLY)) else Raise(m, y)
    else After(m, x)
  }

  /** Rollback commands are not bound to the window. */
  function DoRollback(m: Machine, p: Pid, x: Proc, o: Outcome): After {
    if x.pc == RB_CHECKOUT then
      if !x.v.changed then Goto(m, x, RB_CHECK_DROPIN)
      else if o.Good? then Goto(m.(head := x.cfg.oldHead), x, RB_CHECK_DROPIN)
      else Goto(if o.BadMoved? then m.(head := x.cfg.oldHead) else m, x, FINALLY)
    else if x.pc == RB_CHECK_DROPIN then
      if !x.v.installed then Goto(m, x, RB_PROTECTED)
      else if o.Good? && x.v.identity.Some? && m.dropin == x.v.identity then Goto(m, x, RB_UNLINK)
      else Goto(m, x, FINALLY)
    else if x.pc == RB_UNLINK then
      if o.Good? && m.dropin.Some? && x.v.identity.Some?
      then Goto(m.(dropin := None,
                   removals := m.removals + [Removal(p, x.v.identity.value, m.dropin.value, x.v.disturbed)]),
                x, RB_SYNC)
      else Goto(m, x, FINALLY)
    else if x.pc == RB_SYNC then
      if o.Good? then Goto(m, x, RB_PROTECTED) else Goto(m, x, FINALLY)
    else if x.pc == RB_PROTECTED then
      if o.Good? then Goto(m, x.(rollback := RolledBack), FINALLY) else Goto(m, x, FINALLY)
    else After(m, x)
  }

  /** The `finally` clause and the status file, which is written only when the receipt was. */
  function DoEpilogue(m: Machine, p: Pid, x: Proc, o: Outcome): After {
    if x.pc == FINALLY then Goto(Unlocked(m, p), x, if x.v.receipt then STATUS_OPEN else RETURNED)
    else if x.pc == STATUS_OPEN then
      if o.Good? && !m.statusFile then Goto(m.(statusFile := true), x, STATUS_SYNC)
      else Goto(m, x.(status := Failed), RETURNED)
    else if x.pc == STATUS_SYNC then
      if o.Good? then Goto(m, x.(v := x.v.(statusWritten := true)), RETURNED)
      else Goto(m, x.(status := Failed), RETURNED)
    else After(m, x)
  }

  function Act(m: Machine, p: Pid, x: Proc, now: int, o: Outcome): After {
    var r := x.pc;
    if r <= DEPLOY_LOCK then DoPrologue(m, p, x, now, o)
    else if r <= LAUNCHER then DoPreflight(m, x, now, o)
    else if r <= SOURCE_CHECK then DoCheckout(m, x, now, o)
    else if r <= DROPIN_WRITE then DoDropin(m, x, now, o)
    else if r <= RESTART then DoRestart(m, p, x, now, o)
    else if r <= TOSS then DoCompletion(m, x, now, o)
    else if r <= RB_PROTECTED then DoRollback(m, p, x, o)
    else DoEpilogue(m, p, x, o)
  }

  function Disturbed(x: Proc): Proc {
    if x.pc == RB_UNLINK then x.(v := x.v.(disturbed := true)) else x
  }

  function Step(w: World, e: Event): World {
    match e
    case Begin(p, cfg) => if p in w.procs then w else World(w.machine, w.procs[p := Fresh(cfg)])
    case Do(p, now, o) =>
      if p in w.procs then
        var a := Act(w.machine, p, w.procs[p], now, o);
        World(a.m, w.procs[p := a.x])
      else w
    case Crash(p) =>
      if p in w.procs then World(Unlocked(w.machine, p), w.procs[p := w.procs[p].(pc := DEAD)]) else w
    case OutsiderHead(commit) => World(w.machine.(head := commit), w.procs)
    case OutsiderDropin(present) =>
      World(w.machine.(dropin := if present then Some(w.machine.nextId) else None, nextId := w.machine.nextId + 1),
            map q | q in w.procs :: Disturbed(w.procs[q]))
    case OutsiderLock => if w.machine.lock.None? then World(w.machine.(lock := Some(Outsider)), w.procs) else w
    case OutsiderUnlock =>
      if w.machine.lock == Some(Outsider) then World(w.machine.(lock := None), w.procs) else w
  }

  function Run(w: World, events: seq<Event>): World {
    if events == [] then w else Step(Run(w, events[..|events| - 1]), events[|events| - 1])
  }

  /** A machine on which no activation has started; an old receipt may or may not be there. */
  ghost predicate Initial(w: World) {
    var m := w.machine;
    && w.procs == map[] && m.restarts == [] && m.removals == [] && m.winner == None
    && (m.lock.Some? ==> m.lock.value.Outsider?)
    && (m.dropin.Some? ==> m.dropin.value < m.nextId)
  }

  // ---- invariants -------------------------------------------------------------------------------

  /** Everything a restart command must rest on. */
  ghost predicate Justified(r: RestartCommand) {
    && r.cfg.notBefore <= r.now < r.cfg.latestStart <= r.cfg.notBefore + 120
    && r.receipt
    && r.lock == Some(Mine(r.p))
    && r.sawHead == Some(r.cfg.newHead)
    && r.sawPendingClear
  }

  /** A process that did not create the receipt has done nothing but look. */
  ghost predicate Harmless(x: Proc) {
    && (x.pc <= RECEIPT_OPEN || x.pc == FINALLY || x.pc == RETURNED || x.pc == DEAD)
    && !x.v.created && !x.v.receipt && !x.v.changed && !x.v.installed && x.v.identity.None?
    && !x.v.restartAttempted && !x.v.statusWritten && !x.v.disturbed
    && x.rollback == NotNeeded && x.status != Completed
    && (x.pc <= RECEIPT_OPEN ==> x.status == Undecided)
  }

  /** Where the creator of the receipt can be, and what it has done by then. */
  ghost predicate Consistent(x: Proc) {
    var r := x.pc;
    && x.v.created && r >= RECEIPT_SYNC
    && (DEPLOY_LOCK <= r <= RB_PROTECTED ==> x.v.receipt)
    && (r <= CHECKOUT ==> !x.v.changed)
    && (r <= DROPIN_CREATE ==> !x.v.installed)
    && (DROPIN_STAT <= r <= TOSS ==> x.v.installed)
    && (r <= RESTART ==> !x.v.restartAttempted && x.rollback == NotNeeded && x.status == Undecided)
    && (READINESS <= r <= TOSS ==> x.v.restartAttempted && x.rollback == NotNeeded && x.status == Undecided)
    && (SOURCE_CHECK <= r <= RESTART ==> x.v.sawHead == Some(x.cfg.newHead))
    && (FINAL_GUARDS <= r <= RESTART ==> x.v.sawPendingClear)
    && (BEFORE_COMPLETE <= r <= TOSS ==> x.v.sawReady)
    && (RB_CHECKOUT <= r <= RB_PROTECTED ==> NeedsRollback(x) && x.rollback == RollbackFailed && x.status == Failed)
    && (x.v.restartAttempted ==> x.rollback == NotNeeded)
    && (FINALLY <= r <= RETURNED && NeedsRollback(x) ==> x.rollback != NotNeeded)
    && (x.status == Completed ==> r >= FINALLY && x.v.receipt && x.v.sawReady && x.v.restartAttempted)
    && (x.status == Completed && x.pc == RETURNED ==> x.v.statusWritten)
    && (x.v.statusWritten ==> x.pc == RETURNED || x.pc == DEAD)
  }

  /** The drop-in, seen from the process that made it. */
  ghost predicate DropinSound(dropin: Option<FileId>, nextId: FileId, x: Proc) {
    && (x.v.identity.Some? ==> x.v.installed && x.v.identity.value == x.v.madeId)
    && (x.v.installed ==> x.v.madeId < nextId)
    && (dropin.Some? ==> dropin.value < nextId)
    && (x.pc == RB_UNLINK ==> x.v.identity.Some? && (dropin == x.v.identity <==> !x.v.disturbed))
    && (Gone(x) ==> x.v.identity.Some? && dropin != x.v.identity)
    && (x.v.disturbed ==> x.pc >= RB_UNLINK)
  }

  /** From here on the process takes its own drop-in to be removed. */
  ghost predicate Gone(x: Proc) {
    x.v.installed && (x.pc == RB_SYNC || x.pc == RB_PROTECTED || x.rollback == RolledBack)
  }

  /** HEAD, as long as nobody but the winner moves it. */
  ghost predicate HeadSound(head: Commit, x: Proc) {
    var r := x.pc;
    && (PREFLIGHT_REST <= r <= RB_CHECKOUT && !x.v.changed ==> head == x.cfg.oldHead)
    && (RB_CHECK_DROPIN <= r <= RB_PROTECTED ==> head == x.cfg.oldHead)
    && (x.rollback == RolledBack ==> head == x.cfg.oldHead)
  }

  ghost predicate RestartsSound(m: Machine) {
    && |m.restarts| <= 1
    && (m.restarts != [] ==> m.winner == Some(m.restarts[0].p) && Justified(m.restarts[0]))
  }

  /** A removal on record is the winner's, past its unlink; it took the own file exactly when the
      winner's mark is not set. */
  ghost predicate RemovalsMarked(w: World) {
    forall e :: e in w.machine.removals ==>
      && w.machine.winner == Some(e.p) && e.p in w.procs
      && w.procs[e.p].pc > RB_UNLINK && RemovalBy(e, e.p, w.procs[e.p].v.disturbed)
  }

  /** The winner against the shared machine. */
  ghost predicate Placed(m: Machine, p: Pid, x: Proc) {
    && m.receipt && m.winner == Some(p)
    && (PREFLIGHT_FILES <= x.pc <= RB_PROTECTED ==> m.lock == Some(Mine(p)))
    && (m.lock.Some? && m.lock.value.Mine? ==> m.lock == Some(Mine(p)) && x.pc >= PREFLIGHT_FILES)
    && (m.restarts != [] ==> x.v.restartAttempted)
    && (x.v.statusWritten || x.pc == STATUS_SYNC ==> m.statusFile)
  }

  ghost predicate WinnerSound(m: Machine, p: Pid, x: Proc) {
    Consistent(x) && DropinSound(m.dropin, m.nextId, x) && Placed(m, p, x)
  }

  /** What the winner's steps keep about itself and the logs. */
  ghost predicate Kept(m: Machine, p: Pid, x: Proc) {
    Consistent(x) && Placed(m, p, x) && RestartsSound(m)
  }

  /** What they keep about the drop-in and HEAD, given the first. */
  ghost predicate FilesKept(m: Machine, x: Proc, n: Machine, y: Proc) {
    && DropinSound(n.dropin, n.nextId, y)
    && (HeadSound(m.head, x) ==> HeadSound(n.head, y))
  }

  /** A step of `p` does not change its mark, and removes at most its own way past the unlink. */
  ghost predicate Marked(m: Machine, p: Pid, x: Proc, n: Machine, y: Proc) {
    && y.v.disturbed == x.v.disturbed && (x.pc > RB_UNLINK ==> y.pc > RB_UNLINK)
    && (n.removals == m.removals
        || exists e :: n.removals == m.removals + [e] && RemovalBy(e, p, x.v.disturbed) && y.pc > RB_UNLINK)
  }

  /** A removal of `p`'s: it took the own file exactly when the mark was not set. */
  ghost predicate RemovalBy(e: Removal, p: Pid, mark: bool) {
    e.p == p && e.disturbed == mark && (e.deleted == e.own <==> !e.disturbed)
  }

  ghost predicate Sound(w: World) {
    var m := w.machine;
    && RestartsSound(m) && RemovalsMarked(w)
    && (m.dropin.Some? ==> m.dropin.value < m.nextId)
    && (m.winner.Some? ==> m.winner.value in w.procs && WinnerSound(m, m.winner.value, w.procs[m.winner.value]))
    && (m.winner.None? ==> m.lock.Some? ==> m.lock.value.Outsider?)
    && (forall q :: q in w.procs && m.winner != Some(q) ==> Harmless(w.procs[q]))
  }

  // ---- every step keeps them --------------------------------------------------------------------

  lemma PrologueKept(m: Machine, p: Pid, x: Proc, now: int, o: Outcome)
    requires x.pc <= DEPLOY_LOCK && Kept(m, p, x)
    ensures var a := DoPrologue(m, p, x, now, o); Kept(a.m, p, a.x)
  {
  }

  lemma PrologueFiles(m: Machine, p: Pid, x: Proc, now: int, o: Outcome)
    requires x.pc <= DEPLOY_LOCK && Consistent(x) && DropinSound(m.dropin, m.nextId, x)
    ensures var a := DoPrologue(m, p, x, now, o); FilesKept(m, x, a.m, a.x) && Marked(m, p, x, a.m, a.x)
  {
  }

  lemma PreflightKept(m: Machine, p: Pid, x: Proc, now: int, o: Outcome)
    requires PREFLIGHT_FILES <= x.pc <= LAUNCHER && Kept(m, p, x)
    ensures var a := DoPreflight(m, x, now, o); Kept(a.m, p, a.x)
  {
  }

  lemma PreflightFiles(m: Machine, p: Pid, x: Proc, now: int, o: Outcome)
    requires PREFLIGHT_FILES <= x.pc <= LAUNCHER && Consistent(x) && DropinSound(m.dropin, m.nextId, x)
    ensures var a := DoPreflight(m, x, now, o); FilesKept(m, x, a.m, a.x) && Marked(m, p, x, a.m, a.x)
  {
  }

  lemma CheckoutKept(m: Machine, p: Pid, x: Proc, now: int, o: Outcome)
    requires CHECKOUT <= x.pc <= SOURCE_CHECK && Kept(m, p, x)
    ensures var a := DoCheckout(m, x, now, o); Kept(a.m, p, a.x)
  {
  }

  lemma CheckoutBeforeDropin(m: Machine, p: Pid, x: Proc, now: int, o: Outcome)
    requires CHECKOUT <= x.pc <= SOURCE_CHECK && Consistent(x) && DropinSound(m.dropin, m.nextId, x)
    ensures var a := DoCheckout(m, x, now, o);
            DropinSound(a.m.dropin, a.m.nextId, a.x) && Marked(m, p, x, a.m, a.x)
  {
    hide InWindow;
  }

  lemma CheckoutKeepsHead(m: Machine, x: Proc, now: int, o: Outcome)
    requires CHECKOUT <= x.pc <= SOURCE_CHECK && Consistent(x) && HeadSound(m.head, x)
    ensures var a := DoCheckout(m, x, now, o); HeadSound(a.m.head, a.x)
  {
    hide InWindow;
  }

  lemma CheckoutFiles(m: Machine, p: Pid, x: Proc, now: int, o: Outcome)
    requires CHECKOUT <= x.pc <= SOURCE_CHECK && Consistent(x) && DropinSound(m.dropin, m.nextId, x)
    ensures var a := DoCheckout(m, x, now, o); FilesKept(m, x, a.m, a.x) && Marked(m, p, x, a.m, a.x)
  {
    hide DoCheckout, Consistent, DropinSound, HeadSound, Marked;
    CheckoutBeforeDropin(m, p, x, now, o);
    if HeadSound(m.head, x) { CheckoutKeepsHead(m, x, now, o); }
  }

  lemma DropinKept(m: Machine, p: Pid, x: Proc, now: int, o: Outcome)
    requires DROPIN_CREATE <= x.pc <= DROPIN_WRITE && Kept(m, p, x)
    ensures var a := DoDropin(m, x, now, o); Kept(a.m, p, a.x)
  {
  }

  lemma DropinFiles(m: Machine, p: Pid, x: Proc, now: int, o: Outcome)
    requires DROPIN_CREATE <= x.pc <= DROPIN_WRITE && Consistent(x) && DropinSound(m.dropin, m.nextId, x)
    ensures var a := DoDropin(m, x, now, o); FilesKept(m, x, a.m, a.x) && Marked(m, p, x, a.m, a.x)
  {
  }

  lemma RestartKept(m: Machine, p: Pid, x: Proc, now: int, o: Outcome)
    requires BEFORE_RESTART <= x.pc <= RESTART && Kept(m, p, x)
    ensures var a := DoRestart(m, p, x, now, o); Kept(a.m, p, a.x)
  {
  }

  lemma RestartTouchesNoFiles(m: Machine, p: Pid, x: Proc, now: int, o: Outcome)
    requires BEFORE_RESTART <= x.pc <= RESTART && Consistent(x)
    ensures var a := DoRestart(m, p, x, now, o);
            && a.m.dropin == m.dropin && a.m.nextId == m.nextId && a.m.head == m.head && a.m.removals == m.removals
            && a.x.cfg == x.cfg && a.x.rollback != RolledBack
            && (BEFORE_RESTART <= a.x.pc <= RB_CHECKOUT || a.x.pc == FINALLY)
            && a.x.v.installed == x.v.installed && a.x.v.madeId == x.v.madeId && a.x.v.changed == x.v.changed
            && a.x.v.identity == x.v.identity && a.x.v.disturbed == x.v.disturbed
  {
    hide InWindow;
  }

  lemma RestartFiles(m: Machine, p: Pid, x: Proc, now: int, o: Outcome)
    requires BEFORE_RESTART <= x.pc <= RESTART && Consistent(x) && DropinSound(m.dropin, m.nextId, x)
    ensures var a := DoRestart(m, p, x, now, o); FilesKept(m, x, a.m, a.x) && Marked(m, p, x, a.m, a.x)
  {
    hide DoRestart;
    RestartTouchesNoFiles(m, p, x, now, o);
  }

  lemma CompletionKept(m: Machine, p: Pid, x: Proc, now: int, o: Outcome)
    requires READINESS <= x.pc <= TOSS && Kept(m, p, x)
    ensures var a := DoCompletion(m, x, now, o); Kept(a.m, p, a.x)
  {
  }

  lemma CompletionFiles(m: Machine, p: Pid, x: Proc, now: int, o: Outcome)
    requires READINESS <= x.pc <= TOSS && Consistent(x) && DropinSound(m.dropin, m.nextId, x)
    ensures var a := DoCompletion(m, x, now, o); FilesKept(m, x, a.m, a.x) && Marked(m, p, x, a.m, a.x)
  {
    hide InWindow;
  }

  lemma RollbackKept(m: Machine, p: Pid, x: Proc, o: Outcome)
    requires TOSS < x.pc <= RB_PROTECTED && Kept(m, p, x)
    ensures var a := DoRollback(m, p, x, o); Kept(a.m, p, a.x)
  {
  }

  lemma RollbackFiles(m: Machine, p: Pid, x: Proc, o: Outcome)
    requires TOSS < x.pc <= RB_PROTECTED && Consistent(x) && DropinSound(m.dropin, m.nextId, x)
    ensures var a := DoRollback(m, p, x, o); FilesKept(m, x, a.m, a.x) && Marked(m, p, x, a.m, a.x)
  {
  }

  lemma EpilogueKept(m: Machine, p: Pid, x: Proc, o: Outcome)
    requires RB_PROTECTED < x.pc && Kept(m, p, x)
    ensures var a := DoEpilogue(m, p, x, o); Kept(a.m, p, a.x)
  {
  }

  lemma EpilogueTouchesNoFiles(m: Machine, p: Pid, x: Proc, o: Outcome)
    requires RB_PROTECTED < x.pc
    ensures var a := DoEpilogue(m, p, x, o);
            && a.m.dropin == m.dropin && a.m.nextId == m.nextId && a.m.head == m.head && a.m.removals == m.removals
            && a.x.cfg == x.cfg && a.x.rollback == x.rollback && RB_PROTECTED < a.x.pc
            && a.x.v.installed == x.v.installed && a.x.v.madeId == x.v.madeId
            && a.x.v.identity == x.v.identity && a.x.v.disturbed == x.v.disturbed
  {
  }

  lemma EpilogueFiles(m: Machine, p: Pid, x: Proc, o: Outcome)
    requires RB_PROTECTED < x.pc && Consistent(x) && DropinSound(m.dropin, m.nextId, x)
    ensures var a := DoEpilogue(m, p, x, o); FilesKept(m, x, a.m, a.x) && Marked(m, p, x, a.m, a.x)
  {
    hide DoEpilogue;
    EpilogueTouchesNoFiles(m, p, x, o);
    assert Gone(DoEpilogue(m, p, x, o).x) ==> Gone(x);
  }

  lemma WinnerAct(m: Machine, p: Pid, x: Proc, now: int, o: Outcome)
    requires WinnerSound(m, p, x) && RestartsSound(m)
    ensures var a := Act(m, p, x, now, o);
            Kept(a.m, p, a.x) && FilesKept(m, x, a.m, a.x) && Marked(m, p, x, a.m, a.x)
  {
    hide Consistent, Placed, DropinSound, HeadSound, RestartsSound, FilesKept, Marked;
    hide DoPrologue, DoPreflight, DoCheckout, DoDropin, DoRestart, DoCompletion, DoRollback, DoEpilogue;
    if x.pc <= DEPLOY_LOCK {
      PrologueKept(m, p, x, now, o);
      PrologueFiles(m, p, x, now, o);
    } else if x.pc <= LAUNCHER {
      PreflightKept(m, p, x, now, o);
      PreflightFiles(m, p, x, now, o);
    } else if x.pc <= SOURCE_CHECK {
      CheckoutKept(m, p, x, now, o);
      CheckoutFiles(m, p, x, now, o);
    } else if x.pc <= DROPIN_WRITE {
      DropinKept(m, p, x, now, o);
      DropinFiles(m, p, x, now, o);
    } else if x.pc <= RESTART {
      RestartKept(m, p, x, now, o);
      RestartFiles(m, p, x, now, o);
    } else if x.pc <= TOSS {
      CompletionKept(m, p, x, now, o);
      CompletionFiles(m, p, x, now, o);
    } else if x.pc <= RB_PROTECTED {
      RollbackKept(m, p, x, o);
      RollbackFiles(m, p, x, o);
    } else {
      EpilogueKept(m, p, x, o);
      EpilogueFiles(m, p, x, o);
    }
  }

  ghost predicate CreatesReceipt(m: Machine, x: Proc, o: Outcome) {
    x.pc == RECEIPT_OPEN && o.Good? && !m.receipt
  }

  /** Creating the receipt makes a process the winner. */
  lemma FirstReceipt(m: Machine, p: Pid, x: Proc, now: int, o: Outcome)
    requires Harmless(x) && m.winner.None? && RestartsSound(m) && CreatesReceipt(m, x, o)
    requires (m.lock.Some? ==> m.lock.value.Outsider?) && (m.dropin.Some? ==> m.dropin.value < m.nextId)
    ensures var a := Act(m, p, x, now, o);
            && a.m == m.(receipt := true, winner := Some(p))
            && WinnerSound(a.m, p, a.x) && HeadSound(a.m.head, a.x) && !a.x.v.disturbed
  {
  }

  lemma HarmlessAct(m: Machine, p: Pid, x: Proc, now: int, o: Outcome)
    requires Harmless(x) && m.lock != Some(Mine(p)) && !CreatesReceipt(m, x, o)
    ensures var a := Act(m, p, x, now, o); a.m == m && Harmless(a.x)
  {
  }

  /** What the run as a whole keeps; HEAD only counts while no outsider has moved it. */
  ghost predicate SoundQuiet(w: World) {
    && Sound(w)
    && (w.machine.winner.Some? ==> HeadSound(w.machine.head, w.procs[w.machine.winner.value]))
  }

  lemma WinnerRemovals(w: World, p: Pid, a: After)
    requires RemovalsMarked(w) && p in w.procs && w.machine.winner == Some(p) && a.m.winner == Some(p)
    requires Marked(w.machine, p, w.procs[p], a.m, a.x)
    ensures RemovalsMarked(World(a.m, w.procs[p := a.x]))
  {
    var t := World(a.m, w.procs[p := a.x]);
    forall e | e in t.machine.removals
      ensures t.machine.winner == Some(e.p) && e.p in t.procs && t.procs[e.p].pc > RB_UNLINK
              && RemovalBy(e, e.p, t.procs[e.p].v.disturbed)
    {
      if e !in w.machine.removals {
        assert RemovalBy(e, p, w.procs[p].v.disturbed);
      }
    }
  }

  lemma DoKeeps(w: World, p: Pid, now: int, o: Outcome)
    requires Sound(w)
    ensures Sound(Step(w, Do(p, now, o)))
    ensures SoundQuiet(w) ==> SoundQuiet(Step(w, Do(p, now, o)))
  {
    hide Consistent, DropinSound, HeadSound, Marked, Harmless, Act, RemovalBy, Justified;
    if p in w.procs {
      var m, x := w.machine, w.procs[p];
      var a := Act(m, p, x, now, o);
      if m.winner == Some(p) {
        hide RemovalsMarked;
        WinnerAct(m, p, x, now, o);
        DropinSoundBound(a.m, a.x);
        WinnerRemovals(w, p, a);
      } else if CreatesReceipt(m, x, o) {
        FirstReceipt(m, p, x, now, o);
      } else {
        HarmlessAct(m, p, x, now, o);
      }
    }
  }

  lemma DropinSoundBound(m: Machine, x: Proc)
    requires DropinSound(m.dropin, m.nextId, x)
    ensures m.dropin.Some? ==> m.dropin.value < m.nextId
  {
  }

  lemma DeadWinner(m: Machine, p: Pid, x: Proc)
    requires WinnerSound(m, p, x)
    ensures WinnerSound(Unlocked(m, p), p, x.(pc := DEAD))
    ensures HeadSound(m.head, x) ==> HeadSound(m.head, x.(pc := DEAD))
  {
  }

  lemma OthersHoldNothing(m: Machine, p: Pid, x: Proc, q: Pid)
    requires Placed(m, p, x) && q != p
    ensures Unlocked(m, q) == m
  {
  }

  lemma CrashKeeps(w: World, p: Pid)
    requires Sound(w)
    ensures Sound(Step(w, Crash(p)))
    ensures SoundQuiet(w) ==> SoundQuiet(Step(w, Crash(p)))
  {
    hide Consistent, DropinSound, Placed, HeadSound, RemovalBy, Justified;
    var m := w.machine;
    if p in w.procs && m.winner == Some(p) {
      DeadWinner(m, p, w.procs[p]);
    }
    if m.winner.Some? && m.winner != Some(p) {
      OthersHoldNothing(m, m.winner.value, w.procs[m.winner.value], p);
    }
  }

  lemma DisturbKeeps(dropin: Option<FileId>, nextId: FileId, x: Proc, present: bool)
    requires Consistent(x) && DropinSound(dropin, nextId, x)
    ensures Consistent(Disturbed(x))
    ensures DropinSound(if present then Some(nextId) else None, nextId + 1, Disturbed(x))
  {
  }

  lemma OutsiderDropinKeeps(w: World, present: bool)
    requires Sound(w)
    ensures Sound(Step(w, OutsiderDropin(present)))
    ensures SoundQuiet(w) ==> SoundQuiet(Step(w, OutsiderDropin(present)))
  {
    hide Consistent, DropinSound, Justified;
    var m := w.machine;
    if m.winner.Some? {
      DisturbKeeps(m.dropin, m.nextId, w.procs[m.winner.value], present);
    }
  }

  lemma StepKeepsSound(w: World, e: Event)
    requires Sound(w)
    ensures Sound(Step(w, e))
    ensures SoundQuiet(w) && !e.OutsiderHead? ==> SoundQuiet(Step(w, e))
  {
    hide Consistent, DropinSound, HeadSound, Act, Disturbed;
    match e
    case Do(p, now, o) => DoKeeps(w, p, now, o);
    case Crash(p) => CrashKeeps(w, p);
    case OutsiderDropin(present) => OutsiderDropinKeeps(w, present);
    case _ =>
  }

  ghost predicate NobodyElseMovesHead(events: seq<Event>) {
    forall e :: e in events ==> !e.OutsiderHead?
  }

  lemma {:induction false} RunKeepsSound(w: World, events: seq<Event>)
    requires Initial(w)
    ensures Sound(Run(w, events))
    ensures NobodyElseMovesHead(events) ==> SoundQuiet(Run(w, events))
  {
    if events != [] {
      RunKeepsSound(w, events[..|events| - 1]);
      StepKeepsSound(Run(w, events[..|events| - 1]), events[|events| - 1]);
    }
  }

  // ---- what every run guarantees ------------------------------------------------------------------

  /** However many activations run, fail and crash: at most one restart command, and that one inside
      the window, after the receipt, under the deploy lock, with HEAD seen at the new commit and no
      pending order seen. */
  lemma AtMostOneRestart(w: World, events: seq<Event>)
    requires Initial(w)
    ensures |Run(w, events).machine.restarts| <= 1
    ensures forall r :: r in Run(w, events).machine.restarts ==> Justified(r)
  {
    hide Justified, WinnerSound, Harmless, RemovalsMarked, HeadSound, Run, Initial;
    RunKeepsSound(w, events);
  }

  /** A receipt that is already there spends the state directory: nobody gets past it. */
  lemma {:induction false} SpentReceiptAdmitsNobody(w: World, events: seq<Event>)
    requires Initial(w) && w.machine.receipt
    ensures var t := Run(w, events);
            t.machine.receipt && t.machine.winner.None? && t.machine.restarts == [] && t.machine.removals == []
    ensures NobodyElseMovesHead(events) ==> Run(w, events).machine.head == w.machine.head
  {
    if events != [] {
      var before := events[..|events| - 1];
      SpentReceiptAdmitsNobody(w, before);
      RunKeepsSound(w, before);
      var t := Run(w, before);
      match events[|events| - 1]
      case Do(p, now, o) => if p in t.procs { HarmlessAct(t.machine, p, t.procs[p], now, o); }
      case _ =>
    }
  }

  /** What a returned activation may claim about its rollback, and what a completed one has seen. */
  lemma RollbackContract(w: World, events: seq<Event>, p: Pid)
    requires Initial(w) && p in Run(w, events).procs
    ensures var t := Run(w, events); var x := t.procs[p];
            && (x.v.restartAttempted ==> x.rollback == NotNeeded && !(RB_CHECKOUT <= x.pc <= RB_PROTECTED))
            && (x.pc == RETURNED && NeedsRollback(x) ==> x.rollback != NotNeeded)
            && (x.rollback == RolledBack && x.v.installed ==> x.v.identity.Some? && t.machine.dropin != x.v.identity)
            && (x.rollback == RolledBack && NobodyElseMovesHead(events) ==> t.machine.head == x.cfg.oldHead)
            && (x.pc == RETURNED && x.status == Completed ==>
                  x.v.restartAttempted && x.v.sawReady && x.v.statusWritten && t.machine.statusFile)
  {
    RunKeepsSound(w, events);
  }

  // ---- whose drop-in rollback deletes ------------------------------------------------------------

  /** The `i`-th event replaces or removes the drop-in while `p` stands between its identity check and
      its unlink. */
  ghost predicate SwapAt(w: World, events: seq<Event>, p: Pid, i: int) {
    && 0 <= i < |events| && events[i].OutsiderDropin?
    && p in Run(w, events[..i]).procs && Run(w, events[..i]).procs[p].pc == RB_UNLINK
  }

  ghost predicate SwappedAtUnlink(w: World, events: seq<Event>, p: Pid) {
    exists i :: SwapAt(w, events, p, i)
  }

  ghost predicate MarkedDisturbed(t: World, p: Pid) {
    p in t.procs && t.procs[p].v.disturbed
  }

  lemma SwapSnoc(w: World, events: seq<Event>, e: Event, p: Pid)
    ensures SwappedAtUnlink(w, events + [e], p)
            <==> SwappedAtUnlink(w, events, p) || SwapAt(w, events + [e], p, |events|)
  {
    var all := events + [e];
    assert forall i :: 0 <= i <= |events| ==> all[..i] == events[..i];
    if SwappedAtUnlink(w, events, p) {
      var i :| SwapAt(w, events, p, i);
      assert SwapAt(w, all, p, i);
    }
    if SwappedAtUnlink(w, all, p) {
      var i :| SwapAt(w, all, p, i);
      assert i < |events| ==> SwapAt(w, events, p, i);
    }
  }

  lemma ActKeepsMark(w: World, p: Pid, now: int, o: Outcome)
    requires Sound(w) && p in w.procs
    ensures Act(w.machine, p, w.procs[p], now, o).x.v.disturbed == w.procs[p].v.disturbed
  {
    hide Act, Consistent, DropinSound, HeadSound, RemovalsMarked, Justified;
    var m, x := w.machine, w.procs[p];
    if m.winner == Some(p) {
      WinnerAct(m, p, x, now, o);
    } else if CreatesReceipt(m, x, o) {
      FirstReceipt(m, p, x, now, o);
    } else {
      HarmlessAct(m, p, x, now, o);
    }
  }

  /** Only an outsider's swap at the unlink sets a mark, and nothing takes it back. */
  lemma StepMarks(t: World, e: Event)
    requires Sound(t)
    ensures forall q :: MarkedDisturbed(Step(t, e), q) <==>
              MarkedDisturbed(t, q) || (e.OutsiderDropin? && q in t.procs && t.procs[q].pc == RB_UNLINK)
  {
    hide Act, Sound;
    match e
    case Do(p, now, o) => if p in t.procs { ActKeepsMark(t, p, now, o); }
    case _ =>
  }

  lemma {:induction false} MarksTellTheSwaps(w: World, events: seq<Event>)
    requires Initial(w)
    ensures forall q :: MarkedDisturbed(Run(w, events), q) <==> SwappedAtUnlink(w, events, q)
  {
    hide Step, MarkedDisturbed, SwapAt, Sound;
    if events == [] {
      NoMarks(w);
    } else {
      var before, e := events[..|events| - 1], events[|events| - 1];
      assert events == before + [e];
      MarksTellTheSwaps(w, before);
      RunKeepsSound(w, before);
      StepMarks(Run(w, before), e);
      forall q ensures MarkedDisturbed(Run(w, events), q) <==> SwappedAtUnlink(w, events, q) {
        SwapSnoc(w, before, e, q);
        LastSwap(w, before, e, q);
      }
    }
  }

  lemma NoMarks(w: World)
    requires Initial(w)
    ensures forall q :: !MarkedDisturbed(w, q) && !SwappedAtUnlink(w, [], q)
  {
  }

  lemma LastSwap(w: World, events: seq<Event>, e: Event, p: Pid)
    ensures SwapAt(w, events + [e], p, |events|)
            <==> e.OutsiderDropin? && p in Run(w, events).procs && Run(w, events).procs[p].pc == RB_UNLINK
  {
    assert (events + [e])[..|events|] == events;
  }

  /** Rollback deletes the activation's own drop-in exactly when no event replaced or removed the file
      between that activation's identity check and its unlink. */
  lemma RollbackDeletesItsOwn(w: World, events: seq<Event>)
    requires Initial(w)
    ensures forall e :: e in Run(w, events).machine.removals ==>
              (e.deleted == e.own <==> !SwappedAtUnlink(w, events, e.p))
  {
    hide SwappedAtUnlink, Run;
    RunKeepsSound(w, events);
    MarksTellTheSwaps(w, events);
    var t := Run(w, events);
    forall e | e in t.machine.removals ensures e.deleted == e.own <==> !SwappedAtUnlink(w, events, e.p) {
      assert MarkedDisturbed(t, e.p) <==> SwappedAtUnlink(w, events, e.p);
    }
  }

  // ---- the race that is left ------------------------------------------------------------------------

  const PLAIN := Config(0, 0, 0, 60, true, true, true)

  /** A lone activation of PLAIN, everything going well so far. */
  ghost predicate OnCourse(w: World, k: Pc) {
    var m := w.machine;
    && w.procs.Keys == {0}
    && var x := w.procs[0];
       && x.cfg == PLAIN && x.pc == k && !x.v.changed && !x.v.restartAttempted && !x.v.disturbed
       && m.head == 0 && m.removals == []
       && (k <= RECEIPT_OPEN ==> !m.receipt) && (k <= DEPLOY_LOCK ==> m.lock.None?)
       && (k <= DROPIN_CREATE ==> !x.v.installed && m.dropin.None? && m.nextId == 0)
       && (k >= DROPIN_STAT ==> x.v.installed && x.v.madeId == 0 && m.dropin == Some(0) && m.nextId == 1)
       && (k >= DROPIN_WRITE ==> x.v.identity == Some(0))
  }

  lemma Advance(w: World, k: Pc)
    requires OnCourse(w, k) && k < DROPIN_WRITE && k != LAUNCHER
    ensures OnCourse(Step(w, Do(0, 0, Good)), if k == PREFLIGHT_PENDING then CHECKOUT else k + 1)
  {
  }

  lemma Extend(w: World, events: seq<Event>, e: Event)
    ensures Run(w, events + [e]) == Step(Run(w, events), e)
  {
    assert (events + [e])[..|events|] == events;
  }

  lemma {:induction false} Reach(w: World, k: Pc) returns (events: seq<Event>)
    requires w == World(Machine(false, None, false, None, 0, None, 0, [], []), map[])
    requires k <= DROPIN_WRITE && k != LAUNCHER
    ensures OnCourse(Run(w, events), k)
  {
    hide Act;
    if k == WINDOW {
      events := [] + [Begin(0, PLAIN)];
      Extend(w, [], Begin(0, PLAIN));
    } else {
      var j := if k == CHECKOUT then PREFLIGHT_PENDING else k - 1;
      var before := Reach(w, j);
      Extend(w, before, Do(0, 0, Good));
      Advance(Run(w, before), j);
      events := before + [Do(0, 0, Good)];
    }
  }

  /** Writing the drop-in fails; the identity check passes; the path is swapped; the unlink then takes
      the other file. */
  lemma SwapBeforeUnlink(w: World)
    requires OnCourse(w, DROPIN_WRITE)
    ensures var t := Step(Step(Step(Step(Step(w, Do(0, 0, Bad)), Do(0, 0, Good)), Do(0, 0, Good)),
                               OutsiderDropin(true)), Do(0, 0, Good));
            t.machine.removals == [Removal(0, 0, 1, true)]
  {
    var w1 := Step(w, Do(0, 0, Bad));
    assert w1.procs[0].pc == RB_CHECKOUT && w1.procs.Keys == {0} && w1.procs[0].v.installed;
    var w2 := Step(w1, Do(0, 0, Good));
    assert w2.procs[0].pc == RB_CHECK_DROPIN && w2.procs.Keys == {0};
    var w3 := Step(w2, Do(0, 0, Good));
    assert w3.procs[0].pc == RB_UNLINK && w3.procs.Keys == {0};
    var w4 := Step(w3, OutsiderDropin(true));
    assert w4.procs[0].pc == RB_UNLINK && w4.machine.dropin == Some(1) && w4.procs[0].v.disturbed;
  }

  /** So deleting a stranger's file can happen, from an initial machine. */
  lemma AStrangersFileCanBeDeleted() returns (w: World, events: seq<Event>)
    ensures Initial(w)
    ensures exists e :: e in Run(w, events).machine.removals && e.deleted != e.own
  {
    hide Act, Disturbed;
    w := World(Machine(false, None, false, None, 0, None, 0, [], []), map[]);
    var e0 := Reach(w, DROPIN_WRITE);
    SwapBeforeUnlink(Run(w, e0));
    var e1 := e0 + [Do(0, 0, Bad)];
    Extend(w, e0, Do(0, 0, Bad));
    var e2 := e1 + [Do(0, 0, Good)];
    Extend(w, e1, Do(0, 0, Good));
    var e3 := e2 + [Do(0, 0, Good)];
    Extend(w, e2, Do(0, 0, Good));
    var e4 := e3 + [OutsiderDropin(true)];
    Extend(w, e3, OutsiderDropin(true));
    events := e4 + [Do(0, 0, Good)];
    Extend(w, e4, Do(0, 0, Good));
    assert Removal(0, 0, 1, true) in Run(w, events).machine.removals;
  }
}
