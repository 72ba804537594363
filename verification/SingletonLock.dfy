/** The singleton lock as an inter-process protocol: any number of processes, each running
    `acquire_singleton_lock`, the bot, and `release_singleton_lock`, interleaved step by step, any
    of which may crash anywhere.  The kernel keeps flocks per inode and drops them when the
    holder's descriptor goes away; a directory entry can be replaced, an open inode cannot. */
module SingletonLock {
  import opened Basics

  type Pid = nat
  type Inode = nat

  /** Where a process stands. The phases from `Locked` to `Unlocking` lie between a successful
      flock and its release. */
  datatype Phase =
    | Out            // not running, or running without a descriptor
    | Opened         // the lock file is open for append
    | Locked         // flock granted
    | Truncated      // the previous pid has been cut from the lock file
    | Recorded       // own pid flushed to the lock file
    | PidTouched     // PID file opened for writing, hence empty
    | Running        // own pid in the PID file; the bot runs
    | UnlinkPending  // releasing: the PID file was seen to exist
    | Unlocking      // releasing: done with the PID file
    | Closing        // flock dropped, descriptor still open
    | Removing       // variant only: about to unlink the lock file

  datatype Proc = Proc(phase: Phase, inode: Inode)

  datatype PidFile = Absent | Present(pid: Option<Pid>)

  datatype System = System(lockFile: Option<Inode>, nextInode: Inode, contents: map<Inode, Option<Pid>>,
                           flocks: map<Inode, Pid>, pidFile: PidFile, procs: map<Pid, Proc>)

  datatype Event =
    | Open(p: Pid) | TryLock(p: Pid) | Truncate(p: Pid) | Record(p: Pid) | RecordFails(p: Pid)
    | CreatePidFile(p: Pid) | WritePidFile(p: Pid)
    | CheckPidFile(p: Pid) | UnlinkPidFile(p: Pid) | UnlinkFails(p: Pid) | Unlock(p: Pid) | Close(p: Pid)
    | UnlinkLockFile(p: Pid) | Crash(p: Pid)

  function PhaseOf(s: System, p: Pid): Phase {
    if p in s.procs then s.procs[p].phase else Out
  }

  function InodeOf(s: System, p: Pid): Inode {
    if p in s.procs then s.procs[p].inode else 0
  }

  function Go(s: System, p: Pid, phase: Phase): System {
    s.(procs := s.procs[p := Proc(phase, InodeOf(s, p))])
  }

  /** The kernel closes the descriptor: a flock held through it is gone. */
  function Drop(s: System, p: Pid): System {
    var i := InodeOf(s, p);
    var freed := if i in s.flocks && s.flocks[i] == p then s.(flocks := s.flocks - {i}) else s;
    Go(freed, p, Out)
  }

  /** One step. An event that is not enabled changes nothing. `unlinks` selects the variant that
      removes the lock file after closing it. */
  function Step(unlinks: bool, s: System, e: Event): System {
    var p := e.p;
    match (e, PhaseOf(s, p))
    case (Open(_), Out) =>
      if s.lockFile.Some? then s.(procs := s.procs[p := Proc(Opened, s.lockFile.value)])
      else s.(lockFile := Some(s.nextInode), nextInode := s.nextInode + 1,
              contents := s.contents[s.nextInode := None],
              procs := s.procs[p := Proc(Opened, s.nextInode)])
    case (TryLock(_), Opened) =>
      if InodeOf(s, p) in s.flocks then Go(s, p, Out)
      else Go(s.(flocks := s.flocks[InodeOf(s, p) := p]), p, Locked)
    case (Truncate(_), Locked) =>
      Go(s.(contents := s.contents[InodeOf(s, p) := None]), p, Truncated)
    case (Record(_), Truncated) =>
      Go(s.(contents := s.contents[InodeOf(s, p) := Some(p)]), p, Recorded)
    case (RecordFails(_), Locked) => Drop(s, p)
    case (RecordFails(_), Truncated) => Drop(s, p)
    case (CreatePidFile(_), Recorded) => Go(s.(pidFile := Present(None)), p, PidTouched)
    case (WritePidFile(_), PidTouched) => Go(s.(pidFile := Present(Some(p))), p, Running)
    case (CheckPidFile(_), Running) =>
      Go(s, p, if s.pidFile.Present? then UnlinkPending else Unlocking)
    case (UnlinkPidFile(_), UnlinkPending) => Go(s.(pidFile := Absent), p, Unlocking)
    case (UnlinkFails(_), UnlinkPending) => Go(s, p, Unlocking)
    case (Unlock(_), Unlocking) =>
      var i := InodeOf(s, p);
      Go(if i in s.flocks && s.flocks[i] == p then s.(flocks := s.flocks - {i}) else s, p, Closing)
    case (Close(_), Closing) => Go(s, p, if unlinks then Removing else Out)
    case (UnlinkLockFile(_), Removing) => Go(s.(lockFile := None), p, Out)
    case (Crash(_), _) => Drop(s, p)
    case _ => s
  }

  function Run(unlinks: bool, s: System, events: seq<Event>): System {
    if events == [] then s
    else Step(unlinks, Run(unlinks, s, events[..|events| - 1]), events[|events| - 1])
  }

  /** Any machine before the first process starts: files may be left over from earlier boots. */
  ghost predicate Initial(s: System) {
    && s.procs == map[] && s.flocks == map[]
    && (s.lockFile.Some? ==> s.lockFile.value < s.nextInode)
    && (forall i :: i in s.contents ==> i < s.nextInode)
  }

  // ---- what the protocol guarantees -------------------------------------------------------------

  predicate Holds(s: System, p: Pid) {
    PhaseOf(s, p) in {Locked, Truncated, Recorded, PidTouched, Running, UnlinkPending, Unlocking}
  }

  predicate HasRecorded(s: System, p: Pid) {
    PhaseOf(s, p) in {Recorded, PidTouched, Running, UnlinkPending, Unlocking}
  }

  /** A holder is the one registered on the one inode the lock path has ever named since it
      exists, and what it wrote stands. */
  ghost predicate ProcSound(s: System, p: Pid) {
    var i := InodeOf(s, p);
    && (PhaseOf(s, p) != Out ==> s.lockFile == Some(i) && PhaseOf(s, p) != Removing)
    && (Holds(s, p) ==> i in s.flocks && s.flocks[i] == p)
    && (HasRecorded(s, p) ==> i in s.contents && s.contents[i] == Some(p))
    && (PhaseOf(s, p) == PidTouched ==> s.pidFile == Present(None))
    && (PhaseOf(s, p) in {Running, UnlinkPending} ==> s.pidFile == Present(Some(p)))
  }

  ghost predicate Sound(s: System) {
    && (s.lockFile.Some? ==> s.lockFile.value < s.nextInode)
    && (forall i :: i in s.contents ==> i < s.nextInode)
    && (forall p :: p in s.procs ==> ProcSound(s, p))
    && (forall i :: i in s.flocks ==> Holds(s, s.flocks[i]) && InodeOf(s, s.flocks[i]) == i)
  }

  lemma AllSound(s: System, p: Pid)
    requires Sound(s)
    ensures ProcSound(s, p)
  {
  }

  /** Two holders share the one inode, and an inode has one flock. */
  lemma OneHolder(s: System, p: Pid, q: Pid)
    requires Sound(s) && Holds(s, p) && Holds(s, q)
    ensures p == q
  {
    AllSound(s, p);
    AllSound(s, q);
  }

  /** A step of `p` that leaves the lock file's directory entry alone, and files alone unless `p`
      holds the lock, keeps every other process sound. */
  lemma OthersSound(s: System, t: System, p: Pid, q: Pid)
    requires Sound(s) && p != q && q in s.procs
    requires q in t.procs && t.procs[q] == s.procs[q]
    requires s.lockFile.Some? ==> t.lockFile == s.lockFile
    requires Holds(s, q) ==> InodeOf(s, q) in t.flocks && t.flocks[InodeOf(s, q)] == q
    requires Holds(s, p) || t.pidFile == s.pidFile
    requires Holds(s, p) || forall i :: i in s.contents ==> i in t.contents && t.contents[i] == s.contents[i]
    ensures ProcSound(t, q)
  {
    AllSound(s, q);
    if Holds(s, p) && Holds(s, q) {
      OneHolder(s, p, q);
    }
  }

  /** What a step of `p` may touch: its own process entry, its own flock, and, only while holding
      the lock, the recorded pids. */
  ghost predicate Touches(s: System, t: System, p: Pid) {
    && p in t.procs && t.procs == s.procs[p := t.procs[p]]
    && (s.lockFile.Some? ==> t.lockFile == s.lockFile)
    && (t.lockFile.Some? ==> t.lockFile.value < t.nextInode)
    && (forall i :: i in t.contents ==> i < t.nextInode)
    && (forall i :: i in s.flocks && s.flocks[i] != p ==> i in t.flocks && t.flocks[i] == s.flocks[i])
    && (forall i :: i in t.flocks ==>
          if t.flocks[i] == p then Holds(t, p) && InodeOf(t, p) == i else i in s.flocks && s.flocks[i] == t.flocks[i])
    && (Holds(s, p) || t.pidFile == s.pidFile)
    && (Holds(s, p) || forall i :: i in s.contents ==> i in t.contents && t.contents[i] == s.contents[i])
  }

  lemma TouchKeepsSound(s: System, t: System, p: Pid)
    requires Sound(s) && Touches(s, t, p) && ProcSound(t, p)
    ensures Sound(t)
  {
    forall q | q in t.procs
      ensures ProcSound(t, q)
    {
      if q != p {
        AllSound(s, q);
        OthersSound(s, t, p, q);
      }
    }
    forall i | i in t.flocks
      ensures Holds(t, t.flocks[i]) && InodeOf(t, t.flocks[i]) == i
    {
      var q := t.flocks[i];
      if q != p {
        assert Holds(s, q) && InodeOf(s, q) == i;
      }
    }
  }

  lemma StepTouches(s: System, e: Event)
    requires Sound(s)
    ensures var t := Step(false, s, e); t == s || (Touches(s, t, e.p) && ProcSound(t, e.p))
  {
    var p := e.p;
    AllSound(s, p);
    match e
    case Open(_) => OpenTouches(s, p);
    case TryLock(_) => TryTouches(s, p);
    case Crash(_) => DropTouches(s, p);
    case RecordFails(_) => DropTouches(s, p);
    case Unlock(_) => UnlockTouches(s, e);
    case Truncate(_) => LockFileTouches(s, e);
    case Record(_) => LockFileTouches(s, e);
    case CreatePidFile(_) => PidFileTouches(s, e);
    case WritePidFile(_) => PidFileTouches(s, e);
    case CheckPidFile(_) => ReleaseTouches(s, e);
    case UnlinkPidFile(_) => ReleaseTouches(s, e);
    case UnlinkFails(_) => ReleaseTouches(s, e);
    case Close(_) => CloseTouches(s, e);
    case UnlinkLockFile(_) =>
  }

  lemma OpenTouches(s: System, p: Pid)
    requires Sound(s)
    ensures var t := Step(false, s, Open(p)); t == s || (Touches(s, t, p) && ProcSound(t, p))
  {
    AllSound(s, p);
  }

  lemma TryTouches(s: System, p: Pid)
    requires Sound(s)
    ensures var t := Step(false, s, TryLock(p)); t == s || (Touches(s, t, p) && ProcSound(t, p))
  {
    AllSound(s, p);
  }

  lemma DropTouches(s: System, p: Pid)
    requires Sound(s)
    ensures Touches(s, Drop(s, p), p) && ProcSound(Drop(s, p), p)
  {
    AllSound(s, p);
  }

  lemma UnlockTouches(s: System, e: Event)
    requires Sound(s) && (e.Unlock?)
    ensures var t := Step(false, s, e); t == s || (Touches(s, t, e.p) && ProcSound(t, e.p))
  {
    AllSound(s, e.p);
  }

  lemma CloseTouches(s: System, e: Event)
    requires Sound(s) && (e.Close?)
    ensures var t := Step(false, s, e); t == s || (Touches(s, t, e.p) && ProcSound(t, e.p))
  {
    AllSound(s, e.p);
  }

  /** The steps only a holder takes. */
  lemma LockFileTouches(s: System, e: Event)
    requires Sound(s) && (e.Truncate? || e.Record?)
    ensures var t := Step(false, s, e); t == s || (Touches(s, t, e.p) && ProcSound(t, e.p))
  {
    AllSound(s, e.p);
  }

  lemma PidFileTouches(s: System, e: Event)
    requires Sound(s) && (e.CreatePidFile? || e.WritePidFile?)
    ensures var t := Step(false, s, e); t == s || (Touches(s, t, e.p) && ProcSound(t, e.p))
  {
    AllSound(s, e.p);
  }

  lemma ReleaseTouches(s: System, e: Event)
    requires Sound(s) && (e.CheckPidFile? || e.UnlinkPidFile? || e.UnlinkFails?)
    ensures var t := Step(false, s, e); t == s || (Touches(s, t, e.p) && ProcSound(t, e.p))
  {
    AllSound(s, e.p);
  }

  lemma StepKeepsSound(s: System, e: Event)
    requires Sound(s)
    ensures Sound(Step(false, s, e))
  {
    hide Step, Sound, Touches, ProcSound;
    StepTouches(s, e);
    var t := Step(false, s, e);
    if t != s {
      TouchKeepsSound(s, t, e.p);
    }
  }

  lemma {:induction false} RunKeepsSound(s: System, events: seq<Event>)
    requires Initial(s)
    ensures Sound(Run(false, s, events))
  {
    if events != [] {
      hide Step, Sound;
      RunKeepsSound(s, events[..|events| - 1]);
      StepKeepsSound(Run(false, s, events[..|events| - 1]), events[|events| - 1]);
    } else {
      InitialSound(s);
    }
  }

  lemma InitialSound(s: System)
    requires Initial(s)
    ensures Sound(s)
  {
  }

  /** Mutual exclusion in every interleaving of any number of processes with crashes: at most one
      process is between its flock and its release. */
  lemma MutualExclusion(s: System, events: seq<Event>, p: Pid, q: Pid)
    requires Initial(s)
    requires Holds(Run(false, s, events), p) && Holds(Run(false, s, events), q)
    ensures p == q
  {
    RunKeepsSound(s, events);
    OneHolder(Run(false, s, events), p, q);
  }

  /** Whatever others attempt, the pid a holder has recorded in the lock file stays its own, and so
      does the PID file while the bot runs; in particular no failed acquire alters either. */
  lemma HolderRecordStands(s: System, events: seq<Event>, p: Pid)
    requires Initial(s)
    ensures var t := Run(false, s, events);
      && (HasRecorded(t, p) ==>
            t.lockFile.Some? && t.lockFile.value in t.contents && t.contents[t.lockFile.value] == Some(p))
      && (PhaseOf(t, p) == Running ==> t.pidFile == Present(Some(p)))
  {
    RunKeepsSound(s, events);
    AllSound(Run(false, s, events), p);
  }

  /** The only step that removes the PID file removes the releasing process's own, so a successor's
      PID file is never removed. */
  lemma OnlyOwnPidFileRemoved(s: System, events: seq<Event>, e: Event)
    requires Initial(s)
    ensures var t := Run(false, s, events);
      t.pidFile.Present? && Step(false, t, e).pidFile.Absent? ==> t.pidFile == Present(Some(e.p))
  {
    RunKeepsSound(s, events);
    AllSound(Run(false, s, events), e.p);
  }

  /** A flock is always owned by a live process: once the holder crashes, the next one gets in. */
  lemma CrashFreesTheLock(s: System, events: seq<Event>, p: Pid, q: Pid)
    requires Initial(s) && Holds(Run(false, s, events), p)
    requires PhaseOf(Run(false, s, events), q) == Opened
    ensures Holds(Step(false, Step(false, Run(false, s, events), Crash(p)), TryLock(q)), q)
  {
    hide Run, Sound, Initial;
    RunKeepsSound(s, events);
    var t := Run(false, s, events);
    AllSound(t, p);
    AllSound(t, q);
  }

  // ---- why the lock file is never unlinked ------------------------------------------------------

  /** The counterexample, state by state: process 1 acquires, runs and releases; process 2 opens the
      old inode before the unlink and locks it; process 3 comes after the unlink. */
  function SceneAt(k: nat): System {
    var c := map[0 := Some(1)];
    var p1 := Present(Some(1));
    if k == 0 then System(None, 0, map[], map[], Absent, map[])
    else if k == 1 then System(Some(0), 1, map[0 := None], map[], Absent, map[1 := Proc(Opened, 0)])
    else if k == 2 then System(Some(0), 1, map[0 := None], map[0 := 1], Absent, map[1 := Proc(Locked, 0)])
    else if k == 3 then System(Some(0), 1, map[0 := None], map[0 := 1], Absent, map[1 := Proc(Truncated, 0)])
    else if k == 4 then System(Some(0), 1, c, map[0 := 1], Absent, map[1 := Proc(Recorded, 0)])
    else if k == 5 then System(Some(0), 1, c, map[0 := 1], Present(None), map[1 := Proc(PidTouched, 0)])
    else if k == 6 then System(Some(0), 1, c, map[0 := 1], p1, map[1 := Proc(Running, 0)])
    else if k == 7 then System(Some(0), 1, c, map[0 := 1], p1, map[1 := Proc(UnlinkPending, 0)])
    else if k == 8 then System(Some(0), 1, c, map[0 := 1], Absent, map[1 := Proc(Unlocking, 0)])
    else if k == 9 then System(Some(0), 1, c, map[0 := 1], Absent, map[1 := Proc(Unlocking, 0), 2 := Proc(Opened, 0)])
    else if k == 10 then System(Some(0), 1, c, map[], Absent, map[1 := Proc(Closing, 0), 2 := Proc(Opened, 0)])
    else if k == 11 then System(Some(0), 1, c, map[], Absent, map[1 := Proc(Removing, 0), 2 := Proc(Opened, 0)])
    else if k == 12 then System(Some(0), 1, c, map[0 := 2], Absent, map[1 := Proc(Removing, 0), 2 := Proc(Locked, 0)])
    else if k == 13 then System(None, 1, c, map[0 := 2], Absent, map[1 := Proc(Out, 0), 2 := Proc(Locked, 0)])
    else if k == 14 then System(Some(1), 2, c[1 := None], map[0 := 2], Absent,
                                map[1 := Proc(Out, 0), 2 := Proc(Locked, 0), 3 := Proc(Opened, 1)])
    else System(Some(1), 2, c[1 := None], map[0 := 2, 1 := 3], Absent,
                map[1 := Proc(Out, 0), 2 := Proc(Locked, 0), 3 := Proc(Locked, 1)])
  }

  const SCENE_EVENTS: seq<Event> :=
    [Open(1), TryLock(1), Truncate(1), Record(1), CreatePidFile(1), WritePidFile(1), CheckPidFile(1), UnlinkPidFile(1),
     Open(2), Unlock(1), Close(1), TryLock(2), UnlinkLockFile(1), Open(3), TryLock(3)]

  lemma ScenesOpen()
    ensures Step(true, SceneAt(0), Open(1)) == SceneAt(1)
    ensures Step(true, SceneAt(1), TryLock(1)) == SceneAt(2)
  {
  }

  lemma ScenesRecord()
    ensures Step(true, SceneAt(2), Truncate(1)) == SceneAt(3)
    ensures Step(true, SceneAt(3), Record(1)) == SceneAt(4)
  {
  }

  lemma ScenesPidFile()
    ensures Step(true, SceneAt(4), CreatePidFile(1)) == SceneAt(5)
    ensures Step(true, SceneAt(5), WritePidFile(1)) == SceneAt(6)
  {
  }

  lemma ScenesRelease()
    ensures Step(true, SceneAt(6), CheckPidFile(1)) == SceneAt(7)
    ensures Step(true, SceneAt(7), UnlinkPidFile(1)) == SceneAt(8)
  {
  }

  lemma ScenesSecondOpens()
    ensures Step(true, SceneAt(8), Open(2)) == SceneAt(9)
    ensures Step(true, SceneAt(9), Unlock(1)) == SceneAt(10)
  {
  }

  lemma ScenesSecondLocks()
    ensures Step(true, SceneAt(10), Close(1)) == SceneAt(11)
    ensures Step(true, SceneAt(11), TryLock(2)) == SceneAt(12)
  {
  }

  lemma ScenesUnlink()
    ensures Step(true, SceneAt(12), UnlinkLockFile(1)) == SceneAt(13)
  {
  }

  lemma ScenesThirdLocks()
    ensures Step(true, SceneAt(13), Open(3)) == SceneAt(14)
    ensures Step(true, SceneAt(14), TryLock(3)) == SceneAt(15)
  {
  }

  lemma ScenesEnd()
    ensures Initial(SceneAt(0)) && Holds(SceneAt(15), 2) && Holds(SceneAt(15), 3)
  {
  }

  /** The variant that unlinks the lock file after closing it admits two holders at once. */
  lemma UnlinkingAdmitsTwoHolders() returns (s: System, events: seq<Event>)
    ensures Initial(s)
    ensures Holds(Run(true, s, events), 2) && Holds(Run(true, s, events), 3)
  {
    hide Step, SceneAt, Holds, Initial;
    ScenesOpen();
    ScenesRecord();
    ScenesPidFile();
    ScenesRelease();
    ScenesSecondOpens();
    ScenesSecondLocks();
    ScenesUnlink();
    ScenesThirdLocks();
    ScenesEnd();
    s, events := SceneAt(0), SCENE_EVENTS;
    var states := seq(16, (k: nat) => SceneAt(k));
    RunReaches(true, states, events);
  }

  /** A list of states, each one step from the one before, is a run. */
  lemma {:induction false} RunReaches(unlinks: bool, states: seq<System>, events: seq<Event>)
    requires |states| == |events| + 1
    requires forall k :: 0 <= k < |events| ==> states[k + 1] == Step(unlinks, states[k], events[k])
    ensures Run(unlinks, states[0], events) == states[|events|]
  {
    if events != [] {
      hide Step;
      var n := |events| - 1;
      RunReaches(unlinks, states[..|states| - 1], events[..n]);
      assert states[n + 1] == Step(unlinks, states[n], events[n]);
    }
  }
}
