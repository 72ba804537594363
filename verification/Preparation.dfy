/** The attempt/disarm skeleton around the swap: one attempt per installation, timers armed last, and
    disarmed again on any failure.  Every file operation and command may fail; a failing command may
    or may not have taken effect. */
module Preparation {
  import opened Basics
  import opened ReplaceSet

  datatype Result =
    | Checked                // --check: everything ready, nothing touched
    | Refused                // before the attempt was recorded inside the guarded region
    | Applied
    | PartialDisarmed
    | DisarmFailed

  /** One observable situation: the disk and the two new timers. */
  datatype Situation = Situation(files: Files, retention: bool, activation: bool)

  ghost predicate AllNew(data: Files, files: Files) {
    forall p :: p in data ==> p in files && files[p] == data[p]
  }

  /** A new timer is armed only over the complete new set of files. */
  ghost predicate ArmedOverNew(data: Files, s: Situation) {
    s.retention || s.activation ==> AllNew(data, s.files)
  }

  /** What the disk went through, with the timers as they stood meanwhile. */
  function During(moments: seq<Files>, retention: bool, activation: bool): seq<Situation> {
    seq(|moments|, (k: nat) requires k < |moments| => Situation(moments[k], retention, activation))
  }

  ghost predicate ShownSince(history: seq<Situation>, since: nat, files: Files) {
    exists i :: since <= i < |history| && history[i].files == files
  }

  /** Every change of the disk since `from` is on record as a situation. */
  ghost predicate Recorded(moments: seq<Files>, from: nat, history: seq<Situation>, since: nat) {
    forall k :: from <= k < |moments| ==> ShownSince(history, since, moments[k])
  }

  /** What the host is told about the two new timers. */
  datatype Command = EnableTimer(activation: bool) | DisableTimer(activation: bool)

  const ARMING: seq<Command> := [EnableTimer(false), EnableTimer(true)]
  const DISARMING: seq<Command> := [DisableTimer(true), DisableTimer(false)]

  class Host {
    const disk: Disk
    var backup: bool           // the backup directory exists
    var attempt: bool          // attempt.json was written completely
    var complete: bool
    var failed: bool
    var retention: bool
    var activation: bool
    ghost var history: seq<Situation>
    ghost var commands: seq<Command>
    ghost var faults: nat      // checks and commands that failed, interrupts that struck

    constructor (d: Disk)
      ensures disk == d && !backup && !attempt && !complete && !failed && !retention && !activation && history == []
    {
      disk := d;
      backup, attempt, complete, failed, retention, activation := false, false, false, false, false, false;
      history, commands, faults := [], [], 0;
    }

    method Enable(ghost data: Files, last: bool) returns (ok: bool)
      requires AllNew(data, disk.files)
      modifies this`retention, this`activation, this`history, this`commands, this`faults
      ensures commands == old(commands) + [EnableTimer(last)]
      ensures faults >= old(faults) && (!ok ==> faults > old(faults))
      ensures ok ==> (if last then activation else retention)
      ensures if last then retention == old(retention) else activation == old(activation)
      ensures history == old(history) + [Situation(disk.files, retention, activation)]
      ensures forall k :: |old(history)| <= k < |history| ==> ArmedOverNew(data, history[k])
    {
      commands := commands + [EnableTimer(last)];
      ok := *;
      var effect: bool := *;
      if !ok { faults := faults + 1; }
      if ok || effect {
        if last { activation := true; } else { retention := true; }
      }
      history := history + [Situation(disk.files, retention, activation)];
    }

    /** Disabling one timer; a command that fails may have taken effect all the same. */
    method Disable(ghost data: Files, first: bool) returns (ok: bool)
      requires retention || activation ==> AllNew(data, disk.files)
      modifies this`retention, this`activation, this`history, this`commands, this`faults
      ensures commands == old(commands) + [DisableTimer(first)]
      ensures faults >= old(faults) && (!ok ==> faults > old(faults))
      ensures ok ==> !(if first then activation else retention)
      ensures if first then retention == old(retention) && (activation ==> old(activation))
              else activation == old(activation) && (retention ==> old(retention))
      ensures history == old(history) + [Situation(disk.files, retention, activation)]
      ensures forall k :: |old(history)| <= k < |history| ==> ArmedOverNew(data, history[k])
    {
      hide AllNew;
      ok := *;
      var effect: bool := *;
      commands := commands + [DisableTimer(first)];
      if !ok { faults := faults + 1; }
      if ok || effect {
        if first { activation := false; } else { retention := false; }
      }
      history := history + [Situation(disk.files, retention, activation)];
    }

    /** The handler: activation first, then retention, going on after a failure. */
    method Disarm(ghost data: Files) returns (disarmed: bool)
      requires retention || activation ==> AllNew(data, disk.files)
      modifies this`retention, this`activation, this`failed, this`history, this`commands, this`faults
      ensures commands == old(commands) + DISARMING
      ensures faults >= old(faults) && (!disarmed ==> faults > old(faults))
      ensures disarmed ==> !retention && !activation
      ensures (retention ==> old(retention)) && (activation ==> old(activation))
      ensures old(history) <= history
      ensures forall k :: |old(history)| <= k < |history| ==> ArmedOverNew(data, history[k])
    {
      hide AllNew;
      disarmed := true;
      var ok := Disable(data, true);
      if !ok { disarmed := false; }
      ok := Disable(data, false);
      if !ok { disarmed := false; }
      failed := *;
    }

    /** The guarded region up to the completion record. */
    method Apply(order: seq<Path>, data: Files, originals: Files) returns (ok: bool)
      requires Distinct(order) && Covers(order, data)
      requires data.Keys <= originals.Keys
      requires !retention && !activation
      modifies disk, this`retention, this`activation, this`complete, this`history, this`commands, this`faults
      ensures old(commands) <= commands <= old(commands) + ARMING && (ok ==> commands == old(commands) + ARMING)
      ensures faults >= old(faults) && disk.faults >= old(disk.faults)
      ensures !ok ==> faults > old(faults) || disk.faults > old(disk.faults)
                      || !ReadyToSwap(order, originals, old(disk.files))
      ensures ok ==> AllNew(data, disk.files) && retention && activation && complete
      ensures OldOrNew(old(disk.files), data, disk.files)
      ensures retention || activation ==> AllNew(data, disk.files)
      ensures old(history) <= history
      ensures forall k :: |old(history)| <= k < |history| ==> ArmedOverNew(data, history[k])
      ensures Recorded(disk.moments, |old(disk.moments)|, history, |old(history)|)
      ensures !ok ==> complete == old(complete)
    {
      hide ReadyToSwap, During, ArmedOverNew, ShownSince;
      ok := *;                                  // backups, release tree, inputs, snapshot
      if !ok {
        faults := faults + 1;
        return;
      }
      ghost var from, since := |disk.moments|, |history|;
      var interrupt: Option<nat> := *;
      if interrupt.Some? { faults := faults + 1; }
      var outcome, orphan, renames, handling := disk.ReplaceSet(order, data, originals, interrupt);
      ghost var during := During(disk.moments[from..], retention, activation);
      history := history + during;
      Watched(old(history), disk.moments, from, data);
      if !outcome.Swapped? { return false; }
      ok := Arm(data);
      RecordedLonger(disk.moments, from, old(history) + during, since, history);
    }

    /** The old drop-in retired and the guards checked again; then the timers, the activation's last. */
    method Arm(ghost data: Files) returns (ok: bool)
      requires AllNew(data, disk.files)
      modifies this`retention, this`activation, this`complete, this`history, this`commands, this`faults
      ensures old(commands) <= commands <= old(commands) + ARMING && (ok ==> commands == old(commands) + ARMING)
      ensures faults >= old(faults) && (!ok ==> faults > old(faults))
      ensures ok ==> retention && activation && complete
      ensures !ok ==> complete == old(complete)
      ensures old(history) <= history
      ensures forall k :: |old(history)| <= k < |history| ==> ArmedOverNew(data, history[k])
    {
      ok := *;
      if !ok {
        faults := faults + 1;
        return;
      }
      ok := Enable(data, false);
      if !ok { return; }
      ok := Enable(data, true);
      if !ok { return; }
      ok := *;                                  // last guards and the completion record
      if ok { complete := true; } else { faults := faults + 1; }
    }

    method Prepare(apply: bool, order: seq<Path>, data: Files, originals: Files) returns (r: Result)
      requires Distinct(order) && Covers(order, data)
      requires data.Keys <= originals.Keys
      modifies this, disk
      ensures !old(backup) && !old(retention) && !old(activation) && faults == old(faults) ==>
                if !apply then r.Checked?
                else r.Applied? || disk.faults > old(disk.faults) || !ReadyToSwap(order, originals, old(disk.files))
      ensures r.Refused? || r.Checked? ==> commands == old(commands)
      ensures r.Applied? ==> commands == old(commands) + ARMING
      ensures r.PartialDisarmed? || r.DisarmFailed? ==>
                exists n :: 0 <= n <= 2 && commands == old(commands) + ARMING[..n] + DISARMING
      ensures old(backup) || !apply ==>
                && (r.Refused? || r.Checked?) && disk.files == old(disk.files)
                && backup == old(backup) && retention == old(retention) && activation == old(activation)
      ensures old(backup) ==> r.Refused?
      ensures old(attempt) ==> attempt
      ensures r.Applied? || r.PartialDisarmed? || r.DisarmFailed? ==> backup && attempt
      ensures r.Applied? ==> AllNew(data, disk.files) && retention && activation && complete
      ensures r.PartialDisarmed? ==> !retention && !activation
      ensures OldOrNew(old(disk.files), data, disk.files)
      ensures Recorded(disk.moments, |old(disk.moments)|, history, |old(history)|)
      ensures old(history) <= history
      ensures forall k :: |old(history)| <= k < |history| ==> ArmedOverNew(data, history[k])
    {
      hide ReadyToSwap;
      if backup { return Refused; }
      var ready: bool := *;                     // manifest, pins, guards, payload; both timers disarmed
      if !ready { faults := faults + 1; }
      if !ready || retention || activation { return Refused; }
      if !apply { return Checked; }
      ready := *;                               // deployment lock, guards again
      if !ready {
        faults := faults + 1;
        return Refused;
      }
      var made: bool, recorded: bool := *, *;
      if !made {
        faults := faults + 1;
        backup := *;                            // the directory may exist even so
        return Refused;
      }
      backup := true;
      if !recorded {                            // attempt.json is written outside the guarded region
        faults := faults + 1;
        return Refused;
      }
      attempt := true;
      var ok := Apply(order, data, originals);
      if ok { return Applied; }
      ghost var applied, told := history, commands;
      PrefixOfArming(old(commands), told);
      var disarmed := Disarm(data);
      RecordedLonger(disk.moments, |old(disk.moments)|, applied, |old(history)|, history);
      r := if disarmed then PartialDisarmed else DisarmFailed;
    }
  }

  /** Unarmed, every moment of the disk becomes a situation, and none of them is an armed one. */
  lemma Watched(history: seq<Situation>, moments: seq<Files>, from: nat, data: Files)
    requires from <= |moments|
    ensures Recorded(moments, from, history + During(moments[from..], false, false), |history|)
    ensures var longer := history + During(moments[from..], false, false);
            forall k :: |history| <= k < |longer| ==> ArmedOverNew(data, longer[k])
  {
    var longer := history + During(moments[from..], false, false);
    forall k | from <= k < |moments| ensures ShownSince(longer, |history|, moments[k]) {
      assert longer[|history| + (k - from)].files == moments[k];
    }
  }

  lemma PrefixOfArming(before: seq<Command>, told: seq<Command>)
    requires before <= told <= before + ARMING
    ensures 0 <= |told| - |before| <= 2 && told == before + ARMING[..|told| - |before|]
  {
  }

  lemma RecordedLonger(moments: seq<Files>, from: nat, history: seq<Situation>, since: nat, longer: seq<Situation>)
    requires Recorded(moments, from, history, since) && history <= longer
    ensures Recorded(moments, from, longer, since)
  {
    forall k | from <= k < |moments| ensures ShownSince(longer, since, moments[k]) {
      assert ShownSince(history, since, moments[k]);
      var i :| since <= i < |history| && history[i].files == moments[k];
      assert longer[i].files == moments[k];
    }
  }
}
