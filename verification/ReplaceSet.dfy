/** Swapping a set of configuration files by staged renames, all or nothing.  Every file operation
    may fail, and a write may leave a partial file; `moments` records what the disk held after each
    single change, which is what a crash would leave. */
module ReplaceSet {
  import opened Basics

  type Path = string
  type Bytes = seq<bv8>
  type Files = map<Path, Bytes>

  datatype Outcome = Swapped | Raised | RollbackIncomplete

  function StageOf(path: Path): Path { path + ".20261007-stage" }
  function RestoreOf(path: Path): Path { path + ".20261007-restore" }

  /** Every target that was there at the start holds its old or its new bytes. */
  ghost predicate OldOrNew(entry: Files, data: Files, now: Files) {
    forall p :: p in entry && p in data ==> p in now && (now[p] == entry[p] || now[p] == data[p])
  }

  /** Whatever was there at the start and is not a target is still there, unchanged. */
  ghost predicate OthersKept(entry: Files, data: Files, now: Files) {
    forall p :: p in entry && p !in data ==> p in now && now[p] == entry[p]
  }

  /** All that was there at the start is there, unchanged. */
  ghost predicate AllStand(entry: Files, now: Files) {
    forall p :: p in entry ==> p in now && now[p] == entry[p]
  }

  /** The targets in `swapped` hold their new bytes, everything else of the start its old ones. */
  ghost predicate SwappedSoFar(entry: Files, data: Files, now: Files, swapped: seq<Path>) {
    && (forall p :: p in entry ==> p in now && now[p] == if p in swapped && p in data then data[p] else entry[p])
    && (forall p :: p in swapped ==> p in entry && p in data)
  }

  /** The same while rolling back: `left` is still new; what was restored is old again, and what
      could not be restored is recorded by `failed`. */
  ghost predicate RestoredDownTo(entry: Files, data: Files, now: Files, left: seq<Path>, failed: bool) {
    forall p :: p in entry ==>
      && p in now
      && (p in left && p in data ==> now[p] == data[p])
      && (p !in left && !failed ==> now[p] == entry[p])
      && (now[p] == entry[p] || (p in data && now[p] == data[p]))
  }

  /** What the disk is to hold after a rollback that misses at most one renamed file. */
  ghost predicate AllButOrphan(entry: Files, data: Files, target: Files, orphan: Option<Path>) {
    && target.Keys == entry.Keys
    && forall p :: p in entry ==> target[p] == if orphan == Some(p) && p in data then data[p] else entry[p]
  }

  /** The handler knows these files, and has their original bytes. */
  ghost predicate Noted(entry: Files, data: Files, originals: Files, target: Files, swapped: seq<Path>) {
    forall p :: p in swapped ==>
      p in entry && p in data && p in originals && p in target && target[p] == entry[p] == originals[p]
  }

  ghost predicate MomentsSince(entry: Files, data: Files, before: seq<Files>, after: seq<Files>) {
    && before <= after
    && forall k :: |before| <= k < |after| ==> OldOrNew(entry, data, after[k]) && OthersKept(entry, data, after[k])
  }

  /** One attempted installation of `bytes` at `path`, seen on what was there before. */
  ghost predicate Installs(was: Files, now: Files, path: Path, bytes: Bytes, renamed: bool) {
    forall q :: q in was ==> q in now && now[q] == if q == path && renamed then bytes else was[q]
  }

  ghost predicate MomentsOf(was: Files, path: Path, bytes: Bytes, renamed: bool, seen: seq<Files>,
                            after: seq<Files>) {
    && seen <= after
    && forall k, q :: |seen| <= k < |after| && q in was ==>
         q in after[k] && (after[k][q] == was[q] || (renamed && q == path && after[k][q] == bytes))
  }

  ghost predicate Apart(swapped: seq<Path>, rest: seq<Path>) {
    forall p :: p in swapped ==> p !in rest
  }

  /** Of the targets no rename has reached, each holds its old bytes. */
  ghost predicate RestOld(entry: Files, rest: seq<Path>, now: Files) {
    forall p :: p in rest && p in entry ==> p in now && now[p] == entry[p]
  }

  /** So it did at every moment. */
  ghost predicate RestAlwaysOld(entry: Files, rest: seq<Path>, before: seq<Files>, after: seq<Files>) {
    && before <= after
    && forall k :: |before| <= k < |after| ==> RestOld(entry, rest, after[k])
  }

  /** What the disk holds, and held at every moment, once the first `n` targets have been renamed. */
  ghost predicate Renamed(entry: Files, data: Files, originals: Files, order: seq<Path>, n: nat, now: Files,
                          before: seq<Files>, after: seq<Files>)
  {
    && n <= |order|
    && SwappedSoFar(entry, data, now, order[..n]) && Noted(entry, data, originals, entry, order[..n])
    && MomentsSince(entry, data, before, after)
    && RestOld(entry, order[n..], now) && RestAlwaysOld(entry, order[n..], before, after)
  }

  ghost predicate Distinct(order: seq<Path>) {
    forall i, j :: 0 <= i < j < |order| ==> order[i] != order[j]
  }

  ghost predicate Covers(order: seq<Path>, data: Files) {
    forall p :: p in order <==> p in data
  }

  /** Nothing but a fault stands in the way: every target holds its original and its stage path is free. */
  ghost predicate ReadyToSwap(order: seq<Path>, originals: Files, files: Files) {
    forall p :: p in order ==> p in originals && p in files && files[p] == originals[p] && StageOf(p) !in files
  }

  ghost predicate RestorePathsFree(order: seq<Path>, files: Files) {
    forall p :: p in order ==> RestoreOf(p) !in files
  }

  ghost predicate OnlyStagesAdded(order: seq<Path>, was: Files, now: Files) {
    forall q :: q in now ==> q in was || exists p :: p in order && q == StageOf(p)
  }

  class Disk {
    var files: Files
    ghost var moments: seq<Files>
    ghost var faults: nat                // operations that failed for a reason of their own

    method Read(path: Path) returns (r: Option<Bytes>)
      modifies this`faults
      ensures r.Some? ==> path in files && r.value == files[path]
      ensures faults >= old(faults) && (path in files && r.None? ==> faults > old(faults))
    {
      if path !in files { return None; }
      var fault: bool := *;
      if fault {
        faults := faults + 1;
        return None;
      }
      r := Some(files[path]);
    }

    /** Exclusive creation: an existing file is never overwritten, but a failure can leave a new one. */
    method WriteNew(path: Path, data: Bytes) returns (ok: bool)
      modifies this
      ensures ok ==> path !in old(files) && files == old(files)[path := data]
      ensures forall q :: q in old(files) ==> q in files && files[q] == old(files)[q]
      ensures old(moments) <= moments
      ensures forall k, q :: |old(moments)| <= k < |moments| && q in old(files) ==>
                q in moments[k] && moments[k][q] == old(files)[q]
      ensures forall q :: q in files ==> q in old(files) || q == path
      ensures if moments == old(moments) then files == old(files) else moments[|moments| - 1] == files
      ensures faults >= old(faults) && (!ok ==> faults > old(faults) || path in old(files))
    {
      if path in files { return false; }
      var fault: bool := *;
      if fault {
        faults := faults + 1;
        return false;
      }
      var partial: Bytes := *;
      files := files[path := partial];
      moments := moments + [files];
      fault := *;
      if fault {
        faults := faults + 1;
        return false;
      }
      files := files[path := data];
      moments := moments + [files];
      ok := *;
      if !ok { faults := faults + 1; }
    }

    method Rename(source: Path, target: Path) returns (ok: bool)
      modifies this
      ensures !ok ==> files == old(files) && moments == old(moments)
      ensures ok ==> source in old(files) && files == (old(files) - {source})[target := old(files)[source]]
                     && moments == old(moments) + [files]
      ensures faults >= old(faults) && (!ok ==> faults > old(faults) || source !in old(files))
    {
      if source !in files { return false; }
      var fault: bool := *;
      if fault {
        faults := faults + 1;
        return false;
      }
      files := (files - {source})[target := files[source]];
      moments := moments + [files];
      ok := true;
    }

    /** Moves fresh bytes over `path`; only `path` changes among what was there. */
    method InstallVia(temporary: Path, path: Path, data: Bytes) returns (renamed: bool, ok: bool)
      requires temporary != path && path in files
      modifies this
      ensures ok ==> renamed
      ensures Installs(old(files), files, path, data, renamed)
      ensures MomentsOf(old(files), path, data, renamed, old(moments), moments)
      ensures renamed ==> files.Keys == old(files).Keys
      ensures faults >= old(faults) && (!ok ==> faults > old(faults) || temporary in old(files))
    {
      var written := WriteNew(temporary, data);
      if !written { return false, false; }
      renamed := Rename(temporary, path);
      if !renamed { return false, false; }
      ok := *;
      if !ok { faults := faults + 1; }
    }

    /** One round of the loop: check, stage, check again, rename, sync. */
    method SwapOne(path: Path, data: Bytes, original: Bytes) returns (renamed: bool, ok: bool)
      modifies this
      ensures ok ==> renamed
      ensures renamed ==> path in old(files) && old(files)[path] == original && files.Keys == old(files).Keys
      ensures Installs(old(files), files, path, data, renamed)
      ensures MomentsOf(old(files), path, data, renamed, old(moments), moments)
      ensures forall q :: q in files ==> q in old(files) || q == StageOf(path)
      ensures faults >= old(faults)
      ensures !ok ==> faults > old(faults) || StageOf(path) in old(files)
                      || path !in old(files) || old(files)[path] != original
    {
      renamed, ok := false, false;
      var first := Read(path);
      if first != Some(original) { return; }
      var written := WriteNew(StageOf(path), data);
      if !written { return; }
      var second := Read(path);
      if second != Some(original) { return; }
      renamed := Rename(StageOf(path), path);
      if !renamed { return; }
      ok := *;
      if !ok { faults := faults + 1; }
    }

    /** The swap.  `interrupt` names the round, if any, in which an interrupt strikes between the rename
        and its being noted; that one file, the orphan, the handler does not know of.  It exists exactly when
        the rename of that round was carried out, and only it keeps a raise from leaving all as it was. */
    method ReplaceSet(order: seq<Path>, data: Files, originals: Files, interrupt: Option<nat>)
      returns (outcome: Outcome, ghost orphan: Option<Path>, ghost renames: nat, ghost handling: nat)
      requires Distinct(order) && Covers(order, data)
      requires data.Keys <= originals.Keys
      modifies this
      ensures outcome.Swapped? ==> forall p :: p in data ==>
                p in old(files) && old(files)[p] == originals[p] && p in files && files[p] == data[p]
      ensures outcome.Swapped? ==> files.Keys == old(files).Keys
      ensures outcome.Raised? ==> forall p :: p in old(files) ==>
                p in files && files[p] == if orphan == Some(p) && p in data then data[p] else old(files)[p]
      ensures renames <= |order| && (outcome.Swapped? ==> renames == |order|)
      ensures orphan.Some? <==> interrupt.Some? && interrupt.value < renames
      ensures orphan.Some? ==> orphan == Some(order[interrupt.value]) && !outcome.Swapped?
      ensures orphan.Some? ==> orphan.value in data && orphan.value in old(files)
      ensures outcome.Raised? ==>
                (AllStand(old(files), files) <==>
                  (orphan.Some? ==> data[orphan.value] == old(files)[orphan.value]))
      ensures OldOrNew(old(files), data, files) && OthersKept(old(files), data, files)
      ensures MomentsSince(old(files), data, old(moments), moments)
      ensures RestAlwaysOld(old(files), order[renames..], old(moments), moments)
      ensures old(faults) <= handling <= faults
      ensures !outcome.Swapped? ==> handling > old(faults) || !ReadyToSwap(order, originals, old(files))
                                    || (interrupt.Some? && interrupt.value < |order|)
      ensures outcome.RollbackIncomplete? ==> faults > handling || !RestorePathsFree(order, old(files))
    {
      hide Installs, MomentsOf, MomentsSince, SwappedSoFar, OldOrNew, OthersKept, Noted, AllButOrphan, Covers, RestOld,
           RestAlwaysOld, ReadyToSwap, OnlyStagesAdded, RestorePathsFree;
      ghost var entry, before := files, moments;
      var ok, swapped;
      ghost var target;
      ok, swapped, orphan, target, renames := SwapAll(order, data, originals, interrupt);
      if ok {
        ok := *;  // validate
        if !ok { faults := faults + 1; }
      }
      handling := faults;
      if ok {
        SwapEnds(entry, data, originals, files, order);
        outcome := Swapped;
        return;
      }
      assert Distinct(swapped);
      SwappedApart(order, swapped, renames);
      if RestorePathsFree(order, entry) { RestoreStaysFree(order, swapped, entry, files); }
      var failed := Restore(entry, target, orphan, before, order[renames..], swapped, data, originals);
      if !failed {
        RolledBack(entry, data, target, orphan, files);
      }
      outcome := if failed then RollbackIncomplete else Raised;
    }

    /** The loop over the targets, left at the first failure. */
    method SwapAll(order: seq<Path>, data: Files, originals: Files, interrupt: Option<nat>)
      returns (ok: bool, swapped: seq<Path>, ghost orphan: Option<Path>, ghost target: Files, ghost renames: nat)
      requires Distinct(order) && Covers(order, data)
      requires data.Keys <= originals.Keys
      modifies this
      ensures swapped <= order
      ensures ok ==> swapped == order && orphan.None? && target == old(files) && files.Keys == old(files).Keys
      ensures renames == |swapped| + (if orphan.Some? then 1 else 0) <= |order|
      ensures orphan.Some? <==> interrupt.Some? && interrupt.value < renames
      ensures orphan.Some? ==> orphan == Some(order[interrupt.value])
      ensures orphan.Some? ==> orphan.value in data && orphan.value in old(files)
      ensures AllButOrphan(old(files), data, target, orphan) && SwappedSoFar(target, data, files, swapped)
      ensures Noted(old(files), data, originals, target, swapped)
      ensures Renamed(old(files), data, originals, order, renames, files, old(moments), moments)
      ensures OnlyStagesAdded(order, old(files), files) && faults >= old(faults)
      ensures !ok ==> faults > old(faults) || !ReadyToSwap(order, originals, old(files))
                      || (interrupt.Some? && interrupt.value < |order|)
    {
      hide Installs, MomentsOf, SwappedSoFar, Noted, AllButOrphan, Distinct, Covers, Renamed, ReadyToSwap,
           OnlyStagesAdded;
      StagesStart(order, files);
      ghost var entry, before := files, moments;
      SwapStarts(entry, data, originals, order, before);
      swapped, orphan, target, renames := [], None, entry, 0;
      for i := 0 to |order|
        invariant renames == i && (interrupt.Some? ==> i <= interrupt.value)
        invariant swapped == order[..i] && orphan.None? && target == entry && files.Keys == entry.Keys
        invariant Renamed(entry, data, originals, order, i, files, before, moments)
        invariant faults >= old(faults) && OnlyStagesAdded(order, entry, files)
      {
        var path := order[i];
        var renamed: bool;
        NextTarget(order, data, i);
        ghost var was, seen := files, moments;
        StillReady(entry, data, originals, order, i, files, before, moments);
        renamed, ok := SwapOne(path, data[path], originals[path]);
        OneMoreStage(order, entry, was, files, path);
        renames := if renamed then i + 1 else i;
        SwapRound(entry, data, originals, order, i, renamed, was, files, before, seen, moments);
        if !renamed {
          SwapKnown(entry, data, originals, order, i, files, before, moments);
          return false, swapped, None, entry, renames;
        }
        if interrupt == Some(i) {
          SwapMissed(entry, data, originals, order, i, files, before, moments);
          return false, swapped, Some(path), entry[path := data[path]], renames;
        }
        assert order[..i + 1] == swapped + [path];
        swapped := swapped + [path];
        if !ok {
          SwapKnown(entry, data, originals, order, i + 1, files, before, moments);
          return;
        }
      }
      SwapKnown(entry, data, originals, order, |order|, files, before, moments);
      ok := true;
    }

    /** The handler: restores what was noted, in reverse, going on after a failure. */
    method Restore(ghost entry: Files, ghost target: Files, ghost orphan: Option<Path>, ghost before: seq<Files>,
                   ghost rest: seq<Path>, swapped: seq<Path>, data: Files, originals: Files)
      returns (failed: bool)
      requires RestOld(entry, rest, files) && RestAlwaysOld(entry, rest, before, moments)
      requires Apart(swapped, rest)
      requires Distinct(swapped)
      requires AllButOrphan(entry, data, target, orphan)
      requires SwappedSoFar(target, data, files, swapped) && MomentsSince(entry, data, before, moments)
      requires Noted(entry, data, originals, target, swapped)
      modifies this
      ensures !failed ==> forall p :: p in entry ==> p in files && p in target && files[p] == target[p]
      ensures OldOrNew(entry, data, files) && OthersKept(entry, data, files)
      ensures MomentsSince(entry, data, before, moments) && RestAlwaysOld(entry, rest, before, moments)
      ensures faults >= old(faults)
      ensures failed ==> faults > old(faults) || !RestorePathsFree(swapped, old(files))
    {
      hide Installs, MomentsOf, MomentsSince, RestoredDownTo, OldOrNew, OthersKept, SwappedSoFar, RestOld,
           RestAlwaysOld;
      failed := false;
      var j := |swapped|;
      assert swapped[..j] == swapped;
      RestoreStarts(target, data, files, swapped);
      while j > 0
        invariant 0 <= j <= |swapped|
        invariant RestoredDownTo(target, data, files, swapped[..j], failed)
        invariant MomentsSince(entry, data, before, moments)
        invariant RestOld(entry, rest, files) && RestAlwaysOld(entry, rest, before, moments)
        invariant faults >= old(faults) && (!failed ==> files.Keys == old(files).Keys)
        invariant failed ==> faults > old(faults) || !RestorePathsFree(swapped, old(files))
      {
        j := j - 1;
        var path := swapped[j];
        assert swapped[..j + 1] == swapped[..j] + [path];
        assert path in swapped && path !in swapped[..j];
        ghost var was, seen, failedBefore := files, moments, failed;
        SwappedIsPresent(target, data, files, swapped, path, swapped[..j + 1], failed);
        var renamed, ok := InstallVia(RestoreOf(path), path, originals[path]);
        ExtendMomentsBack(entry, data, target, orphan, was, path, renamed, swapped[..j + 1], failed,
                          before, seen, moments);
        RestStep(entry, rest, was, files, path, originals[path], renamed, before, seen, moments);
        if !ok { failed := true; }
        RestoreStep(target, data, was, files, swapped[..j], path, renamed, failedBefore, failed);
      }
      RestoreEnds(entry, target, orphan, data, files, failed);
    }
  }

  lemma NextTarget(order: seq<Path>, data: Files, i: nat)
    requires i < |order| && Distinct(order) && Covers(order, data)
    ensures order[i] in data && order[i] !in order[..i]
  {
  }

  lemma StagesStart(order: seq<Path>, files: Files)
    ensures OnlyStagesAdded(order, files, files)
  {
  }

  lemma OneMoreStage(order: seq<Path>, entry: Files, was: Files, now: Files, path: Path)
    requires OnlyStagesAdded(order, entry, was) && path in order
    requires forall q :: q in now ==> q in was || q == StageOf(path)
    ensures OnlyStagesAdded(order, entry, now)
  {
  }

  /** A target whose turn it is still holds its original. */
  lemma StillReady(entry: Files, data: Files, originals: Files, order: seq<Path>, i: nat, now: Files,
                   before: seq<Files>, after: seq<Files>)
    requires i < |order| && Distinct(order) && now.Keys == entry.Keys
    requires Renamed(entry, data, originals, order, i, now, before, after)
    ensures ReadyToSwap(order, originals, entry) ==>
              var p := order[i];
              p in originals && p in now && now[p] == originals[p] && StageOf(p) !in now
  {
    hide MomentsSince, RestAlwaysOld, Noted;
    assert order[i] !in order[..i];
  }

  lemma StagesAreNotRestores(p: Path, q: Path)
    ensures StageOf(p) != RestoreOf(q)
  {
    var a, b := StageOf(p), RestoreOf(q);
    assert a[|a| - 2] == 'g' && b[|b| - 2] == 'r';
  }

  lemma RestoreStaysFree(order: seq<Path>, swapped: seq<Path>, entry: Files, now: Files)
    requires RestorePathsFree(order, entry) && OnlyStagesAdded(order, entry, now) && swapped <= order
    ensures RestorePathsFree(swapped, now)
  {
    forall p | p in swapped ensures RestoreOf(p) !in now {
      assert p in order;
      forall q ensures StageOf(q) != RestoreOf(p) { StagesAreNotRestores(q, p); }
    }
  }

  lemma SwappedApart(order: seq<Path>, swapped: seq<Path>, renames: nat)
    requires Distinct(order) && swapped <= order && |swapped| <= renames <= |order|
    ensures Apart(swapped, order[renames..])
  {
  }

  lemma RestStep(entry: Files, rest: seq<Path>, was: Files, now: Files, path: Path, bytes: Bytes, renamed: bool,
                 before: seq<Files>, seen: seq<Files>, after: seq<Files>)
    requires RestOld(entry, rest, was) && RestAlwaysOld(entry, rest, before, seen)
    requires Installs(was, now, path, bytes, renamed) && MomentsOf(was, path, bytes, renamed, seen, after)
    requires renamed ==> path !in rest
    ensures RestOld(entry, rest, now) && RestAlwaysOld(entry, rest, before, after)
  {
    forall k | |before| <= k < |after| ensures RestOld(entry, rest, after[k]) {
      if k < |seen| { assert after[k] == seen[k]; }
    }
  }

  lemma SwapStep(entry: Files, data: Files, was: Files, now: Files, swapped: seq<Path>, path: Path, renamed: bool)
    requires SwappedSoFar(entry, data, was, swapped) && path in data && path !in swapped
    requires Installs(was, now, path, data[path], renamed)
    requires renamed ==> path in entry
    ensures SwappedSoFar(entry, data, now, if renamed then swapped + [path] else swapped)
    ensures path in entry ==> path in was && was[path] == entry[path]
  {
  }

  lemma SwapStarts(entry: Files, data: Files, originals: Files, order: seq<Path>, moments: seq<Files>)
    ensures Renamed(entry, data, originals, order, 0, entry, moments, moments)
  {
  }

  /** A round with its rename leaves one target fewer that no rename has reached. */
  lemma SwapRound(entry: Files, data: Files, originals: Files, order: seq<Path>, i: nat, renamed: bool,
                  was: Files, now: Files, before: seq<Files>, seen: seq<Files>, after: seq<Files>)
    requires i < |order| && Distinct(order) && order[i] in data && order[i] in originals
    requires Renamed(entry, data, originals, order, i, was, before, seen)
    requires Installs(was, now, order[i], data[order[i]], renamed)
    requires MomentsOf(was, order[i], data[order[i]], renamed, seen, after)
    requires renamed ==> order[i] in entry && order[i] in was && was[order[i]] == originals[order[i]]
    ensures Renamed(entry, data, originals, order, if renamed then i + 1 else i, now, before, after)
  {
    hide Installs, MomentsOf, MomentsSince, SwappedSoFar, RestOld, RestAlwaysOld, Noted;
    var path, n := order[i], if renamed then i + 1 else i;
    assert path !in order[..i];
    assert order[..i + 1] == order[..i] + [path];
    SwapStep(entry, data, was, now, order[..i], path, renamed);
    ExtendMomentsOut(entry, data, was, path, renamed, order[..i], before, seen, after);
    if renamed { NoteOne(entry, data, originals, order[..i], path); }
    RestShrinks(entry, order, i, n, was, before, seen);
    RestStep(entry, order[n..], was, now, path, data[path], renamed, before, seen, after);
  }

  lemma RestShrinks(entry: Files, order: seq<Path>, i: nat, n: nat, now: Files, before: seq<Files>, seen: seq<Files>)
    requires i <= n <= |order| && RestOld(entry, order[i..], now) && RestAlwaysOld(entry, order[i..], before, seen)
    ensures RestOld(entry, order[n..], now) && RestAlwaysOld(entry, order[n..], before, seen)
  {
    assert forall p :: p in order[n..] ==> p in order[i..];
  }

  /** The handler knows of every rename. */
  lemma SwapKnown(entry: Files, data: Files, originals: Files, order: seq<Path>, n: nat, now: Files,
                  before: seq<Files>, after: seq<Files>)
    requires Renamed(entry, data, originals, order, n, now, before, after)
    ensures SwappedSoFar(entry, data, now, order[..n]) && Noted(entry, data, originals, entry, order[..n])
    ensures AllButOrphan(entry, data, entry, None)
  {
  }

  lemma SwapEnds(entry: Files, data: Files, originals: Files, now: Files, order: seq<Path>)
    requires SwappedSoFar(entry, data, now, order) && Noted(entry, data, originals, entry, order)
    requires Covers(order, data)
    ensures forall p :: p in data ==>
              p in entry && p in originals && entry[p] == originals[p] && p in now && now[p] == data[p]
    ensures OldOrNew(entry, data, now) && OthersKept(entry, data, now)
  {
  }

  lemma ExtendMomentsOut(entry: Files, data: Files, was: Files, path: Path, renamed: bool, swapped: seq<Path>,
                         before: seq<Files>, seen: seq<Files>, after: seq<Files>)
    requires path in data && MomentsSince(entry, data, before, seen)
    requires MomentsOf(was, path, data[path], renamed, seen, after) && SwappedSoFar(entry, data, was, swapped)
    ensures MomentsSince(entry, data, before, after)
  {
    hide MomentsOf, MomentsSince;
    ExtendMoments(entry, data, was, path, data[path], renamed, before, seen, after);
  }

  lemma ExtendMoments(entry: Files, data: Files, was: Files, path: Path, bytes: Bytes, renamed: bool,
                      before: seq<Files>, seen: seq<Files>, after: seq<Files>)
    requires path in data && MomentsSince(entry, data, before, seen)
    requires MomentsOf(was, path, bytes, renamed, seen, after)
    requires bytes == data[path] || (path in entry && bytes == entry[path])
    requires forall q :: q in entry ==> q in was && (was[q] == entry[q] || (q in data && was[q] == data[q]))
    ensures MomentsSince(entry, data, before, after)
  {
    forall k | |before| <= k < |after| ensures OldOrNew(entry, data, after[k]) && OthersKept(entry, data, after[k]) {
      if k < |seen| { assert after[k] == seen[k]; }
    }
  }

  lemma ExtendMomentsBack(entry: Files, data: Files, target: Files, orphan: Option<Path>, was: Files, path: Path,
                          renamed: bool, left: seq<Path>, failed: bool,
                          before: seq<Files>, seen: seq<Files>, after: seq<Files>)
    requires path in data && path in entry && MomentsSince(entry, data, before, seen)
    requires MomentsOf(was, path, entry[path], renamed, seen, after)
    requires AllButOrphan(entry, data, target, orphan) && RestoredDownTo(target, data, was, left, failed)
    ensures MomentsSince(entry, data, before, after)
  {
    hide MomentsOf, MomentsSince;
    ExtendMoments(entry, data, was, path, entry[path], renamed, before, seen, after);
  }

  lemma RestoreStarts(entry: Files, data: Files, now: Files, swapped: seq<Path>)
    requires SwappedSoFar(entry, data, now, swapped)
    ensures RestoredDownTo(entry, data, now, swapped, false)
  {
  }

  lemma SwappedIsPresent(entry: Files, data: Files, now: Files, swapped: seq<Path>, path: Path, left: seq<Path>,
                         failed: bool)
    requires path in swapped && RestoredDownTo(entry, data, now, left, failed)
    requires forall p :: p in swapped ==> p in entry && p in data
    ensures path in entry && path in data && path in now
  {
  }

  lemma RestoreStep(entry: Files, data: Files, was: Files, now: Files, left: seq<Path>, path: Path,
                    renamed: bool, failedBefore: bool, failed: bool)
    requires RestoredDownTo(entry, data, was, left + [path], failedBefore) && path in entry && path !in left
    requires Installs(was, now, path, entry[path], renamed)
    requires failedBefore ==> failed
    requires !renamed ==> failed
    ensures RestoredDownTo(entry, data, now, left, failed)
  {
  }

  lemma RestoreEnds(entry: Files, target: Files, orphan: Option<Path>, data: Files, now: Files, failed: bool)
    requires AllButOrphan(entry, data, target, orphan) && RestoredDownTo(target, data, now, [], failed)
    ensures !failed ==> forall p :: p in entry ==> p in now && p in target && now[p] == target[p]
    ensures OldOrNew(entry, data, now) && OthersKept(entry, data, now)
  {
  }

  lemma NoteOne(entry: Files, data: Files, originals: Files, swapped: seq<Path>, path: Path)
    requires Noted(entry, data, originals, entry, swapped)
    requires path in entry && path in data && path in originals && entry[path] == originals[path]
    ensures Noted(entry, data, originals, entry, swapped + [path])
  {
  }

  /** The file whose rename was not noted counts as if it had started out new. */
  lemma SwapMissed(entry: Files, data: Files, originals: Files, order: seq<Path>, i: nat, now: Files,
                   before: seq<Files>, after: seq<Files>)
    requires i < |order| && Distinct(order) && order[i] in entry && order[i] in data
    requires Renamed(entry, data, originals, order, i + 1, now, before, after)
    ensures var target := entry[order[i] := data[order[i]]];
            && SwappedSoFar(target, data, now, order[..i]) && Noted(entry, data, originals, target, order[..i])
            && AllButOrphan(entry, data, target, Some(order[i]))
  {
    hide RestOld, RestAlwaysOld, MomentsSince;
    assert order[..i + 1] == order[..i] + [order[i]];
    assert forall p :: p in order[..i] ==> p in order[..i + 1] && p != order[i];
    assert forall p :: p in order[..i + 1] ==> p in order[..i] || p == order[i];
  }

  /** What the disk holds where the rollback is complete. */
  lemma RolledBack(entry: Files, data: Files, target: Files, orphan: Option<Path>, now: Files)
    requires AllButOrphan(entry, data, target, orphan)
    requires forall p :: p in entry ==> p in now && p in target && now[p] == target[p]
    ensures forall p :: p in entry ==>
              p in now && now[p] == if orphan == Some(p) && p in data then data[p] else entry[p]
  {
  }
}
