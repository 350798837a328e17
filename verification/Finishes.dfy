/** The rest of crash recovery, on a disk that may hold anything: the checks of a finished
    or uncommitted journal, and the removal or relocation of exact artifacts. */
module Finishes {
  import opened Outcomes
  import opened Filesystem
  import opened Records
  import opened Replay
  import opened Disks
  import opened Slots
  import opened Verdicts
  import opened Exactness
  import opened Cleanups

  // Checks

  /** The slot shows the finished outcome of path `i`. */
  predicate Shows(st: State, i: nat, committed: bool, v: Volume, e: Entries)
    requires i < |st.paths|
  {
    match SlotState(v, e)
    case Found(actual) => if committed then MatchesAfter(st.paths[i], actual) else MatchesBefore(st.paths[i], actual)
    case _ => false
  }

  /** The directories of the first `n` paths settled as they are. */
  ghost predicate AllSettled(w: World, x: World, n: nat) {
    && x == w.(possible := x.possible) && n <= |x.live| == |x.possible| == |w.possible|
    && (forall i | 0 <= i < n :: x.possible[i] == {x.live[i]})
    && (forall i | n <= i < |x.live| :: x.possible[i] == w.possible[i])
  }

  /** Entries may only have settled. */
  ghost predicate Shrunk(w: World, x: World) {
    ControlWithin(w, x, {})
  }

  /** `verify_finished` */
  method VerifyFinished(d: Disk, st: State, committed: bool) returns (o: Outcome)
    requires d.Valid() && |st.paths| <= |d.live|
    modifies d
    ensures d.Valid() && Shrunk(old(d.W()), d.W())
    ensures o.Done? ==> AllSettled(old(d.W()), d.W(), |st.paths|)
    ensures o.Done? ==> forall i | 0 <= i < |st.paths| :: old(Shows(st, i, committed, d.volume, d.live[i]))
    ensures !o.Done? && (forall i | 0 <= i < |st.paths| :: old(Shows(st, i, committed, d.volume, d.live[i]))) ==> d.faults < old(d.faults)
    ensures o.Done? ==> d.poisoned == old(d.poisoned)
    ensures o.Failed? ==> o.recoveryRequired
    ensures o.Crashed? ==> AfterCrash(d.W())
    ensures d.faults <= old(d.faults)
  {
    hide MatchesBefore, MatchesAfter, SlotState;
    ghost var w := d.W();
    var i := 0;
    while i < |st.paths|
      invariant 0 <= i <= |st.paths| <= |d.live| && d.Valid()
      invariant d.W() == w.(possible := d.possible)
      invariant forall j | 0 <= j < i :: d.possible[j] == {d.live[j]} && Shows(st, j, committed, w.volume, w.live[j])
      invariant forall j | i <= j < |d.live| :: d.possible[j] == w.possible[j]
      invariant d.faults <= old(d.faults) && d.poisoned == old(d.poisoned)
    {
      assert w.live[i] in w.possible[i];
      var probe := d.ReadSlot(i);
      if !(probe.Found? && if committed then MatchesAfter(st.paths[i], probe.value) else MatchesBefore(st.paths[i], probe.value)) {
        return Failed(true);
      }
      ghost var x := d.W();
      o := d.SyncParent(i);
      if o.Crashed? { CrashShrinks(x, d.W()); }
      if !o.Done? { return; }
      i := i + 1;
    }
    o := Done;
  }

  /** A path no commit ever reached: not linked, and showing its before state. */
  predicate Undisturbed(st: State, i: nat, v: Volume, e: Entries)
    requires i < |st.paths|
  {
    LinkedCreate(st.paths[i], v, e) == NotLinked && Shows(st, i, false, v, e)
  }

  /** `discard_uncommitted`: changes nothing. */
  method DiscardUncommitted(d: Disk, st: State) returns (o: Outcome)
    requires d.Valid() && |st.paths| <= |d.live|
    modifies d`faults
    ensures o.Done? || o == Failed(true)
    ensures o.Done? ==> forall i | 0 <= i < |st.paths| :: Undisturbed(st, i, d.volume, d.live[i])
    ensures !o.Done? ==> d.faults < old(d.faults) || exists i | 0 <= i < |st.paths| :: !Undisturbed(st, i, d.volume, d.live[i])
    ensures d.faults <= old(d.faults)
  {
    var i := |st.paths|;
    while i > 0
      invariant 0 <= i <= |st.paths| <= |d.live|
      invariant forall j | i <= j < |st.paths| :: Undisturbed(st, j, d.volume, d.live[j])
      invariant d.faults <= old(d.faults)
    {
      i := i - 1;
      var p := st.paths[i];
      if p.before.AbsentSpec? && p.stageName.Some? {
        var same := d.ReadSameFile(i, Stage);
        if same == Found(true) || same == Unsafe {
          return Failed(true);
        }
      }
      var probe := d.ReadSlot(i);
      if !(probe.Found? && MatchesBefore(p, probe.value)) {
        return Failed(true);
      }
    }
    o := Done;
  }

  // Artifacts

  /** The artifact may be removed: it is gone already, it has its exact evidence, or it was
      never fully staged. */
  predicate Removable(p: RecoveryPath, v: Volume, e: Entries, a: Artifact, spec: PresentSpec, identity: Option<Ino>) {
    match ArtifactState(v, e, a)
    case NotFound => true
    case Found(actual) => p.staged ==> MatchesEvidence(spec, actual, identity)
    case Unsafe => false
  }

  /** The name is free, or the only name of a regular file: whatever file if the path was never staged,
      otherwise one with the specified bytes, length, permissions and identity. */
  predicate Spent(p: RecoveryPath, v: Volume, e: Entries, name: Option<Ino>, spec: PresentSpec, identity: Option<Ino>) {
    name.Some? ==>
      && name.value in v.files && name.value !in v.outside && Links(e, name.value) == 1
      && (p.staged ==> FileFits(v, name, spec) && (identity.Some? ==> name == identity))
  }

  lemma RemovableIff(p: RecoveryPath, v: Volume, e: Entries, a: Artifact, spec: PresentSpec, identity: Option<Ino>)
    ensures Removable(p, v, e, a, spec, identity) <==> Spent(p, v, e, Named(e, a), spec, identity)
  {
  }

  /** `cleanup_artifact` */
  method CleanArtifact(d: Disk, p: RecoveryPath, i: nat, a: Artifact, spec: PresentSpec, identity: Option<Ino>)
    returns (o: Outcome)
    requires d.Valid() && i < |d.live|
    modifies d
    ensures d.Valid() && Within(old(d.W()), d.W(), i, {Repoint(old(d.live[i]), a, None)})
    ensures o.Done? ==> Local(old(d.W()), d.W(), i) && d.live[i] == Repoint(old(d.live[i]), a, None)
    ensures o.Done? && Synced(old(d.W()), i) ==> Synced(d.W(), i)
    ensures o.Done? ==> old(Removable(p, d.volume, d.live[i], a, spec, identity))
    ensures !old(Spent(p, d.volume, d.live[i], Named(d.live[i], a), spec, identity)) ==> !o.Done? && d.W() == old(d.W())
    ensures !o.Done? && old(Removable(p, d.volume, d.live[i], a, spec, identity)) ==> d.faults < old(d.faults)
    ensures o.Done? ==> d.poisoned == old(d.poisoned)
    ensures o.Failed? ==> o.recoveryRequired
    ensures o.Crashed? ==> AfterCrash(d.W())
    ensures d.faults <= old(d.faults)
  {
    RemovableIff(p, d.volume, d.live[i], a, spec, identity);
    if p.staged {
      var probe := d.ReadArtifact(i, a);
      if probe == NotFound {
        return Done;
      }
      if !(probe.Found? && MatchesEvidence(spec, probe.value, identity)) {
        return Failed(true);
      }
    }
    var removed;
    o, removed := RemoveArtifact(d, i, a);
  }

  /** Cleanup may go ahead at path `i`. */
  predicate Cleans(st: State, i: nat, keep: bool, v: Volume, e: Entries)
    requires i < |st.paths|
  {
    var p := st.paths[i];
    && (p.stageName.Some? && p.after.SpecPresent? ==> Removable(p, v, e, Stage, p.after.spec, p.stageIdentity))
    && (!keep && p.backupName.Some? && p.before.SpecPresent? ==>
          Removable(p, v, CleanStage(st, i, e), Backup, p.before.spec, p.backupIdentity))
  }

  /** An artifact that is removed is the stage of an output, or the backup of an input that is not kept,
      and it is spent. */
  lemma CleansIff(st: State, i: nat, keep: bool, v: Volume, e: Entries)
    requires i < |st.paths|
    ensures var p := st.paths[i];
            var unstaged := if p.stageName.Some? && p.after.SpecPresent? then e.(stage := None) else e;
            && (Cleans(st, i, keep, v, e) <==>
                  && (p.stageName.Some? && p.after.SpecPresent? ==> Spent(p, v, e, e.stage, p.after.spec, p.stageIdentity))
                  && (!keep && p.backupName.Some? && p.before.SpecPresent? ==>
                        Spent(p, v, unstaged, unstaged.backup, p.before.spec, p.backupIdentity)))
            && Cleaned(st, i, keep, e) ==
               if !keep && p.backupName.Some? && p.before.SpecPresent? then unstaged.(backup := None) else unstaged
  {
    hide Removable, Spent;
    var p := st.paths[i];
    if p.stageName.Some? && p.after.SpecPresent? {
      RemovableIff(p, v, e, Stage, p.after.spec, p.stageIdentity);
    }
    if p.before.SpecPresent? {
      RemovableIff(p, v, CleanStage(st, i, e), Backup, p.before.spec, p.backupIdentity);
    }
  }

  function CleanStage(st: State, i: nat, e: Entries): Entries
    requires i < |st.paths|
  {
    if st.paths[i].stageName.Some? && st.paths[i].after.SpecPresent? then e.(stage := None) else e
  }

  /** The entries of path `i` once `cleanup_artifacts` has passed. */
  function Cleaned(st: State, i: nat, keep: bool, e: Entries): Entries
    requires i < |st.paths|
  {
    var staged := CleanStage(st, i, e);
    if !keep && st.paths[i].backupName.Some? && st.paths[i].before.SpecPresent? then staged.(backup := None) else staged
  }

  /** One path of `cleanup_artifacts`. */
  method CleanPath(d: Disk, st: State, i: nat, keep: bool) returns (o: Outcome)
    requires d.Valid() && i < |st.paths| <= |d.live|
    modifies d
    ensures d.Valid() && Within(old(d.W()), d.W(), i, {CleanStage(st, i, old(d.live[i])), Cleaned(st, i, keep, old(d.live[i]))})
    ensures o.Done? ==> Local(old(d.W()), d.W(), i) && d.live[i] == Cleaned(st, i, keep, old(d.live[i]))
    ensures o.Done? && Synced(old(d.W()), i) ==> Synced(d.W(), i)
    ensures o.Done? ==> old(Cleans(st, i, keep, d.volume, d.live[i]))
    ensures !o.Done? && old(Cleans(st, i, keep, d.volume, d.live[i])) ==> d.faults < old(d.faults)
    ensures o.Done? ==> d.poisoned == old(d.poisoned)
    ensures o.Failed? ==> o.recoveryRequired
    ensures o.Crashed? ==> AfterCrash(d.W())
    ensures d.faults <= old(d.faults)
  {
    hide Removable;
    ghost var w := d.W();
    var p := st.paths[i];
    ghost var mid := CleanStage(st, i, w.live[i]);
    ghost var all := {mid, Cleaned(st, i, keep, w.live[i])};
    o := Done;
    if p.stageName.Some? && p.after.SpecPresent? {
      o := CleanArtifact(d, p, i, Stage, p.after.spec, p.stageIdentity);
      WithinMore(w, d.W(), i, {mid}, all);
      if !o.Done? { return; }
    }
    if !keep && p.backupName.Some? && p.before.SpecPresent? {
      ghost var x := d.W();
      o := CleanArtifact(d, p, i, Backup, p.before.spec, p.backupIdentity);
      WithinTrans(w, x, d.W(), i, all, {Cleaned(st, i, keep, w.live[i])});
      assert all + {Cleaned(st, i, keep, w.live[i])} == all;
    }
  }

  /** Between `w` and `x` path `j` only turned entries into cleaned ones. */
  ghost predicate Cleaning(st: State, keep: bool, w: World, x: World) {
    && x.Valid() && |st.paths| <= |x.live| == |w.live| == |w.possible|
    && x == w.(live := x.live, possible := x.possible, control := x.control, possibleControl := x.possibleControl)
    && x.possibleControl <= w.possibleControl
    && (forall j | 0 <= j < |st.paths| ::
          x.possible[j] <= w.possible[j] + {CleanStage(st, j, w.live[j]), Cleaned(st, j, keep, w.live[j])})
    && (forall j | |st.paths| <= j < |x.live| :: x.possible[j] <= w.possible[j])
  }

  lemma CleaningStep(st: State, keep: bool, w: World, x: World, y: World, i: nat)
    requires Cleaning(st, keep, w, x) && i < |st.paths| && x.live[i] == w.live[i]
    requires Within(x, y, i, {CleanStage(st, i, w.live[i]), Cleaned(st, i, keep, w.live[i])})
    ensures Cleaning(st, keep, w, y)
  {
  }

  /** `cleanup_artifacts`: only exactly matching or never completed artifacts go, no slot
      and no retained backup is touched. */
  method CleanupArtifacts(d: Disk, st: State, keep: bool) returns (o: Outcome)
    requires d.Valid() && |st.paths| <= |d.live|
    modifies d
    ensures d.Valid() && Cleaning(st, keep, old(d.W()), d.W())
    ensures o.Done? ==> d.control == old(d.control) && d.possibleControl == old(d.possibleControl)
    ensures o.Done? ==> forall i | 0 <= i < |st.paths| :: d.live[i] == Cleaned(st, i, keep, old(d.live[i]))
    ensures o.Done? && AllSynced(old(d.W())) ==> AllSynced(d.W())
    ensures o.Done? ==> forall i | 0 <= i < |st.paths| :: old(Cleans(st, i, keep, d.volume, d.live[i]))
    ensures !o.Done? && (forall i | 0 <= i < |st.paths| :: old(Cleans(st, i, keep, d.volume, d.live[i]))) ==> d.faults < old(d.faults)
    ensures o.Done? ==> d.poisoned == old(d.poisoned)
    ensures o.Failed? ==> o.recoveryRequired
    ensures o.Crashed? ==> AfterCrash(d.W())
    ensures d.faults <= old(d.faults)
  {
    hide Cleans, Cleaned, CleanStage;
    ghost var w := d.W();
    var i := 0;
    while i < |st.paths|
      invariant 0 <= i <= |st.paths| <= |d.live| && d.Valid()
      invariant Cleaning(st, keep, w, d.W())
      invariant d.control == w.control && d.possibleControl == w.possibleControl
      invariant forall j | 0 <= j < i :: d.live[j] == Cleaned(st, j, keep, w.live[j]) && Cleans(st, j, keep, w.volume, w.live[j])
      invariant forall j | i <= j < |d.live| :: d.live[j] == w.live[j]
      invariant AllSynced(w) ==> AllSynced(d.W())
      invariant d.faults <= old(d.faults) && d.poisoned == old(d.poisoned)
    {
      ghost var x := d.W();
      o := CleanPath(d, st, i, keep);
      CleaningStep(st, keep, w, x, d.W(), i);
      if !o.Done? { return; }
      SyncedStill(x, d.W(), i);
      i := i + 1;
    }
    o := Done;
  }

  lemma SyncedStill(w: World, x: World, i: nat)
    requires i < |w.live| == |w.possible| == |x.live| == |x.possible|
    requires x.live == w.live[i := x.live[i]] && x.possible == w.possible[i := x.possible[i]]
    requires Synced(w, i) ==> Synced(x, i)
    ensures AllSynced(w) ==> AllSynced(x)
  {
    if AllSynced(w) {
      forall j | 0 <= j < |x.live| ensures Synced(x, j) {
        assert Synced(w, j);
      }
    }
  }

  // Relocation of retained backups

  /** Where `retain_backup_from` can find the backup. */
  predicate Retainable(v: Volume, e: Entries, expected: PresentEvidence) {
    || (ArtifactState(v, e, Backup) == Found(expected) && NameState(v, e, e.kept, 1) == NotFound)
    || (ArtifactState(v, e, Backup) == NotFound && NameState(v, e, e.kept, 1) == Found(expected))
  }

  /** This file and no other, under this name and no other. */
  predicate Alone(v: Volume, e: Entries, name: Option<Ino>, expected: PresentEvidence) {
    && name == Some(expected.identity) && expected.identity in v.files && expected.identity !in v.outside
    && Links(e, expected.identity) == 1
    && expected.sha256 == Sha256(v.files[expected.identity].bytes) && expected.bytes == |v.files[expected.identity].bytes|
    && expected.permissions == v.files[expected.identity].permissions
  }

  /** The backup is retainable exactly if one of its two names is free and the other names it alone. */
  lemma RetainableIff(v: Volume, e: Entries, expected: PresentEvidence)
    ensures Retainable(v, e, expected) <==>
            (Alone(v, e, e.backup, expected) && e.kept.None?) || (e.backup.None? && Alone(v, e, e.kept, expected))
  {
  }

  function Moved(e: Entries): Entries {
    if e.backup.Some? then e.(backup := None, kept := e.backup) else e
  }

  /** A rename between two directories, both synchronized. */
  method MoveAndSync(d: Disk, i: nat, e: Entries) returns (o: Outcome)
    requires d.Valid() && i < |d.live|
    modifies d
    ensures d.Valid() && Within(old(d.W()), d.W(), i, {e})
    ensures o.Done? ==>
              d.W() == old(d.W()).(live := old(d.live)[i := e], possible := old(d.possible)[i := {e}], possibleControl := {old(d.control)})
    ensures o.Done? ==> d.poisoned == old(d.poisoned)
    ensures o.Failed? ==> o.recoveryRequired
    ensures o.Crashed? ==> AfterCrash(d.W())
    ensures if o.Done? then d.faults == old(d.faults) else d.faults < old(d.faults)
  {
    ghost var w := d.W();
    o := ChangeAndSync(d, i, e);
    if !o.Done? { return; }
    ghost var x := d.W();
    o := d.SyncControl();
    if o.Crashed? { WithinCrash(w, x, d.W(), i, {e}); }
  }

  lemma RetainedShown(v: Volume, e: Entries, expected: PresentEvidence)
    requires ArtifactState(v, e, Backup) == Found(expected) && NameState(v, e, e.kept, 1) == NotFound
    ensures NameState(v, Moved(e), Moved(e).kept, 1) == Found(expected)
  {
  }

  /** `retain_backup_from`: moves one exact backup into the state directory, or finds it
      there already. */
  method RetainBackup(d: Disk, i: nat, expected: PresentEvidence) returns (o: Outcome)
    requires d.Valid() && i < |d.live|
    modifies d
    ensures d.Valid() && Within(old(d.W()), d.W(), i, {Moved(old(d.live[i]))})
    ensures o.Done? ==> d.live == old(d.live)[i := Moved(old(d.live[i]))] && d.control == old(d.control)
    ensures o.Done? ==> old(Retainable(d.volume, d.live[i], expected))
    ensures o.Done? ==> Local(old(d.W()).(possibleControl := d.possibleControl), d.W(), i)
    ensures o.Done? && Synced(old(d.W()), i) ==> Synced(d.W(), i)
    ensures !o.Done? && old(Retainable(d.volume, d.live[i], expected)) ==> d.faults < old(d.faults)
    ensures o.Done? ==> d.poisoned == old(d.poisoned)
    ensures o.Failed? ==> o.recoveryRequired
    ensures o.Crashed? ==> AfterCrash(d.W())
    ensures d.faults <= old(d.faults)
  {
    hide Links, Count, HasLinks;
    ghost var w := d.W();
    var e := d.live[i];
    var adjacent := d.ReadArtifact(i, Backup);
    if adjacent == Unsafe {
      return Failed(true);
    }
    var retained := d.ReadKept(i);
    if adjacent == NotFound && retained == Found(expected) {
      return Done;
    }
    if adjacent != Found(expected) || retained != NotFound {
      return Failed(true);
    }
    o := MoveAndSync(d, i, Moved(e));
    if !o.Done? { return; }
    RetainedShown(w.volume, e, expected);
    retained := d.ReadKept(i);
    if retained != Found(expected) {
      return Failed(true);
    }
  }

  function Relocation(p: StagedPath, e: Entries): Entries {
    if p.backup.Some? then Moved(e) else e
  }

  ghost predicate Relocating(paths: seq<StagedPath>, w: World, x: World) {
    && x.Valid() && |x.live| == |w.live| == |w.possible| == |paths|
    && x == w.(live := x.live, possible := x.possible, control := x.control, possibleControl := x.possibleControl)
    && x.possibleControl <= w.possibleControl
    && forall j | 0 <= j < |x.live| :: x.possible[j] <= w.possible[j] + {Relocation(paths[j], w.live[j])}
  }

  lemma RelocatingStep(paths: seq<StagedPath>, w: World, x: World, y: World, i: nat)
    requires Relocating(paths, w, x) && i < |w.live| && x.live[i] == w.live[i]
    requires Within(x, y, i, {Relocation(paths[i], w.live[i])})
    ensures Relocating(paths, w, y)
  {
  }

  /** `relocate_backups`, and `retain_backups` of a retained commit: every backup the receipt
      names moves into the state directory. */
  method RelocateBackups(d: Disk, paths: seq<StagedPath>) returns (o: Outcome)
    requires d.Valid() && |d.live| == |paths|
    modifies d
    ensures d.Valid() && Relocating(paths, old(d.W()), d.W())
    ensures o.Done? ==> forall i | 0 <= i < |paths| :: d.live[i] == Relocation(paths[i], old(d.live[i]))
    ensures o.Done? ==> d.control == old(d.control) && (AllSynced(old(d.W())) ==> AllSynced(d.W()))
    ensures o.Done? ==> forall i | 0 <= i < |paths| && paths[i].backup.Some? :: old(Retainable(d.volume, d.live[i], paths[i].backup.value))
    ensures !o.Done? && (forall i | 0 <= i < |paths| && paths[i].backup.Some? :: old(Retainable(d.volume, d.live[i], paths[i].backup.value))) ==> d.faults < old(d.faults)
    ensures o.Done? ==> d.poisoned == old(d.poisoned)
    ensures o.Failed? ==> o.recoveryRequired
    ensures o.Crashed? ==> AfterCrash(d.W())
    ensures d.faults <= old(d.faults)
  {
    hide Retainable, Moved;
    ghost var w := d.W();
    var i := 0;
    while i < |paths|
      invariant 0 <= i <= |paths| == |d.live| && d.Valid()
      invariant Relocating(paths, w, d.W()) && d.control == w.control
      invariant forall j | 0 <= j < i :: d.live[j] == Relocation(paths[j], w.live[j])
      invariant forall j | 0 <= j < i && paths[j].backup.Some? :: Retainable(w.volume, w.live[j], paths[j].backup.value)
      invariant forall j | i <= j < |paths| :: d.live[j] == w.live[j]
      invariant AllSynced(w) ==> AllSynced(d.W())
      invariant d.faults <= old(d.faults) && d.poisoned == old(d.poisoned)
    {
      if paths[i].backup.Some? {
        ghost var x := d.W();
        o := RetainBackup(d, i, paths[i].backup.value);
        RelocatingStep(paths, w, x, d.W(), i);
        if !o.Done? { return; }
        SyncedStill(x, d.W(), i);
      }
      i := i + 1;
    }
    o := Done;
  }
}
