/** Crash recovery's rollback loop, carried out on a disk that may hold anything. */
module Recoveries {
  import opened Outcomes
  import opened Filesystem
  import opened Records
  import opened Replay
  import opened Disks
  import opened Slots
  import opened Verdicts
  import opened Exactness

  /** Whether a probe found one of the two-link intermediates. */
  method ProbeLinkage(d: Disk, i: nat, a: Artifact, spec: StateSpec, identity: Option<Ino>) returns (linkage: Linkage)
    requires d.Valid() && i < |d.live|
    modifies d`faults
    ensures d.faults <= old(d.faults)
    ensures
      || linkage == LinkageOf(SameFile(d.volume, d.live[i], Named(d.live[i], a)), NameState(d.volume, d.live[i], Named(d.live[i], a), 2), spec, identity)
      || (linkage == ForeignLink && d.faults < old(d.faults))
  {
    var same := d.ReadSameFile(i, a);
    match same {
      case NotFound => return NotLinked;
      case Unsafe => return ForeignLink;
      case Found(alias) =>
        if !alias { return NotLinked; }
    }
    var linked := d.ReadLinked(i, a);
    linkage := if linked.Found? && spec.SpecPresent? && MatchesEvidence(spec.spec, linked.value, identity) then ExactLink else ForeignLink;
  }

  /** The decision part of one iteration: `linked_backup_restore_is_exact`,
      `linked_create_is_exact`, `current_state` and the checks against the journal. */
  method Inspect(d: Disk, st: State, i: nat) returns (verdict: Verdict)
    requires d.Valid() && i < |st.paths| <= |d.live|
    modifies d`faults
    ensures d.faults <= old(d.faults)
    ensures verdict == Judge(st, i, d.volume, d.live[i]) || (verdict == Refuse && d.faults < old(d.faults))
  {
    var p := st.paths[i];
    if p.before.SpecPresent? && p.after.AbsentSpec? && p.backupName.Some? {
      var restore := ProbeLinkage(d, i, Backup, p.before, p.backupIdentity);
      if restore == ForeignLink { return Refuse; }
      if restore == ExactLink {
        return if i in st.rolledBack || i !in st.rollbackIntents then Refuse else FinishRestore;
      }
    }
    if p.before.AbsentSpec? && p.stageName.Some? {
      var create := ProbeLinkage(d, i, Stage, p.after, p.stageIdentity);
      if create == ForeignLink { return Refuse; }
      if create == ExactLink {
        return if i in st.rolledBack || i !in st.commitIntents then Refuse else ReverseCreate;
      }
    }
    var probe := d.ReadSlot(i);
    if !probe.Found? { return Refuse; }
    if i in st.rolledBack {
      return if MatchesBefore(p, probe.value) then Keep else Refuse;
    }
    if MatchesBefore(p, probe.value) {
      return if i in st.commitIntents then Attest else Keep;
    }
    verdict := if i !in st.commitIntents || !MatchesAfter(p, probe.value) then Refuse else PutBack;
  }

  /** `append_rollback_intent` */
  method MarkIntent(d: Disk, st: State, i: nat) returns (o: Outcome)
    requires d.Valid() && i < |st.paths| <= |d.live|
    modifies d
    ensures d.Valid() && (o.Done? ==> d.W() == Marked(st, old(d.W()), i))
    ensures !o.Done? ==> Within(old(d.W()), d.W(), i, {}) || Within(Marked(st, old(d.W()), i), d.W(), i, {})
    ensures o.Done? ==> d.faults == old(d.faults) && d.poisoned == old(d.poisoned)
    ensures !o.Done? && !old(d.poisoned) ==> d.faults < old(d.faults)
    ensures o.Failed? ==> o.recoveryRequired
    ensures o.Crashed? ==> AfterCrash(d.W())
    ensures d.faults <= old(d.faults)
  {
    if i in st.rollbackIntents {
      assert d.W() == Marked(st, d.W(), i);
      return Done;
    }
    ghost var w := d.W();
    ghost var marked := Marked(st, w, i);
    o := d.Append(RollbackIntent(i));
    if o.Crashed? {
      if CrashOf(w, d.W()) { WithinCrash(w, w, d.W(), i, {}); } else { WithinCrash(marked, marked, d.W(), i, {}); }
    }
  }

  /** The journaled completion of path `i`. */
  method MarkDone(d: Disk, i: nat, e: Entries) returns (o: Outcome)
    requires d.Valid() && i < |d.live| && d.W().live[i] == e && d.W().possible[i] == {e}
    modifies d
    ensures d.Valid() && (o.Done? ==> d.W() == Completed(old(d.W()), i, e))
    ensures !o.Done? ==> Within(old(d.W()), d.W(), i, {}) || Within(Completed(old(d.W()), i, e), d.W(), i, {})
    ensures o.Done? ==> d.faults == old(d.faults) && d.poisoned == old(d.poisoned)
    ensures !o.Done? && !old(d.poisoned) ==> d.faults < old(d.faults)
    ensures o.Failed? ==> o.recoveryRequired
    ensures o.Crashed? ==> AfterCrash(d.W())
    ensures d.faults <= old(d.faults)
  {
    ghost var w := d.W();
    ghost var completed := Completed(w, i, e);
    assert completed == w.(records := w.records + [RollbackDone(i)]);
    o := d.Append(RollbackDone(i));
    if o.Crashed? {
      if CrashOf(w, d.W()) { WithinCrash(w, w, d.W(), i, {}); } else { WithinCrash(completed, completed, d.W(), i, {}); }
    }
  }

  /** `restore_before`, or one of the two ways out of a two-link intermediate. */
  method Act(d: Disk, st: State, i: nat, verdict: Verdict) returns (o: Outcome)
    requires d.Valid() && i < |st.paths| <= |d.live|
    requires verdict == Judge(st, i, d.volume, d.live[i]) && verdict in {FinishRestore, ReverseCreate, PutBack}
    modifies d
    ensures d.Valid() && Within(old(d.W()), d.W(), i, old(Reach(st, i, d.volume, d.live[i])))
    ensures o.Done? ==> Settled(old(d.W()), d.W(), i, old(Target(st, i, d.volume, d.live[i])))
    ensures o.Done? ==> d.faults <= old(d.faults) && d.poisoned == old(d.poisoned)
    ensures !o.Done? && old(Feasible(st, i, d.volume, d.live[i])) ==> d.faults < old(d.faults)
    ensures o.Failed? ==> o.recoveryRequired
    ensures o.Crashed? ==> AfterCrash(d.W())
    ensures d.faults <= old(d.faults)
    ensures o.Done? ==> |d.live| == |old(d.live)| && HoldsBefore(st.paths[i], d.volume, d.live[i])
  {
    match verdict {
      case FinishRestore => o := FinishLinkedRestore(d, st, i);
      case ReverseCreate => o := ReverseLinkedCreate(d, st, i);
      case PutBack =>
        if st.paths[i].before.AbsentSpec? {
          o := RemoveCommitted(d, st, i);
        } else {
          o := RestoreBackup(d, st, i);
        }
    }
  }

  /** `finish_linked_backup_restore` */
  method FinishLinkedRestore(d: Disk, st: State, i: nat) returns (o: Outcome)
    requires d.Valid() && i < |st.paths| <= |d.live| && Judge(st, i, d.volume, d.live[i]) == FinishRestore
    modifies d
    ensures d.Valid() && Within(old(d.W()), d.W(), i, {old(d.live[i]).(backup := None)})
    ensures o.Done? ==> Settled(old(d.W()), d.W(), i, old(d.live[i]).(backup := None))
    ensures o.Done? ==> d.faults <= old(d.faults) && d.poisoned == old(d.poisoned)
    ensures !o.Done? && old(Feasible(st, i, d.volume, d.live[i])) ==> d.faults < old(d.faults)
    ensures o.Failed? ==> o.recoveryRequired
    ensures o.Crashed? ==> AfterCrash(d.W())
    ensures d.faults <= old(d.faults)
    ensures o.Done? ==> |d.live| == |old(d.live)| && HoldsBefore(st.paths[i], d.volume, d.live[i])
  {
    var p := st.paths[i];
    if p.backupIdentity.None? {
      return Failed(true);
    }
    o := FinishLinkedInstall(d, i, Backup, p.backupIdentity.value);
    if !o.Done? { return; }
    var probe := d.ReadSlot(i);
    if !(probe.Found? && MatchesPresent(p.before.spec, probe.value, p.backupIdentity)) {
      return Failed(true);
    }
  }

  /** `rollback_linked_create` */
  method ReverseLinkedCreate(d: Disk, st: State, i: nat) returns (o: Outcome)
    requires d.Valid() && i < |st.paths| <= |d.live| && Judge(st, i, d.volume, d.live[i]) == ReverseCreate
    modifies d
    ensures d.Valid() && Within(old(d.W()), d.W(), i, {old(d.live[i]).(slot := None)})
    ensures o.Done? ==> Settled(old(d.W()), d.W(), i, old(d.live[i]).(slot := None))
    ensures o.Done? ==> d.faults <= old(d.faults) && d.poisoned == old(d.poisoned)
    ensures !o.Done? ==> d.faults < old(d.faults)
    ensures o.Failed? ==> o.recoveryRequired
    ensures o.Crashed? ==> AfterCrash(d.W())
    ensures d.faults <= old(d.faults)
    ensures o.Done? ==> |d.live| == |old(d.live)| && HoldsBefore(st.paths[i], d.volume, d.live[i])
  {
    o := RollbackLinkedInstall(d, i, Stage);
    if !o.Done? { return; }
    var probe := d.ReadSlot(i);
    if probe != Found(Absent) {
      return Failed(true);
    }
  }

  /** `restore_before` of a create. */
  method RemoveCommitted(d: Disk, st: State, i: nat) returns (o: Outcome)
    requires d.Valid() && i < |st.paths| <= |d.live| && Judge(st, i, d.volume, d.live[i]) == PutBack
    requires st.paths[i].before.AbsentSpec?
    modifies d
    ensures d.Valid() && Within(old(d.W()), d.W(), i, {old(d.live[i]).(slot := None)})
    ensures o.Done? ==> Settled(old(d.W()), d.W(), i, old(d.live[i]).(slot := None))
    ensures o.Done? ==> d.faults <= old(d.faults) && d.poisoned == old(d.poisoned)
    ensures !o.Done? ==> d.faults < old(d.faults)
    ensures o.Failed? ==> o.recoveryRequired
    ensures o.Crashed? ==> AfterCrash(d.W())
    ensures d.faults <= old(d.faults)
    ensures o.Done? ==> |d.live| == |old(d.live)| && HoldsBefore(st.paths[i], d.volume, d.live[i])
  {
    ghost var w := d.W();
    var probe := d.ReadSlot(i);
    if !(probe.Found? && probe.value.Present?) {
      return Failed(true);
    }
    o := RemoveExact(d, i, probe.value.evidence);
    if !o.Done? { return; }
    ghost var x := d.W();
    o := d.SyncParent(i);
    if o.Crashed? { WithinCrash(w, x, d.W(), i, {w.live[i].(slot := None)}); }
  }

  /** `restore_before` of a present input: the verified backup goes back. */
  method RestoreBackup(d: Disk, st: State, i: nat) returns (o: Outcome)
    requires d.Valid() && i < |st.paths| <= |d.live| && Judge(st, i, d.volume, d.live[i]) == PutBack
    requires st.paths[i].before.SpecPresent?
    modifies d
    ensures d.Valid() && Within(old(d.W()), d.W(), i, old(Reach(st, i, d.volume, d.live[i])))
    ensures o.Done? ==> Settled(old(d.W()), d.W(), i, old(Target(st, i, d.volume, d.live[i])))
    ensures o.Done? ==> d.faults <= old(d.faults) && d.poisoned == old(d.poisoned)
    ensures !o.Done? && old(Feasible(st, i, d.volume, d.live[i])) ==> d.faults < old(d.faults)
    ensures o.Failed? ==> o.recoveryRequired
    ensures o.Crashed? ==> AfterCrash(d.W())
    ensures d.faults <= old(d.faults)
    ensures o.Done? ==> |d.live| == |old(d.live)| && HoldsBefore(st.paths[i], d.volume, d.live[i])
  {
    hide Judge, Feasible, Reach, Target, Links, Count, HasLinks, Movable, Within, HoldsBefore, FileFits, SlotState;
    ghost var w := d.W();
    var p := st.paths[i];
    PutBackFacts(st, i, w.volume, w.live[i]);
    WithinSelf(w, i, Reach(st, i, w.volume, w.live[i]));
    var backup := d.ReadArtifact(i, Backup);
    if p.backupName.None? || !(backup.Found? && MatchesEvidence(p.before.spec, backup.value, p.backupIdentity)) {
      return Failed(true);
    }
    o := MoveBackup(d, i);
    WithinValid(w, d.W(), i, Reach(st, i, w.volume, w.live[i]));
    if !o.Done? { return; }
    if BackupIntact(p, w.volume, w.live[i]) {
      BackupShown(st, i, w.volume, w.live[i]);
    }
    var probe := d.ReadSlot(i);
    if !(probe.Found? && MatchesPresent(p.before.spec, probe.value, p.backupIdentity)) {
      return Failed(true);
    }
    ShownBefore(p, w.volume, d.live[i]);
  }

  lemma BackupShown(st: State, i: nat, v: Volume, e: Entries)
    requires i < |st.paths| && BackupIntact(st.paths[i], v, e)
    ensures SlotState(v, Installed(e, Backup)).Found?
    ensures MatchesPresent(st.paths[i].before.spec, SlotState(v, Installed(e, Backup)).value, st.paths[i].backupIdentity)
  {
  }

  lemma PutBackFacts(st: State, i: nat, v: Volume, e: Entries)
    requires i < |st.paths| && Judge(st, i, v, e) == PutBack && st.paths[i].before.SpecPresent?
    ensures SlotState(v, e).Found?
    ensures BackupMatches(st.paths[i], v, e) ==> Target(st, i, v, e) == Installed(e, Backup)
    ensures BackupMatches(st.paths[i], v, e) ==>
              Reach(st, i, v, e) == {Installed(e, Backup)} + if e.slot.None? then {Linked(e, Backup)} else {}
    ensures Feasible(st, i, v, e) <==> BackupIntact(st.paths[i], v, e)
    ensures Feasible(st, i, v, e) ==> Movable(v, e)
  {
  }

  lemma WithinSelf(w: World, i: nat, extra: set<Entries>)
    requires w.Valid()
    ensures Within(w, w, i, extra)
  {
  }

  lemma WithinValid(w: World, x: World, i: nat, extra: set<Entries>)
    requires Within(w, x, i, extra)
    ensures x.Valid() && |x.live| == |w.live| && x.volume == w.volume && x.records == w.records
  {
  }

  lemma MovableInstallable(v: Volume, e: Entries)
    ensures Movable(v, e) ==> ArtifactState(v, e, Backup).Found? && (e.slot.None? ==> Installable(v, e, Backup))
  {
  }

  /** The backup moves into the slot, without clobbering when the slot is absent. */
  method MoveBackup(d: Disk, i: nat) returns (o: Outcome)
    requires d.Valid() && i < |d.live|
    modifies d
    ensures d.Valid() && Within(old(d.W()), d.W(), i, {Installed(old(d.live[i]), Backup)} + if old(d.live[i]).slot.None? then {Linked(old(d.live[i]), Backup)} else {})
    ensures o.Done? ==> Settled(old(d.W()), d.W(), i, Installed(old(d.live[i]), Backup))
    ensures o.Done? ==> d.faults <= old(d.faults) && d.poisoned == old(d.poisoned)
    ensures !o.Done? && old(SlotState(d.volume, d.live[i]).Found?) && old(Movable(d.volume, d.live[i])) ==> d.faults < old(d.faults)
    ensures o.Failed? ==> o.recoveryRequired
    ensures o.Crashed? ==> AfterCrash(d.W())
    ensures d.faults <= old(d.faults)
  {
    hide HasLinks, Movable, Installable, NameState;
    ghost var w := d.W();
    ghost var extra := {Installed(w.live[i], Backup)} + if w.live[i].slot.None? then {Linked(w.live[i], Backup)} else {};
    MovableInstallable(w.volume, w.live[i]);
    var probe := d.ReadSlot(i);
    if !probe.Found? {
      return Failed(true);
    }
    if probe.value.Absent? {
      o := InstallAbsentFrom(d, i, Backup);
      WithinMore(w, d.W(), i, {Linked(w.live[i], Backup), Installed(w.live[i], Backup)}, extra);
    } else {
      o := ReplaceFrom(d, i, Backup);
    }
    if !o.Done? { return; }
    ghost var x := d.W();
    o := d.SyncParent(i);
    if o.Crashed? { WithinCrash(w, x, d.W(), i, extra); }
  }

  predicate Movable(v: Volume, e: Entries) {
    ArtifactState(v, e, Backup).Found? && !ArtifactState(v, e, Backup).value.permissions.readonly
  }

  // One iteration

  /** `attest_unchanged_intent`, before its completion record. */
  method AttestIntent(d: Disk, st: State, i: nat) returns (o: Outcome)
    requires d.Valid() && i < |st.paths| <= |d.live| && Judge(st, i, d.volume, d.live[i]) == Attest
    modifies d
    ensures d.Valid() && (o.Done? ==> Settled(Marked(st, old(d.W()), i), d.W(), i, old(d.live[i])))
    ensures !o.Done? ==> Within(old(d.W()), d.W(), i, {}) || Within(Marked(st, old(d.W()), i), d.W(), i, {})
    ensures o.Done? ==> d.faults == old(d.faults) && d.poisoned == old(d.poisoned)
    ensures !o.Done? && !old(d.poisoned) ==> d.faults < old(d.faults)
    ensures o.Failed? ==> o.recoveryRequired
    ensures o.Crashed? ==> AfterCrash(d.W())
    ensures d.faults <= old(d.faults)
  {
    hide Judge;
    ghost var w := d.W();
    o := d.SyncParent(i);
    if o.Crashed? { WithinCrash(w, w, d.W(), i, {}); }
    if !o.Done? { return; }
    ghost var x := d.W();
    o := MarkIntent(d, st, i);
    if !o.Done? {
      if Within(x, d.W(), i, {}) {
        WithinTrans(w, x, d.W(), i, {}, {});
      } else {
        WithinTrans(Marked(st, w, i), Marked(st, x, i), d.W(), i, {}, {});
      }
    }
  }

  /** The intent of path `i`, then the action its verdict asks for. */
  method MarkAndAct(d: Disk, st: State, i: nat, verdict: Verdict) returns (o: Outcome)
    requires d.Valid() && i < |st.paths| <= |d.live|
    requires verdict == Judge(st, i, d.volume, d.live[i]) && verdict in {FinishRestore, ReverseCreate, PutBack}
    modifies d
    ensures d.Valid() && (o.Done? ==> Settled(Marked(st, old(d.W()), i), d.W(), i, old(Target(st, i, d.volume, d.live[i]))))
    ensures !o.Done? ==>
              Within(old(d.W()), d.W(), i, {}) || Within(Marked(st, old(d.W()), i), d.W(), i, old(Reach(st, i, d.volume, d.live[i])))
    ensures o.Done? ==> d.faults <= old(d.faults) && d.poisoned == old(d.poisoned)
    ensures !o.Done? && !old(d.poisoned) && old(Feasible(st, i, d.volume, d.live[i])) ==> d.faults < old(d.faults)
    ensures o.Failed? ==> o.recoveryRequired
    ensures o.Crashed? ==> AfterCrash(d.W())
    ensures d.faults <= old(d.faults)
    ensures o.Done? ==> |d.live| == |old(d.live)| && HoldsBefore(st.paths[i], d.volume, d.live[i])
  {
    hide Judge, Feasible, Reach, Target;
    ghost var w := d.W();
    o := MarkIntent(d, st, i);
    if !o.Done? {
      if !Within(w, d.W(), i, {}) {
        WithinMore(Marked(st, w, i), d.W(), i, {}, Reach(st, i, w.volume, w.live[i]));
      }
      return;
    }
    o := Act(d, st, i, verdict);
  }

  lemma SettledWithin(w: World, x: World, i: nat, e: Entries, reach: set<Entries>)
    requires w.Valid() && Settled(w, x, i, e)
    requires e in reach || e == w.live[i]
    ensures Within(w, x, i, reach)
    ensures Completed(x, i, e) == Completed(w, i, e)
  {
  }

  lemma TargetReached(st: State, i: nat, v: Volume, e: Entries)
    requires i < |st.paths|
    ensures Target(st, i, v, e) in Reach(st, i, v, e) || Target(st, i, v, e) == e
    ensures Judge(st, i, v, e) == Attest ==> Target(st, i, v, e) == e && Reach(st, i, v, e) == {}
    ensures Judge(st, i, v, e) == Refuse ==> !Feasible(st, i, v, e)
  {
  }

  /** One iteration of recovery's rollback loop, whatever the disk holds.  A refused path
      is left alone; otherwise the disk ends exactly where the verdict says, or stops on
      the way there. */
  method RecoverPath(d: Disk, st: State, i: nat) returns (o: Outcome)
    requires d.Valid() && i < |st.paths| <= |d.live|
    modifies d
    ensures d.Valid()
    ensures old(Judge(st, i, d.volume, d.live[i])) == Refuse ==> o.Failed? && d.W() == old(d.W())
    ensures o.Done? ==> d.W() == PathDone(st, old(d.W()), i)
    ensures !o.Done? ==> PathHalted(st, old(d.W()), d.W(), i)
    ensures o.Done? ==> d.faults <= old(d.faults) && d.poisoned == old(d.poisoned)
    ensures !o.Done? && !old(d.poisoned) && old(Feasible(st, i, d.volume, d.live[i])) ==> d.faults < old(d.faults)
    ensures o.Failed? ==> o.recoveryRequired
    ensures o.Crashed? ==> AfterCrash(d.W())
    ensures d.faults <= old(d.faults)
    ensures o.Done? ==> |d.live| == |old(d.live)| && HoldsBefore(st.paths[i], d.volume, d.live[i])
  {
    hide Judge, Feasible, Reach, Target, HoldsBefore, FileFits, Resolvable, Plain, Unlinked, HoldsAfter, RestoreAtLink, CreateAtLink,
         Within;
    ghost var w := d.W();
    ghost var reach := Reach(st, i, w.volume, w.live[i]);
    ghost var target := Target(st, i, w.volume, w.live[i]);
    TargetReached(st, i, w.volume, w.live[i]);
    WithinSelf(w, i, {});
    JudgeIff(st, i, w.volume, w.live[i]);
    var verdict := Inspect(d, st, i);
    if verdict == Refuse {
      return Failed(true);
    }
    if verdict == Keep {
      return Done;
    }
    if verdict == Attest {
      o := AttestIntent(d, st, i);
    } else {
      o := MarkAndAct(d, st, i, verdict);
    }
    if !o.Done? { return; }
    ghost var x := d.W();
    SettledWithin(Marked(st, w, i), x, i, target, reach);
    o := MarkDone(d, i, d.live[i]);
    if !o.Done? && Within(x, d.W(), i, {}) {
      WithinTrans(Marked(st, w, i), x, d.W(), i, reach, {});
      assert reach + {} == reach;
    }
  }

  // The loop

  lemma SweptValid(st: State, w: World, i: nat)
    requires i < |st.paths| <= |w.live| == |w.possible|
    ensures Swept(st, w, i + 1).live[i] == w.live[i]
    ensures Swept(st, w, i) == PathDone(st, Swept(st, w, i + 1), i)
  {
    SweptElsewhere(st, w, i + 1, i);
  }

  /** `rollback_changed` of crash recovery: every path in descending order, each dealt
      with as its verdict says.  `stopped` is the path an unsuccessful run stopped at. */
  method SweepPaths(d: Disk, st: State) returns (o: Outcome, ghost stopped: nat)
    requires d.Valid() && |st.paths| <= |d.live|
    modifies d
    ensures d.Valid()
    ensures o.Done? ==> d.W() == Swept(st, old(d.W()), 0)
    ensures o.Done? ==> forall i | 0 <= i < |st.paths| :: old(Judge(st, i, d.volume, d.live[i])) != Refuse
    ensures !o.Done? ==> stopped < |st.paths| && PathHalted(st, Swept(st, old(d.W()), stopped + 1), d.W(), stopped)
    ensures o.Done? ==> d.faults <= old(d.faults) && d.poisoned == old(d.poisoned)
    ensures !o.Done? && !old(d.poisoned) && (forall i | 0 <= i < |st.paths| :: old(Feasible(st, i, d.volume, d.live[i]))) ==> d.faults < old(d.faults)
    ensures o.Failed? ==> o.recoveryRequired
    ensures o.Crashed? ==> AfterCrash(d.W())
    ensures d.faults <= old(d.faults)
    ensures o.Done? ==> |d.live| == |old(d.live)| && forall i | 0 <= i < |st.paths| :: HoldsBefore(st.paths[i], d.volume, d.live[i])
  {
    hide Judge, Feasible, PathDone, PathHalted, Swept, HoldsBefore;
    ghost var w := d.W();
    var i := |st.paths|;
    stopped := 0;
    SweptAll(st, w);
    while i > 0
      invariant 0 <= i <= |st.paths| <= |d.live| && d.Valid()
      invariant d.W() == Swept(st, w, i)
      invariant forall j | i <= j < |st.paths| :: Judge(st, j, w.volume, w.live[j]) != Refuse
      invariant d.volume == w.volume && |d.live| == |w.live|
      invariant forall j | i <= j < |st.paths| :: HoldsBefore(st.paths[j], w.volume, d.live[j])
      invariant d.faults <= old(d.faults) && d.poisoned == old(d.poisoned)
    {
      SweptValid(st, w, i - 1);
      ghost var x := d.W();
      o := RecoverPath(d, st, i - 1);
      stopped := i - 1;
      if !o.Done? { return; }
      forall j | i <= j < |st.paths| ensures d.live[j] == x.live[j] {
        DoneElsewhere(st, x, i - 1, j);
      }
      i := i - 1;
    }
    o := Done;
  }

  lemma SweptAll(st: State, w: World)
    requires |st.paths| <= |w.live| == |w.possible|
    ensures Swept(st, w, |st.paths|) == w
  {
  }
}
