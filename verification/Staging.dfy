/** `stage_one`: the backup and the output of one path, in files of their own. */
module Staging {
  import opened Outcomes
  import opened Filesystem
  import opened Records
  import opened Disks
  import opened Slots
  import opened Protocol
  import opened Projections
  import opened Preparing

  // Staging one path

  /** The names of every other path and the state directory are as they were. */
  ghost predicate OnlyPath(w: World, x: World, i: nat) {
    && x.control == w.control && x.possibleControl == w.possibleControl
    && |x.live| == |w.live| && |x.possible| == |w.possible|
    && forall j | 0 <= j < |w.live| && j < |w.possible| && j != i :: x.live[j] == w.live[j] && x.possible[j] == w.possible[j]
  }

  ghost predicate Grows(v: Volume, x: Volume) {
    x.outside == v.outside && forall k | k in v.files :: k in x.files && x.files[k] == v.files[k]
  }

  /** Only path `i` gained entries, all of them a preparation's, and files were added. */
  ghost predicate Building(plan: Projection, w: World, x: World, i: nat) {
    && x.Valid() && |x.live| == |x.possible| == |w.live| == |w.possible| == |plan.paths| && i < |plan.paths|
    && x == w.(volume := x.volume, live := x.live, possible := x.possible, control := x.control, possibleControl := x.possibleControl)
    && Grows(w.volume, x.volume) && x.possibleControl <= w.possibleControl
    && (forall j | 0 <= j < |x.live| && j != i :: x.possible[j] <= w.possible[j])
    && (forall e | e in x.possible[i] :: e in w.possible[i] || Preparable(x.volume, plan.paths[i], e))
  }

  lemma PreparableGrows(v: Volume, x: Volume, p: ProjectedPath, e: Entries)
    requires Grows(v, x)
    ensures Preparable(v, p, e) ==> Preparable(x, p, e)
    ensures Projected(v, p) ==> Projected(x, p)
  {
  }

  lemma BuildingTrans(plan: Projection, w: World, x: World, y: World, i: nat)
    requires Building(plan, w, x, i) && Building(plan, x, y, i)
    ensures Building(plan, w, y, i)
  {
    hide Preparable, Projected;
    forall e | e in y.possible[i] && e !in w.possible[i] ensures Preparable(y.volume, plan.paths[i], e) {
      if e in x.possible[i] { PreparableGrows(x.volume, y.volume, plan.paths[i], e); }
    }
  }

  lemma BuildingWithin(plan: Projection, w: World, x: World, i: nat, extra: set<Entries>)
    requires w.Valid() && Within(w, x, i, extra) && i < |w.live| == |plan.paths|
    requires forall e | e in extra :: Preparable(w.volume, plan.paths[i], e)
    ensures Building(plan, w, x, i)
  {
  }

  lemma CreatedBuilding(plan: Projection, w: World, x: World, i: nat, a: Artifact, ino: Ino, file: File)
    requires Prepares(plan, w) && i < |plan.paths| && Named(w.live[i], a).None?
    requires ino !in w.volume.files && ino !in w.volume.outside
    requires if a == Stage then plan.paths[i].after.Some? else plan.paths[i].before.Present?
    requires x == Created(w, i, a, ino, file) || CrashOf(Created(w, i, a, ino, file), x)
    ensures Building(plan, w, x, i)
  {
    var made := Created(w, i, a, ino, file);
    assert May(w, i, w.live[i]);
    assert Preparable(w.volume, plan.paths[i], w.live[i]) && Projected(w.volume, plan.paths[i]);
    PreparableGrows(w.volume, made.volume, plan.paths[i], w.live[i]);
    assert Preparable(made.volume, plan.paths[i], made.live[i]);
    if CrashOf(made, x) { CrashShrinks(made, x); }
  }

  lemma BuildingPrepares(plan: Projection, w: World, x: World, i: nat)
    requires Prepares(plan, w) && Building(plan, w, x, i)
    ensures Prepares(plan, x)
  {
    hide Preparable, Projected;
    forall j, e | 0 <= j < |plan.paths| && May(x, j, e) ensures Preparable(x.volume, plan.paths[j], e) {
      if e in w.possible[j] {
        assert May(w, j, e);
        PreparableGrows(w.volume, x.volume, plan.paths[j], e);
      }
    }
    forall j | 0 <= j < |plan.paths| ensures Projected(x.volume, plan.paths[j]) {
      PreparableGrows(w.volume, x.volume, plan.paths[j], BareEntries(plan.paths[j]));
    }
  }

  /** `write_artifact`: create, write, synchronize, and read back the evidence. */
  method WriteArtifact(d: Disk, plan: Projection, i: nat, a: Artifact, file: File)
    returns (o: Outcome, evidence: PresentEvidence)
    requires Prepares(plan, d.W()) && i < |plan.paths| && Named(d.live[i], a).None?
    requires if a == Stage then plan.paths[i].after.Some? else plan.paths[i].before.Present?
    modifies d
    ensures d.Valid() && Building(plan, old(d.W()), d.W(), i) && Prepares(plan, d.W())
    ensures o.Done? ==>
              evidence.identity !in old(d.volume).files && evidence.identity !in d.volume.outside && evidence.identity in d.volume.files
    ensures o.Done? ==> d.volume.files[evidence.identity] == file && evidence == Evidence(d.volume, evidence.identity)
    ensures o.Done? ==> d.live[i] == Repoint(old(d.live[i]), a, Some(evidence.identity))
    ensures !o.Crashed? ==> OnlyPath(old(d.W()), d.W(), i)
    ensures o.Failed? ==>
              (d.W() == old(d.W()) || Named(d.live[i], a).Some?) && d.live[i] == Repoint(old(d.live[i]), a, Named(d.live[i], a))
    ensures !o.Crashed? ==> d.poisoned == old(d.poisoned)
    ensures if o.Done? then d.faults == old(d.faults) else d.faults < old(d.faults)
    ensures o.Crashed? ==> AfterCrash(d.W())
  {
    ghost var w := d.W();
    var ino;
    ghost var written;
    o, ino, written := d.CreateFile(i, a, file);
    evidence := PresentEvidence(Sha256(file.bytes), |file.bytes|, ino, file.permissions);
    BuildingStart(plan, w, i);
    if o.Crashed? {
      if CrashOf(w, d.W()) {
        WithinCrash(w, w, d.W(), i, {});
        BuildingWithin(plan, w, d.W(), i, {});
      } else {
        CreatedBuilding(plan, w, d.W(), i, a, ino, written);
      }
      BuildingPrepares(plan, w, d.W(), i);
      return;
    }
    if d.W() != w {
      CreatedBuilding(plan, w, d.W(), i, a, ino, if o.Done? then file else written);
    }
    BuildingPrepares(plan, w, d.W(), i);
    if o.Failed? { return; }
    assert May(d.W(), i, d.live[i]);
    var probe := d.ReadArtifact(i, a);
    if probe != Found(evidence) {
      o := Failed(false);
    }
  }

  lemma BuildingStart(plan: Projection, w: World, i: nat)
    requires Prepares(plan, w) && i < |plan.paths|
    ensures Building(plan, w, w, i)
  {
  }

  /** How one staging job ends; a cancelled one never ran. */
  datatype JobResult = JobStaged(path: StagedPath) | JobFailed(recoveryRequired: bool) | JobPanicked | JobCancelled

  lemma RemovedBuilding(plan: Projection, w: World, x: World, i: nat, a: Artifact)
    requires Prepares(plan, w) && i < |plan.paths| && Within(w, x, i, {Repoint(w.live[i], a, None)})
    ensures Building(plan, w, x, i) && Prepares(plan, x)
    ensures ArtifactState(w.volume, w.live[i], a) != Unsafe
  {
    assert May(w, i, w.live[i]);
    assert Preparable(w.volume, plan.paths[i], w.live[i]);
    BuildingWithin(plan, w, x, i, {Repoint(w.live[i], a, None)});
    BuildingPrepares(plan, w, x, i);
  }

  /** A failed job removes its own artifacts; what it cannot remove needs recovery. */
  method CleanupJob(d: Disk, plan: Projection, i: nat) returns (o: Outcome, r: JobResult)
    requires Prepares(plan, d.W()) && i < |plan.paths|
    requires d.live[i] == BareEntries(plan.paths[i]) ==> d.possible[i] == {d.live[i]}
    modifies d
    ensures d.Valid() && Building(plan, old(d.W()), d.W(), i) && Prepares(plan, d.W())
    ensures o.Done? || o.Crashed?
    ensures o.Done? ==> r.JobFailed? && OnlyPath(old(d.W()), d.W(), i)
    ensures o.Done? && !r.recoveryRequired ==> d.possible[i] == {BareEntries(plan.paths[i])}
    ensures o.Crashed? ==> AfterCrash(d.W()) && d.faults < old(d.faults)
    ensures !o.Crashed? ==> d.poisoned == old(d.poisoned)
    ensures d.faults <= old(d.faults)
  {
    hide Preparable, Projected, Building, Prepares;
    ghost var w := d.W();
    PreparesEntry(plan, w, i);
    BuildingStart(plan, w, i);
    var removed;
    o, removed := RemoveArtifact(d, i, Stage);
    ghost var x := d.W();
    RemovedBuilding(plan, w, x, i, Stage);
    if o.Crashed? { return o, JobPanicked; }
    if o.Failed? { return Done, JobFailed(true); }
    var again;
    o, again := RemoveArtifact(d, i, Backup);
    RemovedBuilding(plan, x, d.W(), i, Backup);
    BuildingTrans(plan, w, x, d.W(), i);
    if o.Crashed? { return o, JobPanicked; }
    r := JobFailed(o.Failed?);
    o := Done;
  }

  lemma PreparesEntry(plan: Projection, w: World, i: nat)
    requires Prepares(plan, w) && i < |plan.paths|
    ensures w.Valid() && |w.live| == |w.possible| == |plan.paths| && Projected(w.volume, plan.paths[i])
    ensures Preparable(w.volume, plan.paths[i], w.live[i])
    ensures w.live[i] == BareEntries(plan.paths[i]).(stage := w.live[i].stage, backup := w.live[i].backup)
  {
    assert May(w, i, w.live[i]);
  }

  lemma StagedJob(v: Volume, p: ProjectedPath, backup: Option<PresentEvidence>, after: SlotEvidence)
    requires Projected(v, p) && (backup.Some? <==> p.before.Present?) && (after.Present? <==> p.after.Some?)
    requires backup.Some? ==>
               Exact(v, backup.value) && v.files[backup.value.identity] == p.source.value && backup.value.identity != p.before.evidence.identity
    requires after.Present? ==> Exact(v, after.evidence) && v.files[after.evidence.identity] == p.after.value
    requires after.Present? ==>
               after.Identity() != p.before.Identity() && (backup.Some? ==> after.evidence.identity != backup.value.identity)
    ensures var s := StagedPath(p.path, p.before, after, backup); StagedWell(v, s) && StagesAs(p, s)
  {
  }

  /** `stage_one` */
  method StageOne(d: Disk, plan: Projection, i: nat) returns (o: Outcome, r: JobResult)
    requires Prepares(plan, d.W()) && i < |plan.paths| && d.possible[i] == {BareEntries(plan.paths[i])}
    modifies d
    ensures d.Valid() && Building(plan, old(d.W()), d.W(), i) && Prepares(plan, d.W())
    ensures o.Done? || o.Crashed?
    ensures o.Done? ==> OnlyPath(old(d.W()), d.W(), i) && !r.JobCancelled?
    ensures o.Done? && r.JobStaged? ==>
              d.possible[i] == {Initial(r.path)} && StagedWell(d.volume, r.path) && StagesAs(plan.paths[i], r.path) && d.faults == old(d.faults)
    ensures o.Done? && r == JobFailed(false) ==> d.possible[i] == {BareEntries(plan.paths[i])}
    ensures o.Crashed? ==> AfterCrash(d.W())
    ensures o.Crashed? || !r.JobStaged? ==> d.faults < old(d.faults)
    ensures !o.Crashed? ==> d.poisoned == old(d.poisoned)
  {
    hide Preparable, Projected, Building, Prepares, StagedWell, StagesAs, Exact, HasLinks;
    ghost var w := d.W();
    var p := plan.paths[i];
    PreparesEntry(plan, w, i);
    BuildingStart(plan, w, i);
    BareSource(w.volume, p, w.live[i]);
    r := JobPanicked;
    var backup: Option<PresentEvidence> := None;
    if p.before.Present? {
      var evidence;
      o, evidence := WriteArtifact(d, plan, i, Backup, p.source.value);
      if o.Crashed? { return; }
      if o.Failed? {
        o, r := FailJob(d, plan, i, w);
        return;
      }
      backup := Some(evidence);
    }
    if backup.Some? {
      SourceBacked(w.volume, d.volume, p, w.live[i], backup.value);
    } else {
      NothingBacked(d.volume, p, d.live[i]);
    }
    o, r := StageOutput(d, plan, i, backup, w);
  }

  lemma SourceBacked(v: Volume, x: Volume, p: ProjectedPath, e: Entries, backup: PresentEvidence)
    requires Projected(v, p) && p.before.Present? && e == BareEntries(p)
    requires backup.identity !in v.files && backup.identity in x.files && backup.identity !in x.outside
    requires backup == Evidence(x, backup.identity) && x.files[backup.identity] == p.source.value
    ensures BackedUp(x, p, e.(backup := Some(backup.identity)), Some(backup))
  {
  }

  lemma NothingBacked(v: Volume, p: ProjectedPath, e: Entries)
    requires Projected(v, p) && p.before.Absent? && e == BareEntries(p)
    ensures BackedUp(v, p, e, None)
  {
  }

  lemma BareSource(v: Volume, p: ProjectedPath, e: Entries)
    requires Projected(v, p)
    ensures p.before.Present? ==> p.source.Some? && p.before.evidence.identity in v.files && Exact(v, p.before.evidence)
  {
  }

  /** The failure exit of a staging job. */
  method FailJob(d: Disk, plan: Projection, i: nat, ghost w: World) returns (o: Outcome, r: JobResult)
    requires Prepares(plan, d.W()) && i < |plan.paths| && Building(plan, w, d.W(), i)
    requires d.live[i] == BareEntries(plan.paths[i]) ==> d.possible[i] == {d.live[i]}
    requires OnlyPath(w, d.W(), i)
    modifies d
    ensures d.Valid() && Building(plan, w, d.W(), i) && Prepares(plan, d.W())
    ensures o.Done? || o.Crashed?
    ensures o.Done? ==> r.JobFailed? && OnlyPath(w, d.W(), i)
    ensures o.Done? && !r.recoveryRequired ==> d.possible[i] == {BareEntries(plan.paths[i])}
    ensures o.Crashed? ==> AfterCrash(d.W())
    ensures !o.Crashed? ==> d.poisoned == old(d.poisoned)
    ensures d.faults <= old(d.faults)
  {
    hide Preparable, Projected, Building, Prepares;
    ghost var x := d.W();
    PreparesEntry(plan, x, i);
    o, r := CleanupJob(d, plan, i);
    BuildingTrans(plan, w, x, d.W(), i);
  }

  /** A backup as `stage_one` has just written it, in a file of its own. */
  predicate BackedUp(v: Volume, p: ProjectedPath, e: Entries, backup: Option<PresentEvidence>) {
    && (backup.Some? <==> p.before.Present?)
    && e == BareEntries(p).(backup := if backup.Some? then Some(backup.value.identity) else None)
    && (backup.Some? ==> Exact(v, backup.value) && p.source.Some? && v.files[backup.value.identity] == p.source.value
                         && backup.value.identity != p.before.evidence.identity)
  }

  lemma BackedUpGrows(v: Volume, x: Volume, p: ProjectedPath, e: Entries, backup: Option<PresentEvidence>)
    requires BackedUp(v, p, e, backup) && Grows(v, x)
    ensures BackedUp(x, p, e, backup)
  {
  }

  lemma BackedUpShape(v: Volume, p: ProjectedPath, e: Entries, backup: Option<PresentEvidence>)
    requires BackedUp(v, p, e, backup)
    ensures e == BareEntries(p).(backup := if backup.Some? then Some(backup.value.identity) else None)
  {
  }

  lemma BuildingGrows(plan: Projection, w: World, x: World, i: nat)
    requires Building(plan, w, x, i)
    ensures Grows(w.volume, x.volume)
  {
  }

  lemma SyncBuilding(plan: Projection, w: World, x: World, i: nat)
    requires Prepares(plan, w) && i < |plan.paths| && (x == w || x == Flushed(w, i) || CrashOf(w, x))
    ensures Building(plan, w, x, i) && Prepares(plan, x)
  {
    if CrashOf(w, x) { CrashShrinks(w, x); }
    BuildingPrepares(plan, w, x, i);
  }

  /** The output as `stage_one` has just written it, in a file of its own. */
  predicate Output(v: Volume, p: ProjectedPath, backup: Option<PresentEvidence>, after: SlotEvidence) {
    && (after.Present? <==> p.after.Some?)
    && (after.Present? ==> Exact(v, after.evidence) && v.files[after.evidence.identity] == p.after.value
                           && after.Identity() != p.before.Identity() && (backup.Some? ==> after.evidence.identity != backup.value.identity))
  }

  lemma OutputFresh(v: Volume, x: Volume, p: ProjectedPath, e: Entries, backup: Option<PresentEvidence>, evidence: PresentEvidence)
    requires Projected(v, p) && BackedUp(v, p, e, backup) && Grows(v, x) && p.after.Some?
    requires evidence.identity !in v.files && evidence.identity in x.files && evidence.identity !in x.outside
    requires evidence == Evidence(x, evidence.identity) && x.files[evidence.identity] == p.after.value
    ensures Output(x, p, backup, Present(evidence))
  {
  }

  lemma JobDone(v: Volume, p: ProjectedPath, e: Entries, backup: Option<PresentEvidence>, after: SlotEvidence)
    requires Projected(v, p) && BackedUp(v, p, e, backup) && Output(v, p, backup, after)
    ensures var s := StagedPath(p.path, p.before, after, backup);
            StagedWell(v, s) && StagesAs(p, s) && Initial(s) == e.(stage := after.Identity())
    ensures e.(stage := after.Identity()) != BareEntries(p)
  {
    StagedJob(v, p, backup, after);
  }

  /** The second half of `stage_one`: the output, then the directory. */
  method StageOutput(d: Disk, plan: Projection, i: nat, backup: Option<PresentEvidence>, ghost w: World)
    returns (o: Outcome, r: JobResult)
    requires Prepares(plan, d.W()) && i < |plan.paths| && Building(plan, w, d.W(), i)
    requires BackedUp(d.volume, plan.paths[i], d.live[i], backup)
    requires d.live[i] == BareEntries(plan.paths[i]) ==> d.possible[i] == {d.live[i]}
    requires OnlyPath(w, d.W(), i)
    modifies d
    ensures d.Valid() && Building(plan, w, d.W(), i) && Prepares(plan, d.W())
    ensures o.Done? || o.Crashed?
    ensures o.Done? ==> OnlyPath(w, d.W(), i) && !r.JobCancelled?
    ensures o.Done? && r.JobStaged? ==>
              d.possible[i] == {Initial(r.path)} && StagedWell(d.volume, r.path) && StagesAs(plan.paths[i], r.path) && d.faults == old(d.faults)
    ensures o.Done? && r == JobFailed(false) ==> d.possible[i] == {BareEntries(plan.paths[i])}
    ensures o.Crashed? ==> AfterCrash(d.W())
    ensures o.Crashed? || !r.JobStaged? ==> d.faults < old(d.faults)
    ensures !o.Crashed? ==> d.poisoned == old(d.poisoned)
  {
    hide Preparable, Projected, Building, Prepares, StagedWell, StagesAs, BackedUp;
    var p := plan.paths[i];
    PreparesEntry(plan, d.W(), i);
    ghost var e := d.live[i];
    BackedUpShape(d.volume, p, e, backup);
    r := JobPanicked;
    var panics := d.Trouble();
    if panics { return Done, r; }
    var after := Absent;
    if p.after.Some? {
      ghost var x := d.W();
      var evidence;
      o, evidence := WriteArtifact(d, plan, i, Stage, p.after.value);
      BuildingTrans(plan, w, x, d.W(), i);
      if o.Crashed? { return; }
      if o.Failed? {
        o, r := FailJob(d, plan, i, w);
        return;
      }
      BuildingGrows(plan, x, d.W(), i);
      BackedUpGrows(x.volume, d.volume, p, e, backup);
      OutputFresh(x.volume, d.volume, p, e, backup, evidence);
      after := Present(evidence);
    }
    o, r := FinishJob(d, plan, i, backup, after, e, w);
  }

  /** The end of `stage_one`: the directory is synchronized. */
  method FinishJob(d: Disk, plan: Projection, i: nat, backup: Option<PresentEvidence>, after: SlotEvidence, ghost e: Entries, ghost w: World)
    returns (o: Outcome, r: JobResult)
    requires Prepares(plan, d.W()) && i < |plan.paths| && Building(plan, w, d.W(), i)
    requires BackedUp(d.volume, plan.paths[i], e, backup) && Output(d.volume, plan.paths[i], backup, after)
    requires d.live[i] == e.(stage := after.Identity())
    requires OnlyPath(w, d.W(), i)
    modifies d
    ensures d.Valid() && Building(plan, w, d.W(), i) && Prepares(plan, d.W())
    ensures o.Done? || o.Crashed?
    ensures o.Done? ==> OnlyPath(w, d.W(), i) && !r.JobCancelled?
    ensures o.Done? && r.JobStaged? ==>
              d.possible[i] == {Initial(r.path)} && StagedWell(d.volume, r.path) && StagesAs(plan.paths[i], r.path) && d.faults == old(d.faults)
    ensures o.Done? && r == JobFailed(false) ==> d.possible[i] == {BareEntries(plan.paths[i])}
    ensures o.Crashed? ==> AfterCrash(d.W())
    ensures o.Crashed? || !r.JobStaged? ==> d.faults < old(d.faults)
    ensures !o.Crashed? ==> d.poisoned == old(d.poisoned)
  {
    hide Preparable, Projected, Building, Prepares, StagedWell, StagesAs, BackedUp, Output;
    var p := plan.paths[i];
    ghost var y := d.W();
    PreparesEntry(plan, y, i);
    JobDone(d.volume, p, e, backup, after);
    r := JobPanicked;
    o := d.SyncParent(i);
    SyncBuilding(plan, y, d.W(), i);
    BuildingTrans(plan, w, y, d.W(), i);
    if o.Crashed? { return; }
    if o.Failed? {
      o, r := FailJob(d, plan, i, w);
      return;
    }
    r := JobStaged(StagedPath(p.path, p.before, after, backup));
  }
}
