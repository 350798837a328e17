/** What the probes report in each state a path passes through. */
module Probes {
  import opened Outcomes
  import opened Filesystem
  import opened Records
  import opened Disks
  import opened Slots
  import opened Protocol

  function Reported(s: SlotEvidence): Probe<PresentEvidence> {
    match s
    case Absent => NotFound
    case Present(e) => Found(e)
  }

  function BackupReported(p: StagedPath): Probe<PresentEvidence> {
    if p.backup.Some? then Found(p.backup.value) else NotFound
  }

  lemma InitialProbes(v: Volume, p: StagedPath)
    requires StagedWell(v, p)
    ensures SlotState(v, Initial(p)) == Found(p.before)
    ensures ArtifactState(v, Initial(p), Stage) == Reported(p.after)
    ensures ArtifactState(v, Initial(p), Backup) == BackupReported(p)
    ensures SameFile(v, Initial(p), Initial(p).stage) in {Found(false), NotFound}
    ensures SameFile(v, Initial(p), Initial(p).backup) in {Found(false), NotFound}
    ensures p.before.Absent? ==> Installable(v, Initial(p), Stage)
  {
  }

  lemma CreateLinkedProbes(v: Volume, p: StagedPath)
    requires StagedWell(v, p) && p.before.Absent?
    ensures SlotState(v, CreateLinked(p)) == Unsafe
    ensures SameFile(v, CreateLinked(p), CreateLinked(p).stage) == Found(true)
    ensures SameFile(v, CreateLinked(p), CreateLinked(p).backup) == NotFound
    ensures NameState(v, CreateLinked(p), CreateLinked(p).stage, 2) == Reported(p.after)
  {
  }

  lemma AfterProbes(v: Volume, p: StagedPath)
    requires StagedWell(v, p)
    ensures SlotState(v, After(p)) == Found(p.after)
    ensures ArtifactState(v, After(p), Stage) == NotFound
    ensures ArtifactState(v, After(p), Backup) == BackupReported(p)
    ensures SameFile(v, After(p), After(p).stage) == NotFound
    ensures SameFile(v, After(p), After(p).backup) in {Found(false), NotFound}
    ensures p.after.Absent? ==> Installable(v, After(p), Backup)
  {
  }

  lemma RestoreLinkedProbes(v: Volume, p: StagedPath)
    requires StagedWell(v, p) && p.after.Absent?
    ensures SlotState(v, RestoreLinked(p)) == Unsafe
    ensures SameFile(v, RestoreLinked(p), RestoreLinked(p).stage) == NotFound
    ensures SameFile(v, RestoreLinked(p), RestoreLinked(p).backup) == Found(true)
    ensures NameState(v, RestoreLinked(p), RestoreLinked(p).backup, 2) == BackupReported(p)
  {
  }

  lemma RestoredProbes(v: Volume, p: StagedPath)
    requires StagedWell(v, p)
    ensures SlotState(v, Restored(p)) == Found(RestoredEvidence(p))
    ensures ArtifactState(v, Restored(p), Stage) == NotFound
    ensures ArtifactState(v, Restored(p), Backup) == NotFound
    ensures SameFile(v, Restored(p), Restored(p).stage) == NotFound
    ensures SameFile(v, Restored(p), Restored(p).backup) == NotFound
  {
  }
}
