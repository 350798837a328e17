/** What recovery's checks mean on the files themselves: bytes, length, permissions and identity. */
module Exactness {
  import opened Outcomes
  import opened Filesystem
  import opened Records
  import opened Replay
  import opened Verdicts

  /** The slot shows what the journal's outcome says: the output of a finished commit, the input otherwise. */
  predicate ShowsOutcome(st: State, i: nat, v: Volume, e: Entries)
    requires i < |st.paths|
  {
    if st.finished == Some(Committed) then HoldsAfter(st.paths[i], v, e) else HoldsBefore(st.paths[i], v, e)
  }

  /** The name holds a file with exactly the bytes, length and permissions of the specification. */
  predicate FileFits(v: Volume, name: Option<Ino>, spec: PresentSpec) {
    && name.Some? && name.value in v.files
    && Sha256(v.files[name.value].bytes) == spec.sha256
    && |v.files[name.value].bytes| == spec.bytes
    && v.files[name.value].permissions == spec.permissions
  }

  /** The slot shows the journaled input: absent, or its bytes and permissions in the input's own file
      or in its backup. */
  predicate HoldsBefore(p: RecoveryPath, v: Volume, e: Entries) {
    match p.before
    case AbsentSpec => e.slot == None
    case SpecPresent(spec) =>
      && FileFits(v, e.slot, spec)
      && (spec.identity.Some? && p.backupIdentity.Some? ==> e.slot == spec.identity || e.slot == p.backupIdentity)
  }

  /** The slot shows the journaled output: absent, or its bytes and permissions in the staged file. */
  predicate HoldsAfter(p: RecoveryPath, v: Volume, e: Entries) {
    match p.after
    case AbsentSpec => e.slot == None
    case SpecPresent(spec) =>
      && FileFits(v, e.slot, spec)
      && (p.stageIdentity.Some? ==> e.slot == p.stageIdentity)
      && (p.stageIdentity.None? && spec.identity.Some? ==> e.slot == spec.identity)
  }

  /** The slot holds nothing, or one writable regular file that has no other name. */
  predicate Plain(v: Volume, e: Entries) {
    e.slot.Some? ==>
      && e.slot.value in v.files && e.slot.value !in v.outside && !v.files[e.slot.value].permissions.readonly
      && e.slot != e.stage && e.slot != e.backup && e.slot != e.kept
  }

  /** Slot and `name` are the only two names of one regular file. */
  predicate TwoNames(v: Volume, e: Entries, name: Option<Ino>) {
    && e.slot.Some? && e.slot == name && e.slot.value in v.files && e.slot.value !in v.outside && Links(e, e.slot.value) == 2
  }

  lemma PlainIff(v: Volume, e: Entries)
    ensures SlotState(v, e).Found? <==> Plain(v, e)
    ensures Plain(v, e) ==> SlotState(v, e).value.Identity() == e.slot
  {
  }

  /** The checks against the journal, said of the file in the slot. */
  lemma MatchesIff(p: RecoveryPath, v: Volume, e: Entries)
    requires Plain(v, e)
    ensures MatchesBefore(p, SlotState(v, e).value) <==> HoldsBefore(p, v, e)
    ensures MatchesAfter(p, SlotState(v, e).value) <==> HoldsAfter(p, v, e)
  {
  }

  /** The two names can be told apart from one, which needs both to be regular files. */
  predicate Alike(v: Volume, e: Entries, name: Option<Ino>) {
    e.slot.None? || name.None? || (e.slot.value in v.files && name.value in v.files && !TwoNames(v, e, name))
  }

  /** A deleted file is being put back, at its two-link point. */
  predicate RestoreAtLink(p: RecoveryPath, v: Volume, e: Entries) {
    && p.before.SpecPresent? && p.after.AbsentSpec? && p.backupName.Some?
    && TwoNames(v, e, e.backup) && FileFits(v, e.slot, p.before.spec)
    && (p.backupIdentity.Some? ==> e.slot == p.backupIdentity)
  }

  /** A file is being created, at its two-link point. */
  predicate CreateAtLink(p: RecoveryPath, v: Volume, e: Entries) {
    && p.before.AbsentSpec? && p.stageName.Some? && p.after.SpecPresent?
    && TwoNames(v, e, e.stage) && FileFits(v, e.slot, p.after.spec)
    && (p.stageIdentity.Some? ==> e.slot == p.stageIdentity)
  }

  lemma LinkedIff(p: RecoveryPath, v: Volume, e: Entries)
    ensures LinkedRestore(p, v, e) == ExactLink <==> RestoreAtLink(p, v, e)
    ensures LinkedCreate(p, v, e) == ExactLink <==> CreateAtLink(p, v, e)
    ensures LinkedRestore(p, v, e) == NotLinked <==>
            (p.before.SpecPresent? && p.after.AbsentSpec? && p.backupName.Some? ==> Alike(v, e, e.backup))
    ensures LinkedCreate(p, v, e) == NotLinked <==>
            (p.before.AbsentSpec? && p.stageName.Some? ==> Alike(v, e, e.stage))
  {
  }

  /** Neither two-link point shows. */
  predicate Unlinked(p: RecoveryPath, v: Volume, e: Entries) {
    && (p.before.SpecPresent? && p.after.AbsentSpec? && p.backupName.Some? ==> Alike(v, e, e.backup))
    && (p.before.AbsentSpec? && p.stageName.Some? ==> Alike(v, e, e.stage))
  }

  /** Exactly the states recovery's rollback goes past: a two-link point under the matching intent, the
      input, or the output of a commit that was intended and not rolled back. */
  predicate Resolvable(st: State, i: nat, v: Volume, e: Entries)
    requires i < |st.paths|
  {
    var p := st.paths[i];
    || (RestoreAtLink(p, v, e) && i in st.rollbackIntents && i !in st.rolledBack)
    || (CreateAtLink(p, v, e) && i in st.commitIntents && i !in st.rolledBack)
    || (Unlinked(p, v, e) && Plain(v, e)
        && (HoldsBefore(p, v, e) || (HoldsAfter(p, v, e) && i in st.commitIntents && i !in st.rolledBack)))
  }

  lemma JudgeIff(st: State, i: nat, v: Volume, e: Entries)
    requires i < |st.paths|
    ensures Judge(st, i, v, e) != Refuse <==> Resolvable(st, i, v, e)
    ensures Judge(st, i, v, e) == Keep ==> HoldsBefore(st.paths[i], v, e)
    ensures Judge(st, i, v, e) == FinishRestore <==> RestoreAtLink(st.paths[i], v, e) && i in st.rollbackIntents && i !in st.rolledBack
    ensures Judge(st, i, v, e) == ReverseCreate <==> CreateAtLink(st.paths[i], v, e) && i in st.commitIntents && i !in st.rolledBack
    ensures Judge(st, i, v, e) == PutBack <==>
            && Unlinked(st.paths[i], v, e) && Plain(v, e) && i in st.commitIntents && i !in st.rolledBack
            && HoldsAfter(st.paths[i], v, e) && !HoldsBefore(st.paths[i], v, e)
    ensures Judge(st, i, v, e) == Attest <==>
            && Unlinked(st.paths[i], v, e) && Plain(v, e) && i in st.commitIntents && i !in st.rolledBack && HoldsBefore(st.paths[i], v, e)
  {
    hide MatchesBefore, MatchesAfter, LinkedRestore, LinkedCreate, FileFits, SlotState, TwoNames, HoldsBefore, HoldsAfter;
    var p := st.paths[i];
    LinkedIff(p, v, e);
    PlainIff(v, e);
    LinkedOnce(p, v, e);
    if Plain(v, e) { MatchesIff(p, v, e); }
  }

  lemma LinkedOnce(p: RecoveryPath, v: Volume, e: Entries)
    ensures RestoreAtLink(p, v, e) || CreateAtLink(p, v, e) ==> !Unlinked(p, v, e)
    ensures RestoreAtLink(p, v, e) ==> !CreateAtLink(p, v, e)
  {
  }

  /** A slot found to be the input, in whichever of its two files. */
  lemma ShownBefore(p: RecoveryPath, v: Volume, e: Entries)
    requires SlotState(v, e).Found?
    requires MatchesBefore(p, SlotState(v, e).value)
             || (p.before.SpecPresent? && MatchesPresent(p.before.spec, SlotState(v, e).value, p.backupIdentity))
    ensures HoldsBefore(p, v, e)
  {
  }

  /** The backup that goes back has exactly the input's bytes, length and permissions. */
  lemma BackupIff(p: RecoveryPath, v: Volume, e: Entries)
    requires p.before.SpecPresent? && p.backupName.Some?
    ensures BackupMatches(p, v, e) <==>
            && FileFits(v, e.backup, p.before.spec) && (p.backupIdentity.Some? ==> e.backup == p.backupIdentity)
            && e.backup.value !in v.outside && Links(e, e.backup.value) == 1
  {
  }
}
