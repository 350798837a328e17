/** The V3 operation journal's record vocabulary. */
module Records {
  import opened Outcomes
  import opened Filesystem

  type TransactionId = nat

  /** A repository-relative path with its portable key; two spellings with one key
      alias portably. */
  datatype PathName = PathName(key: nat, spelling: nat)

  datatype ArtifactName = ArtifactName(transaction: TransactionId, index: nat, artifact: Artifact)

  datatype PresentSpec = PresentSpec(sha256: Digest, bytes: nat, permissions: Permissions, identity: Option<Ino>)

  datatype StateSpec = AbsentSpec | SpecPresent(spec: PresentSpec)

  datatype Kind = Modify | Create | Delete | Rename | Unknown

  datatype OperationRecord = OperationRecord(
    kind: Kind,
    source: Option<PathName>,
    destination: Option<PathName>,
    oldSha256: Option<Digest>,
    newSha256: Option<Digest>,
    bytesBefore: nat,
    bytesAfter: nat,
    editCount: nat)

  /** One staged path of a prepared transaction. */
  datatype StagedPath = StagedPath(path: PathName, before: SlotEvidence, after: SlotEvidence, backup: Option<PresentEvidence>)

  /** The undo receipt a retained commit stores: the exact evidence of every path. */
  datatype Receipt = Receipt(transaction: TransactionId, paths: seq<StagedPath>)

  /** What a journal header binds: a plan fingerprint, or the checksum of a receipt
      (modelled as collision free, hence as the receipt). */
  datatype Contract = PlanContract(fingerprint: nat) | ReceiptContract(receipt: Receipt)

  datatype FinishOutcome = Committed | RolledBack | Aborted

  datatype Record =
    | Header(transaction: TransactionId, contract: Contract, operationCount: nat, pathCount: nat)
    | Operation(index: nat, operation: OperationRecord)
    | PathIntent(index: nat, path: PathName, before: StateSpec, after: StateSpec,
                 stageName: Option<ArtifactName>, backupName: Option<ArtifactName>)
    | PathStaged(index: nat, stageIdentity: Option<Ino>, backupIdentity: Option<Ino>)
    | Prepared(operationCount: nat, pathCount: nat)
    | CommitIntent(index: nat)
    | CommitDone(index: nat)
    | RollbackIntent(index: nat)
    | RollbackDone(index: nat)
    | Finished(outcome: FinishOutcome)

  datatype Limits = Limits(maxFiles: nat, maxSourceBytes: nat, maxOutputBytes: nat, maxEdits: nat)
}
