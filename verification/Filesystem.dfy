/** Regular files, exact slot evidence, and the directory entries one transaction owns
    at one path. */
module Filesystem {
  import opened Outcomes

  newtype byte = x: int | 0 <= x < 256

  /** A file's identity on the root device. */
  type Ino = nat

  datatype Permissions = Permissions(readonly: bool, mode: nat)

  datatype File = File(bytes: seq<byte>, permissions: Permissions)

  /** SHA-256 modelled as collision free. */
  datatype Digest = Sha256(preimage: seq<byte>)

  datatype PresentEvidence = PresentEvidence(sha256: Digest, bytes: nat, identity: Ino, permissions: Permissions)

  datatype SlotEvidence = Absent | Present(evidence: PresentEvidence)
  {
    function Identity(): Option<Ino> {
      match this
      case Absent => None
      case Present(e) => Some(e.identity)
    }
  }

  /** The regular files of the root device, and those with a hard link outside the
      names a transaction manages. */
  datatype Volume = Volume(files: map<Ino, File>, outside: set<Ino>)

  /** The names one path index owns: the target slot, the two adjacent artifacts, and
      the retained backup in the state directory. */
  datatype Entries = Entries(slot: Option<Ino>, stage: Option<Ino>, backup: Option<Ino>, kept: Option<Ino>)

  datatype Artifact = Stage | Backup

  function Named(e: Entries, a: Artifact): Option<Ino> {
    match a
    case Stage => e.stage
    case Backup => e.backup
  }

  function Repoint(e: Entries, a: Artifact, to: Option<Ino>): Entries {
    match a
    case Stage => e.(stage := to)
    case Backup => e.(backup := to)
  }

  function Count(name: Option<Ino>, ino: Ino): nat {
    if name == Some(ino) then 1 else 0
  }

  function Links(e: Entries, ino: Ino): nat {
    Count(e.slot, ino) + Count(e.stage, ino) + Count(e.backup, ino) + Count(e.kept, ino)
  }

  /** `ino` is a regular file whose link count is exactly `n`. */
  predicate HasLinks(v: Volume, e: Entries, ino: Ino, n: nat) {
    ino in v.files && ino !in v.outside && Links(e, ino) == n
  }

  function Evidence(v: Volume, ino: Ino): PresentEvidence
    requires ino in v.files
  {
    PresentEvidence(Sha256(v.files[ino].bytes), |v.files[ino].bytes|, ino, v.files[ino].permissions)
  }

  /** What inspecting a name reports: `Unsafe` covers every kind of rejected entry. */
  datatype Probe<+T> = Found(value: T) | NotFound | Unsafe

  /** The exact state of the slot.  Only a single-link, writable, regular file is
      accepted as a present slot. */
  function SlotState(v: Volume, e: Entries): Probe<SlotEvidence> {
    match e.slot
    case None => Found(Absent)
    case Some(ino) =>
      if HasLinks(v, e, ino, 1) && !v.files[ino].permissions.readonly
      then Found(Present(Evidence(v, ino)))
      else Unsafe
  }

  function NameState(v: Volume, e: Entries, name: Option<Ino>, links: nat): Probe<PresentEvidence> {
    match name
    case None => NotFound
    case Some(ino) => if HasLinks(v, e, ino, links) then Found(Evidence(v, ino)) else Unsafe
  }

  function ArtifactState(v: Volume, e: Entries, a: Artifact): Probe<PresentEvidence> {
    NameState(v, e, Named(e, a), 1)
  }

  /** Whether the slot and `name` are the two links of one file. */
  function SameFile(v: Volume, e: Entries, name: Option<Ino>): Probe<bool> {
    if e.slot.None? || name.None? then NotFound
    else if e.slot.value !in v.files || name.value !in v.files then Unsafe
    else Found(e.slot == name && HasLinks(v, e, e.slot.value, 2))
  }

  /** What a reader of the tree sees in a slot. */
  function Content(v: Volume, e: Entries): Option<File> {
    if e.slot.Some? && e.slot.value in v.files then Some(v.files[e.slot.value]) else None
  }
}
