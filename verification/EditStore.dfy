/** What the V1 edit transaction works on: a target, its stage and its backup for each file, the
    journal, and every way a step may fail or the process may crash. */
module EditStore {
  import opened Outcomes
  import opened Filesystem
  import opened EditJournal

  datatype Node = Node(bytes: seq<byte>, identity: Ino)

  datatype Names = Names(target: Option<Node>, stage: Option<Node>, backup: Option<Node>)

  /** A snapshot.  `possible` holds every state a directory may show after a power loss. */
  datatype Desk = Desk(live: seq<Names>, possible: seq<set<Names>>, records: seq<EditRecord>, journal: bool, possibleJournal: set<bool>)
  {
    ghost predicate Valid() {
      && |live| == |possible| && (forall i | 0 <= i < |live| :: live[i] in possible[i])
      && journal in possibleJournal
    }
  }

  /** A crash, with or without the power: nothing shows that was not possible. */
  ghost predicate CrashOf(w: Desk, c: Desk) {
    && c.Valid() && |c.live| == |w.live| == |w.possible| && c.records == w.records
    && (forall i | 0 <= i < |c.live| :: c.possible[i] <= w.possible[i])
    && c.possibleJournal <= w.possibleJournal
  }

  function Moved(w: Desk, i: nat, e: Names): Desk
    requires i < |w.live| == |w.possible|
  {
    w.(live := w.live[i := e], possible := w.possible[i := w.possible[i] + {e}])
  }

  function Synced(w: Desk, i: nat): Desk
    requires i < |w.live| == |w.possible|
  {
    w.(possible := w.possible[i := {w.live[i]}])
  }

  function ArtifactOf(e: Names, a: Artifact): Option<Node> {
    match a
    case Stage => e.stage
    case Backup => e.backup
  }

  function Without(e: Names, a: Artifact): Names {
    match a
    case Stage => e.(stage := None)
    case Backup => e.(backup := None)
  }

  /** The artifact replaces the target in one rename. */
  function Renamed(e: Names, a: Artifact): Names {
    Without(e, a).(target := ArtifactOf(e, a))
  }

  class Store {
    var desk: Desk
    var poisoned: bool
    var faults: nat

    ghost predicate Valid()
      reads this
    {
      desk.Valid()
    }

    constructor (desk: Desk, faults: nat)
      requires desk.Valid()
      ensures Valid() && this.desk == desk && this.faults == faults && !poisoned
    {
      this.desk, this.faults, poisoned := desk, faults, false;
    }

    method Trouble() returns (strikes: bool)
      modifies `faults
      ensures strikes ==> faults < old(faults)
      ensures !strikes ==> faults == old(faults)
    {
      strikes := *;
      if strikes && faults > 0 { faults := faults - 1; } else { strikes := false; }
    }

    /** Each directory shows one of its possible states, durably; or the process alone is gone. */
    method Crash()
      requires Valid()
      modifies this
      ensures CrashOf(old(desk), desk) && !poisoned && faults == old(faults)
    {
      poisoned := false;
      var power: bool := *;
      if power {
        var i := 0;
        while i < |desk.live|
          invariant 0 <= i <= |desk.live| == |desk.possible| == |old(desk).live|
          invariant CrashOf(old(desk), desk) && !poisoned && faults == old(faults)
        {
          assert desk.live[i] in desk.possible[i];
          var shown :| shown in desk.possible[i];
          desk := desk.(live := desk.live[i := shown], possible := desk.possible[i := {shown}]);
          i := i + 1;
        }
        var kept :| kept in desk.possibleJournal;
        desk := desk.(journal := kept, possibleJournal := {kept});
      }
    }

    /** A process that dies here, or an error. */
    method Fault() returns (o: Outcome)
      requires Valid()
      modifies this
      ensures Valid() && faults == old(faults) && !o.Done?
      ensures o.Failed? ==> o.recoveryRequired && desk == old(desk) && poisoned == old(poisoned)
      ensures o.Crashed? ==> CrashOf(old(desk), desk)
    {
      var crash: bool := *;
      if crash {
        Crash();
        return Crashed;
      }
      o := Failed(true);
    }

    /** `JournalWriter::append`: a failed append may or may not be durable, and is the writer's last. */
    method Append(r: EditRecord) returns (o: Outcome)
      requires Valid()
      modifies this
      ensures Valid() && (o.Done? ==> faults == old(faults) && !old(poisoned))
      ensures !o.Done? ==> faults < old(faults) || (old(poisoned) && faults == old(faults))
      ensures o.Done? ==> desk == old(desk).(records := old(desk).records + [r]) && !poisoned
      ensures o.Failed? ==> o.recoveryRequired && poisoned
                            && desk in {old(desk), old(desk).(records := old(desk).records + [r])}
      ensures o.Crashed? ==> CrashOf(old(desk), desk) || CrashOf(old(desk).(records := old(desk).records + [r]), desk)
    {
      if poisoned { return Failed(true); }
      var strikes := Trouble();
      if strikes {
        poisoned := true;
        var durable: bool := *;
        if durable { desk := desk.(records := desk.records + [r]); }
        o := Fault();
        return;
      }
      desk := desk.(records := desk.records + [r]);
      o := Done;
    }

    /** `rename_from` */
    method RenameFrom(i: nat, a: Artifact) returns (o: Outcome)
      requires Valid() && i < |desk.live|
      modifies this
      ensures Valid() && (!o.Crashed? ==> poisoned == old(poisoned))
      ensures o.Done? ==> faults == old(faults) && ArtifactOf(old(desk).live[i], a).Some?
                          && desk == Moved(old(desk), i, Renamed(old(desk).live[i], a))
      ensures !o.Done? ==>
                faults < old(faults) || (ArtifactOf(old(desk).live[i], a).None? && desk == old(desk) && o == Failed(true))
      ensures o.Failed? ==> o.recoveryRequired &&
                            (desk == old(desk) ||
                             (ArtifactOf(old(desk).live[i], a).Some? && desk == Moved(old(desk), i, Renamed(old(desk).live[i], a))))
      ensures o.Crashed? ==> CrashOf(old(desk), desk) ||
                             (ArtifactOf(old(desk).live[i], a).Some? && CrashOf(Moved(old(desk), i, Renamed(old(desk).live[i], a)), desk))
    {
      if ArtifactOf(desk.live[i], a).None? { return Failed(true); }
      var strikes := Trouble();
      var applied: bool := *;
      if !strikes || applied {
        var e := Renamed(desk.live[i], a);
        desk := desk.(live := desk.live[i := e], possible := desk.possible[i := desk.possible[i] + {e}]);
      }
      if strikes {
        o := Fault();
        return;
      }
      o := Done;
    }

    /** `sync_parent` */
    method SyncParent(i: nat) returns (o: Outcome)
      requires Valid() && i < |desk.live|
      modifies this
      ensures Valid() && (!o.Crashed? ==> poisoned == old(poisoned))
      ensures o.Done? ==> faults == old(faults) && desk == Synced(old(desk), i)
      ensures !o.Done? ==> faults < old(faults)
      ensures o.Failed? ==> o.recoveryRequired && desk == old(desk)
      ensures o.Crashed? ==> CrashOf(old(desk), desk)
    {
      var strikes := Trouble();
      if strikes {
        o := Fault();
        return;
      }
      desk := desk.(possible := desk.possible[i := {desk.live[i]}]);
      o := Done;
    }

    /** `remove_artifact`: an absent artifact is left alone, without a synchronization. */
    method RemoveArtifact(i: nat, a: Artifact) returns (o: Outcome)
      requires Valid() && i < |desk.live|
      modifies this
      ensures Valid() && (!o.Crashed? ==> poisoned == old(poisoned))
      ensures if o.Done? then faults == old(faults) else faults < old(faults)
      ensures var gone := Moved(old(desk), i, Without(old(desk).live[i], a));
              && (o.Done? ==> desk == if ArtifactOf(old(desk).live[i], a).Some? then Synced(gone, i) else old(desk))
              && (o.Failed? ==> o.recoveryRequired && desk in {old(desk), gone})
              && (o.Crashed? ==> CrashOf(old(desk), desk) || CrashOf(gone, desk))
    {
      var strikes := Trouble();
      if strikes {
        var applied: bool := *;
        if applied {
          var e := Without(desk.live[i], a);
          desk := desk.(live := desk.live[i := e], possible := desk.possible[i := desk.possible[i] + {e}]);
        }
        o := Fault();
        return;
      }
      if ArtifactOf(desk.live[i], a).Some? {
        var e := Without(desk.live[i], a);
        desk := desk.(live := desk.live[i := e], possible := desk.possible[i := {e}]);
      }
      o := Done;
    }

    /** `remove_journal` */
    method RemoveJournal() returns (o: Outcome)
      requires Valid()
      modifies this
      ensures Valid() && (!o.Crashed? ==> poisoned == old(poisoned))
      ensures if o.Done? then faults == old(faults) else faults < old(faults)
      ensures var gone := old(desk).(journal := false, possibleJournal := old(desk).possibleJournal + {false});
              && (o.Done? ==> desk == gone.(possibleJournal := {false}))
              && (o.Failed? ==> o.recoveryRequired && desk in {old(desk), gone})
              && (o.Crashed? ==> CrashOf(old(desk), desk) || CrashOf(gone, desk))
    {
      var strikes := Trouble();
      if strikes {
        var applied: bool := *;
        if applied {
          desk := desk.(journal := false, possibleJournal := desk.possibleJournal + {false});
        }
        o := Fault();
        return;
      }
      desk := desk.(journal := false, possibleJournal := {false});
      o := Done;
    }

    /** `verify_target`: by hash, and by identity where one is expected. */
    method VerifyTarget(i: nat, hash: Digest, identity: Option<Ino>) returns (ok: bool)
      requires i < |desk.live|
      modifies `faults
      ensures ok ==> faults == old(faults) && TargetMatches(desk.live[i], hash, identity)
      ensures !ok ==> faults < old(faults) || (faults == old(faults) && !TargetMatches(desk.live[i], hash, identity))
    {
      var strikes := Trouble();
      ok := !strikes && TargetMatches(desk.live[i], hash, identity);
    }

    /** `target_hash`: a missing target is an error like any other. */
    method TargetHash(i: nat) returns (hash: Option<Digest>)
      requires i < |desk.live|
      modifies `faults
      ensures hash.Some? ==> faults == old(faults) && Holds(desk.live[i].target, hash.value)
      ensures hash.None? ==> faults < old(faults) || (faults == old(faults) && desk.live[i].target.None?)
    {
      var strikes := Trouble();
      if strikes || desk.live[i].target.None? { return None; }
      hash := Some(Sha256(desk.live[i].target.value.bytes));
    }

    /** `verify_artifact`, by hash. */
    method VerifyArtifact(i: nat, a: Artifact, hash: Digest) returns (ok: bool)
      requires i < |desk.live|
      modifies `faults
      ensures ok ==> faults == old(faults) && Holds(ArtifactOf(desk.live[i], a), hash)
      ensures !ok ==> faults < old(faults) || (faults == old(faults) && !Holds(ArtifactOf(desk.live[i], a), hash))
    {
      var strikes := Trouble();
      ok := !strikes && Holds(ArtifactOf(desk.live[i], a), hash);
    }
  }

  predicate Holds(node: Option<Node>, hash: Digest) {
    node.Some? && Sha256(node.value.bytes) == hash
  }

  predicate TargetMatches(e: Names, hash: Digest, identity: Option<Ino>) {
    Holds(e.target, hash) && (identity.Some? ==> e.target.value.identity == identity.value)
  }
}
