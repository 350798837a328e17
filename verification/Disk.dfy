/** The disk: directory entries that become durable when synchronized, an append-only
    journal, and every way a step may fail or the process may crash. */
module Disks {
  import opened Outcomes
  import opened Filesystem
  import opened Records

  /** Which files exist in the state directory. */
  datatype Control = Control(operation: bool, receipt: bool, undo: bool)

  /** A snapshot of the disk.  `live` is what a process sees; `possible` holds every
      state a directory may show after a power loss: the present one and those it had
      since it was last synchronized. */
  datatype World = World(
    volume: Volume,
    live: seq<Entries>,
    possible: seq<set<Entries>>,
    control: Control,
    possibleControl: set<Control>,
    records: seq<Record>,
    receipt: Receipt,
    undoRecords: seq<Record>,
    kills: bool)
  {
    ghost predicate Valid() {
      && |live| == |possible|
      && (forall i | 0 <= i < |live| :: live[i] in possible[i])
      && control in possibleControl
    }
  }

  /** The entries of path `i` are `e`, or may be `e` after a power loss. */
  predicate May(w: World, i: nat, e: Entries) {
    i < |w.possible| && e in w.possible[i]
  }

  /** Nothing of path `i` is waiting for a directory synchronization. */
  predicate Synced(w: World, i: nat) {
    i < |w.possible| && i < |w.live| && w.possible[i] == {w.live[i]}
  }

  /** The power is gone: each directory shows one of its possible states, durably. */
  ghost predicate PowerLost(w: World, c: World) {
    && |c.live| == |w.live| == |w.possible|
    && c == w.(live := c.live, possible := c.possible, control := c.control, possibleControl := c.possibleControl)
    && |c.possible| == |c.live|
    && (forall i | 0 <= i < |c.live| :: c.live[i] in w.possible[i])
    && (forall i | 0 <= i < |c.live| :: c.possible[i] == {c.live[i]})
    && c.control in w.possibleControl && c.possibleControl == {c.control}
  }

  /** What a crash may leave.  With `kills`, it may also be a mere process kill, which
      leaves unsynchronized changes visible and still volatile. */
  ghost predicate CrashOf(w: World, c: World) {
    (w.kills && c == w && w.Valid()) || PowerLost(w, c)
  }

  /** Nothing is waiting for a synchronization. */
  ghost predicate Rebooted(w: World) {
    && |w.live| == |w.possible|
    && (forall i | 0 <= i < |w.live| :: w.possible[i] == {w.live[i]})
    && w.possibleControl == {w.control}
  }

  /** What every crash guarantees. */
  ghost predicate AfterCrash(w: World) {
    w.Valid() && (w.kills || Rebooted(w))
  }

  lemma CrashShrinks(w: World, c: World)
    requires CrashOf(w, c)
    ensures AfterCrash(c)
    ensures |c.live| == |w.live| == |w.possible| && c.possibleControl <= w.possibleControl
    ensures forall i | 0 <= i < |c.live| :: c.possible[i] <= w.possible[i]
    ensures forall i | 0 <= i < |c.live| && Synced(w, i) :: Synced(c, i)
    ensures c == w.(live := c.live, possible := c.possible, control := c.control, possibleControl := c.possibleControl)
  {
  }

  function Changed(w: World, i: nat, e: Entries): World
    requires i < |w.live| == |w.possible|
  {
    w.(live := w.live[i := e], possible := w.possible[i := w.possible[i] + {e}])
  }

  function Flushed(w: World, i: nat): World
    requires i < |w.live| == |w.possible|
  {
    w.(possible := w.possible[i := {w.live[i]}])
  }

  /** The state directory is synchronized: which backup path `i` retains is settled, and nothing
      else of the path is. */
  function StoreFlushed(w: World, i: nat): World
    requires i < |w.live| == |w.possible|
  {
    w.(possible := w.possible[i := set e | e in w.possible[i] :: e.(kept := w.live[i].kept)], possibleControl := {w.control})
  }

  lemma StoreSettled(w: World, i: nat)
    requires i < |w.live| == |w.possible| && w.possible[i] == {w.live[i]}
    ensures StoreFlushed(w, i) == w.(possibleControl := {w.control})
  {
    var e := w.live[i];
    assert (set q | q in w.possible[i] :: q.(kept := e.kept)) == {e.(kept := e.kept)};
    assert StoreFlushed(w, i).possible == w.possible;
  }

  function ControlChanged(w: World, c: Control): World {
    w.(control := c, possibleControl := w.possibleControl + {c})
  }

  /** A new file `ino` with this content under an artifact name of path `i`. */
  function Created(w: World, i: nat, a: Artifact, ino: Ino, file: File): World
    requires i < |w.live| == |w.possible|
  {
    Changed(w.(volume := w.volume.(files := w.volume.files[ino := file])), i, Repoint(w.live[i], a, Some(ino)))
  }

  class Disk {
    var volume: Volume
    var live: seq<Entries>
    var possible: seq<set<Entries>>
    var control: Control
    var possibleControl: set<Control>
    var records: seq<Record>
    var receipt: Receipt
    var undoRecords: seq<Record>
    const kills: bool
    /** The journal writer refuses every append once one has failed midway. */
    var poisoned: bool
    /** How many more steps may fail or crash. */
    var faults: nat

    ghost predicate Valid()
      reads `volume, `live, `possible, `control, `possibleControl, `records, `receipt, `undoRecords
    {
      W().Valid()
    }

    ghost function W(): World
      reads `volume, `live, `possible, `control, `possibleControl, `records, `receipt, `undoRecords
    {
      World(volume, live, possible, control, possibleControl, records, receipt, undoRecords, kills)
    }

    constructor (volume: Volume, live: seq<Entries>, kills: bool, faults: nat)
      ensures Valid() && this.volume == volume && this.live == live && this.kills == kills && this.faults == faults
      ensures forall i | 0 <= i < |live| :: Synced(W(), i)
      ensures control == Control(false, false, false) && possibleControl == {control} && !poisoned
    {
      this.volume, this.live, this.kills, this.faults := volume, live, kills, faults;
      possible := seq(|live|, i requires 0 <= i < |live| => {live[i]});
      control, possibleControl := Control(false, false, false), {Control(false, false, false)};
      records, undoRecords, receipt := [], [], Receipt(0, []);
      poisoned := false;
    }

    /** Decides whether a fault strikes here. */
    method Trouble() returns (strikes: bool)
      modifies `faults
      ensures strikes ==> faults < old(faults)
      ensures !strikes ==> faults == old(faults)
    {
      strikes := *;
      if strikes && faults > 0 {
        faults := faults - 1;
      } else {
        strikes := false;
      }
    }

    /** The power goes: each directory settles in one of its possible states. */
    method LosePower()
      requires Valid()
      modifies this
      ensures Valid() && PowerLost(old(W()), W()) && !poisoned && faults == old(faults)
    {
      poisoned := false;
      var i := 0;
      while i < |live|
        invariant 0 <= i <= |live| == |possible| == |old(live)|
        invariant W() == old(W()).(live := live, possible := possible) && !poisoned && faults == old(faults)
        invariant forall j | 0 <= j < i :: live[j] in old(possible)[j] && possible[j] == {live[j]}
        invariant forall j | i <= j < |live| :: live[j] == old(live)[j] && possible[j] == old(possible)[j]
      {
        assert old(W()).live[i] in possible[i];
        var shown :| shown in possible[i];
        live, possible := live[i := shown], possible[i := {shown}];
        i := i + 1;
      }
      var kept :| kept in possibleControl;
      control, possibleControl := kept, {kept};
    }

    /** The process dies, with or without the power. */
    method Crash()
      requires Valid()
      modifies this
      ensures Valid() && CrashOf(old(W()), W()) && !poisoned && faults == old(faults)
    {
      poisoned := false;
      var power: bool := *;
      if !kills || power {
        LosePower();
      }
    }

    /** The power goes, and path `i` settles in the given one of its possible states; the other
        directories keep what they show. */
    method LosePowerAt(i: nat, e: Entries)
      requires Valid() && i < |live| && e in possible[i]
      modifies this
      ensures Valid() && PowerLost(old(W()), W()) && !poisoned && faults == old(faults)
      ensures live == old(live)[i := e] && control == old(control)
    {
      poisoned := false;
      var shown := live[i := e];
      assert forall j | 0 <= j < |shown| :: j != i ==> shown[j] in possible[j];
      live, possible := shown, seq(|shown|, j requires 0 <= j < |shown| => {shown[j]});
      possibleControl := {control};
    }

    /** One directory operation that turns the entries of path `i` into `e`. */
    method Change(i: nat, e: Entries) returns (o: Outcome)
      requires Valid() && i < |live|
      modifies this
      ensures Valid() && |live| == |old(live)| && (!o.Crashed? ==> poisoned == old(poisoned))
      ensures if o.Done? then faults == old(faults) else faults < old(faults)
      ensures o.Done? ==> W() == Changed(old(W()), i, e)
      ensures o.Failed? ==> o.recoveryRequired && (W() == old(W()) || W() == Changed(old(W()), i, e))
      ensures o.Crashed? ==> CrashOf(old(W()), W())
    {
      var strikes := Trouble();
      if strikes {
        var crash: bool := *;
        if crash {
          Crash();
          return Crashed;
        }
        var applied: bool := *;
        if !applied {
          return Failed(true);
        }
      }
      live, possible := live[i := e], possible[i := possible[i] + {e}];
      o := if strikes then Failed(true) else Done;
    }

    /** A file identity not in use. */
    method FreshIno() returns (ino: Ino)
      ensures ino !in volume.files && ino !in volume.outside
    {
      var used := volume.files.Keys + volume.outside;
      var rest := used;
      ino := 0;
      while rest != {}
        invariant rest <= used && forall k | k in used :: k in rest || k < ino
        decreases |rest|
      {
        var k :| k in rest;
        ino := if k >= ino then k + 1 else ino;
        rest := rest - {k};
      }
    }

    /** Creates, writes and synchronizes a new artifact file.  A failure midway may leave the
        name with any content. */
    method CreateFile(i: nat, a: Artifact, file: File) returns (o: Outcome, ino: Ino, ghost written: File)
      requires Valid() && i < |live|
      modifies this
      ensures Valid() && |live| == |old(live)| && (!o.Crashed? ==> poisoned == old(poisoned))
      ensures ino !in old(volume).files && ino !in old(volume).outside
      ensures if o.Done? then faults == old(faults) else faults < old(faults)
      ensures o.Done? ==> W() == Created(old(W()), i, a, ino, file)
      ensures o.Failed? ==> W() == old(W()) || W() == Created(old(W()), i, a, ino, written)
      ensures o.Crashed? ==> CrashOf(old(W()), W()) || CrashOf(Created(old(W()), i, a, ino, written), W())
    {
      ino := FreshIno();
      var content := file;
      written := file;
      var strikes := Trouble();
      if strikes {
        var untouched: bool := *;
        var crash: bool := *;
        if untouched {
          if crash {
            Crash();
            return Crashed, ino, file;
          }
          return Failed(false), ino, file;
        }
        content := *;
        written := content;
        volume := volume.(files := volume.files[ino := content]);
        live, possible := live[i := Repoint(live[i], a, Some(ino))], possible[i := possible[i] + {Repoint(live[i], a, Some(ino))}];
        if crash {
          Crash();
          return Crashed, ino, written;
        }
        return Failed(false), ino, written;
      }
      volume := volume.(files := volume.files[ino := content]);
      live, possible := live[i := Repoint(live[i], a, Some(ino))], possible[i := possible[i] + {Repoint(live[i], a, Some(ino))}];
      o := Done;
    }

    /** Synchronizes the directories holding the names of path `i`. */
    method SyncParent(i: nat) returns (o: Outcome)
      requires Valid() && i < |live|
      modifies this
      ensures Valid() && |live| == |old(live)| && (!o.Crashed? ==> poisoned == old(poisoned))
      ensures if o.Done? then faults == old(faults) else faults < old(faults)
      ensures o.Done? ==> W() == Flushed(old(W()), i)
      ensures o.Failed? ==> o.recoveryRequired && W() == old(W())
      ensures o.Crashed? ==> CrashOf(old(W()), W())
    {
      var strikes := Trouble();
      if strikes {
        var crash: bool := *;
        if crash {
          Crash();
          return Crashed;
        }
        return Failed(true);
      }
      possible := possible[i := {live[i]}];
      o := Done;
    }

    /** One operation on the state directory's own files. */
    method ChangeControl(c: Control) returns (o: Outcome)
      requires Valid()
      modifies this
      ensures Valid() && |live| == |old(live)| && (!o.Crashed? ==> poisoned == old(poisoned))
      ensures if o.Done? then faults == old(faults) else faults < old(faults)
      ensures o.Done? ==> W() == ControlChanged(old(W()), c)
      ensures o.Failed? ==> o.recoveryRequired && (W() == old(W()) || W() == ControlChanged(old(W()), c))
      ensures o.Crashed? ==> CrashOf(old(W()), W())
    {
      var strikes := Trouble();
      if strikes {
        var crash: bool := *;
        if crash {
          Crash();
          return Crashed;
        }
        var applied: bool := *;
        if !applied {
          return Failed(true);
        }
      }
      control, possibleControl := c, possibleControl + {c};
      o := if strikes then Failed(true) else Done;
    }

    method SyncControl() returns (o: Outcome)
      requires Valid()
      modifies this
      ensures Valid() && |live| == |old(live)| && (!o.Crashed? ==> poisoned == old(poisoned))
      ensures if o.Done? then faults == old(faults) else faults < old(faults)
      ensures o.Done? ==> W() == old(W()).(possibleControl := {old(control)})
      ensures o.Failed? ==> o.recoveryRequired && W() == old(W())
      ensures o.Crashed? ==> CrashOf(old(W()), W())
    {
      var strikes := Trouble();
      if strikes {
        var crash: bool := *;
        if crash {
          Crash();
          return Crashed;
        }
        return Failed(true);
      }
      possibleControl := {control};
      o := Done;
    }

    /** Appends one synchronized record.  A failure midway poisons the writer and may
        leave the record durable; a refusal before writing (the byte limit) does not. */
    method Append(r: Record) returns (o: Outcome)
      requires Valid()
      modifies this
      ensures Valid() && |live| == |old(live)|
      ensures o.Done? ==> !old(poisoned) && !poisoned && W() == old(W()).(records := old(records) + [r])
      ensures o.Failed? ==>
                o.recoveryRequired && (W() == old(W()) || (poisoned && !old(poisoned) && W() == old(W()).(records := old(records) + [r])))
      ensures old(poisoned) ==> o.Failed? && poisoned && faults == old(faults)
      ensures o.Crashed? ==> CrashOf(old(W()), W()) || CrashOf(old(W()).(records := old(records) + [r]), W())
      ensures o.Done? ==> faults == old(faults)
      ensures !o.Done? && !old(poisoned) ==> faults < old(faults)
      ensures faults <= old(faults)
    {
      if poisoned {
        return Failed(true);
      }
      var strikes := Trouble();
      if strikes {
        var refused: bool := *;
        if refused {
          return Failed(true);
        }
        var written: bool := *;
        if written {
          records := records + [r];
        }
        var crash: bool := *;
        if crash {
          Crash();
          return Crashed;
        }
        poisoned := true;
        return Failed(true);
      }
      records := records + [r];
      o := Done;
    }

    /** Appends one synchronized record to the undo journal. */
    method AppendUndo(r: Record) returns (o: Outcome)
      requires Valid()
      modifies this
      ensures Valid() && |live| == |old(live)|
      ensures o.Done? ==> !old(poisoned) && !poisoned && W() == old(W()).(undoRecords := old(undoRecords) + [r])
      ensures o.Failed? ==> o.recoveryRequired && (W() == old(W()) || W() == old(W()).(undoRecords := old(undoRecords) + [r]))
      ensures o.Crashed? ==> CrashOf(old(W()), W()) || CrashOf(old(W()).(undoRecords := old(undoRecords) + [r]), W())
      ensures o.Done? ==> faults == old(faults)
      ensures !o.Done? && !old(poisoned) ==> faults < old(faults)
      ensures faults <= old(faults)
    {
      if poisoned {
        return Failed(true);
      }
      var strikes := Trouble();
      if strikes {
        var written: bool := *;
        if written {
          undoRecords := undoRecords + [r];
        }
        var crash: bool := *;
        if crash {
          Crash();
          return Crashed;
        }
        var refused: bool := *;
        poisoned := written || !refused;
        return Failed(true);
      }
      undoRecords := undoRecords + [r];
      o := Done;
    }

    /** Synchronizes the state directory, which holds the retained backups; path `i`'s own
        directory is not synchronized. */
    method SyncStore(i: nat) returns (o: Outcome)
      requires Valid() && i < |live|
      modifies this
      ensures Valid() && |live| == |old(live)| && (!o.Crashed? ==> poisoned == old(poisoned))
      ensures if o.Done? then faults == old(faults) else faults < old(faults)
      ensures o.Done? ==> W() == StoreFlushed(old(W()), i)
      ensures o.Failed? ==> o.recoveryRequired && W() == old(W())
      ensures o.Crashed? ==> CrashOf(old(W()), W())
    {
      var strikes := Trouble();
      if strikes {
        var crash: bool := *;
        if crash {
          Crash();
          return Crashed;
        }
        return Failed(true);
      }
      possible := possible[i := set e | e in possible[i] :: e.(kept := live[i].kept)];
      possibleControl := {control};
      o := Done;
    }

    /** Inspects the slot; a read fault shows as `Unsafe`. */
    method ReadSlot(i: nat) returns (p: Probe<SlotEvidence>)
      requires Valid() && i < |live|
      modifies `faults
      ensures (p == SlotState(volume, live[i]) && faults == old(faults)) || (p == Unsafe && faults < old(faults))
    {
      var strikes := Trouble();
      p := if strikes then Unsafe else SlotState(volume, live[i]);
    }

    method ReadArtifact(i: nat, a: Artifact) returns (p: Probe<PresentEvidence>)
      requires Valid() && i < |live|
      modifies `faults
      ensures (p == ArtifactState(volume, live[i], a) && faults == old(faults)) || (p == Unsafe && faults < old(faults))
    {
      var strikes := Trouble();
      p := if strikes then Unsafe else ArtifactState(volume, live[i], a);
    }

    method ReadKept(i: nat) returns (p: Probe<PresentEvidence>)
      requires Valid() && i < |live|
      modifies `faults
      ensures (p == NameState(volume, live[i], live[i].kept, 1) && faults == old(faults)) || (p == Unsafe && faults < old(faults))
    {
      var strikes := Trouble();
      p := if strikes then Unsafe else NameState(volume, live[i], live[i].kept, 1);
    }

    method ReadLinked(i: nat, a: Artifact) returns (p: Probe<PresentEvidence>)
      requires Valid() && i < |live|
      modifies `faults
      ensures (p == NameState(volume, live[i], Named(live[i], a), 2) && faults == old(faults)) || (p == Unsafe && faults < old(faults))
    {
      var strikes := Trouble();
      p := if strikes then Unsafe else NameState(volume, live[i], Named(live[i], a), 2);
    }

    method ReadSameKept(i: nat) returns (p: Probe<bool>)
      requires Valid() && i < |live|
      modifies `faults
      ensures (p == SameFile(volume, live[i], live[i].kept) && faults == old(faults)) || (p == Unsafe && faults < old(faults))
    {
      var strikes := Trouble();
      p := if strikes then Unsafe else SameFile(volume, live[i], live[i].kept);
    }

    method ReadLinkedKept(i: nat) returns (p: Probe<PresentEvidence>)
      requires Valid() && i < |live|
      modifies `faults
      ensures (p == NameState(volume, live[i], live[i].kept, 2) && faults == old(faults)) || (p == Unsafe && faults < old(faults))
    {
      var strikes := Trouble();
      p := if strikes then Unsafe else NameState(volume, live[i], live[i].kept, 2);
    }

    method ReadSameFile(i: nat, a: Artifact) returns (p: Probe<bool>)
      requires Valid() && i < |live|
      modifies `faults
      ensures (p == SameFile(volume, live[i], Named(live[i], a)) && faults == old(faults)) || (p == Unsafe && faults < old(faults))
    {
      var strikes := Trouble();
      p := if strikes then Unsafe else SameFile(volume, live[i], Named(live[i], a));
    }

    /** The exact-state check every protocol step starts from. */
    method VerifySlot(i: nat, expected: SlotEvidence) returns (ok: bool)
      requires Valid() && i < |live|
      modifies `faults
      ensures ok ==> SlotState(volume, live[i]) == Found(expected) && faults == old(faults)
      ensures !ok ==> (SlotState(volume, live[i]) != Found(expected) && faults == old(faults)) || faults < old(faults)
    {
      var p := ReadSlot(i);
      ok := p == Found(expected);
    }
  }
}
