/** A receipt stops working for good once a slot it recorded as present has been replaced or removed. */
module Invalidation {
  import opened Outcomes
  import opened Filesystem
  import opened Records
  import opened Disks
  import opened Protocol
  import opened UndoStates
  import opened Undos
  import opened UndoRecovery
  import Recovery
  import Replay
  import Transactions

  type SlotIdentities = seq<Option<Ino>>

  function Shown(w: World): SlotIdentities {
    seq(|w.live|, i requires 0 <= i < |w.live| => w.live[i].slot)
  }

  function Befores(t: Transaction): SlotIdentities {
    seq(|t.paths|, i requires 0 <= i < |t.paths| => t.paths[i].before.Identity())
  }

  function Afters(t: Transaction): SlotIdentities {
    seq(|t.paths|, i requires 0 <= i < |t.paths| => t.paths[i].after.Identity())
  }

  /** One completed transaction or undo: each slot is as it was, or absent, or holds a file whose
      identity no earlier transaction had staged. */
  ghost predicate Turn(staged: set<Ino>, before: SlotIdentities, after: SlotIdentities) {
    && |after| == |before|
    && forall i | 0 <= i < |before| :: after[i] == before[i] || after[i].None? || after[i].value !in staged
  }

  datatype Moment = Moment(slots: SlotIdentities, staged: set<Ino>)

  /** Completed transactions and undos, one after the other. */
  ghost predicate History(moments: seq<Moment>) {
    forall n | 0 <= n < |moments| - 1 ::
      moments[n].staged <= moments[n + 1].staged && Turn(moments[n].staged, moments[n].slots, moments[n + 1].slots)
  }

  /** The identities of the files a transaction staged. */
  function StagedBy(t: Transaction): set<Ino> {
    set i | 0 <= i < |t.paths| && t.paths[i].after.Present? :: t.paths[i].after.evidence.identity
  }

  /** No transaction had staged the files this one backed up. */
  ghost predicate NewBackups(t: Transaction, staged: set<Ino>) {
    forall i | 0 <= i < |t.paths| && t.paths[i].backup.Some? :: t.paths[i].backup.value.identity !in staged
  }

  /** The identities a transaction staged and backed up are new. */
  ghost predicate NewIdentities(t: Transaction, staged: set<Ino>) {
    NewBackups(t, staged) && StagedBy(t) !! staged
  }

  /** A transaction, however it was resolved, is one turn of its slots. */
  lemma ResolvedTurns(t: Transaction, w: World, committed: bool, keep: bool, staged: set<Ino>)
    requires Recovery.Resolved(t, w, committed, keep) && NewIdentities(t, staged)
    ensures Turn(staged, Befores(t), Shown(w))
  {
    forall i | 0 <= i < |t.paths|
      ensures w.live[i].slot == t.paths[i].before.Identity() || w.live[i].slot.None? || w.live[i].slot.value !in staged
    {
      assert StagedWell(w.volume, t.paths[i]) && w.live[i] in w.possible[i];
      assert w.possible[i] <= Final(t.paths[i], committed, keep);
      assert t.paths[i].after.Present? ==> t.paths[i].after.evidence.identity in StagedBy(t);
    }
  }

  /** So is an undo, which starts from the committed slots and restores the backups. */
  lemma UndoneTurns(t: Transaction, w: World, staged: set<Ino>)
    requires UndoResolved(t, w, true) && NewBackups(t, staged)
    ensures Turn(staged, Afters(t), Shown(w))
  {
    forall i | 0 <= i < |t.paths|
      ensures w.live[i].slot.None? || w.live[i].slot.value !in staged
    {
      assert StagedWell(w.volume, t.paths[i]) && w.live[i] in w.possible[i];
      assert w.possible[i] <= {Restored(t.paths[i])};
    }
  }

  /** A slot that has lost a staged file never shows it again. */
  lemma {:induction false} NeverAgain(moments: seq<Moment>, i: nat, ino: Ino, n: nat)
    requires History(moments) && n < |moments| && i < |moments[0].slots|
    requires ino in moments[0].staged && moments[0].slots[i] != Some(ino)
    ensures |moments[n].slots| == |moments[0].slots| && ino in moments[n].staged && moments[n].slots[i] != Some(ino)
    decreases n
  {
    if n > 0 {
      NeverAgain(moments, i, ino, n - 1);
      assert Turn(moments[n - 1].staged, moments[n - 1].slots, moments[n - 1 + 1].slots);
    }
  }

  // One disk, from transaction to transaction

  /** What happens to the slots of one disk: a transaction, resolved one way or the other, or the undo
      of a retained commit. */
  datatype Event = Transacted(t: Transaction, committed: bool, keep: bool) | UndoneEvent(t: Transaction)

  /** The identities of the files a transaction backed up. */
  function BackedUp(t: Transaction): set<Ino> {
    set i | 0 <= i < |t.paths| && t.paths[i].backup.Some? :: t.paths[i].backup.value.identity
  }

  /** The files a transaction created have identities of their own, which no transaction used before. */
  ghost predicate Fresh(t: Transaction, used: set<Ino>) {
    && StagedBy(t) !! used && BackedUp(t) !! used && StagedBy(t) !! BackedUp(t)
  }

  /** Every identity the first `n` events and what came before them used. */
  function Used(used: set<Ino>, events: seq<Event>, n: nat): set<Ino>
    requires n <= |events|
  {
    if n == 0 then used
    else Used(used, events, n - 1) + if events[n - 1].Transacted? then StagedBy(events[n - 1].t) + BackedUp(events[n - 1].t) else {}
  }

  /** The identities they staged. */
  function StagedIn(staged: set<Ino>, events: seq<Event>, n: nat): set<Ino>
    requires n <= |events|
  {
    if n == 0 then staged
    else StagedIn(staged, events, n - 1) + if events[n - 1].Transacted? then StagedBy(events[n - 1].t) else {}
  }

  /** One event of a disk: a transaction starts from the slots as they are and creates new files; an
      undo starts from the slots its transaction committed. */
  ghost predicate Happens(used: set<Ino>, events: seq<Event>, n: nat, w: World, x: World)
    requires n < |events|
  {
    match events[n]
    case Transacted(t, committed, keep) =>
      Shown(w) == Befores(t) && Fresh(t, Used(used, events, n)) && Recovery.Resolved(t, x, committed, keep)
    case UndoneEvent(t) =>
      && Shown(w) == Afters(t) && UndoResolved(t, x, true)
      && exists j, keep | 0 <= j < n :: events[j] == Transacted(t, true, keep)
  }

  /** A transaction ready to commit starts from the slots as they are. */
  lemma ReadyShown(t: Transaction, w: World, st: Replay.State)
    requires Transactions.Ready(t, w, st)
    ensures Shown(w) == Befores(t)
  {
    Transactions.ReadyExact(t, w, st);
    forall i | 0 <= i < |t.paths| ensures w.live[i].slot == t.paths[i].before.Identity() {
      assert Transactions.ExactAt(w.volume, w.live[i], t.paths[i]);
    }
  }

  /** A receipt that can be undone belongs to the slots as they are. */
  lemma RetainsShown(t: Transaction, w: World)
    requires Retains(t, w)
    ensures Shown(w) == Afters(t)
  {
    RetainsIdle(t, w);
    forall i | 0 <= i < |t.paths| ensures w.live[i].slot == t.paths[i].after.Identity() {
      assert Undoable(w.volume, w.live[i], t.paths[i]);
    }
  }

  /** The disk after each of the events. */
  ghost predicate Lived(used: set<Ino>, events: seq<Event>, worlds: seq<World>) {
    && |worlds| == |events| + 1
    && forall n | 0 <= n < |events| :: Happens(used, events, n, worlds[n], worlds[n + 1])
  }

  function Moments(staged: set<Ino>, events: seq<Event>, worlds: seq<World>): seq<Moment>
    requires |worlds| == |events| + 1
  {
    seq(|worlds|, n requires 0 <= n < |worlds| => Moment(Shown(worlds[n]), StagedIn(staged, events, n)))
  }

  lemma {:induction false} StagedUsed(used: set<Ino>, staged: set<Ino>, events: seq<Event>, n: nat)
    requires n <= |events| && staged <= used
    ensures StagedIn(staged, events, n) <= Used(used, events, n)
    decreases n
  {
    hide StagedBy, BackedUp;
    if n > 0 { StagedUsed(used, staged, events, n - 1); }
  }

  /** No transaction ever stages a file that an earlier one has backed up. */
  lemma {:induction false} BackupsStayNew(used: set<Ino>, staged: set<Ino>, events: seq<Event>, worlds: seq<World>, j: nat, n: nat)
    requires Lived(used, events, worlds) && staged <= used && j < n <= |events| && events[j].Transacted?
    ensures BackedUp(events[j].t) !! StagedIn(staged, events, n) && BackedUp(events[j].t) <= Used(used, events, n)
    decreases n
  {
    hide StagedBy, BackedUp, Recovery.Resolved, UndoResolved, Shown, Befores, Afters;
    assert Happens(used, events, j, worlds[j], worlds[j + 1]);
    if n == j + 1 {
      StagedUsed(used, staged, events, j);
    } else {
      BackupsStayNew(used, staged, events, worlds, j, n - 1);
      assert Happens(used, events, n - 1, worlds[n - 1], worlds[n - 1 + 1]);
    }
  }

  lemma NewFromSets(t: Transaction, staged: set<Ino>)
    requires BackedUp(t) !! staged
    ensures NewBackups(t, staged)
  {
    forall i | 0 <= i < |t.paths| && t.paths[i].backup.Some? ensures t.paths[i].backup.value.identity !in staged {
      assert t.paths[i].backup.value.identity in BackedUp(t);
    }
  }

  /** Every event is one turn of the slots. */
  lemma EventTurns(used: set<Ino>, staged: set<Ino>, events: seq<Event>, worlds: seq<World>, n: nat)
    requires Lived(used, events, worlds) && staged <= used && n < |events|
    ensures Turn(StagedIn(staged, events, n), Shown(worlds[n]), Shown(worlds[n + 1]))
  {
    hide StagedBy, BackedUp, Recovery.Resolved, UndoResolved, Shown, Befores, Afters, Turn, NewBackups;
    assert Happens(used, events, n, worlds[n], worlds[n + 1]);
    match events[n] {
      case Transacted(t, committed, keep) =>
        StagedUsed(used, staged, events, n);
        NewFromSets(t, StagedIn(staged, events, n));
        ResolvedTurns(t, worlds[n + 1], committed, keep, StagedIn(staged, events, n));
      case UndoneEvent(t) =>
        var j, keep :| 0 <= j < n && events[j] == Transacted(t, true, keep);
        BackupsStayNew(used, staged, events, worlds, j, n);
        NewFromSets(t, StagedIn(staged, events, n));
        UndoneTurns(t, worlds[n + 1], StagedIn(staged, events, n));
    }
  }

  /** Any sequence of resolved transactions and undos on one disk, with fresh identities, is a history. */
  lemma LivedHistory(used: set<Ino>, staged: set<Ino>, events: seq<Event>, worlds: seq<World>)
    requires Lived(used, events, worlds) && staged <= used
    ensures History(Moments(staged, events, worlds))
  {
    hide StagedBy, Turn, Shown, Happens;
    var moments := Moments(staged, events, worlds);
    forall n | 0 <= n < |moments| - 1
      ensures moments[n].staged <= moments[n + 1].staged && Turn(moments[n].staged, moments[n].slots, moments[n + 1].slots)
    {
      EventTurns(used, staged, events, worlds, n);
    }
  }

  lemma HistoryFrom(moments: seq<Moment>, m: nat)
    requires History(moments) && m < |moments|
    ensures History(moments[m..])
  {
    var rest := moments[m..];
    forall n | 0 <= n < |rest| - 1
      ensures rest[n].staged <= rest[n + 1].staged && Turn(rest[n].staged, rest[n].slots, rest[n + 1].slots)
    {
      assert rest[n] == moments[m + n] && rest[n + 1] == moments[m + n + 1];
    }
  }

  /** What a transaction of the sequence staged counts as staged from then on. */
  lemma {:induction false} StagedStays(staged: set<Ino>, events: seq<Event>, j: nat, m: nat)
    requires j < m <= |events| && events[j].Transacted?
    ensures StagedBy(events[j].t) <= StagedIn(staged, events, m)
    decreases m
  {
    hide StagedBy;
    if m > j + 1 { StagedStays(staged, events, j, m - 1); }
  }

  /** A slot that no longer shows the file a transaction staged there never shows it again. */
  lemma NeverShown(used: set<Ino>, events: seq<Event>, worlds: seq<World>, j: nat, m: nat, i: nat, ino: Ino)
    requires Lived(used, events, worlds) && j < m <= |events| && events[j].Transacted? && ino in StagedBy(events[j].t)
    requires i < |worlds[m].live| && Shown(worlds[m])[i] != Some(ino)
    ensures |Shown(worlds[|events|])| == |Shown(worlds[m])| && Shown(worlds[|events|])[i] != Some(ino)
  {
    hide Happens, StagedBy, StagedIn;
    LivedHistory(used, used, events, worlds);
    var moments := Moments(used, events, worlds);
    HistoryFrom(moments, m);
    StagedStays(used, events, j, m);
    NeverAgain(moments[m..], i, ino, |events| - m);
  }

  /** Once a slot that the receipt of a retained commit records as present has been replaced or removed,
      the receipt never rolls back again: every later attempt, after any number of resolved transactions
      and undos on the same disk, fails and changes nothing. */
  method RefuseForever(d: Disk, t: Transaction, transaction: TransactionId, i: nat,
                       ghost used: set<Ino>, ghost events: seq<Event>, ghost worlds: seq<World>, ghost j: nat, ghost keep: bool, ghost m: nat)
    returns (o: Outcome)
    requires d.Valid() && |d.live| == |t.paths| && i < |t.paths| && t.paths[i].after.Present?
    requires Lived(used, events, worlds) && worlds[|events|] == d.W()
    requires j < m <= |events| && events[j] == Transacted(t, true, keep)
    requires |worlds[m].live| == |t.paths| && Shown(worlds[m])[i] != t.paths[i].after.Identity()
    modifies d
    ensures o == Failed(false) && d.W() == old(d.W())
  {
    hide Lived, Undoable;
    ghost var ino := t.paths[i].after.evidence.identity;
    NeverShown(used, events, worlds, j, m, i, ino);
    NotUndoable(d.W(), t.paths[i], i);
    ghost var us;
    o, us := Rollback(d, t, transaction);
  }

  lemma NotUndoable(w: World, p: StagedPath, i: nat)
    requires i < |w.live| && p.after.Present? && Shown(w)[i] != p.after.Identity()
    ensures !Undoable(w.volume, w.live[i], p)
  {
  }
}
