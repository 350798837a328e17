/** What undo recovery decides about one path, from the undo journal and what the probes report;
    the disk may hold anything. */
module UndoVerdicts {
  import opened Outcomes
  import opened Filesystem
  import opened Records
  import opened Disks
  import opened Slots
  import opened Protocol
  import opened UndoReplay
  import opened Restores
  import Exactness

  /** Whether slot and retained backup are the two links of the exact backup file; any other
      two-link file is `Unsafe`. */
  function KeptLink(p: StagedPath, v: Volume, e: Entries): Probe<bool> {
    if p.before.Absent? || p.backup.None? then Found(false)
    else
      match SameFile(v, e, e.kept)
      case NotFound => Found(false)
      case Unsafe => Unsafe
      case Found(alias) =>
        if !alias then Found(false)
        else if NameState(v, e, e.kept, 2) == Found(p.backup.value) then Found(true)
        else Unsafe
  }

  /** The slot shows the receipt's before state. */
  predicate ShowsRestored(v: Volume, p: StagedPath, e: Entries) {
    (p.before.Present? ==> p.backup.Some?) && SlotState(v, e) == Found(RestoredEvidence(p))
  }

  datatype UndoVerdict = Leave | NoteDone | FinishLink | Redo | Conflict

  /** The decision of `converge_path` for path `i`. */
  function UndoJudge(us: UndoState, p: StagedPath, i: nat, v: Volume, e: Entries): UndoVerdict {
    match KeptLink(p, v, e)
    case NotFound => Conflict
    case Unsafe => Conflict
    case Found(true) => if i in us.rolledBack || i !in us.intents then Conflict else FinishLink
    case Found(false) =>
      if !SlotState(v, e).Found? || (p.before.Present? && p.backup.None?) then Conflict
      else
        var actual := SlotState(v, e).value;
        if i in us.rolledBack then (if actual == RestoredEvidence(p) then Leave else Conflict)
        else if actual == RestoredEvidence(p) then (if i in us.intents then NoteDone else Conflict)
        else if actual == p.after then Redo
        else Conflict
  }

  /** Slot and retained backup are the two links of exactly the backup the receipt names. */
  predicate BackAtLink(p: StagedPath, v: Volume, e: Entries) {
    && p.before.Present? && p.backup.Some?
    && Exactness.TwoNames(v, e, e.kept) && Evidence(v, e.slot.value) == p.backup.value
  }

  /** They are not two links of one file, as far as that matters. */
  predicate Apart(p: StagedPath, v: Volume, e: Entries) {
    p.before.Present? && p.backup.Some? ==> Exactness.Alike(v, e, e.kept)
  }

  /** Exactly the states undo recovery goes past, and what it does in each: the two-link point under a
      durable intent, a restored slot under one, and the exact committed state of a path not yet recorded
      as undone.  Every other path is in conflict. */
  lemma UndoJudgeIff(us: UndoState, p: StagedPath, i: nat, v: Volume, e: Entries)
    ensures UndoJudge(us, p, i, v, e) == FinishLink <==> BackAtLink(p, v, e) && i in us.intents && i !in us.rolledBack
    ensures UndoJudge(us, p, i, v, e) == Leave <==> Apart(p, v, e) && ShowsRestored(v, p, e) && i in us.rolledBack
    ensures UndoJudge(us, p, i, v, e) == NoteDone <==>
            Apart(p, v, e) && ShowsRestored(v, p, e) && i in us.intents && i !in us.rolledBack
    ensures UndoJudge(us, p, i, v, e) == Redo <==>
            && Apart(p, v, e) && (p.before.Present? ==> p.backup.Some?)
            && SlotState(v, e) == Found(p.after) && !ShowsRestored(v, p, e) && i !in us.rolledBack
  {
  }

  /** The slot is in neither state of the receipt, nor on the way between them. */
  predicate Diverged(p: StagedPath, v: Volume, e: Entries) {
    SlotState(v, e) != Found(p.after) && !ShowsRestored(v, p, e) && !BackAtLink(p, v, e)
  }

  lemma DivergedConflicts(us: UndoState, p: StagedPath, i: nat, v: Volume, e: Entries)
    ensures Diverged(p, v, e) ==> UndoJudge(us, p, i, v, e) == Conflict
  {
    hide UndoJudge;
    UndoJudgeIff(us, p, i, v, e);
  }

  /** Nothing but a fault can stop the verdict from being carried out. */
  predicate UndoFeasible(us: UndoState, p: StagedPath, i: nat, v: Volume, e: Entries) {
    match UndoJudge(us, p, i, v, e)
    case Conflict => false
    case FinishLink => p.backup.Some? && SlotState(v, e.(kept := None)) == Found(RestoredEvidence(p))
    case Redo => Restorable(v, p, e)
    case _ => true
  }

  /** The disk once a record of the undo journal is durable. */
  function Noted(w: World, r: Record): World {
    w.(undoRecords := w.undoRecords + [r])
  }

  function Marked(intended: bool, w: World, i: nat): World {
    if intended then w else Noted(w, RollbackIntent(i))
  }

  /** The disk after path `i` has been restored behind its intent, on record as complete. */
  function Redone(intended: bool, p: StagedPath, w: World, i: nat): World
    requires i < |w.live| == |w.possible|
  {
    Noted(Returned(p, Marked(intended, w, i), i), RollbackDone(i))
  }

  /** Every disk an interruption may leave meanwhile: the intent is durable before the entries
      change, and the change before the completion. */
  ghost predicate RedoHalted(intended: bool, p: StagedPath, w: World, x: World, i: nat)
    requires i < |w.live| == |w.possible|
  {
    || Within(w, x, i, {})
    || Within(Marked(intended, w, i), x, i, Passing(p, w.live[i]))
    || Within(Redone(intended, p, w, i), x, i, {})
  }

  /** The disk after path `i` has been dealt with as its verdict says. */
  function PathUndone(us: UndoState, p: StagedPath, w: World, i: nat): World
    requires i < |w.live| == |w.possible|
  {
    match UndoJudge(us, p, i, w.volume, w.live[i])
    case NoteDone => Noted(w, RollbackDone(i))
    case FinishLink => Noted(Unlinked(w, i), RollbackDone(i))
    case Redo => Redone(i in us.intents, p, w, i)
    case _ => w
  }

  /** Every disk an interruption may leave meanwhile. */
  ghost predicate UndoHalted(us: UndoState, p: StagedPath, w: World, x: World, i: nat)
    requires i < |w.live| == |w.possible|
  {
    match UndoJudge(us, p, i, w.volume, w.live[i])
    case NoteDone => Within(w, x, i, {}) || Within(PathUndone(us, p, w, i), x, i, {})
    case FinishLink => Within(w, x, i, Unkept(w.possible[i])) || Within(PathUndone(us, p, w, i), x, i, {})
    case Redo => RedoHalted(i in us.intents, p, w, x, i)
    case _ => x == w
  }

  /** The disk after every path from `i` upwards has been dealt with. */
  function Converged(us: UndoState, paths: seq<StagedPath>, w: World, i: nat): (x: World)
    requires i <= |paths| == |w.live| == |w.possible|
    ensures |x.live| == |x.possible| == |w.live| && x.volume == w.volume
    decreases |paths| - i
  {
    if i == |paths| then w else PathUndone(us, paths[i], Converged(us, paths, w, i + 1), i)
  }

  lemma ConvergedStep(us: UndoState, paths: seq<StagedPath>, w: World, i: nat)
    requires i < |paths| == |w.live| == |w.possible|
    ensures Converged(us, paths, w, i) == PathUndone(us, paths[i], Converged(us, paths, w, i + 1), i)
  {
  }

  lemma ConvergedNone(us: UndoState, paths: seq<StagedPath>, w: World)
    requires |paths| == |w.live| == |w.possible|
    ensures Converged(us, paths, w, |paths|) == w
  {
  }

  /** What the undo of path `i` leaves in its directories. */
  function UndoTarget(us: UndoState, p: StagedPath, i: nat, v: Volume, e: Entries): Entries {
    match UndoJudge(us, p, i, v, e)
    case FinishLink => e.(kept := None)
    case Redo => RestoredFrom(p, e)
    case _ => e
  }

  function UndoPossible(us: UndoState, p: StagedPath, i: nat, v: Volume, e: Entries, s: set<Entries>): set<Entries> {
    match UndoJudge(us, p, i, v, e)
    case FinishLink => Unkept(s)
    case Redo => {RestoredFrom(p, e)}
    case _ => s
  }

  lemma PathUndoneAt(us: UndoState, p: StagedPath, w: World, i: nat)
    requires i < |w.live| == |w.possible|
    ensures var x := PathUndone(us, p, w, i);
            && x.live == w.live[i := UndoTarget(us, p, i, w.volume, w.live[i])]
            && x.possible == w.possible[i := UndoPossible(us, p, i, w.volume, w.live[i], w.possible[i])]
            && x == w.(live := x.live, possible := x.possible, possibleControl := x.possibleControl, undoRecords := x.undoRecords)
            && (w.control in w.possibleControl ==> x.possibleControl <= w.possibleControl && w.control in x.possibleControl)
  {
  }

  /** Each path is touched once, and what happens to it depends on it alone. */
  lemma {:induction false} ConvergedAt(us: UndoState, paths: seq<StagedPath>, w: World, i: nat)
    requires i <= |paths| == |w.live| == |w.possible| && w.control in w.possibleControl
    ensures var x := Converged(us, paths, w, i);
            && (forall j | 0 <= j < i :: x.live[j] == w.live[j] && x.possible[j] == w.possible[j])
            && (forall j | i <= j < |paths| ::
                  && x.live[j] == UndoTarget(us, paths[j], j, w.volume, w.live[j])
                  && x.possible[j] == UndoPossible(us, paths[j], j, w.volume, w.live[j], w.possible[j]))
            && x == w.(live := x.live, possible := x.possible, possibleControl := x.possibleControl, undoRecords := x.undoRecords)
            && x.possibleControl <= w.possibleControl && w.control in x.possibleControl
    decreases |paths| - i
  {
    hide UndoTarget, UndoPossible, PathUndone;
    if i < |paths| {
      ConvergedAt(us, paths, w, i + 1);
      PathUndoneAt(us, paths[i], Converged(us, paths, w, i + 1), i);
    }
  }

  /** Where the undo of a path may take its entries. */
  function UndoMoves(us: UndoState, p: StagedPath, i: nat, v: Volume, e: Entries, s: set<Entries>): set<Entries> {
    match UndoJudge(us, p, i, v, e)
    case FinishLink => Unkept(s)
    case Redo => Passing(p, e)
    case _ => {}
  }

  /** No directory shows, or may show after a power loss, anything its verdict does not account for. */
  ghost predicate UndoContained(us: UndoState, paths: seq<StagedPath>, w: World, x: World)
    requires |paths| == |w.live| == |w.possible|
  {
    && x.Valid() && |x.live| == |w.live|
    && x == w.(live := x.live, possible := x.possible, control := x.control, possibleControl := x.possibleControl, undoRecords := x.undoRecords)
    && forall j | 0 <= j < |paths| ::
         x.possible[j] <= w.possible[j] + UndoMoves(us, paths[j], j, w.volume, w.live[j], w.possible[j])
  }

  lemma TargetMoves(us: UndoState, p: StagedPath, i: nat, v: Volume, e: Entries, s: set<Entries>)
    ensures UndoPossible(us, p, i, v, e, s) <= s + UndoMoves(us, p, i, v, e, s)
  {
  }

  lemma ConvergedContained(us: UndoState, paths: seq<StagedPath>, w: World, x: World, i: nat)
    requires w.Valid() && i <= |paths| == |w.live|
    requires x.Valid() && |x.live| == |w.live| && (forall j | 0 <= j < |paths| :: x.possible[j] <= Converged(us, paths, w, i).possible[j])
    requires x == w.(live := x.live, possible := x.possible, control := x.control, possibleControl := x.possibleControl, undoRecords := x.undoRecords)
    ensures UndoContained(us, paths, w, x)
  {
    hide UndoPossible, UndoMoves, UndoTarget, Converged;
    ConvergedAt(us, paths, w, i);
    forall j | 0 <= j < |paths|
      ensures x.possible[j] <= w.possible[j] + UndoMoves(us, paths[j], j, w.volume, w.live[j], w.possible[j])
    {
      TargetMoves(us, paths[j], j, w.volume, w.live[j], w.possible[j]);
    }
  }

  /** What an interruption within one path leaves possible. */
  lemma HaltedMoves(us: UndoState, p: StagedPath, w: World, x: World, i: nat)
    requires w.Valid() && i < |w.live| && UndoHalted(us, p, w, x, i)
    ensures x.Valid() && |x.live| == |w.live|
    ensures x == w.(live := x.live, possible := x.possible, control := x.control, possibleControl := x.possibleControl, undoRecords := x.undoRecords)
    ensures x.possibleControl <= w.possibleControl
    ensures forall j | 0 <= j < |w.live| ::
              x.possible[j] <= if j == i then w.possible[i] + UndoMoves(us, p, i, w.volume, w.live[i], w.possible[i]) else w.possible[j]
  {
    hide UndoJudge;
    PathUndoneAt(us, p, w, i);
    TargetMoves(us, p, i, w.volume, w.live[i], w.possible[i]);
  }

  /** Wherever the completion of an undo is interrupted, its changes are contained. */
  lemma HaltedContained(us: UndoState, paths: seq<StagedPath>, w: World, x: World, at: nat)
    requires w.Valid() && at < |paths| == |w.live| && UndoHalted(us, paths[at], Converged(us, paths, w, at + 1), x, at)
    ensures UndoContained(us, paths, w, x) && x.possibleControl <= w.possibleControl
  {
    hide UndoPossible, UndoMoves, UndoTarget, Converged, UndoHalted;
    var y := Converged(us, paths, w, at + 1);
    ConvergedAt(us, paths, w, at + 1);
    ConvergedValid(us, paths, w, at + 1);
    HaltedMoves(us, paths[at], y, x, at);
    forall j | 0 <= j < |paths|
      ensures x.possible[j] <= w.possible[j] + UndoMoves(us, paths[j], j, w.volume, w.live[j], w.possible[j])
    {
      TargetMoves(us, paths[j], j, w.volume, w.live[j], w.possible[j]);
    }
  }

  lemma TargetPossible(us: UndoState, p: StagedPath, i: nat, v: Volume, e: Entries, s: set<Entries>)
    requires e in s
    ensures UndoTarget(us, p, i, v, e) in UndoPossible(us, p, i, v, e, s)
  {
  }

  lemma ConvergedValid(us: UndoState, paths: seq<StagedPath>, w: World, i: nat)
    requires w.Valid() && i <= |paths| == |w.live|
    ensures Converged(us, paths, w, i).Valid()
  {
    hide UndoPossible, UndoTarget, Converged;
    var x := Converged(us, paths, w, i);
    ConvergedAt(us, paths, w, i);
    forall j | 0 <= j < |x.live| ensures x.live[j] in x.possible[j] {
      TargetPossible(us, paths[j], j, w.volume, w.live[j], w.possible[j]);
      assert w.live[j] in w.possible[j];
    }
  }
}
