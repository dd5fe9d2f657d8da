/**
 The durable state. Whatever is canonical was put under history first, a crash anywhere in
 the batches loop costs at most the batch in progress, and a bucket with history is never
 read as an empty mirror.
 */
module Durable {
  import opened Tables
  import opened Protocol
  import opened RunLoop

  /** Two mirrors agree on every file but these. */
  ghost predicate AgreeOutside(m: Mirror, n: Mirror, keys: set<Key>) {
    forall k :: k !in keys ==> (k in m <==> k in n) && (k in m ==> m[k] == n[k])
  }

  /** While a run may still work on batches, the bucket holds its mirror up to the batch in progress. */
  ghost predicate Shipped(w: World) {
    && (w.phase == Opened || w.phase == DeltaReady || w.phase == PlanReady ==> DurableMirror(w.objects) == w.db.mirror)
    && (w.phase == Looping ==>
          if InBatch(w) && (w.step == Merged || w.step == Stored)
          then AgreeOutside(w.db.mirror, DurableMirror(w.objects), CurrentItems(w).Keys)
          else DurableMirror(w.objects) == w.db.mirror)
    && (w.phase == Looping && w.step == Stored ==>
          w.pending.Some? && HistoryKey(w.pending.value) in w.objects && w.objects[HistoryKey(w.pending.value)] == w.db)
    && (AsksForChain(w) ==>
          && DurableMirror(w.objects) == w.db.mirror
          && (w.pending.Some? ==> HistoryKey(w.pending.value) in w.objects)
          && (w.pending.Some? ==> w.objects[HistoryKey(w.pending.value)].mirror == w.db.mirror))
  }

  /** The run stopped on its budget with batches left. */
  ghost predicate AsksForChain(w: World) {
    w.phase == LoopOver && w.run in w.db.runs && w.db.runs[w.run].chain
  }

  lemma OuterKeepsShipped(w: World, s: OuterStep)
    requires Shipped(w) && NextOuter(w, s).Some?
    ensures Shipped(NextOuter(w, s).value)
  {}

  lemma PrepareKeepsShipped(w: World, s: PrepareStep)
    requires Shipped(w) && NextPrepare(w, s).Some?
    ensures Shipped(NextPrepare(w, s).value)
  {}

  lemma WorkLeavesTheBucket(w: World, s: WorkStep)
    requires NextWork(w, s).Some?
    ensures var v := NextWork(w, s).value;
      && InBatch(v) && v.objects == w.objects && v.step != Between && v.step != Stored
      && (!s.Merge? ==> v.db.mirror == w.db.mirror && v.step != Merged)
    ensures w.step != Merged && w.step != Stored
  {
    match s
    case BeginBatch =>
    case FetchOne(_, _) =>
    case EndFetch =>
    case VerifyOne(_) =>
    case EndVerify =>
    case Send(_) =>
    case SkipSend =>
    case Confirm =>
    case Merge =>
  }

  lemma MergeKeepsShipped(w: World)
    requires Shipped(w) && At(w, Settled)
    ensures Shipped(MergeDone(w))
  {
    assert CurrentItems(MergeDone(w)).Keys == CurrentItems(w).Keys;
  }

  lemma WorkKeepsShipped(w: World, s: WorkStep)
    requires Shipped(w) && NextWork(w, s).Some?
    ensures Shipped(NextWork(w, s).value)
  {
    WorkLeavesTheBucket(w, s);
    if s.Merge? {
      MergeKeepsShipped(w);
    }
  }

  lemma ShipKeepsShipped(w: World, s: ShipStep)
    requires Loop(w) && Shipped(w) && NextShip(w, s).Some?
    ensures Shipped(NextShip(w, s).value)
  {
    match s
    case PutHistory(name) => HistoryKeyIsOne(name);
    case CopyCanonical =>
    case ClearStaging =>
    case NextBatch =>
    case EndLoop =>
    case Abort =>
  }

  lemma AfterKeepsShipped(w: World, s: AfterStep)
    requires Loop(w) && Shipped(w) && NextAfter(w, s).Some?
    ensures Shipped(NextAfter(w, s).value)
  {
    match s
    case TrashCall(_) =>
    case RecordDeletion(_, _) =>
    case DropDeleted =>
    case ReconcileTrash(_) =>
    case CorrectMirror(_) =>
    case FinishRun =>
  }

  lemma StepKeepsShipped(w: World, s: Step)
    requires Accounted(w) && Shipped(w) && Next(w, s).Some?
    ensures Shipped(Next(w, s).value)
  {
    match s
    case Outer(outer) => OuterKeepsShipped(w, outer);
    case Prepare(prepare) => PrepareKeepsShipped(w, prepare);
    case Work(work) => WorkKeepsShipped(w, work);
    case Ship(ship) => ShipKeepsShipped(w, ship);
    case After(after) => AfterKeepsShipped(w, after);
  }

  lemma {:induction false} EveryRunIsShipped(trace: seq<Step>)
    requires Replay(FirstWorld(), trace).Some?
    ensures Accounted(Replay(FirstWorld(), trace).value) && Shipped(Replay(FirstWorld(), trace).value)
  {
    if trace != [] {
      var w := Replay(FirstWorld(), trace[..|trace| - 1]).value;
      EveryRunIsShipped(trace[..|trace| - 1]);
      StepKeepsAccount(w, trace[|trace| - 1]);
      StepKeepsShipped(w, trace[|trace| - 1]);
    }
  }

  // ---- the bucket while a run is at work ----

  /** Until its loop is over, a run's bucket is restorable, but for the moment inside a first shipment. */
  ghost predicate Restorable(w: World) {
    w.phase == Opened || w.phase == DeltaReady || w.phase == PlanReady || w.phase == Looping ==>
      STATE_KEY in w.objects || !HasHistory(w.objects) || At(w, Stored)
  }

  lemma ShipKeepsRestorable(w: World, s: ShipStep)
    requires Loop(w) && Restorable(w) && NextShip(w, s).Some?
    ensures Restorable(NextShip(w, s).value)
  {
    match s
    case PutHistory(name) => HistoryKeyIsOne(name);
    case CopyCanonical =>
    case ClearStaging =>
    case NextBatch =>
    case EndLoop =>
    case Abort =>
  }

  lemma WorkKeepsRestorable(w: World, s: WorkStep)
    requires Restorable(w) && NextWork(w, s).Some?
    ensures Restorable(NextWork(w, s).value)
  {
    WorkLeavesTheBucket(w, s);
  }

  lemma AfterKeepsRestorable(w: World, s: AfterStep)
    requires Restorable(w) && NextAfter(w, s).Some?
    ensures Restorable(NextAfter(w, s).value)
  {
    match s
    case TrashCall(_) =>
    case RecordDeletion(_, _) =>
    case DropDeleted =>
    case ReconcileTrash(_) =>
    case CorrectMirror(_) =>
    case FinishRun =>
  }

  lemma StepKeepsRestorable(w: World, s: Step)
    requires Accounted(w) && Restorable(w) && Next(w, s).Some?
    ensures Restorable(Next(w, s).value)
  {
    match s
    case Outer(_) =>
    case Prepare(_) =>
    case Work(work) => WorkKeepsRestorable(w, work);
    case Ship(ship) => ShipKeepsRestorable(w, ship);
    case After(after) => AfterKeepsRestorable(w, after);
  }

  lemma {:induction false} EveryRunIsRestorable(trace: seq<Step>)
    requires Replay(FirstWorld(), trace).Some?
    ensures Restorable(Replay(FirstWorld(), trace).value)
  {
    if trace != [] {
      EveryRunIsAccounted(trace[..|trace| - 1]);
      EveryRunIsRestorable(trace[..|trace| - 1]);
      StepKeepsRestorable(Replay(FirstWorld(), trace[..|trace| - 1]).value, trace[|trace| - 1]);
    }
  }

  /** The files of the batch in progress; none between batches. */
  ghost function InProgress(w: World): set<Key> {
    if InBatch(w) && w.step != Between then CurrentItems(w).Keys else {}
  }

  /**
   A crash anywhere in the batches loop: the mirror a restore reads agrees with the local one on
   every file outside the batch in progress, and whatever run starts next starts from it.
   */
  lemma CrashCostsOneBatch(trace: seq<Step>)
    requires Replay(FirstWorld(), trace).Some? && Replay(FirstWorld(), trace).value.phase == Looping
    ensures var w := Replay(FirstWorld(), trace).value;
      AgreeOutside(w.db.mirror, DurableMirror(w.objects), InProgress(w))
    ensures forall id, reconcile :: NextOuter(Replay(FirstWorld(), trace).value, StartRun(id, reconcile)).Some? ==>
      var w := Replay(FirstWorld(), trace).value;
      NextOuter(w, StartRun(id, reconcile)).value.db.mirror == DurableMirror(w.objects)
  {
    EveryRunIsShipped(trace);
  }

  /**
   The next start is refused after exactly one crash in the loop: between the very first history
   copy and its canonical copy. Rolling back to that copy then restores the state whole.
   */
  lemma CrashInTheFirstShipment(trace: seq<Step>)
    requires Replay(FirstWorld(), trace).Some? && Replay(FirstWorld(), trace).value.phase == Looping
    ensures var w := Replay(FirstWorld(), trace).value;
      && (FetchState(w.objects) == LostState <==> At(w, Stored) && STATE_KEY !in w.objects)
      && (At(w, Stored) ==>
            && w.pending.Some? && HistoryKey(w.pending.value) in w.objects
            && FetchState(w.objects[STATE_KEY := w.objects[HistoryKey(w.pending.value)]]) == Restored(w.db))
  {
    EveryRunIsRestorable(trace);
    EveryRunIsShipped(trace);
    var w := Replay(FirstWorld(), trace).value;
    if At(w, Stored) {
      HistoryKeyIsOne(w.pending.value);
    }
  }

  /** A chained run starts from the very mirror the run before it left. */
  lemma ChainedRunStartsWhereTheLastEnded(trace: seq<Step>, id: nat, reconcile: bool)
    requires Replay(FirstWorld(), trace).Some? && AsksForChain(Replay(FirstWorld(), trace).value)
    requires Next(Replay(FirstWorld(), trace).value, Outer(StartRun(id, reconcile))).Some?
    ensures var w := Replay(FirstWorld(), trace).value;
      Next(w, Outer(StartRun(id, reconcile))).value.past.base == w.db.mirror
  {
    EveryRunIsShipped(trace);
  }

  /** Nothing becomes canonical that was not put under history first. */
  lemma CanonicalWasHistory(trace: seq<Step>)
    requires Replay(FirstWorld(), trace).Some?
    ensures var w := Replay(FirstWorld(), trace).value;
      STATE_KEY in w.objects ==> w.objects[STATE_KEY] in w.past.puts
  {
    EveryRunIsAccounted(trace);
  }

  lemma StepKeepsHistory(w: World, s: Step)
    requires HasHistory(w.objects) && Next(w, s).Some?
    ensures HasHistory(Next(w, s).value.objects)
  {
    var key :| key in w.objects && IsHistoryKey(key);
    assert key != STATE_KEY by {
      assert key[7] == HISTORY_PREFIX[7];
    }
    assert key in Next(w, s).value.objects;
  }

  /** Once there is history, no restart from any later world reads the bucket as an empty mirror. */
  lemma {:induction false} HistoryIsNeverFresh(start: World, trace: seq<Step>)
    requires HasHistory(start.objects) && Replay(start, trace).Some?
    ensures HasHistory(Replay(start, trace).value.objects)
    ensures FetchState(Replay(start, trace).value.objects) != NoState
  {
    if trace != [] {
      HistoryIsNeverFresh(start, trace[..|trace| - 1]);
      StepKeepsHistory(Replay(start, trace[..|trace| - 1]).value, trace[|trace| - 1]);
    }
  }
}
