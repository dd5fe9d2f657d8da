/**
 What the batches loop keeps: which batches the run planned, how far it got, and that a batch
 counted as completed really recorded something. From this follow the trash gate and the
 progress of chained runs.
 */
module RunLoop {
  import opened Common
  import opened Tables
  import opened BatchItems
  import opened Protocol

  // ---- ids ----

  /** Every row that names a run names one on record. */
  ghost predicate RunsKnown(t: Tables) {
    && (forall b :: b in t.batches ==> t.batches[b].runId in t.runs)
    && (forall p :: p in t.deletions ==> p.0 in t.runs)
  }

  ghost predicate Ids(w: World) {
    && RunsKnown(w.db)
    && (forall t :: t in w.past.puts ==> RunsKnown(t))
    && (forall key :: key in w.objects ==> w.objects[key] in w.past.puts)
    && (w.phase != NoRun ==> w.run in w.db.runs)
    && (w.phase == Looping && w.step == Stored ==> w.pending.Some?)
  }

  lemma OuterKeepsIds(w: World, s: OuterStep)
    requires Ids(w) && NextOuter(w, s).Some?
    ensures Ids(NextOuter(w, s).value)
  {}

  lemma PrepareKeepsIds(w: World, s: PrepareStep)
    requires Ids(w) && NextPrepare(w, s).Some?
    ensures Ids(NextPrepare(w, s).value)
  {}

  lemma WorkKeepsIds(w: World, s: WorkStep)
    requires Ids(w) && NextWork(w, s).Some?
    ensures Ids(NextWork(w, s).value)
  {
    WorkIsOnCurrent(w, s);
    WorkedOnKeepsIds(w, NextWork(w, s).value);
  }

  lemma WorkedOnKeepsIds(w: World, v: World)
    requires Ids(w) && WorkedOn(w, v)
    ensures Ids(v)
  {
    forall b | b in v.db.batches ensures v.db.batches[b].runId in v.db.runs {
      assert b in w.db.batches;
    }
  }

  lemma ShipKeepsIds(w: World, s: ShipStep)
    requires Ids(w) && NextShip(w, s).Some?
    ensures Ids(NextShip(w, s).value)
  {}

  lemma AfterKeepsIds(w: World, s: AfterStep)
    requires Ids(w) && NextAfter(w, s).Some?
    ensures Ids(NextAfter(w, s).value)
  {}

  // ---- the loop ----

  ghost predicate AllPlanned(items: Items) {
    forall k :: k in items ==> items[k].status == ItemStatus.Planned
  }

  /** A batch nobody has begun. */
  ghost predicate Untouched(b: Batch) {
    b.status == BatchPlanned && AllPlanned(b.items) && b.items != map[]
  }

  /** A checkpointed batch recorded a row, unless all its files had vanished. */
  ghost predicate Progress(items: Items) {
    Any(items, Checkpointed) || forall k :: k in items ==> items[k].status == Vanished
  }

  /** A batch that landed: none of its items is still on its way. */
  ghost predicate Done(b: Batch) {
    && b.status == BatchCheckpointed && Progress(b.items)
    && forall k :: k in b.items ==> Allowed(Landed, b.items[k].status)
  }

  /** The planned ids are this run's batches, all of them, each once. */
  ghost predicate PlannedAre(db: Tables, run: nat, planned: seq<nat>) {
    && (forall i, j :: 0 <= i < j < |planned| ==> planned[i] != planned[j])
    && (forall b :: b in planned ==> b in db.batches && db.batches[b].runId == run && db.batches[b].items != map[])
    && (forall b :: b in db.batches && db.batches[b].runId == run ==> b in planned)
  }

  ghost predicate DoneUpTo(db: Tables, planned: seq<nat>, n: nat) {
    n <= |planned| && forall i :: 0 <= i < n ==> planned[i] in db.batches && Done(db.batches[planned[i]])
  }

  ghost predicate UntouchedFrom(db: Tables, planned: seq<nat>, n: nat) {
    forall i :: n <= i < |planned| ==> planned[i] in db.batches && Untouched(db.batches[planned[i]])
  }

  ghost predicate Loop(w: World) {
    && (w.phase == Opened || w.phase == DeltaReady ==> forall b :: b in w.db.batches ==> w.db.batches[b].runId != w.run)
    && (w.phase == PlanReady ==>
          forall b :: b in w.db.batches && w.db.batches[b].runId == w.run ==> Untouched(w.db.batches[b]))
    && (w.phase == Looping ==>
          && PlannedAre(w.db, w.run, w.planned) && DoneUpTo(w.db, w.planned, w.completed)
          && (w.step != Between ==> w.completed < |w.planned|)
          && UntouchedFrom(w.db, w.planned, if w.step == Between then w.completed else w.completed + 1))
    && (w.phase == LoopOver && w.run in w.db.runs && w.db.runs[w.run].remaining.Some? ==>
          && PlannedAre(w.db, w.run, w.planned) && DoneUpTo(w.db, w.planned, w.completed)
          && w.db.runs[w.run].remaining.value == |w.planned| - w.completed
          && (w.db.runs[w.run].chain ==> 0 < w.completed < |w.planned|))
    && (w.phase == Opened || w.phase == DeltaReady || w.phase == PlanReady || w.phase == Looping ==>
          w.run in w.db.runs && w.db.runs[w.run].remaining.None?)
    && (w.run in w.db.runs && w.db.runs[w.run].remaining.None? && w.phase != NoRun ==> !w.db.runs[w.run].chain)
    && (w.phase != NoRun && !TrashOpen(w) ==> NothingDeletedYet(w))
  }

  /** The run has recorded no deletion. */
  ghost predicate NothingDeletedYet(w: World) {
    forall k :: (w.run, k) !in w.db.deletions
  }

  /** The statuses an item may have while its batch is at this step. */
  predicate Allowed(step: BatchStep, s: ItemStatus) {
    match step
    case Between => s == ItemStatus.Planned
    case Fetching => s == ItemStatus.Planned || s == Fetched || s == Vanished
    case Verifying => s == Fetched || s == Verified || s == HashMismatch || s == Vanished
    case Checked => s == Verified || s == HashMismatch || s == Vanished
    case Sent => s == Verified || s == HashMismatch || s == Vanished
    case Settled => s == Confirmed || s == ConfirmFailed || s == HashMismatch || s == Vanished
    case Merged => s == Checkpointed || s == ConfirmFailed || s == HashMismatch || s == Vanished
    case Stored => s == Checkpointed || s == ConfirmFailed || s == HashMismatch || s == Vanished
    case Copied => s == Checkpointed || s == ConfirmFailed || s == HashMismatch || s == Vanished
    case Landed => s == Checkpointed || s == ConfirmFailed || s == HashMismatch || s == Vanished
  }

  /** Mismatched files never make up the whole of a batch that went on to its upload. */
  ghost predicate StatusesFit(step: BatchStep, b: Batch) {
    && (forall k :: k in b.items ==> Allowed(step, b.items[k].status))
    && (step == Checked || step == Sent ==> Any(b.items, Verified) || !Any(b.items, HashMismatch))
    && (step == Settled ==>
          Any(b.items, Confirmed) || Any(b.items, ConfirmFailed) || !Any(b.items, HashMismatch))
    && (step == Merged || step == Stored || step == Copied || step == Landed ==>
          b.status == BatchCheckpointed ==> Progress(b.items))
  }

  ghost predicate Statuses(w: World) {
    InBatch(w) ==> StatusesFit(w.step, w.db.batches[Current(w)])
  }

  // ---- every step keeps the loop's account ----

  lemma OuterKeepsLoop(w: World, s: OuterStep)
    requires Ids(w) && Loop(w) && NextOuter(w, s).Some?
    ensures Loop(NextOuter(w, s).value)
  {}

  lemma PlanIsUntouched(w: World, first: nat, parts: seq<set<Key>>)
    requires Loop(w) && w.phase == DeltaReady && CanPlan(w, first, parts)
    ensures Loop(PlanSaved(w, first, parts))
  {
    var p := PlanSaved(w, first, parts);
    forall b | b in p.db.batches && p.db.batches[b].runId == w.run ensures Untouched(p.db.batches[b]) {
      assert b !in Kept(w.db.batches);
      var part := parts[b - first];
      var k :| k in part;
      assert k in p.db.batches[b].items;
    }
  }

  lemma PrepareKeepsLoop(w: World, s: PrepareStep)
    requires Ids(w) && Loop(w) && NextPrepare(w, s).Some?
    ensures Loop(NextPrepare(w, s).value)
  {
    if s.SavePlan? {
      PlanIsUntouched(w, s.first, s.parts);
    }
  }

  /** `v` differs from `w` in the batch in progress at most. */
  ghost predicate WorkedOn(w: World, v: World) {
    && w.phase == Looping && v.phase == Looping && InBatch(w) && v.step != Between
    && v.run == w.run && v.planned == w.planned && v.completed == w.completed && v.db.runs == w.db.runs
    && v.db.batches.Keys == w.db.batches.Keys
    && v.db.batches[Current(w)].runId == w.db.batches[Current(w)].runId
    && v.db.batches[Current(w)].items.Keys == w.db.batches[Current(w)].items.Keys
    && v.db.deletions == w.db.deletions && v.objects == w.objects && v.past.puts == w.past.puts && v.step != Stored
    && forall b :: b in w.db.batches && b != Current(w) ==> v.db.batches[b] == w.db.batches[b]
  }

  lemma WorkedOnKeepsLoop(w: World, v: World)
    requires Loop(w) && WorkedOn(w, v)
    ensures Loop(v)
  {
    forall i | w.completed < i < |w.planned| ensures Untouched(v.db.batches[w.planned[i]]) {
      assert w.planned[i] != w.planned[w.completed];
    }
    forall i | 0 <= i < w.completed ensures Done(v.db.batches[w.planned[i]]) {
      assert w.planned[i] != w.planned[w.completed];
    }
  }

  lemma ConfirmIsOnCurrent(w: World)
    requires NextWork(w, Confirm).Some?
    ensures WorkedOn(w, NextWork(w, Confirm).value)
  {}

  lemma MergeIsOnCurrent(w: World)
    requires At(w, Settled)
    ensures WorkedOn(w, MergeDone(w))
  {}

  lemma WorkIsOnCurrent(w: World, s: WorkStep)
    requires NextWork(w, s).Some?
    ensures WorkedOn(w, NextWork(w, s).value)
  {
    match s
    case BeginBatch =>
    case FetchOne(_, _) =>
    case EndFetch =>
    case VerifyOne(_) =>
    case EndVerify =>
    case Send(_) =>
    case SkipSend =>
    case Confirm => ConfirmIsOnCurrent(w);
    case Merge => MergeIsOnCurrent(w);
  }

  lemma WorkKeepsLoop(w: World, s: WorkStep)
    requires Loop(w) && NextWork(w, s).Some?
    ensures Loop(NextWork(w, s).value)
  {
    WorkIsOnCurrent(w, s);
    WorkedOnKeepsLoop(w, NextWork(w, s).value);
  }

  lemma NextBatchKeepsLoop(w: World)
    requires Loop(w) && Statuses(w) && NextShip(w, NextBatch).Some?
    ensures Loop(NextShip(w, NextBatch).value)
  {
    assert Done(w.db.batches[w.planned[w.completed]]);
  }

  lemma EndKeepsLoop(w: World, s: ShipStep)
    requires Loop(w) && (s.EndLoop? || s.Abort?) && NextShip(w, s).Some?
    ensures Loop(NextShip(w, s).value)
  {
    if s.Abort? {
      forall i | 0 <= i < w.completed ensures w.planned[i] != w.planned[w.completed] {}
    }
  }

  lemma ShipKeepsLoop(w: World, s: ShipStep)
    requires Ids(w) && Loop(w) && Statuses(w) && NextShip(w, s).Some?
    ensures Loop(NextShip(w, s).value)
  {
    match s
    case PutHistory(_) =>
    case CopyCanonical =>
    case ClearStaging =>
    case NextBatch => NextBatchKeepsLoop(w);
    case EndLoop => EndKeepsLoop(w, s);
    case Abort => EndKeepsLoop(w, s);
  }

  lemma AfterKeepsLoop(w: World, s: AfterStep)
    requires Ids(w) && Loop(w) && NextAfter(w, s).Some?
    ensures Loop(NextAfter(w, s).value)
  {}

  // ---- every step keeps the statuses ----

  lemma MergeMakesProgress(b: Batch)
    requires StatusesFit(Settled, b)
    ensures StatusesFit(Merged, b.(items := CheckpointItems(b.items), status := CheckpointStatus(b.items)))
  {
    var items, after := b.items, CheckpointItems(b.items);
    AnyIsWith(items, Confirmed);
    AnyIsWith(items, ConfirmFailed);
    if With(items, Confirmed) != {} {
      var k :| k in With(items, Confirmed);
      assert k in after && after[k].status == Checkpointed;
    } else if With(items, ConfirmFailed) == {} {
      assert forall k :: k in after ==> after[k].status == Vanished;
    }
  }

  lemma ConfirmSettles(b: Batch, folders: nat, s: Summary)
    requires StatusesFit(Sent, b)
    ensures StatusesFit(Settled, b.(items := ConfirmItems(b.items, folders, s)))
  {
    var items, after := b.items, ConfirmItems(b.items, folders, s);
    if Any(items, Verified) {
      var k :| k in items && items[k].status == Verified;
      assert k in after && (after[k].status == Confirmed || after[k].status == ConfirmFailed);
    } else {
      assert forall k :: k in after ==> after[k] == items[k];
    }
  }

  lemma FetchKeepsStatuses(w: World, key: Key, got: Option<Figures>)
    requires At(w, Fetching) && key in CurrentItems(w) && Statuses(w)
    ensures Statuses(FetchDone(w, key, got))
  {}

  lemma VerifyKeepsStatuses(w: World, key: Key)
    requires At(w, Verifying) && key in CurrentItems(w) && CurrentItems(w)[key].display in w.staging && Statuses(w)
    ensures Statuses(VerifyDone(w, key))
  {}

  lemma ConfirmKeepsStatuses(w: World)
    requires Statuses(w) && NextWork(w, Confirm).Some?
    ensures Statuses(NextWork(w, Confirm).value)
  {
    if Any(CurrentItems(w), Verified) {
      ConfirmSettles(w.db.batches[Current(w)], |FoldersOf(w.staging.Keys)|, w.report.value);
    }
  }

  lemma MergeKeepsStatuses(w: World)
    requires At(w, Settled) && Statuses(w)
    ensures Statuses(MergeDone(w))
  {
    MergeMakesProgress(w.db.batches[Current(w)]);
  }

  lemma TurnKeepsStatuses(w: World, s: WorkStep)
    requires s.EndFetch? || s.EndVerify? || s.Send? || s.SkipSend?
    requires Statuses(w) && NextWork(w, s).Some?
    ensures Statuses(NextWork(w, s).value)
  {}

  lemma WorkKeepsStatuses(w: World, s: WorkStep)
    requires Statuses(w) && NextWork(w, s).Some?
    ensures Statuses(NextWork(w, s).value)
  {
    match s
    case BeginBatch =>
    case FetchOne(key, got) => FetchKeepsStatuses(w, key, got);
    case EndFetch => TurnKeepsStatuses(w, s);
    case VerifyOne(key) => VerifyKeepsStatuses(w, key);
    case EndVerify => TurnKeepsStatuses(w, s);
    case Send(_) => TurnKeepsStatuses(w, s);
    case SkipSend => TurnKeepsStatuses(w, s);
    case Confirm => ConfirmKeepsStatuses(w);
    case Merge => MergeKeepsStatuses(w);
  }

  lemma PrepareKeepsStatuses(w: World, s: PrepareStep)
    requires Loop(w) && Statuses(w) && NextPrepare(w, s).Some?
    ensures Statuses(NextPrepare(w, s).value)
  {}

  lemma NextBatchKeepsStatuses(w: World)
    requires Loop(w) && Statuses(w) && NextShip(w, NextBatch).Some?
    ensures Statuses(NextShip(w, NextBatch).value)
  {
    var v := NextShip(w, NextBatch).value;
    if v.completed < |v.planned| {
      assert Untouched(v.db.batches[v.planned[v.completed]]);
    }
  }

  lemma ShipmentKeepsStatuses(w: World, s: ShipStep)
    requires Loop(w) && Statuses(w) && NextShip(w, s).Some?
    requires s.PutHistory? || s.CopyCanonical? || s.ClearStaging?
    ensures Statuses(NextShip(w, s).value)
  {}

  lemma ShipKeepsStatuses(w: World, s: ShipStep)
    requires Loop(w) && Statuses(w) && NextShip(w, s).Some?
    ensures Statuses(NextShip(w, s).value)
  {
    match s
    case PutHistory(_) => ShipmentKeepsStatuses(w, s);
    case CopyCanonical => ShipmentKeepsStatuses(w, s);
    case ClearStaging => ShipmentKeepsStatuses(w, s);
    case NextBatch => NextBatchKeepsStatuses(w);
    case EndLoop =>
    case Abort =>
  }

  lemma AfterKeepsStatuses(w: World, s: AfterStep)
    requires NextAfter(w, s).Some?
    ensures Statuses(NextAfter(w, s).value)
  {}

  // ---- every reachable world ----

  ghost predicate Accounted(w: World) {
    Ids(w) && Loop(w) && Statuses(w)
  }

  lemma StepKeepsAccount(w: World, s: Step)
    requires Accounted(w) && Next(w, s).Some?
    ensures Accounted(Next(w, s).value)
  {
    match s
    case Outer(outer) =>
      OuterKeepsIds(w, outer);
      OuterKeepsLoop(w, outer);
    case Prepare(prepare) =>
      PrepareKeepsIds(w, prepare);
      PrepareKeepsLoop(w, prepare);
      PrepareKeepsStatuses(w, prepare);
    case Work(work) =>
      WorkKeepsIds(w, work);
      WorkKeepsLoop(w, work);
      WorkKeepsStatuses(w, work);
    case Ship(ship) =>
      ShipKeepsIds(w, ship);
      ShipKeepsLoop(w, ship);
      ShipKeepsStatuses(w, ship);
    case After(after) =>
      AfterKeepsIds(w, after);
      AfterKeepsLoop(w, after);
      AfterKeepsStatuses(w, after);
  }

  lemma {:induction false} EveryRunIsAccounted(trace: seq<Step>)
    requires Replay(FirstWorld(), trace).Some?
    ensures Accounted(Replay(FirstWorld(), trace).value)
  {
    if trace != [] {
      EveryRunIsAccounted(trace[..|trace| - 1]);
      StepKeepsAccount(Replay(FirstWorld(), trace[..|trace| - 1]).value, trace[|trace| - 1]);
    }
  }

  // ---- the trash gate ----

  ghost predicate EveryBatchLanded(w: World) {
    forall b :: b in w.db.batches && w.db.batches[b].runId == w.run ==> w.db.batches[b].status == BatchCheckpointed
  }

  ghost predicate Trashes(s: Step) {
    s.After? && (s.after.TrashCall? || s.after.ReconcileTrash?)
  }

  lemma NothingRemaining(w: World)
    requires Accounted(w) && TrashOpen(w)
    ensures EveryBatchLanded(w)
  {
    forall b | b in w.db.batches && w.db.batches[b].runId == w.run ensures w.db.batches[b].status == BatchCheckpointed {
      var i :| 0 <= i < |w.planned| && w.planned[i] == b;
      assert Done(w.db.batches[w.planned[i]]);
    }
  }

  /**
   With one batches phase to a run, nothing is trashed unless every batch the run planned
   reached CHECKPOINTED: not after a budget stop, a failed confirmation, a raised step or a
   batches phase that never ran.
   */
  lemma TrashWaitsForEveryBatch(trace: seq<Step>, s: Step)
    requires Replay(FirstWorld(), trace + [s]).Some? && Trashes(s)
    ensures Replay(FirstWorld(), trace).Some? && EveryBatchLanded(Replay(FirstWorld(), trace).value)
  {
    assert (trace + [s])[..|trace + [s]| - 1] == trace;
    EveryRunIsAccounted(trace);
    NothingRemaining(Replay(FirstWorld(), trace).value);
  }
}
