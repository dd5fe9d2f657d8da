/**
 What a run leaves in the mirror. After its batches and its trash step each file's row is the
 listing's, gone, or as before; the mirror is the listing exactly when nothing went wrong.
 */
module Convergence {
  import opened Common
  import opened Tables
  import opened BatchItems
  import opened Protocol
  import opened RunLoop

  predicate ItemIs(i: Item, r: ChangedRow) {
    i.display == r.display && i.size == r.size && i.contentHash == r.contentHash
  }

  predicate RowIs(m: MirrorRow, r: ChangedRow) {
    m.display == r.display && m.size == r.size && m.contentHash == r.contentHash
  }

  /** The run has its delta, and its batches phase has not been left out. */
  ghost predicate Running(w: World) {
    || w.phase == DeltaReady || w.phase == PlanReady || w.phase == Looping
    || (w.phase == LoopOver && w.run in w.db.runs && w.db.runs[w.run].remaining.Some?)
  }

  /** The delta is the listing against the mirror the run started from. */
  ghost predicate DeltaIs(l: Listing, changed: map<Key, ChangedRow>, deleted: map<Key, DeletedRow>, base: Mirror) {
    && changed.Keys == Changed(l, base) && deleted.Keys == Deleted(l, base)
    && forall k :: k in changed ==>
         Some(changed[k].size) == l[k].size && Some(changed[k].contentHash) == l[k].contentHash
  }

  type Batches = map<nat, Batch>

  /** Batch `b` of this run has an item `k`. */
  ghost predicate HoldsItem(batches: Batches, run: nat, b: nat, k: Key) {
    b in batches && batches[b].runId == run && k in batches[b].items
  }

  /** This run's batch items are changed files, as the delta has them, each in one batch. */
  ghost predicate ItemsAre(batches: Batches, changed: map<Key, ChangedRow>, run: nat) {
    && (forall b, k :: HoldsItem(batches, run, b, k) ==> k in changed && ItemIs(batches[b].items[k], changed[k]))
    && (forall b, c, k :: HoldsItem(batches, run, b, k) && HoldsItem(batches, run, c, k) ==> b == c)
  }

  ghost predicate RecordedIn(batches: Batches, run: nat, b: nat, k: Key) {
    HoldsItem(batches, run, b, k) && batches[b].items[k].status == Checkpointed
  }

  /** `k` was checkpointed by this run. */
  ghost predicate Recorded(batches: Batches, run: nat, k: Key) {
    exists b :: RecordedIn(batches, run, b, k)
  }

  /** The rows this run merged are those of its checkpointed items. */
  ghost predicate LandedIs(batches: Batches, changed: map<Key, ChangedRow>, run: nat, landed: Mirror) {
    && (forall k :: k in landed <==> Recorded(batches, run, k))
    && (forall k :: k in landed ==> k in changed && RowIs(landed[k], changed[k]))
  }

  ghost predicate MirrorIs(m: Mirror, past: Past) {
    !past.reconciled ==> m == (past.base + past.landed) - past.dropped
  }

  ghost predicate Tracked(w: World) {
    && (w.phase == Opened || w.phase == DeltaReady ==>
          && w.past.base == w.db.mirror && w.past.landed == map[] && w.past.dropped == {} && !w.past.reconciled)
    && (w.phase == Opened || Running(w) ==>
          forall k :: k in w.db.listing && Present(w.db.listing[k]) ==> Mirrorable(w.db.listing[k]))
    && (Running(w) ==>
          && w.run in w.db.runs
          && DeltaIs(w.db.listing, w.db.changed, w.db.deleted, w.past.base)
          && ItemsAre(w.db.batches, w.db.changed, w.run)
          && LandedIs(w.db.batches, w.db.changed, w.run, w.past.landed)
          && MirrorIs(w.db.mirror, w.past)
          && w.past.dropped <= w.db.deleted.Keys
          && (!TrashOpen(w) ==> w.past.dropped == {} && !w.past.reconciled))
  }

  // ---- every step keeps track ----

  lemma OuterKeepsTrack(w: World, s: OuterStep)
    requires NextOuter(w, s).Some?
    ensures Tracked(NextOuter(w, s).value)
  {}

  lemma DeltaIsTracked(w: World, displays: map<Key, Display>)
    requires Accounted(w) && Tracked(w) && NextPrepare(w, SaveDelta(displays)).Some?
    ensures Tracked(NextPrepare(w, SaveDelta(displays)).value)
  {
    assert forall b, k :: !HoldsItem(w.db.batches, w.run, b, k);
    assert w.db.mirror == (w.db.mirror + map[]) - {};
  }

  lemma PlannedItemsAre(w: World, first: nat, parts: seq<set<Key>>)
    requires Loop(w) && w.phase == DeltaReady && CanPlan(w, first, parts)
    ensures ItemsAre(PlanSaved(w, first, parts).db.batches, w.db.changed, w.run)
    ensures forall k :: !Recorded(PlanSaved(w, first, parts).db.batches, w.run, k)
  {
    var batches := PlanSaved(w, first, parts).db.batches;
    forall b: nat, k | HoldsItem(batches, w.run, b, k)
      ensures first <= b < first + |parts| && k in parts[b - first] && batches[b].items[k] == NewItem(w.db.changed[k])
    {
      assert b !in Kept(w.db.batches);
    }
    forall b: nat, c: nat, k | HoldsItem(batches, w.run, b, k) && HoldsItem(batches, w.run, c, k) ensures b == c {
      assert k in parts[b - first] && k in parts[c - first];
    }
  }

  lemma PlanIsTracked(w: World, first: nat, parts: seq<set<Key>>)
    requires Accounted(w) && Tracked(w) && w.phase == DeltaReady && CanPlan(w, first, parts)
    ensures Tracked(PlanSaved(w, first, parts))
  {
    PlannedItemsAre(w, first, parts);
  }

  lemma PrepareKeepsTrack(w: World, s: PrepareStep)
    requires Accounted(w) && Tracked(w) && NextPrepare(w, s).Some?
    ensures Tracked(NextPrepare(w, s).value)
  {
    match s
    case SaveListing(_) =>
    case SaveDelta(displays) => DeltaIsTracked(w, displays);
    case SavePlan(first, parts) => PlanIsTracked(w, first, parts);
    case BeginLoop(_) =>
  }

  /** Items after some work on their batch: the same files, in other statuses. */
  ghost predicate SameFiles(items: Items, after: Items) {
    && after.Keys == items.Keys
    && forall k :: k in items ==>
         && after[k].display == items[k].display && after[k].size == items[k].size
         && after[k].contentHash == items[k].contentHash
  }

  /** Batch `b` was worked on, the others not. */
  ghost predicate OneBatch(batches: Batches, after: Batches, b: nat) {
    && b in batches && after.Keys == batches.Keys
    && after[b].runId == batches[b].runId && SameFiles(batches[b].items, after[b].items)
    && forall c :: c in batches && c != b ==> after[c] == batches[c]
  }

  lemma OneBatchHolds(batches: Batches, after: Batches, changed: map<Key, ChangedRow>, run: nat, b: nat)
    requires OneBatch(batches, after, b) && ItemsAre(batches, changed, run)
    ensures ItemsAre(after, changed, run)
    ensures forall c, k :: HoldsItem(after, run, c, k) <==> HoldsItem(batches, run, c, k)
  {
    forall c, k ensures HoldsItem(after, run, c, k) <==> HoldsItem(batches, run, c, k) {}
  }

  ghost predicate SameRecords(items: Items, after: Items)
    requires after.Keys == items.Keys
  {
    forall k :: k in items ==> (items[k].status == Checkpointed <==> after[k].status == Checkpointed)
  }

  lemma NothingNewRecorded(
      batches: Batches, after: Batches, changed: map<Key, ChangedRow>, run: nat, b: nat, landed: Mirror)
    requires OneBatch(batches, after, b) && SameRecords(batches[b].items, after[b].items)
    requires ItemsAre(batches, changed, run) && LandedIs(batches, changed, run, landed)
    ensures ItemsAre(after, changed, run) && LandedIs(after, changed, run, landed)
  {
    OneBatchHolds(batches, after, changed, run, b);
    forall k ensures Recorded(after, run, k) <==> Recorded(batches, run, k) {
      if Recorded(batches, run, k) {
        var c :| RecordedIn(batches, run, c, k);
        assert RecordedIn(after, run, c, k);
      }
      if Recorded(after, run, k) {
        var c :| RecordedIn(after, run, c, k);
        assert RecordedIn(batches, run, c, k);
      }
    }
  }

  lemma MergeRecordsOne(batches: Batches, after: Batches, run: nat, b: nat, k: Key)
    requires b in batches && batches[b].runId == run && OneBatch(batches, after, b)
    requires after[b].items == CheckpointItems(batches[b].items)
    ensures Recorded(after, run, k) <==> Recorded(batches, run, k) || k in With(batches[b].items, Confirmed)
  {
    if Recorded(batches, run, k) {
      var c :| RecordedIn(batches, run, c, k);
      assert RecordedIn(after, run, c, k);
    }
    if k in With(batches[b].items, Confirmed) {
      assert RecordedIn(after, run, b, k);
    }
    if Recorded(after, run, k) {
      var c :| RecordedIn(after, run, c, k);
      if c == b {
        assert RecordedIn(batches, run, b, k) || k in With(batches[b].items, Confirmed);
      } else {
        assert RecordedIn(batches, run, c, k);
      }
    }
  }

  lemma MergeRecords(
      batches: Batches, after: Batches, changed: map<Key, ChangedRow>, run: nat, b: nat, m: Mirror, landed: Mirror)
    requires b in batches && batches[b].runId == run && OneBatch(batches, after, b)
    requires after[b].items == CheckpointItems(batches[b].items)
    requires ItemsAre(batches, changed, run) && LandedIs(batches, changed, run, landed)
    ensures LandedIs(after, changed, run, landed + MergedRows(m, batches[b].items, run))
  {
    var items := batches[b].items;
    OneBatchHolds(batches, after, changed, run, b);
    forall k ensures Recorded(after, run, k) <==> Recorded(batches, run, k) || k in With(items, Confirmed) {
      MergeRecordsOne(batches, after, run, b, k);
    }
    forall k | k in With(items, Confirmed) ensures k in changed && ItemIs(items[k], changed[k]) {
      assert HoldsItem(batches, run, b, k);
    }
  }

  lemma MergeKeepsMirror(base: Mirror, landed: Mirror, rows: Mirror)
    ensures ((base + landed) - {}) + rows == (base + (landed + rows)) - {}
  {}

  lemma MergeKeepsTrack(w: World)
    requires Accounted(w) && Tracked(w) && At(w, Settled)
    ensures Tracked(MergeDone(w))
  {
    var b, v := Current(w), MergeDone(w);
    assert w.planned[w.completed] in w.planned;
    assert OneBatch(w.db.batches, v.db.batches, b);
    OneBatchHolds(w.db.batches, v.db.batches, w.db.changed, w.run, b);
    MergeRecords(w.db.batches, v.db.batches, w.db.changed, w.run, b, w.db.mirror, w.past.landed);
    MergeKeepsMirror(w.past.base, w.past.landed, MergedRows(w.db.mirror, CurrentItems(w), w.run));
  }

  /** What a step on the batch in progress, short of its merge, leaves alone. */
  ghost predicate OnlyItems(w: World, v: World) {
    && v.phase == w.phase && v.run == w.run && v.db == w.db.(batches := v.db.batches)
    && v.past == w.past.(uploads := v.past.uploads, compared := v.past.compared)
  }

  lemma FetchIsOnItems(w: World, key: Key, got: Option<Figures>)
    requires At(w, Fetching) && key in CurrentItems(w) && CurrentItems(w)[key].status == ItemStatus.Planned
    ensures var v := FetchDone(w, key, got);
      && OnlyItems(w, v) && OneBatch(w.db.batches, v.db.batches, Current(w))
      && SameRecords(CurrentItems(w), v.db.batches[Current(w)].items)
  {}

  lemma VerifyIsOnItems(w: World, key: Key)
    requires At(w, Verifying) && key in CurrentItems(w) && CurrentItems(w)[key].status == Fetched
    requires CurrentItems(w)[key].display in w.staging
    ensures var v := VerifyDone(w, key);
      && OnlyItems(w, v) && OneBatch(w.db.batches, v.db.batches, Current(w))
      && SameRecords(CurrentItems(w), v.db.batches[Current(w)].items)
  {}

  lemma ConfirmIsOnItems(w: World)
    requires NextWork(w, Confirm).Some?
    ensures var v := NextWork(w, Confirm).value;
      && OnlyItems(w, v) && OneBatch(w.db.batches, v.db.batches, Current(w))
      && SameRecords(CurrentItems(w), v.db.batches[Current(w)].items)
  {
    if Any(CurrentItems(w), Verified) {
      ConfirmIsSameFiles(CurrentItems(w), |FoldersOf(w.staging.Keys)|, w.report.value);
    }
  }

  lemma ConfirmIsSameFiles(items: Items, folders: nat, s: Summary)
    ensures SameFiles(items, ConfirmItems(items, folders, s)) && SameRecords(items, ConfirmItems(items, folders, s))
  {}

  lemma WorkIsOnItems(w: World, s: WorkStep)
    requires NextWork(w, s).Some? && !s.Merge?
    ensures var v := NextWork(w, s).value;
      && OnlyItems(w, v) && OneBatch(w.db.batches, v.db.batches, Current(w))
      && SameRecords(CurrentItems(w), v.db.batches[Current(w)].items)
  {
    match s
    case BeginBatch =>
    case FetchOne(key, got) => FetchIsOnItems(w, key, got);
    case EndFetch =>
    case VerifyOne(key) => VerifyIsOnItems(w, key);
    case EndVerify =>
    case Send(_) =>
    case SkipSend =>
    case Confirm => ConfirmIsOnItems(w);
  }

  lemma WorkKeepsTrack(w: World, s: WorkStep)
    requires Accounted(w) && Tracked(w) && NextWork(w, s).Some?
    ensures Tracked(NextWork(w, s).value)
  {
    if s.Merge? {
      MergeKeepsTrack(w);
    } else {
      WorkIsOnItems(w, s);
      NothingNewRecorded(w.db.batches, NextWork(w, s).value.db.batches, w.db.changed, w.run, Current(w), w.past.landed);
    }
  }

  lemma AbortKeepsTrack(w: World)
    requires Accounted(w) && Tracked(w) && NextShip(w, Abort).Some?
    ensures Tracked(NextShip(w, Abort).value)
  {
    var v := NextShip(w, Abort).value;
    NothingNewRecorded(w.db.batches, v.db.batches, w.db.changed, w.run, Current(w), w.past.landed);
  }

  lemma ShipKeepsTrack(w: World, s: ShipStep)
    requires Accounted(w) && Tracked(w) && NextShip(w, s).Some?
    ensures Tracked(NextShip(w, s).value)
  {
    match s
    case PutHistory(_) =>
    case CopyCanonical =>
    case ClearStaging =>
    case NextBatch =>
    case EndLoop =>
    case Abort => AbortKeepsTrack(w);
  }

  lemma AfterKeepsTrack(w: World, s: AfterStep)
    requires Accounted(w) && Tracked(w) && NextAfter(w, s).Some?
    ensures Tracked(NextAfter(w, s).value)
  {
    match s
    case TrashCall(_) =>
    case RecordDeletion(_, _) =>
    case DropDeleted =>
    case ReconcileTrash(_) =>
    case CorrectMirror(_) =>
    case FinishRun =>
  }

  lemma StepKeepsTrack(w: World, s: Step)
    requires Accounted(w) && Tracked(w) && Next(w, s).Some?
    ensures Tracked(Next(w, s).value)
  {
    match s
    case Outer(outer) => OuterKeepsTrack(w, outer);
    case Prepare(prepare) => PrepareKeepsTrack(w, prepare);
    case Work(work) => WorkKeepsTrack(w, work);
    case Ship(ship) => ShipKeepsTrack(w, ship);
    case After(after) => AfterKeepsTrack(w, after);
  }

  lemma {:induction false} EveryRunIsTracked(trace: seq<Step>)
    requires Replay(FirstWorld(), trace).Some?
    ensures Accounted(Replay(FirstWorld(), trace).value) && Tracked(Replay(FirstWorld(), trace).value)
  {
    if trace != [] {
      var w := Replay(FirstWorld(), trace[..|trace| - 1]).value;
      EveryRunIsTracked(trace[..|trace| - 1]);
      StepKeepsAccount(w, trace[|trace| - 1]);
      StepKeepsTrack(w, trace[|trace| - 1]);
    }
  }

  /** Neither the trash step nor the reconcile step has done anything in this run. */
  ghost predicate NoTrashYet(w: World) {
    NothingDeletedYet(w) && w.past.dropped == {} && !w.past.reconciled
  }

  lemma NoTrashBeforeTheGate(trace: seq<Step>)
    requires Replay(FirstWorld(), trace).Some? && Running(Replay(FirstWorld(), trace).value)
    requires !TrashOpen(Replay(FirstWorld(), trace).value)
    ensures NoTrashYet(Replay(FirstWorld(), trace).value)
  {
    EveryRunIsTracked(trace);
  }

  // ---- the mirror a run started from ----

  lemma StepKeepsBase(w: World, s: Step)
    requires !s.Outer? && Next(w, s).Some?
    ensures Next(w, s).value.past.base == w.past.base
  {
    match s
    case Prepare(_) =>
    case Work(work) => WorkKeepsBase(w, work);
    case Ship(_) =>
    case After(_) =>
  }

  lemma WorkKeepsBase(w: World, s: WorkStep)
    requires NextWork(w, s).Some?
    ensures NextWork(w, s).value.past.base == w.past.base
  {
    match s
    case BeginBatch =>
    case FetchOne(_, _) =>
    case EndFetch =>
    case VerifyOne(_) =>
    case EndVerify =>
    case Send(_) =>
    case SkipSend =>
    case Confirm =>
    case Merge =>
  }

  /** A run that has been opened and nothing else still has the mirror it started from. */
  lemma OpenedAtItsBase(trace: seq<Step>)
    requires Replay(FirstWorld(), trace).Some? && Replay(FirstWorld(), trace).value.phase == Opened
    ensures var w := Replay(FirstWorld(), trace).value; w.past.base == w.db.mirror && NoTrashYet(w)
  {
    EveryRunIsTracked(trace);
  }

  // ---- what a run leaves in the mirror ----

  /** The batches phase is over, and every deletion the trash step recorded has left the mirror. */
  ghost predicate TrashDone(w: World) {
    && w.phase == LoopOver && w.run in w.db.runs && w.db.runs[w.run].remaining.Some?
    && w.past.dropped == Gone(w.db, w.run) && !w.past.reconciled
  }

  /** The row of `k` in the mirror, if there is one. */
  function RowOf(m: Mirror, k: Key): Option<MirrorRow> {
    if k in m then Some(m[k]) else None
  }

  /** What becomes of one file: as listed if checkpointed, gone if trashed or not found, else as before. */
  ghost predicate Converged(w: World, k: Key) {
    && (Recorded(w.db.batches, w.run, k) ==>
          && k in w.db.mirror && k in w.db.listing
          && Some(w.db.mirror[k].size) == w.db.listing[k].size
          && Some(w.db.mirror[k].contentHash) == w.db.listing[k].contentHash)
    && (k in Gone(w.db, w.run) ==> k !in w.db.mirror)
    && (!Recorded(w.db.batches, w.run, k) && k !in Gone(w.db, w.run) ==> RowOf(w.db.mirror, k) == RowOf(w.past.base, k))
  }

  lemma TrackedConverges(w: World, k: Key)
    requires Tracked(w) && TrashDone(w)
    ensures Converged(w, k)
  {
    if Recorded(w.db.batches, w.run, k) {
      assert k in Changed(w.db.listing, w.past.base);
      assert k !in Deleted(w.db.listing, w.past.base);
    }
  }

  lemma RunConverges(trace: seq<Step>, k: Key)
    requires Replay(FirstWorld(), trace).Some? && TrashDone(Replay(FirstWorld(), trace).value)
    ensures Converged(Replay(FirstWorld(), trace).value, k)
  {
    EveryRunIsTracked(trace);
    TrackedConverges(Replay(FirstWorld(), trace).value, k);
  }

  /** Every changed file was checkpointed, and every deleted one trashed or found gone. */
  ghost predicate NothingLeftOver(w: World) {
    && (forall k :: k in w.db.changed ==> Recorded(w.db.batches, w.run, k))
    && w.db.deleted.Keys <= Gone(w.db, w.run)
  }

  ghost predicate FileMirrored(m: Mirror, l: Listing, k: Key) {
    && (k in m <==> k in l && Present(l[k]))
    && (k in m ==> Some(m[k].size) == l[k].size && Some(m[k].contentHash) == l[k].contentHash)
  }

  /** The mirror is the listing, on path, size and content hash. */
  ghost predicate MirrorsListing(m: Mirror, l: Listing) {
    forall k :: FileMirrored(m, l, k)
  }

  lemma MirroredListingHasNoDelta(m: Mirror, l: Listing)
    requires MirrorsListing(m, l)
    ensures Changed(l, m) == {} && Deleted(l, m) == {}
  {
    forall k ensures k !in Changed(l, m) && k !in Deleted(l, m) {
      assert FileMirrored(m, l, k);
    }
  }

  /**
   The delta is exactly the difference: its two tables name the files on which mirror and listing
   disagree, and carrying them out makes the mirror the listing.
   */
  lemma DeltaIsTheDifference(db: Tables, displays: map<Key, Display>, after: Mirror)
    requires Changed(db.listing, db.mirror) <= displays.Keys
    requires forall k :: k in db.listing && Present(db.listing[k]) ==> Mirrorable(db.listing[k])
    requires var t := WithDelta(db, displays);
      && after.Keys == (db.mirror.Keys - t.deleted.Keys) + t.changed.Keys
      && (forall k :: k in t.changed ==> RowIs(after[k], t.changed[k]))
      && forall k :: k in after && k !in t.changed ==> after[k] == db.mirror[k]
    ensures var t := WithDelta(db, displays);
      && (forall k :: k in t.changed || k in t.deleted <==> !FileMirrored(db.mirror, db.listing, k))
      && t.changed.Keys !! t.deleted.Keys && MirrorsListing(after, db.listing)
  {
    var t := WithDelta(db, displays);
    forall k ensures FileMirrored(after, db.listing, k) {}
  }

  lemma CleanFileIsMirrored(w: World, k: Key)
    requires Tracked(w) && TrashDone(w) && NothingLeftOver(w)
    ensures FileMirrored(w.db.mirror, w.db.listing, k)
  {
    TrackedConverges(w, k);
  }

  lemma MirroredLeavesNothingOver(w: World)
    requires Tracked(w) && TrashDone(w) && MirrorsListing(w.db.mirror, w.db.listing)
    ensures NothingLeftOver(w)
  {
    forall k | k in w.db.changed ensures Recorded(w.db.batches, w.run, k) {
      TrackedConverges(w, k);
      assert k in Changed(w.db.listing, w.past.base) && k !in Deleted(w.db.listing, w.past.base);
      assert FileMirrored(w.db.mirror, w.db.listing, k);
    }
    forall k | k in w.db.deleted ensures k in Gone(w.db, w.run) {
      TrackedConverges(w, k);
      assert k in Deleted(w.db.listing, w.past.base) && k !in Changed(w.db.listing, w.past.base);
      assert FileMirrored(w.db.mirror, w.db.listing, k);
    }
  }

  /** What may go wrong with a file in its batch, and leaves it for a later run. */
  predicate Missed(s: ItemStatus) {
    s == Vanished || s == HashMismatch || s == ConfirmFailed
  }

  /** No changed file was oversized, vanished, mismatched or failed, and no deleted one unlisted. */
  ghost predicate NothingWentWrong(w: World) {
    && (forall k :: k in w.db.changed ==> exists b :: HoldsItem(w.db.batches, w.run, b, k))
    && (forall b, k :: HoldsItem(w.db.batches, w.run, b, k) ==> !Missed(w.db.batches[b].items[k].status))
    && (forall k :: k in w.db.deleted ==> (w.run, k) in w.db.deletions && !w.db.deletions[(w.run, k)].ListingFailed?)
  }

  /** Where every batch landed, an item that was not missed is on record. */
  lemma LandedOrMissed(w: World, b: nat, k: Key)
    requires Accounted(w) && TrashOpen(w) && HoldsItem(w.db.batches, w.run, b, k)
    ensures Missed(w.db.batches[b].items[k].status) <==> !RecordedIn(w.db.batches, w.run, b, k)
  {
    var i :| 0 <= i < |w.planned| && w.planned[i] == b;
    assert Done(w.db.batches[w.planned[i]]);
  }

  lemma NothingOverIsNothingWrong(w: World)
    requires Accounted(w) && Tracked(w) && TrashDone(w) && TrashOpen(w)
    ensures NothingLeftOver(w) <==> NothingWentWrong(w)
  {
    forall b, k | HoldsItem(w.db.batches, w.run, b, k)
      ensures Missed(w.db.batches[b].items[k].status) <==> !Recorded(w.db.batches, w.run, k)
    {
      LandedOrMissed(w, b, k);
      if Recorded(w.db.batches, w.run, k) {
        var c :| RecordedIn(w.db.batches, w.run, c, k);
        assert HoldsItem(w.db.batches, w.run, c, k);
      }
    }
    if NothingWentWrong(w) {
      forall k | k in w.db.changed ensures Recorded(w.db.batches, w.run, k) {
        var b :| HoldsItem(w.db.batches, w.run, b, k);
      }
    }
    if NothingLeftOver(w) {
      forall k | k in w.db.changed ensures exists b :: HoldsItem(w.db.batches, w.run, b, k) {
        var b :| RecordedIn(w.db.batches, w.run, b, k);
        assert HoldsItem(w.db.batches, w.run, b, k);
      }
    }
  }

  /**
   After a run whose batches all landed and whose trash step is done, the mirror is the listing
   if and only if nothing went wrong with any file; the next delta over it is then empty.
   */
  lemma CleanRunMirrorsTheListing(trace: seq<Step>)
    requires Replay(FirstWorld(), trace).Some?
    requires TrashDone(Replay(FirstWorld(), trace).value) && TrashOpen(Replay(FirstWorld(), trace).value)
    ensures var w := Replay(FirstWorld(), trace).value;
      && (MirrorsListing(w.db.mirror, w.db.listing) <==> NothingWentWrong(w))
      && (NothingWentWrong(w) ==> Changed(w.db.listing, w.db.mirror) == {} && Deleted(w.db.listing, w.db.mirror) == {})
  {
    EveryRunIsTracked(trace);
    TrackedCleanRun(Replay(FirstWorld(), trace).value);
  }

  lemma TrackedCleanRun(w: World)
    requires Accounted(w) && Tracked(w) && TrashDone(w) && TrashOpen(w)
    ensures MirrorsListing(w.db.mirror, w.db.listing) <==> NothingWentWrong(w)
    ensures NothingWentWrong(w) ==> Changed(w.db.listing, w.db.mirror) == {} && Deleted(w.db.listing, w.db.mirror) == {}
  {
    NothingOverIsNothingWrong(w);
    if NothingLeftOver(w) {
      forall k ensures FileMirrored(w.db.mirror, w.db.listing, k) {
        CleanFileIsMirrored(w, k);
      }
      MirroredListingHasNoDelta(w.db.mirror, w.db.listing);
    }
    if MirrorsListing(w.db.mirror, w.db.listing) {
      MirroredLeavesNothingOver(w);
    }
  }
}
