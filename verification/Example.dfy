/**
 One run of the protocol, end to end: an empty mirror, a listing of one file, one batch. The
 theorems about every run are not about none.
 */
module Example {
  import opened Common
  import opened Tables
  import opened BatchItems
  import opened Protocol

  const KEY: Key := "/a"
  const SPELT: Display := ["a"]
  const FIGURES := Figures(1, "hash", "sha1", "sha256")
  const LISTING: Listing := map[KEY := Entry(File, SPELT, Some(1), Some("hash"), true)]
  const SUMMARY := Summary(1, 0, 0, [])

  const CHECKED := Comparison(KEY, ItemAt(Verified), FIGURES)

  predicate NotYetHashed(status: ItemStatus) {
    status == ItemStatus.Planned || status == Fetched
  }

  function ItemAt(status: ItemStatus): Item {
    if NotYetHashed(status) then Item(SPELT, 1, "hash", status, "", "")
    else Item(SPELT, 1, "hash", status, "sha1", "sha256")
  }

  function TablesAt(status: ItemStatus, batch: BatchStatus): Tables {
    Tables(map[], LISTING, map[KEY := ChangedRow(SPELT, 1, "hash")], map[],
           map[0 := Batch(0, 1, batch, map[KEY := ItemAt(status)])],
           map[0 := RunRow(RunRunning, false, false, None)], map[])
  }

  /** The world while the one batch is in progress, before its merge. */
  function Working(
      step: BatchStep, status: ItemStatus, staging: Staging, report: Option<Summary>, uploads: seq<Upload>): World {
    World(TablesAt(status, BatchPlanned), 0, Looping, [0], 0, step, staging, report, None, map[],
          Past(uploads, if NotYetHashed(status) then {} else {CHECKED}, {}, map[], map[], {}, false))
  }

  const STAGED: Staging := map[SPELT := FIGURES]
  const SENT := Upload(map[KEY := ItemAt(Verified)], STAGED, Some(SUMMARY))

  /** The steps up to the batches loop, and the tables after each. */
  function Opening(n: nat): Tables {
    Tables(map[], if n < 1 then map[] else LISTING,
           if n < 2 then map[] else map[KEY := ChangedRow(SPELT, 1, "hash")], map[],
           if n < 3 then map[] else map[0 := Batch(0, 1, BatchPlanned, map[KEY := ItemAt(ItemStatus.Planned)])],
           map[0 := RunRow(RunRunning, false, false, None)], map[])
  }

  function Before(n: nat, phase: Phase): World {
    World(Opening(n), 0, phase, [], 0, Between, map[], None, None, map[], Past([], {}, {}, map[], map[], {}, false))
  }

  lemma Starts()
    ensures Next(FirstWorld(), Outer(StartRun(0, false))) == Some(Before(0, Opened))
  {}

  lemma Lists()
    ensures Next(Before(0, Opened), Prepare(SaveListing(LISTING))) == Some(Before(1, Opened))
  {
    assert MarkUnhashed(LISTING) == LISTING;
  }

  lemma Compares()
    ensures Next(Before(1, Opened), Prepare(SaveDelta(map[KEY := SPELT]))) == Some(Before(2, DeltaReady))
  {
    assert Changed(LISTING, map[]) == {KEY} && Deleted(LISTING, map[]) == {};
    assert WithDelta(Opening(1), map[KEY := SPELT]) == Opening(2);
  }

  lemma Packs()
    ensures Next(Before(2, DeltaReady), Prepare(SavePlan(0, [{KEY}]))) == Some(Before(3, PlanReady))
  {
    var changed := Opening(2).changed;
    assert Kept(map[]) == map[];
    assert NewBatch(changed, 0, 1, {KEY}).items == map[KEY := ItemAt(ItemStatus.Planned)];
    assert NewBatches(changed, 0, 0, [{KEY}], 0) == map[];
    assert NewBatches(changed, 0, 0, [{KEY}], 1) == Opening(3).batches;
    assert CanPlan(Before(2, DeltaReady), 0, [{KEY}]);
    assert PlanSaved(Before(2, DeltaReady), 0, [{KEY}]).db.batches == Opening(3).batches;
  }

  lemma Selected()
    ensures Next(Before(3, PlanReady), Prepare(BeginLoop([0])))
      == Some(Working(Between, ItemStatus.Planned, map[], None, []))
  {
    assert Selects(Opening(3), 0, [0]);
  }

  lemma SameTables(t: Tables, status: ItemStatus, batch: BatchStatus)
    requires t == TablesAt(status, batch).(batches := t.batches)
    requires t.batches.Keys == {0} && t.batches[0] == Batch(0, 1, batch, t.batches[0].items)
    requires t.batches[0].items.Keys == {KEY} && t.batches[0].items[KEY] == ItemAt(status)
    ensures t == TablesAt(status, batch)
  {
    assert t.batches[0].items == map[KEY := ItemAt(status)];
    assert t.batches == TablesAt(status, batch).batches;
  }

  lemma Fetches()
    ensures Next(Working(Between, ItemStatus.Planned, map[], None, []), Work(BeginBatch))
      == Some(Working(Fetching, ItemStatus.Planned, map[], None, []))
    ensures Next(Working(Fetching, ItemStatus.Planned, map[], None, []), Work(FetchOne(KEY, Some(FIGURES))))
      == Some(Working(Fetching, Fetched, STAGED, None, []))
    ensures Next(Working(Fetching, Fetched, STAGED, None, []), Work(EndFetch))
      == Some(Working(Verifying, Fetched, STAGED, None, []))
  {
    var v := FetchDone(Working(Fetching, ItemStatus.Planned, map[], None, []), KEY, Some(FIGURES));
    assert SPELT == ItemAt(ItemStatus.Planned).display && v.staging == STAGED;
    SameTables(v.db, Fetched, BatchPlanned);
  }

  lemma Verifies()
    ensures Next(Working(Verifying, Fetched, STAGED, None, []), Work(VerifyOne(KEY)))
      == Some(Working(Verifying, Verified, STAGED, None, []))
    ensures Next(Working(Verifying, Verified, STAGED, None, []), Work(EndVerify))
      == Some(Working(Checked, Verified, STAGED, None, []))
  {
    var v := VerifyDone(Working(Verifying, Fetched, STAGED, None, []), KEY);
    SameTables(v.db, Verified, BatchPlanned);
    assert v.past.compared == {} + {CHECKED} == {CHECKED};
    assert KEY in CurrentItems(Working(Verifying, Verified, STAGED, None, []));
  }

  lemma Sends()
    ensures Next(Working(Checked, Verified, STAGED, None, []), Work(Send(Some(SUMMARY))))
      == Some(Working(Sent, Verified, STAGED, Some(SUMMARY), [SENT]))
  {
    assert KEY in CurrentItems(Working(Checked, Verified, STAGED, None, []));
    assert [] + [SENT] == [SENT];
  }

  lemma ItemConfirms()
    ensures ConfirmItems(SENT.items, |FoldersOf(STAGED.Keys)|, SUMMARY) == map[KEY := ItemAt(Confirmed)]
  {
    var items := SENT.items;
    assert KEY in items && With(items, Verified) == {KEY};
    assert FoldersOf(STAGED.Keys) == {};
    assert FailedNames(SUMMARY) == {} && FailedRows(items, SUMMARY) == {} && Basenames(items, {}) == {};
    assert ConfirmItem(items, 0, SUMMARY, KEY) == ItemAt(Confirmed);
  }

  lemma VerifyNext(w: World, key: Key)
    requires At(w, Verifying) && key in CurrentItems(w) && CurrentItems(w)[key].status == Fetched
    requires CurrentItems(w)[key].display in w.staging
    ensures Next(w, Work(VerifyOne(key))) == Some(VerifyDone(w, key))
  {}

  /** What confirming commits when there is something to confirm. */
  lemma ConfirmNext(w: World, items: Items)
    requires At(w, Sent) && Any(CurrentItems(w), Verified) && w.report.Some?
    requires items == ConfirmItems(CurrentItems(w), |FoldersOf(w.staging.Keys)|, w.report.value)
    ensures Next(w, Work(WorkStep.Confirm)) == Some(w.(step := Settled, db := PutItems(w.db, Current(w), items)))
  {}

  lemma Confirms()
    ensures Next(Working(Sent, Verified, STAGED, Some(SUMMARY), [SENT]), Work(WorkStep.Confirm))
      == Some(Working(Settled, Confirmed, STAGED, Some(SUMMARY), [SENT]))
  {
    var w := Working(Sent, Verified, STAGED, Some(SUMMARY), [SENT]);
    assert KEY in CurrentItems(w) && CurrentItems(w) == SENT.items;
    ItemConfirms();
    ConfirmNext(w, map[KEY := ItemAt(Confirmed)]);
    SameTables(PutItems(w.db, 0, map[KEY := ItemAt(Confirmed)]), Confirmed, BatchPlanned);
  }

  const ROW := MirrorRow(SPELT, 1, "hash", "sha1", "sha256", None, 0)

  function Done(remaining: Option<nat>): Tables {
    TablesAt(Checkpointed, BatchCheckpointed).(
      mirror := map[KEY := ROW], runs := map[0 := RunRow(RunRunning, false, false, remaining)])
  }

  /** The world from the merge on. */
  function Shipping(
      phase: Phase, step: BatchStep, completed: nat, staging: Staging, pending: Option<string>, remaining: Option<nat>,
      objects: Objects, puts: set<Tables>): World {
    World(Done(remaining), 0, phase, [0], completed, step, staging, Some(SUMMARY), pending, objects,
          Past([SENT], {CHECKED}, puts, map[], map[KEY := ROW], {}, false))
  }

  lemma TablesMerge()
    ensures MergeBatch(TablesAt(Confirmed, BatchPlanned), 0, 0) == Done(None)
    ensures MergedRows(map[], map[KEY := ItemAt(Confirmed)], 0) == map[KEY := ROW]
  {
    var items := map[KEY := ItemAt(Confirmed)];
    assert With(items, Confirmed) == {KEY} && With(items, ConfirmFailed) == {};
    assert MergedRows(map[], items, 0) == map[KEY := ROW];
    assert CheckpointItems(items) == map[KEY := ItemAt(Checkpointed)];
    assert MergeBatch(TablesAt(Confirmed, BatchPlanned), 0, 0).batches == Done(None).batches;
    assert map[] + map[KEY := ROW] == map[KEY := ROW];
  }

  lemma Merges()
    ensures Next(Working(Settled, Confirmed, STAGED, Some(SUMMARY), [SENT]), Work(Merge))
      == Some(Shipping(Looping, Merged, 0, STAGED, None, None, map[], {}))
  {
    TablesMerge();
    assert map[] + map[KEY := ROW] == map[KEY := ROW];
  }

  const BUCKET: Objects := map[HistoryKey("0-1") := Done(None)]

  lemma Ships()
    ensures Next(Shipping(Looping, Merged, 0, STAGED, None, None, map[], {}), Ship(PutHistory("0-1")))
      == Some(Shipping(Looping, Stored, 0, STAGED, Some("0-1"), None, BUCKET, {Done(None)}))
    ensures Next(Shipping(Looping, Stored, 0, STAGED, Some("0-1"), None, BUCKET, {Done(None)}), Ship(CopyCanonical))
      == Some(Shipping(Looping, Copied, 0, STAGED, None, None, BUCKET[STATE_KEY := Done(None)], {Done(None)}))
    ensures Next(Shipping(Looping, Copied, 0, STAGED, None, None, BUCKET[STATE_KEY := Done(None)], {Done(None)}),
                 Ship(ClearStaging))
      == Some(Shipping(Looping, Landed, 0, map[], None, None, BUCKET[STATE_KEY := Done(None)], {Done(None)}))
  {
    assert {} + {Done(None)} == {Done(None)};
  }

  lemma Ends()
    ensures var objects := BUCKET[STATE_KEY := Done(None)];
      && Next(Shipping(Looping, Landed, 0, map[], None, None, objects, {Done(None)}), Ship(NextBatch))
        == Some(Shipping(Looping, Between, 1, map[], None, None, objects, {Done(None)}))
      && Next(Shipping(Looping, Between, 1, map[], None, None, objects, {Done(None)}), Ship(EndLoop))
        == Some(Shipping(LoopOver, Between, 1, map[], None, Some(0), objects, {Done(None)}))
  {
    assert EndOfLoop(Done(None), 0, 1, 1, false).runs == Done(Some(0)).runs;
  }

  /** One more step of a trace. */
  lemma Extends(trace: seq<Step>, w: World, s: Step, v: World) returns (longer: seq<Step>)
    requires Replay(FirstWorld(), trace) == Some(w) && Next(w, s) == Some(v)
    ensures longer == trace + [s] && Replay(FirstWorld(), longer) == Some(v)
  {
    ReplayExtends(FirstWorld(), trace, s);
    longer := trace + [s];
  }

  /** From an empty bucket to the loop. */
  lemma Prepares() returns (t: seq<Step>)
    ensures Replay(FirstWorld(), t) == Some(Working(Between, ItemStatus.Planned, map[], None, []))
  {
    Starts();
    Lists();
    Compares();
    Packs();
    Selected();
    t := Extends([], FirstWorld(), Outer(StartRun(0, false)), Before(0, Opened));
    t := Extends(t, Before(0, Opened), Prepare(SaveListing(LISTING)), Before(1, Opened));
    t := Extends(t, Before(1, Opened), Prepare(SaveDelta(map[KEY := SPELT])), Before(2, DeltaReady));
    t := Extends(t, Before(2, DeltaReady), Prepare(SavePlan(0, [{KEY}])), Before(3, PlanReady));
    t := Extends(t, Before(3, PlanReady), Prepare(BeginLoop([0])),
                 Working(Between, ItemStatus.Planned, map[], None, []));
  }

  /** From there to the merge. */
  lemma Works() returns (t: seq<Step>)
    ensures Replay(FirstWorld(), t) == Some(Shipping(Looping, Merged, 0, STAGED, None, None, map[], {}))
  {
    Fetches();
    Verifies();
    Sends();
    Confirms();
    Merges();
    t := Prepares();
    t := Extends(t, Working(Between, ItemStatus.Planned, map[], None, []), Work(BeginBatch),
                 Working(Fetching, ItemStatus.Planned, map[], None, []));
    t := Extends(t, Working(Fetching, ItemStatus.Planned, map[], None, []), Work(FetchOne(KEY, Some(FIGURES))),
                 Working(Fetching, Fetched, STAGED, None, []));
    t := Extends(t, Working(Fetching, Fetched, STAGED, None, []), Work(EndFetch),
                 Working(Verifying, Fetched, STAGED, None, []));
    t := Extends(t, Working(Verifying, Fetched, STAGED, None, []), Work(VerifyOne(KEY)),
                 Working(Verifying, Verified, STAGED, None, []));
    t := Extends(t, Working(Verifying, Verified, STAGED, None, []), Work(EndVerify),
                 Working(Checked, Verified, STAGED, None, []));
    t := Extends(t, Working(Checked, Verified, STAGED, None, []), Work(Send(Some(SUMMARY))),
                 Working(Sent, Verified, STAGED, Some(SUMMARY), [SENT]));
    t := Extends(t, Working(Sent, Verified, STAGED, Some(SUMMARY), [SENT]), Work(WorkStep.Confirm),
                 Working(Settled, Confirmed, STAGED, Some(SUMMARY), [SENT]));
    t := Extends(t, Working(Settled, Confirmed, STAGED, Some(SUMMARY), [SENT]), Work(Merge),
                 Shipping(Looping, Merged, 0, STAGED, None, None, map[], {}));
  }

  /** A whole run: the file is on record, the bucket would restore that record, the trash gate is open. */
  lemma OneFileIsMirrored() returns (t: seq<Step>)
    ensures Replay(FirstWorld(), t).Some?
    ensures var w := Replay(FirstWorld(), t).value;
      && w.db.mirror == map[KEY := ROW] && TrashOpen(w)
      && STATE_KEY in w.objects && w.objects[STATE_KEY].mirror == w.db.mirror
  {
    Ships();
    Ends();
    var objects := BUCKET[STATE_KEY := Done(None)];
    t := Works();
    t := Extends(t, Shipping(Looping, Merged, 0, STAGED, None, None, map[], {}), Ship(PutHistory("0-1")),
                 Shipping(Looping, Stored, 0, STAGED, Some("0-1"), None, BUCKET, {Done(None)}));
    t := Extends(t, Shipping(Looping, Stored, 0, STAGED, Some("0-1"), None, BUCKET, {Done(None)}), Ship(CopyCanonical),
                 Shipping(Looping, Copied, 0, STAGED, None, None, objects, {Done(None)}));
    t := Extends(t, Shipping(Looping, Copied, 0, STAGED, None, None, objects, {Done(None)}), Ship(ClearStaging),
                 Shipping(Looping, Landed, 0, map[], None, None, objects, {Done(None)}));
    t := Extends(t, Shipping(Looping, Landed, 0, map[], None, None, objects, {Done(None)}), Ship(NextBatch),
                 Shipping(Looping, Between, 1, map[], None, None, objects, {Done(None)}));
    t := Extends(t, Shipping(Looping, Between, 1, map[], None, None, objects, {Done(None)}), Ship(EndLoop),
                 Shipping(LoopOver, Between, 1, map[], None, Some(0), objects, {Done(None)}));
  }
}
