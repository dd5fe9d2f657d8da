/**
 The one way a row goes on record without its file having been sent. Two files of a batch have
 one display path, so one staged file stands for both: verify finds it to be the first and not
 the second, and removes it; a summary that counts a file that was not there then confirms.
 */
module Twins {
  import opened Common
  import opened Tables
  import opened BatchItems
  import opened Protocol
  import Example

  // One name in two spellings, decomposed and composed: Dropbox tells them apart, normalising does not.
  const FIRST: Key := "/e\U{301}"
  const SECOND: Key := "/\U{e9}"
  const SPELT: Display := ["\U{e9}"]
  const STAGED := Figures(1, "first", "sha1", "sha256")
  const OTHER := Figures(1, "second", "sha1", "sha256")
  const LISTING: Listing := map[FIRST := Entry(File, ["e\U{301}"], Some(1), Some("first"), true),
                                SECOND := Entry(File, SPELT, Some(1), Some("second"), true)]
  const CHANGED := map[FIRST := ChangedRow(SPELT, 1, "first"), SECOND := ChangedRow(SPELT, 1, "second")]
  const DISPLAYS: map<Key, Display> := map[FIRST := SPELT, SECOND := SPELT]
  const MISCOUNT := Summary(1, 0, 0, [])

  function FirstAt(status: ItemStatus): Item {
    Item(SPELT, 1, "first", status, if Example.NotYetHashed(status) then "" else "sha1",
         if Example.NotYetHashed(status) then "" else "sha256")
  }

  function SecondAt(status: ItemStatus): Item {
    Item(SPELT, 1, "second", status, "", "")
  }

  function ItemsAt(first: ItemStatus, second: ItemStatus): Items {
    map[FIRST := FirstAt(first), SECOND := SecondAt(second)]
  }

  /** The tables after `n` of the steps that lead to the loop. */
  function Opening(n: nat): Tables {
    Tables(map[], if n < 1 then map[] else LISTING, if n < 2 then map[] else CHANGED, map[],
           if n < 3 then map[] else OneBatch(ItemsAt(ItemStatus.Planned, ItemStatus.Planned)),
           map[0 := RunRow(RunRunning, false, false, None)], map[])
  }

  function OneBatch(items: Items): map<nat, Batch> {
    map[0 := Batch(0, 1, BatchPlanned, items)]
  }

  function Before(n: nat, phase: Phase): World {
    World(Opening(n), 0, phase, [], 0, Between, map[], None, None, map[], Past([], {}, {}, map[], map[], {}, false))
  }

  const MATCHED := Comparison(FIRST, FirstAt(Verified), STAGED)
  const DIFFERED := Comparison(SECOND, SecondAt(HashMismatch), STAGED)

  /** The batch in progress, given how its two items stand. */
  function Working(
      step: BatchStep, first: ItemStatus, second: ItemStatus, staging: Staging, report: Option<Summary>,
      uploads: seq<Upload>): World {
    World(Opening(3).(batches := OneBatch(ItemsAt(first, second))), 0, Looping, [0], 0, step, staging, report, None,
          map[], Past(uploads, Comparisons(first, second), {}, map[], map[], {}, false))
  }

  function Comparisons(first: ItemStatus, second: ItemStatus): set<Comparison> {
    if Example.NotYetHashed(first) then {} else if second == HashMismatch then {MATCHED, DIFFERED} else {MATCHED}
  }

  const FULL: Staging := map[SPELT := STAGED]
  const SENT := Upload(ItemsAt(Verified, HashMismatch), map[], Some(MISCOUNT))

  lemma Starts()
    ensures Next(FirstWorld(), Outer(StartRun(0, false))) == Some(Before(0, Opened))
  {}

  lemma Lists()
    ensures Next(Before(0, Opened), Prepare(SaveListing(LISTING))) == Some(Before(1, Opened))
  {
    assert MarkUnhashed(LISTING) == LISTING;
  }

  lemma Compares()
    ensures Next(Before(1, Opened), Prepare(SaveDelta(DISPLAYS))) == Some(Before(2, DeltaReady))
  {
    assert Changed(LISTING, map[]) == {FIRST, SECOND} && Deleted(LISTING, map[]) == {};
    assert WithDelta(Opening(1), DISPLAYS).changed == CHANGED;
    assert WithDelta(Opening(1), DISPLAYS) == Opening(2);
  }

  lemma Packs()
    ensures Next(Before(2, DeltaReady), Prepare(SavePlan(0, [{FIRST, SECOND}]))) == Some(Before(3, PlanReady))
  {
    assert Kept(map[]) == map[];
    assert NewBatch(CHANGED, 0, 1, {FIRST, SECOND}).items == ItemsAt(ItemStatus.Planned, ItemStatus.Planned);
    assert NewBatches(CHANGED, 0, 0, [{FIRST, SECOND}], 0) == map[];
    assert NewBatches(CHANGED, 0, 0, [{FIRST, SECOND}], 1) == Opening(3).batches;
    assert CanPlan(Before(2, DeltaReady), 0, [{FIRST, SECOND}]);
    assert PlanSaved(Before(2, DeltaReady), 0, [{FIRST, SECOND}]).db.batches == Opening(3).batches;
  }

  lemma Selected()
    ensures Next(Before(3, PlanReady), Prepare(BeginLoop([0])))
      == Some(Working(Between, ItemStatus.Planned, ItemStatus.Planned, map[], None, []))
  {
    assert Selects(Opening(3), 0, [0]);
    assert Opening(3).(batches := OneBatch(ItemsAt(ItemStatus.Planned, ItemStatus.Planned))) == Opening(3);
  }

  lemma SameItems(w: World, items: Items)
    requires At(w, w.step) && Current(w) == 0 && w.db.batches == OneBatch(CurrentItems(w))
    ensures PutItems(w.db, 0, items).batches == OneBatch(items)
  {}

  lemma Fetches(first: ItemStatus, second: ItemStatus, key: Key, staging: Staging, got: Figures)
    requires key == FIRST || key == SECOND
    requires (if key == FIRST then first else second) == ItemStatus.Planned && Example.NotYetHashed(first)
    requires second != HashMismatch
    ensures var f, s := if key == FIRST then Fetched else first, if key == FIRST then second else Fetched;
      Next(Working(Fetching, first, second, staging, None, []), Work(FetchOne(key, Some(got))))
        == Some(Working(Fetching, f, s, staging[SPELT := got], None, []))
  {
    var w := Working(Fetching, first, second, staging, None, []);
    var f, s := if key == FIRST then Fetched else first, if key == FIRST then second else Fetched;
    SameItems(w, ItemsAt(f, s));
    assert SetStatus(ItemsAt(first, second), key, Fetched) == ItemsAt(f, s);
  }

  lemma Turns()
    ensures Next(Working(Between, ItemStatus.Planned, ItemStatus.Planned, map[], None, []), Work(BeginBatch))
      == Some(Working(Fetching, ItemStatus.Planned, ItemStatus.Planned, map[], None, []))
    ensures Next(Working(Fetching, Fetched, Fetched, FULL, None, []), Work(EndFetch))
      == Some(Working(Verifying, Fetched, Fetched, FULL, None, []))
  {}

  lemma Matches()
    ensures Next(Working(Verifying, Fetched, Fetched, FULL, None, []), Work(VerifyOne(FIRST)))
      == Some(Working(Verifying, Verified, Fetched, FULL, None, []))
  {
    var w := Working(Verifying, Fetched, Fetched, FULL, None, []);
    Example.VerifyNext(w, FIRST);
    SameItems(w, ItemsAt(Verified, Fetched));
    assert ItemsAt(Fetched, Fetched)[FIRST := VerifyItem(FirstAt(Fetched), STAGED)] == ItemsAt(Verified, Fetched);
    assert {} + {MATCHED} == {MATCHED};
  }

  lemma Differs()
    ensures Next(Working(Verifying, Verified, Fetched, FULL, None, []), Work(VerifyOne(SECOND)))
      == Some(Working(Verifying, Verified, HashMismatch, map[], None, []))
  {
    var w := Working(Verifying, Verified, Fetched, FULL, None, []);
    Example.VerifyNext(w, SECOND);
    SameItems(w, ItemsAt(Verified, HashMismatch));
    assert ItemsAt(Verified, Fetched)[SECOND := VerifyItem(SecondAt(Fetched), STAGED)]
      == ItemsAt(Verified, HashMismatch);
    assert FULL - {SPELT} == map[];
    assert {MATCHED} + {DIFFERED} == {MATCHED, DIFFERED};
  }

  lemma Sends()
    ensures Next(Working(Verifying, Verified, HashMismatch, map[], None, []), Work(EndVerify))
      == Some(Working(Checked, Verified, HashMismatch, map[], None, []))
    ensures Next(Working(Checked, Verified, HashMismatch, map[], None, []), Work(Send(Some(MISCOUNT))))
      == Some(Working(Sent, Verified, HashMismatch, map[], Some(MISCOUNT), [SENT]))
  {
    assert FIRST in CurrentItems(Working(Verifying, Verified, HashMismatch, map[], None, []));
    assert FIRST in CurrentItems(Working(Checked, Verified, HashMismatch, map[], None, []));
    assert [] + [SENT] == [SENT];
  }

  lemma ItemConfirms()
    ensures ConfirmItems(SENT.items, |FoldersOf({})|, MISCOUNT) == ItemsAt(Confirmed, HashMismatch)
  {
    var items := SENT.items;
    assert items == ItemsAt(Verified, HashMismatch);
    assert items[FIRST] == FirstAt(Verified) && items[SECOND] == SecondAt(HashMismatch);
    assert With(items, Verified) == {FIRST};
    assert FoldersOf({}) == {};
    assert FailedNames(MISCOUNT) == {} && FailedRows(items, MISCOUNT) == {} && Basenames(items, {}) == {};
    assert ConfirmItem(items, 0, MISCOUNT, FIRST) == FirstAt(Confirmed);
    assert ConfirmItem(items, 0, MISCOUNT, SECOND) == SecondAt(HashMismatch);
  }

  lemma Confirms()
    ensures Next(Working(Sent, Verified, HashMismatch, map[], Some(MISCOUNT), [SENT]), Work(WorkStep.Confirm))
      == Some(Working(Settled, Confirmed, HashMismatch, map[], Some(MISCOUNT), [SENT]))
  {
    var w := Working(Sent, Verified, HashMismatch, map[], Some(MISCOUNT), [SENT]);
    assert FIRST in CurrentItems(w) && CurrentItems(w) == SENT.items;
    var none: Staging := map[];
    assert none.Keys == {};
    ItemConfirms();
    Example.ConfirmNext(w, ItemsAt(Confirmed, HashMismatch));
    SameItems(w, ItemsAt(Confirmed, HashMismatch));
  }

  lemma RowMerges()
    ensures var rows := MergedRows(map[], ItemsAt(Confirmed, HashMismatch), 0);
      FIRST in rows && rows[FIRST].display == SPELT
  {
    var items := ItemsAt(Confirmed, HashMismatch);
    assert FIRST in items && items[FIRST].status == Confirmed;
  }

  lemma MergeNext(w: World)
    requires At(w, Settled)
    ensures Next(w, Work(Merge)) == Some(MergeDone(w))
    ensures MergeDone(w).db.mirror == w.db.mirror + MergedRows(w.db.mirror, CurrentItems(w), w.run)
    ensures MergeDone(w).past.uploads == w.past.uploads
  {}

  lemma Opens() returns (t: seq<Step>)
    ensures Replay(FirstWorld(), t) == Some(Working(Between, ItemStatus.Planned, ItemStatus.Planned, map[], None, []))
  {
    Starts();
    Lists();
    Compares();
    Packs();
    Selected();
    t := Example.Extends([], FirstWorld(), Outer(StartRun(0, false)), Before(0, Opened));
    t := Example.Extends(t, Before(0, Opened), Prepare(SaveListing(LISTING)), Before(1, Opened));
    t := Example.Extends(t, Before(1, Opened), Prepare(SaveDelta(DISPLAYS)), Before(2, DeltaReady));
    t := Example.Extends(t, Before(2, DeltaReady), Prepare(SavePlan(0, [{FIRST, SECOND}])), Before(3, PlanReady));
    t := Example.Extends(t, Before(3, PlanReady), Prepare(BeginLoop([0])),
                         Working(Between, ItemStatus.Planned, ItemStatus.Planned, map[], None, []));
  }

  const HALF: Staging := map[SPELT := OTHER]

  /** The second file is downloaded, and then the first over it. */
  lemma Downloads()
    ensures Next(Working(Fetching, ItemStatus.Planned, ItemStatus.Planned, map[], None, []),
                 Work(FetchOne(SECOND, Some(OTHER))))
      == Some(Working(Fetching, ItemStatus.Planned, Fetched, HALF, None, []))
    ensures Next(Working(Fetching, ItemStatus.Planned, Fetched, HALF, None, []), Work(FetchOne(FIRST, Some(STAGED))))
      == Some(Working(Fetching, Fetched, Fetched, FULL, None, []))
  {
    Fetches(ItemStatus.Planned, ItemStatus.Planned, SECOND, map[], OTHER);
    Fetches(ItemStatus.Planned, Fetched, FIRST, HALF, STAGED);
    assert map[][SPELT := OTHER] == HALF && HALF[SPELT := STAGED] == FULL;
  }

  lemma Stages() returns (t: seq<Step>)
    ensures Replay(FirstWorld(), t) == Some(Working(Verifying, Fetched, Fetched, FULL, None, []))
  {
    Turns();
    Downloads();
    t := Opens();
    t := Example.Extends(t, Working(Between, ItemStatus.Planned, ItemStatus.Planned, map[], None, []), Work(BeginBatch),
                         Working(Fetching, ItemStatus.Planned, ItemStatus.Planned, map[], None, []));
    t := Example.Extends(t, Working(Fetching, ItemStatus.Planned, ItemStatus.Planned, map[], None, []),
                         Work(FetchOne(SECOND, Some(OTHER))),
                         Working(Fetching, ItemStatus.Planned, Fetched, HALF, None, []));
    t := Example.Extends(t, Working(Fetching, ItemStatus.Planned, Fetched, HALF, None, []),
                         Work(FetchOne(FIRST, Some(STAGED))), Working(Fetching, Fetched, Fetched, FULL, None, []));
    t := Example.Extends(t, Working(Fetching, Fetched, Fetched, FULL, None, []), Work(EndFetch),
                         Working(Verifying, Fetched, Fetched, FULL, None, []));
  }

  lemma Settles() returns (t: seq<Step>)
    ensures Replay(FirstWorld(), t) == Some(Working(Settled, Confirmed, HashMismatch, map[], Some(MISCOUNT), [SENT]))
  {
    Matches();
    Differs();
    Sends();
    Confirms();
    t := Stages();
    t := Example.Extends(t, Working(Verifying, Fetched, Fetched, FULL, None, []), Work(VerifyOne(FIRST)),
                         Working(Verifying, Verified, Fetched, FULL, None, []));
    t := Example.Extends(t, Working(Verifying, Verified, Fetched, FULL, None, []), Work(VerifyOne(SECOND)),
                         Working(Verifying, Verified, HashMismatch, map[], None, []));
    t := Example.Extends(t, Working(Verifying, Verified, HashMismatch, map[], None, []), Work(EndVerify),
                         Working(Checked, Verified, HashMismatch, map[], None, []));
    t := Example.Extends(t, Working(Checked, Verified, HashMismatch, map[], None, []), Work(Send(Some(MISCOUNT))),
                         Working(Sent, Verified, HashMismatch, map[], Some(MISCOUNT), [SENT]));
    t := Example.Extends(t, Working(Sent, Verified, HashMismatch, map[], Some(MISCOUNT), [SENT]),
                         Work(WorkStep.Confirm),
                         Working(Settled, Confirmed, HashMismatch, map[], Some(MISCOUNT), [SENT]));
  }

  /** The file is on record, and no upload ever sent anything under its path. */
  lemma RecordedUnsent() returns (t: seq<Step>)
    ensures Replay(FirstWorld(), t).Some?
    ensures var w := Replay(FirstWorld(), t).value;
      FIRST in w.db.mirror && forall u :: u in w.past.uploads ==> w.db.mirror[FIRST].display !in u.sent
  {
    var w := Working(Settled, Confirmed, HashMismatch, map[], Some(MISCOUNT), [SENT]);
    MergeNext(w);
    RowMerges();
    assert CurrentItems(w) == ItemsAt(Confirmed, HashMismatch);
    t := Settles();
    t := Example.Extends(t, w, Work(Merge), MergeDone(w));
  }
}
