/**
 The batches phase as the process runs it: the budgeted loop and the five steps of a batch.
 Each step changes the tables row by row; a ghost trace records that every change is a step
 of the protocol, so all that holds of the protocol's worlds holds of this process.
 */
module Pipeline {
  import opened Common
  import opened Tables
  import opened BatchItems
  import opened Protocol
  import opened RunLoop
  import opened Convergence
  import opened Statefile

  /** How downloading one file ended. */
  datatype Download = Got(figures: Figures) | NotThere | Broken

  method DownloadFile(key: Key) returns (d: Download)
  {
    d := *;
  }

  method Now() returns (t: int)
  {
    t := *;
  }

  /** The first batch always runs; another starts only if the longest so far would still fit. */
  predicate ShouldStart(elapsed: int, longest: int, budget: int, completed: nat) {
    completed == 0 || elapsed + longest <= budget
  }

  function Max(a: int, b: int): int {
    if a < b then b else a
  }

  /** Python's `max(durations, default=0)`. */
  function Longest(durations: seq<int>): int {
    if durations == [] then 0
    else if |durations| == 1 then durations[0]
    else Max(Longest(durations[..|durations| - 1]), durations[|durations| - 1])
  }

  /** Each batch after the first began with room for the longest one before it. */
  ghost predicate InBudget(begun: seq<int>, durations: seq<int>, budget: int) {
    && |durations| <= |begun| <= |durations| + 1
    && forall i :: 0 < i < |begun| ==> begun[i] + Longest(durations[..i]) <= budget
  }

  lemma BatchBegins(begun: seq<int>, durations: seq<int>, budget: int, elapsed: int)
    requires |begun| == |durations| && InBudget(begun, durations, budget)
    requires ShouldStart(elapsed, Longest(durations), budget, |begun|)
    ensures InBudget(begun + [elapsed], durations, budget)
  {
    assert durations[..|durations|] == durations;
  }

  lemma BatchEnds(begun: seq<int>, durations: seq<int>, budget: int, duration: int)
    requires |begun| == |durations| + 1 && InBudget(begun, durations, budget)
    ensures InBudget(begun, durations + [duration], budget)
  {
    forall i | 0 < i < |begun| ensures begun[i] + Longest((durations + [duration])[..i]) <= budget {
      assert (durations + [duration])[..i] == durations[..i];
    }
  }

  /** The CLI's own account of an upload, if its output holds one. */
  method UploadTree(staging: Staging) returns (report: Option<Summary>)
  {
    report := *;
  }

  /** The name of a history object: the run's start epoch and the batch's number. */
  method HistoryLabel(number: nat) returns (name: string)
  {
    name := *;
  }

  method MarkFailed(items: Items, failedRows: set<Key>) returns (r: Items)
    requires failedRows <= items.Keys
    ensures r.Keys == items.Keys
    ensures forall k :: k in items ==> r[k] == if k in failedRows then items[k].(status := ConfirmFailed) else items[k]
  {
    r := items;
    var todo := failedRows;
    while todo != {}
      invariant todo <= failedRows && r.Keys == items.Keys
      invariant forall k :: k in items ==>
        r[k] == if k in failedRows && k !in todo then items[k].(status := ConfirmFailed) else items[k]
      decreases todo
    {
      var k :| k in todo;
      todo := todo - {k};
      r := SetStatus(r, k, ConfirmFailed);
    }
  }

  /** Marks the verified files by the CLI's summary: the named failures first, then the rest. */
  method MarkBySummary(items: Items, folders: nat, s: Summary) returns (r: Items)
    ensures r == ConfirmItems(items, folders, s)
  {
    var rows := With(items, Verified);
    var errors := FailedNames(s);
    var failedRows := set k | k in rows && Basename(items[k].display) in errors;
    var matched := set k | k in failedRows :: Basename(items[k].display);
    assert failedRows == FailedRows(items, s) && matched == Basenames(items, failedRows);
    var accounted := s.transferred + s.skipped + s.failed == |rows| + folders;
    var confirmed := accounted && s.failed == |s.failures| && matched == errors;
    assert confirmed <==> Confirms(items, folders, s);
    r := MarkFailed(items, if confirmed then failedRows else {});
    var rest := if confirmed then Confirmed else ConfirmFailed;
    r := map k | k in r :: if r[k].status == Verified then r[k].(status := rest) else r[k];
  }

  /** Writes the confirmed rows and settles the batch, in one transaction. */
  method CommitMerge(db: Tables, b: nat, run: nat) returns (t: Tables)
    requires b in db.batches
    ensures t == MergeBatch(db, b, run)
  {
    var items := db.batches[b].items;
    var good, failed := With(items, Confirmed), With(items, ConfirmFailed);
    var status := if failed != {} && good == {} then BatchFailed else BatchCheckpointed;
    var batch := Batch(db.batches[b].runId, db.batches[b].number, status, CheckpointItems(items));
    t := db.(mirror := db.mirror + MergedRows(db.mirror, items, run), batches := db.batches[b := batch]);
  }

  /** The row records this very file for this run. */
  predicate IsRowOf(r: MirrorRow, i: Item, run: nat) {
    && r.display == i.display && r.size == i.size && r.contentHash == i.contentHash
    && r.sha1 == i.sha1 && r.sha256 == i.sha256 && r.runId == run
  }

  /** The merge touches the confirmed files' rows alone, and a row's recorded UID survives it. */
  lemma MergeTouchesConfirmed(db: Tables, b: nat, run: nat, k: Key)
    requires b in db.batches
    ensures var t, items := MergeBatch(db, b, run), db.batches[b].items;
      && t == db.(mirror := t.mirror, batches := t.batches)
      && (k !in With(items, Confirmed) ==> RowOf(t.mirror, k) == RowOf(db.mirror, k))
      && (k in With(items, Confirmed) ==>
            && k in t.mirror && IsRowOf(t.mirror[k], items[k], run)
            && t.mirror[k].uid == if k in db.mirror then db.mirror[k].uid else None)
  {}

  /** The merge settles its batch alone: FAILED exactly if something failed and nothing was recorded. */
  lemma MergeSettlesItsBatch(db: Tables, b: nat, run: nat)
    requires b in db.batches
    ensures var t, items := MergeBatch(db, b, run), db.batches[b].items;
      && t.batches.Keys == db.batches.Keys && (forall c :: c in db.batches && c != b ==> t.batches[c] == db.batches[c])
      && With(t.batches[b].items, Confirmed) == {}
      && With(t.batches[b].items, Checkpointed) == With(items, Checkpointed) + With(items, Confirmed)
      && (t.batches[b].status == BatchFailed <==> With(items, ConfirmFailed) != {} && With(items, Confirmed) == {})
  {}

  /** One item went on to this status; no other item's status changed. */
  ghost predicate Moved(items: Items, after: Items, key: Key, status: ItemStatus) {
    && key in items && after.Keys == items.Keys && after[key].status == status
    && forall k :: k in items && k != key ==> after[k].status == items[k].status
  }

  /** A download landed: staged at the item's path and FETCHED, or VANISHED with staging as it was. */
  ghost predicate Downloaded(item: Item, staging: Staging, items: Items, key: Key, after: Staging) {
    && key in items
    && ((items[key] == item.(status := Vanished) && after == staging)
      || (&& items[key] == item.(status := Fetched) && item.display in after
          && after == staging[item.display := after[item.display]]))
  }

  /** Verify's verdict on an item, and what became of the item and its staged file. */
  ghost predicate Compared(item: Item, staging: Staging, matched: bool, items: Items, key: Key, after: Staging) {
    && item.display in staging && key in items
    && var f := staging[item.display];
      && (matched <==> f.size == item.size && f.contentHash == item.contentHash)
      && items[key] == (if matched then item.(status := Verified, sha1 := f.sha1, sha256 := f.sha256)
                        else item.(status := HashMismatch))
      && after == if matched then staging else staging - {item.display}
  }

  /** Verify's count so far, over `rows` fetched files. */
  ghost predicate Counted(items: Items, todo: set<Key>, mismatched: nat, rows: nat) {
    && With(items, Fetched) == todo
    && mismatched == |With(items, HashMismatch)|
    && mismatched + |With(items, Verified)| + |todo| == rows
  }

  lemma MovedSize(items: Items, after: Items, key: Key, to: ItemStatus, s: ItemStatus)
    requires Moved(items, after, key, to) && items[key].status != to && items[key].status != s
    ensures |With(after, s)| == |With(items, s)| + if s == to then 1 else 0
  {
    var was, now := With(items, s), With(after, s);
    assert key !in was;
    if s == to {
      assert now == was + {key};
    } else {
      assert now == was;
    }
  }

  lemma CountsMove(items: Items, after: Items, key: Key, todo: set<Key>, mismatched: nat, rows: nat, matched: bool)
    requires key in todo && Counted(items, todo, mismatched, rows)
    requires Moved(items, after, key, if matched then Verified else HashMismatch)
    ensures Counted(after, todo - {key}, mismatched + if matched then 0 else 1, rows)
  {
    assert key in With(items, Fetched);
    MovedSize(items, after, key, if matched then Verified else HashMismatch, Verified);
    MovedSize(items, after, key, if matched then Verified else HashMismatch, HashMismatch);
    assert With(after, Fetched) == todo - {key};
  }

  /** Every fetched file was compared, and not every one of them differed. */
  ghost predicate EnoughMatched(items: Items) {
    With(items, Fetched) == {} && (With(items, Verified) != {} || With(items, HashMismatch) == {})
  }

  /** Counting mismatches decides that. */
  lemma ComparedEnough(items: Items, mismatched: nat, rows: nat)
    requires Counted(items, {}, mismatched, rows)
    ensures rows == 0 || mismatched != rows <==> EnoughMatched(items)
    ensures EnoughMatched(items) ==> !Any(items, Fetched) && (Any(items, Verified) || !Any(items, HashMismatch))
  {
    AnyIsWith(items, Fetched);
    AnyIsWith(items, Verified);
    AnyIsWith(items, HashMismatch);
  }

  /** What downloading one file commits. */
  lemma FetchStep(w: World, key: Key, got: Option<Figures>)
    requires NextWork(w, FetchOne(key, got)).Some?
    ensures var v, status := FetchDone(w, key, got), if got.Some? then Fetched else Vanished;
      && Next(w, Work(FetchOne(key, got))) == Some(v)
      && v.db == PutItems(w.db, Current(w), SetStatus(CurrentItems(w), key, status))
      && At(v, Fetching) && Current(v) == Current(w) && v.planned == w.planned && v.completed == w.completed
      && v.db.listing == w.db.listing && v.past.base == w.past.base
      && v.run == w.run && v.report == w.report && v.objects == w.objects
      && v.staging == (if got.Some? then w.staging[CurrentItems(w)[key].display := got.value] else w.staging)
      && With(CurrentItems(v), ItemStatus.Planned) == With(CurrentItems(w), ItemStatus.Planned) - {key}
      && Downloaded(CurrentItems(w)[key], w.staging, CurrentItems(v), key, v.staging)
  {}

  /** What comparing one file commits. */
  lemma VerifyStep(w: World, key: Key)
    requires NextWork(w, VerifyOne(key)).Some?
    ensures var v, item := VerifyDone(w, key), CurrentItems(w)[key];
      && Next(w, Work(VerifyOne(key))) == Some(v)
      && v.db == PutItems(w.db, Current(w), CurrentItems(w)[key := VerifyItem(item, w.staging[item.display])])
      && At(v, Verifying) && Current(v) == Current(w) && v.planned == w.planned && v.completed == w.completed
      && v.db.listing == w.db.listing && v.past.base == w.past.base
      && v.run == w.run && v.report == w.report && v.objects == w.objects
      && v.staging == (if Matches(item, w.staging[item.display]) then w.staging else w.staging - {item.display})
      && Moved(CurrentItems(w), CurrentItems(v), key, VerifyItem(item, w.staging[item.display]).status)
  {}

  /** What the merge's one transaction commits. */
  lemma MergeStep(w: World)
    requires At(w, Settled)
    ensures Next(w, Work(Merge)) == Some(MergeDone(w))
    ensures var v := MergeDone(w);
      && v.db.mirror == w.db.mirror + MergedRows(w.db.mirror, CurrentItems(w), w.run)
      && v.db.batches[Current(w)].status == CheckpointStatus(CurrentItems(w))
      && At(v, Merged) && Current(v) == Current(w) && v.planned == w.planned && v.completed == w.completed
      && v.db.listing == w.db.listing && v.past.base == w.past.base
  {}

  /** The batches phase has ended and its run row says so. */
  ghost predicate LoopEnded(w: World, planned: seq<nat>, completed: nat, chain: bool) {
    && w.phase == LoopOver && w.planned == planned && w.completed == completed <= |planned|
    && w.run in w.db.runs && w.db.runs[w.run].remaining == Some(|planned| - completed)
    && w.db.runs[w.run].chain == chain && NoTrashYet(w)
  }

  lemma LeastExists(batches: map<nat, Batch>, ids: set<nat>)
    requires ids != {} && ids <= batches.Keys
    ensures exists b :: b in ids && forall c :: c in ids ==> batches[b].number <= batches[c].number
  {
    var b :| b in ids;
    var rest := ids - {b};
    assert ids == rest + {b};
    if rest == {} {
      assert forall c :: c in ids ==> c == b;
    } else {
      LeastExists(batches, rest);
      var d :| d in rest && forall c :: c in rest ==> batches[d].number <= batches[c].number;
      var least := if batches[b].number < batches[d].number then b else d;
      assert forall c :: c in ids ==> batches[least].number <= batches[c].number;
    }
  }

  lemma AbortStep(w: World)
    requires NoTrashYet(w)
    requires InBatch(w) && w.step != Landed && w.run in w.db.runs
    ensures NextShip(w, Abort).Some?
    ensures var v := NextShip(w, Abort).value;
      && LoopEnded(v, w.planned, w.completed, false)
      && v.db == EndOfLoop(PutStatus(w.db, Current(w), BatchFailed), w.run, |w.planned|, w.completed, true)
      && v.run == w.run && v.staging == w.staging && v.report == w.report && v.objects == w.objects

  {}

  /** Where the loop may stop: between two batches, or at one that failed confirmation. */
  ghost predicate MayEnd(w: World, failed: bool) {
    && w.phase == Looping && w.run in w.db.runs && w.completed <= |w.planned|
    && if failed then At(w, Landed) && w.db.batches[Current(w)].status == BatchFailed else w.step == Between
  }

  lemma EndLoopStep(w: World, failed: bool)
    requires MayEnd(w, failed) && NoTrashYet(w)
    ensures NextShip(w, EndLoop).Some?
    ensures var v := NextShip(w, EndLoop).value;
      && LoopEnded(v, w.planned, w.completed, 0 < w.completed < |w.planned| && !failed)
      && v.db == EndOfLoop(w.db, w.run, |w.planned|, w.completed, failed)
      && v.run == w.run && v.staging == w.staging && v.report == w.report && v.objects == w.objects

  {}

  datatype Outcome = BatchLanded | BatchUnconfirmed | StepRaised

  /** The loop is about to decide on its next batch. */
  ghost predicate AtTop(w: World, planned: seq<nat>, completed: nat) {
    w.phase == Looping && w.step == Between && w.planned == planned && w.completed == completed
  }

  /** Where the loop stands after a batch ended this way. */
  ghost predicate Turned(w: World, planned: seq<nat>, completed: nat, how: Outcome) {
    match how
    case BatchLanded => AtTop(w, planned, completed + 1)
    case BatchUnconfirmed => w.planned == planned && w.completed == completed && MayEnd(w, true)
    case StepRaised => LoopEnded(w, planned, completed, false)
  }

  ghost predicate ByNumber(batches: map<nat, Batch>, order: seq<nat>) {
    && (forall b :: b in order ==> b in batches)
    && forall i, j :: 0 <= i < j < |order| ==> batches[order[i]].number <= batches[order[j]].number
  }

  /** Inside the loop, the run has its row and the next batch its own. */
  lemma LoopFacts(trace: seq<Step>)
    requires Replay(FirstWorld(), trace).Some? && Replay(FirstWorld(), trace).value.phase == Looping
    ensures var w := Replay(FirstWorld(), trace).value;
      && w.run in w.db.runs && w.completed <= |w.planned|
      && (w.completed < |w.planned| ==> InBatch(w))
  {
    EveryRunIsAccounted(trace);
    var w := Replay(FirstWorld(), trace).value;
    if w.completed < |w.planned| {
      assert w.planned[w.completed] in w.planned;
    }
  }

  /** A loop that ended with nothing remaining checkpointed every batch of its run. */
  lemma AllLanded(trace: seq<Step>)
    requires Replay(FirstWorld(), trace).Some? && TrashOpen(Replay(FirstWorld(), trace).value)
    ensures EveryBatchLanded(Replay(FirstWorld(), trace).value)
  {
    EveryRunIsAccounted(trace);
    NothingRemaining(Replay(FirstWorld(), trace).value);
  }

  /** The budget check before a batch. */
  method Decide(start: int, budget: int, completed: nat, begun: seq<int>, durations: seq<int>)
    returns (elapsed: int, go: bool, begun': seq<int>)
    requires |begun| == |durations| == completed && InBudget(begun, durations, budget)
    ensures go <==> ShouldStart(elapsed, Longest(durations), budget, completed)
    ensures go ==> begun' == begun + [elapsed] && InBudget(begun', durations, budget)
  {
    var now := Now();
    elapsed := now - start;
    go := ShouldStart(elapsed, Longest(durations), budget, completed);
    begun' := begun + [elapsed];
    if go {
      BatchBegins(begun, durations, budget, elapsed);
    }
  }

  method Measure(began: int, begun: seq<int>, durations: seq<int>, budget: int) returns (durations': seq<int>)
    requires |begun| == |durations| + 1 && InBudget(begun, durations, budget)
    ensures |durations'| == |durations| + 1 && durations <= durations' && InBudget(begun, durations', budget)
  {
    var ended := Now();
    BatchEnds(begun, durations, budget, ended - began);
    durations' := durations + [ended - began];
  }

  class Process {
    const store: Store
    const dir: WorkDir

    var db: Tables
    var run: nat
    var staging: Staging
    var report: Option<Summary>

    ghost const base: Mirror    // the mirror this run started from
    ghost var world: World
    ghost var trace: seq<Step>

    ghost predicate Valid()
      reads this, store, dir
    {
      && Replay(FirstWorld(), trace) == Some(world)
      && world.db == db && world.run == run && world.staging == staging && world.report == report
      && world.objects == store.objects && dir.scratch == {} && world.past.base == base
    }

    /** The protocol takes step `s`; the tables must have been changed to match. */
    ghost method Take(s: Step)
      requires Replay(FirstWorld(), trace) == Some(world) && !s.Outer? && Next(world, s).Some?
      modifies `world, `trace
      ensures Replay(FirstWorld(), trace) == Some(world) && world == Next(old(world), s).value
      ensures world.past.base == old(world.past.base) && old(trace) < trace
    {
      StepKeepsBase(world, s);
      ReplayExtends(FirstWorld(), trace, s);
      world := Next(world, s).value;
      trace := trace + [s];
    }

    /** The batch in progress is `b`, and it is at `step`. */
    ghost predicate Doing(b: nat, step: BatchStep)
      reads `world
    {
      At(world, step) && Current(world) == b
    }

    /** Nothing but the batch in progress has moved. */
    ghost predicate SameLoop(w: World, b: nat)
      reads `world
    {
      && InBatch(world) && Current(world) == b && world.planned == w.planned && world.completed == w.completed
      && world.db.listing == w.db.listing
    }

    constructor (store: Store, dir: WorkDir, db: Tables, run: nat, ghost world: World, ghost trace: seq<Step>)
      requires Replay(FirstWorld(), trace) == Some(world) && world.db == db && world.run == run
      requires world.staging == map[] && world.report == None && world.objects == store.objects && dir.scratch == {}
      ensures Valid() && this.store == store && this.dir == dir && this.world == world && this.trace == trace
      ensures this.db == db && this.run == run
    {
      base := world.past.base;
      this.store, this.dir, this.db, this.run := store, dir, db, run;
      staging, report := map[], None;
      this.world, this.trace := world, trace;
    }

    /** Items that have moved past what fetch itself may have left. */
    function Advanced(b: nat): set<Key>
      reads this
      requires b in db.batches
    {
      set k | k in db.batches[b].items
        && db.batches[b].items[k].status != ItemStatus.Planned && db.batches[b].items[k].status != Vanished
    }

    /**
     Clears staging and downloads every planned item. Not found marks it VANISHED; any other
     error fails the batch once the rest have landed. A batch already past fetch is refused,
     with staging untouched.
     */
    method Fetch(b: nat) returns (ok: bool)
      requires Valid() && InBatch(world) && Current(world) == b
      requires world.step == Between || Advanced(b) != {}
      modifies `db, `staging, `world, `trace
      ensures Valid() && SameLoop(old(world), b) && old(trace) <= trace
      ensures old(Advanced(b)) != {} ==> !ok && world == old(world)
      ensures old(Advanced(b)) == {} ==> world.step == if ok then Verifying else Fetching
      ensures old(Advanced(b)) == {} ==> (ok <==> With(db.batches[b].items, ItemStatus.Planned) == {})
      ensures ok ==> With(db.batches[b].items, HashMismatch) == With(db.batches[b].items, Verified) == {}
    {
      if Advanced(b) != {} {
        return false;
      }
      staging := map[];
      Take(Work(BeginBatch));
      ok := FetchAll(b);
      if ok {
        AnyIsWith(db.batches[b].items, ItemStatus.Planned);
        NothingComparedYet(b);
        Take(Work(EndFetch));
      }
    }

    /** One more download of the pool. */
    method FetchNext(b: nat, key: Key) returns (landed: bool)
      requires Valid() && Doing(b, Fetching) && key in With(db.batches[b].items, ItemStatus.Planned)
      modifies `db, `staging, `world, `trace
      ensures Valid() && Doing(b, Fetching) && SameLoop(old(world), b) && old(trace) <= trace
      ensures With(db.batches[b].items, ItemStatus.Planned)
        == old(With(db.batches[b].items, ItemStatus.Planned)) - if landed then {key} else {}
    {
      landed := FetchItem(b, key);
    }

    /** The pool drains whatever happens: an error fails the batch once every download has ended. */
    method FetchAll(b: nat) returns (ok: bool)
      requires Valid() && Doing(b, Fetching)
      modifies `db, `staging, `world, `trace
      ensures Valid() && Doing(b, Fetching) && SameLoop(old(world), b) && old(trace) <= trace
      ensures ok <==> With(db.batches[b].items, ItemStatus.Planned) == {}
    {
      ok := true;
      var todo := With(db.batches[b].items, ItemStatus.Planned);
      while todo != {}
        invariant Valid() && Doing(b, Fetching) && SameLoop(old(world), b) && old(trace) <= trace
        invariant ok <==> todo == With(db.batches[b].items, ItemStatus.Planned)
        invariant todo <= With(db.batches[b].items, ItemStatus.Planned)
        decreases todo
      {
        var key :| key in todo;
        todo := todo - {key};
        var landed := FetchNext(b, key);
        ok := ok && landed;
      }
    }

    /** The file is there. */
    method StageFile(b: nat, key: Key, figures: Figures)
      requires Valid() && Doing(b, Fetching) && key in With(db.batches[b].items, ItemStatus.Planned)
      modifies `db, `staging, `world, `trace
      ensures Valid() && Doing(b, Fetching) && SameLoop(old(world), b) && old(trace) <= trace
      ensures With(db.batches[b].items, ItemStatus.Planned)
        == old(With(db.batches[b].items, ItemStatus.Planned)) - {key}
      ensures Downloaded(old(db.batches[b].items[key]), old(staging), db.batches[b].items, key, staging)
    {
      var items := db.batches[b].items;
      FetchStep(world, key, Some(figures));
      staging := staging[items[key].display := figures];
      db := PutItems(db, b, SetStatus(items, key, Fetched));
      Take(Work(FetchOne(key, Some(figures))));
    }

    /** Dropbox has it no more. */
    method MarkVanished(b: nat, key: Key)
      requires Valid() && Doing(b, Fetching) && key in With(db.batches[b].items, ItemStatus.Planned)
      modifies `db, `world, `trace
      ensures Valid() && Doing(b, Fetching) && SameLoop(old(world), b) && old(trace) <= trace
      ensures With(db.batches[b].items, ItemStatus.Planned)
        == old(With(db.batches[b].items, ItemStatus.Planned)) - {key}
      ensures Downloaded(old(db.batches[b].items[key]), old(staging), db.batches[b].items, key, staging)
    {
      FetchStep(world, key, None);
      db := PutItems(db, b, SetStatus(db.batches[b].items, key, Vanished));
      Take(Work(FetchOne(key, None)));
    }

    /** One download: staged under its display path, or marked as vanished. */
    method FetchItem(b: nat, key: Key) returns (landed: bool)
      requires Valid() && Doing(b, Fetching) && key in With(db.batches[b].items, ItemStatus.Planned)
      modifies `db, `staging, `world, `trace
      ensures Valid() && Doing(b, Fetching) && SameLoop(old(world), b) && old(trace) <= trace
      ensures !landed ==> world == old(world)
      ensures landed ==>
        With(db.batches[b].items, ItemStatus.Planned) == old(With(db.batches[b].items, ItemStatus.Planned)) - {key}
      ensures landed ==> Downloaded(old(db.batches[b].items[key]), old(staging), db.batches[b].items, key, staging)
    {
      var got := DownloadFile(key);
      landed := !got.Broken?;
      match got
      case Got(figures) => StageFile(b, key, figures);
      case NotThere => MarkVanished(b, key);
      case Broken =>
    }

    /** Right after fetch, no item has been compared yet. */
    ghost method NothingComparedYet(b: nat)
      requires Valid() && Doing(b, Fetching)
      ensures With(db.batches[b].items, HashMismatch) == With(db.batches[b].items, Verified) == {}
    {
      EveryRunIsAccounted(trace);
      assert StatusesFit(Fetching, world.db.batches[Current(world)]);
    }

    /**
     Hashes one staged file. A file edited between listing and fetch is removed from staging; a
     staged file that is gone or unreadable raises.
     */
    method VerifyRow(b: nat, key: Key) returns (r: Result<bool, string>)
      requires Valid() && Doing(b, Verifying) && key in With(db.batches[b].items, Fetched)
      modifies `db, `staging, `world, `trace
      ensures Valid() && Doing(b, Verifying) && SameLoop(old(world), b) && old(trace) <= trace
      ensures r.Raised? ==> world == old(world)
      ensures r.Ok? ==>
        && Compared(old(db.batches[b].items[key]), old(staging), r.value, db.batches[b].items, key, staging)
        && Moved(old(db.batches[b].items), db.batches[b].items, key, if r.value then Verified else HashMismatch)
    {
      var items := db.batches[b].items;
      var item := items[key];
      var unreadable := MayFail();
      if unreadable || item.display !in staging {
        return Raised("staged file cannot be read");
      }
      var f := staging[item.display];
      VerifyStep(world, key);
      if f.size != item.size || f.contentHash != item.contentHash {
        staging := staging - {item.display};
        db := PutItems(db, b, items[key := item.(status := HashMismatch)]);
        r := Ok(false);
      } else {
        db := PutItems(db, b, items[key := item.(status := Verified, sha1 := f.sha1, sha256 := f.sha256)]);
        r := Ok(true);
      }
      Take(Work(VerifyOne(key)));
    }

    /** One comparison, and what it adds to the count. */
    method CompareOne(b: nat, key: Key, ghost todo: set<Key>, ghost mismatched: nat, ghost rows: nat)
      returns (matched: Result<bool, string>)
      requires Valid() && Doing(b, Verifying) && key in todo && Counted(db.batches[b].items, todo, mismatched, rows)
      modifies `db, `staging, `world, `trace
      ensures Valid() && Doing(b, Verifying) && SameLoop(old(world), b) && old(trace) <= trace
      ensures matched.Ok? ==>
        Counted(db.batches[b].items, todo - {key}, mismatched + if matched.value then 0 else 1, rows)
      ensures matched.Raised? ==> world == old(world)
    {
      ghost var items := db.batches[b].items;
      matched := VerifyRow(b, key);
      if matched.Ok? {
        CountsMove(items, db.batches[b].items, key, todo, mismatched, rows, matched.value);
      }
    }

    /** Compares every fetched file, and counts those that differ; one that cannot be read raises. */
    method CompareAll(b: nat) returns (r: Result<nat, string>)
      requires Valid() && Doing(b, Verifying)
      requires With(db.batches[b].items, HashMismatch) == With(db.batches[b].items, Verified) == {}
      modifies `db, `staging, `world, `trace
      ensures Valid() && Doing(b, Verifying) && SameLoop(old(world), b) && old(trace) <= trace
      ensures r.Ok? ==> Counted(db.batches[b].items, {}, r.value, |old(With(db.batches[b].items, Fetched))|)
      ensures r.Raised? ==> With(db.batches[b].items, Fetched) != {}
    {
      var rows := With(db.batches[b].items, Fetched);
      var todo, mismatched := rows, 0;
      while todo != {}
        invariant Valid() && Doing(b, Verifying) && SameLoop(old(world), b) && old(trace) <= trace
        invariant Counted(db.batches[b].items, todo, mismatched, |rows|)
        decreases |todo|
      {
        var key :| key in todo;
        var matched := CompareOne(b, key, todo, mismatched, |rows|);
        if matched.Raised? {
          return Raised(matched.error);
        }
        todo := todo - {key};
        mismatched := mismatched + if matched.value then 0 else 1;
      }
      r := Ok(mismatched);
    }

    /**
     Verifies every fetched file. A file that differs is left for the next listing; if every one
     differs, the fetch path is corrupt and the batch fails.
     */
    method Verify(b: nat) returns (ok: bool)
      requires Valid() && Doing(b, Verifying)
      requires With(db.batches[b].items, HashMismatch) == With(db.batches[b].items, Verified) == {}
      modifies `db, `staging, `world, `trace
      ensures Valid() && SameLoop(old(world), b) && old(trace) <= trace
      ensures world.step == if ok then Checked else Verifying
      ensures ok <==> EnoughMatched(db.batches[b].items)
    {
      var rows := |With(db.batches[b].items, Fetched)|;
      var compared := CompareAll(b);
      if compared.Raised? {
        return false;
      }
      ok := rows == 0 || compared.value != rows;
      ComparedEnough(db.batches[b].items, compared.value, rows);
      if ok {
        Take(Work(EndVerify));
      }
    }

    /** Hands the staging tree to the CLI, unless nothing was verified; the call may raise. */
    method Upload(b: nat) returns (ok: bool)
      requires Valid() && Doing(b, Checked)
      modifies `report, `world, `trace
      ensures Valid() && SameLoop(old(world), b) && old(trace) <= trace
      ensures world.step == if ok then Sent else Checked
      ensures With(db.batches[b].items, Verified) == {} ==> ok && world.past == old(world.past)
      ensures ok && With(db.batches[b].items, Verified) != {} ==>
        world.past.uploads == old(world.past.uploads) + [Protocol.Upload(db.batches[b].items, staging, report)]
    {
      AnyIsWith(db.batches[b].items, Verified);
      if With(db.batches[b].items, Verified) == {} {
        Take(Work(SkipSend));
        return true;
      }
      var fails := MayFail();
      ok := !fails;
      if ok {
        report := UploadTree(staging);
        Take(Work(Send(report)));
      }
    }

    /** Reads the CLI's summary and marks every verified file, in one transaction. */
    method Confirm(b: nat) returns (ok: bool)
      requires Valid() && Doing(b, Sent)
      modifies `db, `world, `trace
      ensures Valid() && SameLoop(old(world), b) && old(trace) <= trace
      ensures world.step == if ok then Settled else Sent
      ensures ok <==> report.Some? || old(With(db.batches[b].items, Verified)) == {}
      ensures ok && old(With(db.batches[b].items, Verified)) != {} ==>
        && report.Some?
        && db.batches[b].items == ConfirmItems(old(db.batches[b].items), |FoldersOf(staging.Keys)|, report.value)
    {
      var items := db.batches[b].items;
      AnyIsWith(items, Verified);
      if With(items, Verified) == {} {
        Take(Work(WorkStep.Confirm));
        return true;
      }
      if report.None? {
        return false;
      }
      var marked := MarkBySummary(items, |FoldersOf(staging.Keys)|, report.value);
      db := PutItems(db, b, marked);
      Take(Work(WorkStep.Confirm));
      ok := true;
    }

    /** Merges the confirmed rows into the mirror and settles the batch, in one transaction. */
    method MergeConfirmed(b: nat)
      requires Valid() && Doing(b, Settled)
      modifies `db, `world, `trace
      ensures Valid() && Doing(b, Merged) && SameLoop(old(world), b) && old(trace) <= trace
      ensures db.mirror == old(db.mirror) + MergedRows(old(db.mirror), old(db.batches[b].items), run)
      ensures db.batches[b].status == CheckpointStatus(old(db.batches[b].items))
    {
      MergeStep(world);
      db := CommitMerge(db, b, run);
      Take(Work(Merge));
    }

    /** What a push made of the bucket, as the protocol's steps. */
    ghost method TakeShipment(b: nat, name: string, how: Shipment)
      requires Replay(FirstWorld(), trace) == Some(world) && world.db == db && world.run == run
      requires world.staging == staging && world.report == report && dir.scratch == {} && Doing(b, Merged)
      requires world.past.base == base
      requires how == NothingPut ==> store.objects == world.objects
      requires how == PutOnly ==> store.objects == world.objects[HistoryKey(name) := db]
      requires how == Shipped ==> store.objects == world.objects[HistoryKey(name) := db][STATE_KEY := db]
      modifies `world, `trace
      ensures Valid() && SameLoop(old(world), b) && old(trace) <= trace
      ensures world.step == match how case NothingPut => Merged case PutOnly => Stored case Shipped => Copied
    {
      if how != NothingPut {
        Take(Ship(PutHistory(name)));
        if how == Shipped {
          Take(Ship(CopyCanonical));
        }
      }
    }

    /** Ships the state; staging is cleared only once the canonical object has been replaced. */
    method ShipState(b: nat) returns (ok: bool)
      requires Valid() && Doing(b, Merged)
      modifies `staging, `world, `trace, store, dir
      ensures Valid() && SameLoop(old(world), b) && old(trace) <= trace
      ensures ok ==> world.step == Landed && FetchState(store.objects) == Restored(db) && staging == map[]
      ensures !ok ==> staging == old(staging)
      ensures !ok ==> world.step == Merged || world.step == Stored || world.step == Copied
    {
      var name := HistoryLabel(db.batches[b].number);
      ghost var how;
      ok, how := Push(store, dir, db, name);
      TakeShipment(b, name, how);
      if ok {
        ok := Clear(b);
      }
    }

    /** Empties the staging tree, which may raise. */
    method Clear(b: nat) returns (ok: bool)
      requires Valid() && Doing(b, Copied)
      modifies `staging, `world, `trace
      ensures Valid() && SameLoop(old(world), b) && old(trace) <= trace
      ensures if ok then world.step == Landed && staging == map[] else world == old(world)
    {
      var fails := MayFail();
      ok := !fails;
      if ok {
        staging := map[];
        Take(Ship(ClearStaging));
      }
    }

    ghost method KnowsItsRun()
      requires Valid() && world.phase != NoRun
      ensures run in db.runs && (TrashOpen(world) ==> world.phase == LoopOver)
    {
      EveryRunIsAccounted(trace);
    }

    /** Ships the state outside the batches loop. */
    method PushState() returns (ok: bool)
      requires Valid() && world.phase != NoRun && world.phase != Looping
      modifies `world, `trace, store, dir
      ensures Valid() && old(trace) <= trace && world.phase != NoRun && world.phase != Looping
      ensures world.past == old(world.past).(puts := world.past.puts) && (ok ==> world.phase == LoopOver)
      ensures ok ==> FetchState(store.objects) == Restored(db)
    {
      var name := HistoryLabel(0);
      ghost var how;
      ok, how := Push(store, dir, db, name);
      if how != NothingPut {
        Take(Ship(PutHistory(name)));
        if how == Shipped {
          Take(Ship(CopyCanonical));
        }
      }
    }

    /** Merge, then push: always the last step of a batch. */
    method Checkpoint(b: nat) returns (ok: bool)
      requires Valid() && Doing(b, Settled)
      modifies `db, `staging, `world, `trace, store, dir
      ensures Valid() && SameLoop(old(world), b) && old(trace) <= trace
      ensures db.mirror == old(db.mirror) + MergedRows(old(db.mirror), old(db.batches[b].items), run)
      ensures db.batches[b].status == CheckpointStatus(old(db.batches[b].items))
      ensures ok ==> world.step == Landed && FetchState(store.objects) == Restored(db) && staging == map[]
      ensures !ok ==> world.step == Merged || world.step == Stored || world.step == Copied
    {
      MergeConfirmed(b);
      ok := ShipState(b);
    }

    /** A fresh Dropbox token before every batch's fetch; getting one may raise. */
    method FetchWithToken(b: nat) returns (ok: bool)
      requires Valid() && Doing(b, Between)
      modifies `db, `staging, `world, `trace
      ensures Valid() && SameLoop(old(world), b) && old(trace) <= trace
      ensures if ok then world.step == Verifying else world.step == Between || world.step == Fetching
      ensures ok ==> With(db.batches[b].items, HashMismatch) == With(db.batches[b].items, Verified) == {}
    {
      var noToken := MayFail();
      ok := false;
      if !noToken {
        ok := Fetch(b);
      }
    }

    /** Fetch, then verify. */
    method Gather(b: nat) returns (ok: bool)
      requires Valid() && Doing(b, Between)
      modifies `db, `staging, `world, `trace
      ensures Valid() && SameLoop(old(world), b) && old(trace) <= trace
      ensures if ok then world.step == Checked else world.step != Landed
    {
      ok := FetchWithToken(b);
      if ok {
        ok := Verify(b);
      }
    }

    /** Upload, then confirm. */
    method Deliver(b: nat) returns (ok: bool)
      requires Valid() && Doing(b, Checked)
      modifies `db, `report, `world, `trace
      ensures Valid() && SameLoop(old(world), b) && old(trace) <= trace
      ensures if ok then world.step == Settled else world.step != Landed
    {
      ok := Upload(b);
      if ok {
        ok := Confirm(b);
      }
    }

    /** The four steps before the checkpoint. */
    method GatherAndDeliver(b: nat) returns (ok: bool)
      requires Valid() && Doing(b, Between)
      modifies `db, `staging, `report, `world, `trace
      ensures Valid() && SameLoop(old(world), b) && old(trace) <= trace
      ensures if ok then world.step == Settled else world.step != Landed
    {
      ok := Gather(b);
      if ok {
        ok := Deliver(b);
      }
    }

    /** The five steps of a batch, in order; the first that raises ends it. */
    method RunBatch(b: nat) returns (ok: bool)
      requires Valid() && Doing(b, Between)
      modifies `db, `staging, `report, `world, `trace, store, dir
      ensures Valid() && SameLoop(old(world), b) && old(trace) <= trace
      ensures ok <==> world.step == Landed
      ensures ok ==> db.batches[b].status != BatchPlanned
    {
      ok := GatherAndDeliver(b);
      if ok {
        ok := Checkpoint(b);
      }
    }

    /** This run's planned batches, by number. */
    method SelectPlanned() returns (order: seq<nat>)
      ensures Selects(db, run, order) && ByNumber(db.batches, order)
    {
      var left := set b | b in db.batches && db.batches[b].runId == run && db.batches[b].status == BatchPlanned;
      ghost var all := left;
      order := [];
      while left != {}
        invariant left <= all
        invariant forall b :: b in order <==> b in all && b !in left
        invariant forall i, j :: 0 <= i < j < |order| ==> order[i] != order[j]
        invariant ByNumber(db.batches, order)
        invariant forall b, c :: b in order && c in left ==> db.batches[b].number <= db.batches[c].number
        decreases left
      {
        LeastExists(db.batches, left);
        var b :| b in left && forall c :: c in left ==> db.batches[b].number <= db.batches[c].number;
        order := order + [b];
        left := left - {b};
      }
    }

    /** A step raised: the batch row says FAILED, and the run does not chain. */
    method Fail(b: nat, planned: nat, completed: nat)
      requires Valid() && InBatch(world) && Current(world) == b && world.step != Landed && run in db.runs
      requires planned == |world.planned| && completed == world.completed
      modifies `db, `world, `trace
      ensures Valid() && LoopEnded(world, old(world).planned, completed, false) && old(trace) <= trace
      ensures db.batches == old(db.batches)[b := old(db.batches[b]).(status := BatchFailed)]
      ensures db.listing == old(db.listing)
    {
      NoTrashBeforeTheGate(trace);
      AbortStep(world);
      db := EndOfLoop(PutStatus(db, b, BatchFailed), run, planned, completed, true);
      Take(Ship(Abort));
    }

    /** The loop ran out of batches, out of budget, or into a batch that failed confirmation. */
    method Finish(planned: nat, completed: nat, failed: bool)
      requires Valid() && planned == |world.planned| && completed == world.completed && MayEnd(world, failed)
      modifies `db, `world, `trace
      ensures Valid() && LoopEnded(world, old(world).planned, completed, 0 < completed < planned && !failed)
      ensures old(trace) <= trace && db.listing == old(db.listing)
    {
      NoTrashBeforeTheGate(trace);
      EndLoopStep(world, failed);
      db := EndOfLoop(db, run, planned, completed, failed);
      Take(Ship(EndLoop));
    }

    /** The next batch, and what the loop makes of how it ended. */
    method RunNext(planned: seq<nat>, completed: nat) returns (how: Outcome)
      requires Valid() && AtTop(world, planned, completed) && completed < |planned|
      modifies `db, `staging, `report, `world, `trace, store, dir
      ensures Valid() && old(trace) <= trace && db.listing == old(db.listing)
      ensures Turned(world, planned, completed, how)
    {
      LoopFacts(trace);
      var b := planned[completed];
      var landed := RunBatch(b);
      LoopFacts(trace);
      if !landed {
        Fail(b, |planned|, completed);
        how := StepRaised;
      } else if db.batches[b].status == BatchFailed {
        how := BatchUnconfirmed;
      } else {
        Take(Ship(NextBatch));
        how := BatchLanded;
      }
    }

    /** One turn of the loop: the budget check, and the batch if there is room for it. */
    method Turn(planned: seq<nat>, completed: nat, budget: int, start: int, begun: seq<int>, durations: seq<int>)
      returns (elapsed: int, how: Option<Outcome>, begun': seq<int>, durations': seq<int>)
      requires Valid() && AtTop(world, planned, completed) && completed < |planned|
      requires |begun| == |durations| == completed && InBudget(begun, durations, budget)
      modifies `db, `staging, `report, `world, `trace, store, dir
      ensures Valid() && old(trace) <= trace && db.listing == old(db.listing)
      ensures how.Some? <==> ShouldStart(elapsed, Longest(durations), budget, completed)
      ensures if how.None? then world == old(world) && begun' == begun && durations' == durations
        else Turned(world, planned, completed, how.value)
      ensures how.Some? ==> begun' == begun + [elapsed] && InBudget(begun', durations', budget)
      ensures how == Some(BatchLanded) ==> |durations'| == completed + 1
    {
      var go;
      elapsed, go, begun' := Decide(start, budget, completed, begun, durations);
      durations' := durations;
      if !go {
        return elapsed, None, begun, durations;
      }
      var began := Now();
      var ran := RunNext(planned, completed);
      how := Some(ran);
      if ran != StepRaised {
        durations' := Measure(began, begun', durations, budget);
      }
    }

    /**
     Batches run in order until they are done, the budget would be overrun, or one does not land.
     The first always starts; a later one only if the longest so far would still fit, counted
     from the moment it starts.
     */
    method RunInBudget(planned: seq<nat>, budget: int, start: int)
      returns (completed: nat, how: Outcome, begun: seq<int>, durations: seq<int>, elapsed: int)
      requires Valid() && AtTop(world, planned, 0)
      modifies `db, `staging, `report, `world, `trace, store, dir
      ensures Valid() && old(trace) <= trace && db.listing == old(db.listing)
      ensures completed == world.completed && world.planned == planned
      ensures if how == StepRaised then LoopEnded(world, planned, completed, false)
        else MayEnd(world, how == BatchUnconfirmed)
      ensures |begun| == completed + if how == BatchLanded then 0 else 1
      ensures InBudget(begun, durations, budget)
      ensures how == BatchLanded && completed < |planned| ==> completed > 0 && elapsed + Longest(durations) > budget
    {
      completed, how, begun, durations, elapsed := 0, BatchLanded, [], [], 0;
      while completed < |planned|
        invariant Valid() && old(trace) <= trace && db.listing == old(db.listing)
        invariant completed <= |planned| && AtTop(world, planned, completed) && how == BatchLanded
        invariant |begun| == |durations| == completed && InBudget(begun, durations, budget)
        decreases |planned| - completed
      {
        var ran: Option<Outcome>;
        elapsed, ran, begun, durations := Turn(planned, completed, budget, start, begun, durations);
        if ran.None? {
          break;
        }
        how := ran.value;
        if how != BatchLanded {
          return;
        }
        completed := completed + 1;
      }
      LoopFacts(trace);
    }

    /** Closes the loop's account: what the phase returns, or why it raises. */
    method Conclude(planned: seq<nat>, completed: nat, unconfirmed: bool) returns (r: Result<nat, string>)
      requires Valid() && planned == world.planned && completed == world.completed && MayEnd(world, unconfirmed)
      modifies `db, `world, `trace
      ensures Valid() && old(trace) <= trace && LoopEnded(world, planned, completed, r.Ok? && r.value > 0)
      ensures db.listing == old(db.listing)
      ensures r.Ok? ==> r.value == |planned| - completed
      ensures r.Ok? && r.value == 0 ==> EveryBatchLanded(world)
    {
      Finish(|planned|, completed, unconfirmed);
      if unconfirmed {
        return Raised("a batch failed confirmation");
      }
      if |planned| > completed == 0 {
        return Raised("no batch completed inside the budget; not chaining");
      }
      r := Ok(|planned| - completed);
      if r.value == 0 {
        AllLanded(trace);
      }
    }

    /**
     The batches phase. It changes nothing if the destination cannot be checked; otherwise it
     ends with `remaining` on the run's row, asks for a chained run only when it returns with
     batches left, and has checkpointed every batch it planned when it returns with none.
     */
    method RunBatches(budget: int, start: int) returns (r: Result<nat, string>)
      requires Valid() && world.phase == PlanReady
      modifies `db, `staging, `report, `world, `trace, store, dir
      ensures Valid() && old(trace) <= trace && db.listing == old(db.listing)
      ensures (world == old(world) && r.Raised?)
        || LoopEnded(world, world.planned, world.completed, r.Ok? && r.value > 0)
      ensures r.Ok? ==> world.phase == LoopOver && r.value == |world.planned| - world.completed
      ensures r.Ok? && r.value == 0 ==> EveryBatchLanded(world)
    {
      var planned := SelectPlanned();
      var unreachable := MayFail();
      if unreachable {
        return Raised("the destination's UID could not be checked");
      }
      Take(Prepare(BeginLoop(planned)));
      var completed, how, _, _, _ := RunInBudget(planned, budget, start);
      if how == StepRaised {
        return Raised("a step of a batch raised");
      }
      r := Conclude(planned, completed, how == BatchUnconfirmed);
    }
  }
}
