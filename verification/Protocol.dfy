/**
 The run protocol: the local state database, the staging tree, the bucket, and the one place
 in the run the process has reached. Each step is one transaction or one effect outside the
 database, so a kill between any two steps is a trace that simply ends there.
 */
module Protocol {
  import opened Common
  import opened Tables
  import opened BatchItems

  // ---- the bucket ----

  type Objects = map<string, Tables>

  const STATE_KEY := ".state/state.sqlite.xz.age"
  const HISTORY_PREFIX := ".state/history/"

  function HistoryKey(name: string): string {
    HISTORY_PREFIX + name + ".sqlite.xz.age"
  }

  predicate IsHistoryKey(key: string) {
    HISTORY_PREFIX <= key
  }

  predicate HasHistory(objects: Objects) {
    exists key :: key in objects && IsHistoryKey(key)
  }

  lemma HistoryKeyIsOne(name: string)
    ensures IsHistoryKey(HistoryKey(name)) && HistoryKey(name) != STATE_KEY
  {
    assert HistoryKey(name)[7] == HISTORY_PREFIX[7] && STATE_KEY[7] != HISTORY_PREFIX[7];
  }

  datatype Restore = Restored(tables: Tables) | NoState | LostState

  /** A missing object is an empty mirror only when the history is empty as well. */
  function FetchState(objects: Objects): Restore {
    if STATE_KEY in objects then Restored(objects[STATE_KEY])
    else if HasHistory(objects) then LostState
    else NoState
  }

  /** The mirror a restore from these objects would start from. */
  function DurableMirror(objects: Objects): Mirror {
    if STATE_KEY in objects then objects[STATE_KEY].mirror else map[]
  }

  // ---- the world ----

  datatype Phase = NoRun | Opened | DeltaReady | PlanReady | Looping | LoopOver

  /** Where the batch in progress stands. */
  datatype BatchStep = Between | Fetching | Verifying | Checked | Sent | Settled | Merged | Stored | Copied | Landed

  /** One upload call: the batch's items as they stood, the staging tree it sent, its summary. */
  datatype Upload = Upload(items: Items, sent: Staging, summary: Option<Summary>)

  /** One comparison verify made: the item as it left it, and what was staged at its path. */
  datatype Comparison = Comparison(key: Key, item: Item, staged: Figures)

  /** What an observer of the whole history would have written down; the code has none of it. */
  datatype Past = Past(
    uploads: seq<Upload>,          // every upload call so far
    compared: set<Comparison>,     // every staged file verify ever hashed, and how it judged the item
    puts: set<Tables>,             // every state ever put as a history object
    base: Mirror,                  // the mirror this run started from
    landed: Mirror,                // the rows this run's checkpoints merged
    dropped: set<Key>,             // the rows this run's trash step dropped
    reconciled: bool)              // whether this run's reconcile step corrected the mirror

  datatype World = World(
    db: Tables, run: nat, phase: Phase, planned: seq<nat>, completed: nat, step: BatchStep,
    staging: Staging, report: Option<Summary>, pending: Option<string>, objects: Objects, past: Past)

  ghost predicate InBatch(w: World) {
    w.phase == Looping && w.completed < |w.planned| && w.planned[w.completed] in w.db.batches
  }

  /** The batch in progress. */
  ghost function Current(w: World): nat
    requires w.completed < |w.planned|
  {
    w.planned[w.completed]
  }

  ghost function CurrentItems(w: World): Items
    requires InBatch(w)
  {
    w.db.batches[Current(w)].items
  }

  function PutItems(db: Tables, b: nat, items: Items): Tables
    requires b in db.batches
  {
    db.(batches := db.batches[b := db.batches[b].(items := items)])
  }

  function PutStatus(db: Tables, b: nat, status: BatchStatus): Tables
    requires b in db.batches
  {
    db.(batches := db.batches[b := db.batches[b].(status := status)])
  }

  /** What the batches phase writes to its run row when it ends. */
  function EndOfLoop(db: Tables, run: nat, planned: nat, completed: nat, failed: bool): Tables
    requires run in db.runs && completed <= planned
  {
    var remaining := planned - completed;
    db.(runs := db.runs[run := db.runs[run].(
      remaining := Some(remaining), chain := remaining > 0 && completed > 0 && !failed)])
  }

  // ---- the steps ----

  /** What happens between runs, to the process or to the bucket. */
  datatype OuterStep =
    | Crash
    | Rollback(name: string)
    | LoseCanonical
    | StartRun(id: nat, reconcile: bool)

  /** Inventory, delta and plan, and the selection the batches phase begins with. */
  datatype PrepareStep =
    | SaveListing(listing: Listing)
    | SaveDelta(displays: map<Key, Display>)
    | SavePlan(first: nat, parts: seq<set<Key>>)
    | BeginLoop(order: seq<nat>)

  /** One batch, item by item, up to the merge. */
  datatype WorkStep =
    | BeginBatch
    | FetchOne(key: Key, got: Option<Figures>)
    | EndFetch
    | VerifyOne(key: Key)
    | EndVerify
    | Send(summary: Option<Summary>)
    | SkipSend
    | Confirm
    | Merge

  /** Shipping the state, and going on to the next batch or not. */
  datatype ShipStep =
    | PutHistory(name: string)
    | CopyCanonical
    | ClearStaging
    | NextBatch
    | EndLoop
    | Abort

  /** Trash, reconcile and the end of the run. */
  datatype AfterStep =
    | TrashCall(paths: set<string>)
    | RecordDeletion(key: Key, deletion: Deletion)
    | DropDeleted
    | ReconcileTrash(paths: set<string>)
    | CorrectMirror(kept: map<Key, Option<string>>)
    | FinishRun

  datatype Step =
    | Outer(outer: OuterStep)
    | Prepare(prepare: PrepareStep)
    | Work(work: WorkStep)
    | Ship(ship: ShipStep)
    | After(after: AfterStep)

  /** The trash phase's gate: this run's batches phase left nothing over. */
  ghost predicate TrashOpen(w: World) {
    && w.phase != NoRun && w.phase != Looping
    && w.run in w.db.runs && w.db.runs[w.run].remaining == Some(0)
  }

  ghost predicate ReconcileOpen(w: World) {
    TrashOpen(w) && w.db.runs[w.run].reconcile
  }

  ghost function Interrupted(runs: map<nat, RunRow>): map<nat, RunRow> {
    map r | r in runs :: if runs[r].status == RunRunning then runs[r].(status := RunInterrupted) else runs[r]
  }

  /** A new run row; an earlier run's listing and delta are never read again. */
  ghost function Started(w: World, t: Tables, id: nat, reconcile: bool): World {
    w.(db := t.(listing := map[], changed := map[], deleted := map[],
                runs := Interrupted(t.runs)[id := RunRow(RunRunning, reconcile, false, None)]),
       run := id, phase := Opened, planned := [], completed := 0, step := Between,
       staging := map[], report := None, pending := None,
       past := w.past.(base := t.mirror, landed := map[], dropped := {}, reconciled := false))
  }

  /** The two delta tables: files to copy, and files that left Dropbox. */
  function WithDelta(db: Tables, displays: map<Key, Display>): (t: Tables)
    requires Changed(db.listing, db.mirror) <= displays.Keys
    ensures t.changed.Keys == Changed(db.listing, db.mirror) && t.deleted.Keys == Deleted(db.listing, db.mirror)
  {
    var l, m := db.listing, db.mirror;
    db.(changed := map k | k in Changed(l, m) :: ChangedRow(displays[k], l[k].size.value, l[k].contentHash.value),
        deleted := map k | k in Deleted(l, m) :: DeletedRow(m[k].display, m[k].uid))
  }

  ghost function DeltaSaved(w: World, displays: map<Key, Display>): World
    requires Changed(w.db.listing, w.db.mirror) <= displays.Keys
  {
    w.(phase := DeltaReady, db := WithDelta(w.db, displays))
  }

  function NewItem(r: ChangedRow): Item {
    Item(r.display, r.size, r.contentHash, Planned, "", "")
  }

  function NewBatch(changed: map<Key, ChangedRow>, run: nat, number: nat, part: set<Key>): Batch
    requires part <= changed.Keys
  {
    Batch(run, number, BatchPlanned, map k | k in part :: NewItem(changed[k]))
  }

  /** The first `k` batches of a plan, numbered from 1, under the ids from `first` on. */
  function NewBatches(changed: map<Key, ChangedRow>, run: nat, first: nat, parts: seq<set<Key>>, k: nat)
    : (r: map<nat, Batch>)
    requires k <= |parts| && forall i :: 0 <= i < |parts| ==> parts[i] <= changed.Keys
    ensures forall b :: b in r <==> first <= b < first + k
    ensures forall b :: b in r ==> r[b] == NewBatch(changed, run, b - first + 1, parts[b - first])
  {
    if k == 0 then map[]
    else NewBatches(changed, run, first, parts, k - 1)[first + k - 1 := NewBatch(changed, run, k, parts[k - 1])]
  }

  /** The batches a plan keeps: those of earlier runs that were executed. */
  function Kept(batches: map<nat, Batch>): map<nat, Batch> {
    map b | b in batches && batches[b].status != BatchPlanned :: batches[b]
  }

  ghost predicate CanPlan(w: World, first: nat, parts: seq<set<Key>>) {
    && (forall i :: 0 <= i < |parts| ==> parts[i] != {} && parts[i] <= w.db.changed.Keys)
    && (forall i, j :: 0 <= i < j < |parts| ==> parts[i] !! parts[j])
    && (forall b :: b in Kept(w.db.batches) ==> b < first)
  }

  ghost function PlanSaved(w: World, first: nat, parts: seq<set<Key>>): World
    requires CanPlan(w, first, parts)
  {
    w.(phase := PlanReady, db := w.db.(
      batches := Kept(w.db.batches) + NewBatches(w.db.changed, w.run, first, parts, |parts|)))
  }

  /** The ids a batches phase selects: this run's planned batches. */
  ghost predicate Selects(db: Tables, run: nat, order: seq<nat>) {
    && (forall i, j :: 0 <= i < j < |order| ==> order[i] != order[j])
    && (forall b :: b in order <==>
          b in db.batches && db.batches[b].runId == run && db.batches[b].status == BatchPlanned)
  }

  ghost predicate At(w: World, step: BatchStep) {
    InBatch(w) && w.step == step
  }

  ghost function FetchDone(w: World, key: Key, got: Option<Figures>): World
    requires At(w, Fetching) && key in CurrentItems(w)
  {
    match got
    case None => w.(db := PutItems(w.db, Current(w), SetStatus(CurrentItems(w), key, Vanished)))
    case Some(f) => w.(db := PutItems(w.db, Current(w), SetStatus(CurrentItems(w), key, Fetched)),
                       staging := w.staging[CurrentItems(w)[key].display := f])
  }

  ghost function VerifyDone(w: World, key: Key): World
    requires At(w, Verifying) && key in CurrentItems(w) && CurrentItems(w)[key].display in w.staging
  {
    var item := CurrentItems(w)[key];
    var f := w.staging[item.display];
    w.(db := PutItems(w.db, Current(w), CurrentItems(w)[key := VerifyItem(item, f)]),
       staging := if Matches(item, f) then w.staging else w.staging - {item.display},
       past := w.past.(compared := w.past.compared + {Comparison(key, VerifyItem(item, f), f)}))
  }

  /** The merge's one transaction: the confirmed rows, the items and the batch's own status. */
  function MergeBatch(db: Tables, b: nat, run: nat): Tables
    requires b in db.batches
  {
    var items := db.batches[b].items;
    db.(mirror := db.mirror + MergedRows(db.mirror, items, run),
        batches := db.batches[b := db.batches[b].(items := CheckpointItems(items), status := CheckpointStatus(items))])
  }

  ghost function MergeDone(w: World): World
    requires InBatch(w)
  {
    w.(db := MergeBatch(w.db, Current(w), w.run), step := Merged,
       past := w.past.(landed := w.past.landed + MergedRows(w.db.mirror, CurrentItems(w), w.run)))
  }

  ghost function NextOuter(w: World, s: OuterStep): Option<World> {
    match s
    case Crash =>
      Some(w.(db := EMPTY_TABLES, phase := NoRun, step := Between, staging := map[], report := None, pending := None))
    case Rollback(name) =>
      if w.phase == NoRun && HistoryKey(name) in w.objects
      then Some(w.(objects := w.objects[STATE_KEY := w.objects[HistoryKey(name)]])) else None
    case LoseCanonical =>
      if w.phase == NoRun then Some(w.(objects := w.objects - {STATE_KEY})) else None
    case StartRun(id, reconcile) =>
      (match FetchState(w.objects)
       case LostState => None
       case NoState => Some(Started(w, EMPTY_TABLES, id, reconcile))
       case Restored(t) => if id in t.runs then None else Some(Started(w, t, id, reconcile)))
  }

  ghost function NextPrepare(w: World, s: PrepareStep): Option<World> {
    match s
    case SaveListing(listing) =>
      if w.phase == Opened then Some(w.(db := w.db.(listing := MarkUnhashed(listing)))) else None
    case SaveDelta(displays) =>
      if w.phase == Opened && Changed(w.db.listing, w.db.mirror) <= displays.Keys
      then Some(DeltaSaved(w, displays)) else None
    case SavePlan(first, parts) =>
      if w.phase == DeltaReady && CanPlan(w, first, parts) then Some(PlanSaved(w, first, parts)) else None
    case BeginLoop(order) =>
      if w.phase == PlanReady && Selects(w.db, w.run, order)
      then Some(w.(phase := Looping, planned := order, completed := 0, step := Between)) else None
  }

  ghost function NextWork(w: World, s: WorkStep): Option<World> {
    match s
    case BeginBatch =>
      if At(w, Between) then Some(w.(step := Fetching, staging := map[])) else None
    case FetchOne(key, got) =>
      if At(w, Fetching) && key in CurrentItems(w) && CurrentItems(w)[key].status == ItemStatus.Planned
      then Some(FetchDone(w, key, got)) else None
    case EndFetch =>
      if At(w, Fetching) && !Any(CurrentItems(w), ItemStatus.Planned) then Some(w.(step := Verifying)) else None
    case VerifyOne(key) =>
      if At(w, Verifying) && key in CurrentItems(w) && CurrentItems(w)[key].status == Fetched
        && CurrentItems(w)[key].display in w.staging
      then Some(VerifyDone(w, key)) else None
    case EndVerify =>
      if At(w, Verifying) && !Any(CurrentItems(w), Fetched)
        && (Any(CurrentItems(w), Verified) || !Any(CurrentItems(w), HashMismatch))
      then Some(w.(step := Checked)) else None
    case Send(summary) =>
      if At(w, Checked) && Any(CurrentItems(w), Verified)
      then Some(w.(step := Sent, report := summary,
                   past := w.past.(uploads := w.past.uploads + [Upload(CurrentItems(w), w.staging, summary)])))
      else None
    case SkipSend =>
      if At(w, Checked) && !Any(CurrentItems(w), Verified) then Some(w.(step := Sent)) else None
    case Confirm =>
      if At(w, Sent) && !Any(CurrentItems(w), Verified) then Some(w.(step := Settled))
      else if At(w, Sent) && w.report.Some?
      then Some(w.(step := Settled, db := PutItems(w.db, Current(w),
        ConfirmItems(CurrentItems(w), |FoldersOf(w.staging.Keys)|, w.report.value))))
      else None
    case Merge =>
      if At(w, Settled) then Some(MergeDone(w)) else None
  }

  ghost function NextShip(w: World, s: ShipStep): Option<World> {
    match s
    case PutHistory(name) =>
      if At(w, Merged) || (w.phase != NoRun && w.phase != Looping)
      then Some(w.(objects := w.objects[HistoryKey(name) := w.db], pending := Some(name),
                   past := w.past.(puts := w.past.puts + {w.db}),
                   step := if w.phase == Looping then Stored else w.step,
                   phase := if w.phase == Looping then Looping else LoopOver))
      else None
    case CopyCanonical =>
      if w.pending.Some? && HistoryKey(w.pending.value) in w.objects && (At(w, Stored) || w.phase == LoopOver)
      then Some(w.(objects := w.objects[STATE_KEY := w.objects[HistoryKey(w.pending.value)]], pending := None,
                   step := if w.phase == Looping then Copied else w.step))
      else None
    case ClearStaging =>
      if At(w, Copied) then Some(w.(step := Landed, staging := map[])) else None
    case NextBatch =>
      if At(w, Landed) && w.db.batches[Current(w)].status == BatchCheckpointed
      then Some(w.(completed := w.completed + 1, step := Between)) else None
    case EndLoop =>
      if w.phase == Looping && w.run in w.db.runs && w.completed <= |w.planned|
        && (w.step == Between || (At(w, Landed) && w.db.batches[Current(w)].status == BatchFailed))
      then Some(w.(phase := LoopOver, pending := None,
                   db := EndOfLoop(w.db, w.run, |w.planned|, w.completed, w.step == Landed)))
      else None
    case Abort =>
      if InBatch(w) && w.step != Landed && w.run in w.db.runs
      then Some(w.(phase := LoopOver, pending := None,
                   db := EndOfLoop(PutStatus(w.db, Current(w), BatchFailed), w.run, |w.planned|, w.completed, true)))
      else None
  }

  ghost function NextAfter(w: World, s: AfterStep): Option<World> {
    match s
    case TrashCall(paths) =>
      if TrashOpen(w) then Some(w) else None
    case RecordDeletion(key, deletion) =>
      if TrashOpen(w) && key in w.db.deleted
      then Some(w.(db := w.db.(deletions := w.db.deletions[(w.run, key) := deletion]))) else None
    case DropDeleted =>
      if TrashOpen(w)
      then Some(w.(db := w.db.(mirror := w.db.mirror - Gone(w.db, w.run)),
                   past := w.past.(dropped := w.past.dropped + Gone(w.db, w.run)))) else None
    case ReconcileTrash(paths) =>
      if ReconcileOpen(w) then Some(w) else None
    case CorrectMirror(kept) =>
      if ReconcileOpen(w) && kept.Keys <= w.db.mirror.Keys
      then Some(w.(db := w.db.(mirror := map k | k in kept :: w.db.mirror[k].(uid := kept[k])),
                   past := w.past.(reconciled := true))) else None
    case FinishRun =>
      if w.phase != NoRun && w.phase != Looping && w.run in w.db.runs
      then Some(w.(phase := LoopOver,
                   db := w.db.(runs := w.db.runs[w.run := w.db.runs[w.run].(status := RunFinished)])))
      else None
  }

  /** The world after a step, if the code can take it there. */
  ghost function Next(w: World, s: Step): Option<World> {
    match s
    case Outer(outer) => NextOuter(w, outer)
    case Prepare(prepare) => NextPrepare(w, prepare)
    case Work(work) => NextWork(w, work)
    case Ship(ship) => NextShip(w, ship)
    case After(after) => NextAfter(w, after)
  }

  /** The deleted files the trash step found gone or sent to the trash. */
  ghost function Gone(db: Tables, run: nat): set<Key> {
    set k | k in db.deleted && (run, k) in db.deletions && !db.deletions[(run, k)].ListingFailed?
  }

  ghost function Replay(start: World, trace: seq<Step>): Option<World> {
    if trace == [] then Some(start)
    else
      match Replay(start, trace[..|trace| - 1])
      case None => None
      case Some(w) => Next(w, trace[|trace| - 1])
  }

  lemma ReplayExtends(start: World, trace: seq<Step>, s: Step)
    requires Replay(start, trace).Some?
    ensures Replay(start, trace + [s]) == Next(Replay(start, trace).value, s)
  {
    assert (trace + [s])[..|trace + [s]| - 1] == trace;
  }

  /** A bucket nobody has written to, and no run yet. */
  function FirstWorld(): World {
    World(EMPTY_TABLES, 0, NoRun, [], 0, Between, map[], None, None, map[],
          Past([], {}, {}, map[], map[], {}, false))
  }
}
