/**
 A whole run, phase after phase, in the order the pipeline runs them: restore the state and
 start a run, list Dropbox, compute the delta, plan, run the batches, trash, reconcile. A phase
 that raises ends the run.
 */
module Night {
  import opened Common
  import opened Tables
  import opened Protocol
  import opened RunLoop
  import opened Convergence
  import opened Statefile
  import opened Pipeline
  import opened ProtonTrash
  import opened Slashes
  import opened Strays
  import D = DisplayPaths
  import Packing
  import Reconcile
  import Trash
  import W = WalkTables
  import Walk
  import WalkLog
  import WalkPaths

  /** SQLite's next row id: one more than the largest. */
  method FreshId(ids: set<nat>) returns (id: nat)
    ensures forall i :: i in ids ==> i < id
  {
    id := 0;
    var todo := ids;
    while todo != {}
      invariant todo <= ids && forall i :: i in ids && i !in todo ==> i < id
      decreases todo
    {
      var i :| i in todo;
      todo := todo - {i};
      if i >= id {
        id := i + 1;
      }
    }
  }

  // ---- the state phase ----

  /** The rows a new run starts from: an interrupted run is marked, the new one is RUNNING. */
  function WithNewRun(t: Tables, id: nat, reconcile: bool): Tables {
    var runs := map r | r in t.runs ::
      if t.runs[r].status == RunRunning then t.runs[r].(status := RunInterrupted) else t.runs[r];
    t.(listing := map[], changed := map[], deleted := map[],
       runs := runs[id := RunRow(RunRunning, reconcile, false, None)])
  }

  lemma StartStep(w: World, t: Tables, id: nat, reconcile: bool)
    requires FetchState(w.objects) == Restored(t) || (FetchState(w.objects) == NoState && t == EMPTY_TABLES)
    requires id !in t.runs
    ensures NextOuter(w, StartRun(id, reconcile)) == Some(Started(w, t, id, reconcile))
    ensures Started(w, t, id, reconcile).db == WithNewRun(t, id, reconcile)
  {}

  /** Restores the state and opens a run. A missing object beside history starts nothing. */
  method Start(store: Store, dir: WorkDir, reconcile: bool, ghost trace: seq<Step>, ghost w: World)
    returns (r: Option<Process>)
    requires Replay(FirstWorld(), trace) == Some(w) && w.objects == store.objects && dir.scratch == {}
    modifies dir
    ensures FetchState(store.objects) == LostState ==> r == None
    ensures r.Some? ==> r.value.Valid() && fresh(r.value) && r.value.store == store && r.value.dir == dir
    ensures r.Some? ==> r.value.trace == trace + [Outer(StartRun(r.value.run, reconcile))]
    ensures r.Some? ==> r.value.world.phase == Opened && NoTrashYet(r.value.world)
    ensures r.Some? ==> FetchState(store.objects) != LostState && r.value.base == DurableMirror(store.objects)
    ensures r.Some? ==> r.value.db.mirror == r.value.base && r.value.db.listing == map[]
    ensures r.None? ==> dir.scratch == {}
  {
    var got := Statefile.Fetch(store, dir);
    if got.Raised? {
      return None;
    }
    var t := if got.value.Restored? then got.value.tables else EMPTY_TABLES;
    var id := FreshId(t.runs.Keys);
    var db := WithNewRun(t, id, reconcile);
    ghost var step := Outer(StartRun(id, reconcile));
    StartStep(w, t, id, reconcile);
    ReplayExtends(FirstWorld(), trace, step);
    OpenedAtItsBase(trace + [step]);
    var p := new Process(store, dir, db, id, Started(w, t, id, reconcile), trace + [step]);
    r := Some(p);
  }

  // ---- the inventory and delta phases ----

  /**
   Stores a complete listing, with the files that could never be verified demoted and every path
   spelt as the folders above it are.
   */
  method Inventory(p: Process, rows: D.Rows) returns (ok: bool, recased: D.Rows)
    requires p.Valid() && p.world.phase == Opened && D.PlainKeys(rows.Keys)
    modifies p`db, p`world, p`trace
    ensures p.Valid() && old(p.trace) <= p.trace && p.world.phase == Opened
    ensures recased == D.Recased(D.MarkedRows(rows))
    ensures ok ==> p.db == old(p.db).(listing := D.ListingOf(recased))
    ensures !ok ==> p.world == old(p.world)
  {
    var fails := MayFail();
    ok := !fails;
    var count;
    recased, count := D.Recase(D.MarkedRows(rows));
    if ok {
      D.MarkedOnce(rows);
      var listing := D.ListingOf(recased);
      p.db := p.db.(listing := listing);
      p.Take(Prepare(SaveListing(listing)));
    }
  }

  function PresentFiles(l: Listing): set<Key> {
    set k | k in l && Present(l[k])
  }

  /** A listing far smaller than the mirror is taken for a truncated one. */
  predicate UnderFloor(l: Listing, m: Mirror, ratio: real) {
    m != map[] && |PresentFiles(l)| < Max(1, (|m| as real * ratio).Floor)
  }

  lemma ChangedIsListed(l: Listing, m: Mirror)
    ensures Changed(l, m) <= PresentFiles(l)
    ensures m == map[] ==> Deleted(l, m) == {}
  {}

  function ResolvedPath(rows: D.Rows, nfc: Display -> Display, lower: D.Path): Display
    requires lower in rows
  {
    nfc(D.Resolved(rows, lower, rows[lower].entry.display))
  }

  /** Every listed file has its resolved path here. */
  ghost predicate AllResolved(rows: D.Rows, nfc: Display -> Display, displays: map<Key, Display>) {
    forall lower :: lower in rows && Present(rows[lower].entry) ==>
      Text(lower) in displays && displays[Text(lower)] == ResolvedPath(rows, nfc, lower)
  }

  /** Each changed file goes under its resolved path. */
  ghost predicate ChangedResolved(rows: D.Rows, nfc: Display -> Display, changed: map<Key, ChangedRow>) {
    forall lower :: lower in rows && Text(lower) in changed ==>
      changed[Text(lower)].display == ResolvedPath(rows, nfc, lower)
  }

  ghost predicate SpeltAs(changed: map<Key, ChangedRow>, displays: map<Key, Display>) {
    forall k :: k in changed ==> k in displays && changed[k].display == displays[k]
  }

  /** The display path of every file listed, resolved through the folders above it. */
  method Displays(rows: D.Rows, nfc: Display -> Display) returns (displays: map<Key, Display>)
    requires D.PlainKeys(rows.Keys)
    ensures PresentFiles(D.ListingOf(rows)) <= displays.Keys
    ensures AllResolved(rows, nfc, displays)
  {
    var resolver := new D.Resolver(rows);
    var resolved := resolver.DisplayPaths(nfc);
    displays := D.ByText(resolved);
    forall k | k in PresentFiles(D.ListingOf(rows)) ensures k in displays {
      var lower :| lower in D.Entries(rows) && k == Text(lower);
    }
  }

  /** An empty listing deletes nothing. */
  ghost predicate NotEmptied(db: Tables) {
    db.deleted.Keys != {} ==> PresentFiles(db.listing) != {}
  }

  lemma EmptyDeletesNothing(db: Tables, ratio: real)
    requires !UnderFloor(db.listing, db.mirror, ratio) && db.deleted.Keys == Deleted(db.listing, db.mirror)
    ensures NotEmptied(db)
  {
    assert Deleted(db.listing, db.mirror) != {} ==> db.mirror != map[];
  }

  lemma ChangedIsResolved(rows: D.Rows, nfc: Display -> Display, displays: map<Key, Display>, db: Tables)
    requires D.PlainKeys(rows.Keys) && db.listing == D.ListingOf(rows)
    requires db.changed.Keys == Changed(db.listing, db.mirror)
    requires SpeltAs(db.changed, displays)
    requires AllResolved(rows, nfc, displays)
    ensures ChangedResolved(rows, nfc, db.changed)
  {
    forall lower | lower in rows && Text(lower) in db.changed ensures Present(rows[lower].entry) {
      assert lower in D.Entries(rows) && db.listing[Text(lower)] == rows[lower].entry;
    }
  }

  /** Replaces the two delta tables in one transaction. */
  method SaveDeltaTables(p: Process, displays: map<Key, Display>)
    requires p.Valid() && p.world.phase == Opened && Changed(p.db.listing, p.db.mirror) <= displays.Keys
    modifies p`db, p`world, p`trace
    ensures p.Valid() && old(p.trace) <= p.trace && p.world.phase == DeltaReady
    ensures p.db == old(p.db).(changed := p.db.changed, deleted := p.db.deleted)
    ensures p.db.changed.Keys == Changed(p.db.listing, p.db.mirror)
    ensures p.db.deleted.Keys == Deleted(p.db.listing, p.db.mirror)
    ensures SpeltAs(p.db.changed, displays)
  {
    p.db := WithDelta(p.db, displays);
    p.Take(Prepare(SaveDelta(displays)));
  }

  /** Resolves the listed files' paths, and saves the delta under them. */
  method SaveResolved(p: Process, rows: D.Rows, nfc: Display -> Display)
    requires p.Valid() && p.world.phase == Opened && D.PlainKeys(rows.Keys) && p.db.listing == D.ListingOf(rows)
    modifies p`db, p`world, p`trace
    ensures p.Valid() && old(p.trace) <= p.trace && p.world.phase == DeltaReady
    ensures p.db == old(p.db).(changed := p.db.changed, deleted := p.db.deleted)
    ensures p.db.changed.Keys == Changed(p.db.listing, p.db.mirror)
    ensures p.db.deleted.Keys == Deleted(p.db.listing, p.db.mirror)
    ensures ChangedResolved(rows, nfc, p.db.changed)
  {
    var displays := Displays(rows, nfc);
    ChangedIsListed(p.db.listing, p.db.mirror);
    SaveDeltaTables(p, displays);
    ChangedIsResolved(rows, nfc, displays, p.db);
  }

  /**
   Computes what changed and what is gone, by keys, sizes and content hashes alone. A truncated
   listing raises before it can become a trash list, and an empty one never is one. Each changed
   file goes under its resolved path.
   */
  method Delta(p: Process, rows: D.Rows, nfc: Display -> Display, ratio: real) returns (ok: bool)
    requires p.Valid() && p.world.phase == Opened
    requires D.PlainKeys(rows.Keys) && p.db.listing == D.ListingOf(rows)
    modifies p`db, p`world, p`trace
    ensures p.Valid() && old(p.trace) <= p.trace && p.db.listing == old(p.db.listing)
    ensures ok <==> !UnderFloor(old(p.db.listing), old(p.db.mirror), ratio)
    ensures !ok ==> p.world == old(p.world)
    ensures ok ==> p.world.phase == DeltaReady && p.db.mirror == old(p.db.mirror)
    ensures ok ==> p.db.changed.Keys == Changed(p.db.listing, p.db.mirror)
    ensures ok ==> p.db.deleted.Keys == Deleted(p.db.listing, p.db.mirror)
    ensures ok ==> NotEmptied(p.db) && ChangedResolved(rows, nfc, p.db.changed)
  {
    ok := !UnderFloor(p.db.listing, p.db.mirror, ratio);
    if ok {
      SaveResolved(p, rows, nfc);
      EmptyDeletesNothing(p.db, ratio);
    }
  }

  // ---- the plan phase ----

  /** One row per changed file; the order is the database's. */
  method ChangedRows(changed: map<Key, ChangedRow>) returns (rows: Packing.Rows)
    ensures Packing.DistinctKeys(rows) && Packing.KeysOf(rows) == changed.Keys
    ensures forall row :: row in rows ==> row.key in changed && row.size == changed[row.key].size
  {
    rows := [];
    var todo := changed.Keys;
    while todo != {}
      invariant todo <= changed.Keys && Packing.DistinctKeys(rows)
      invariant Packing.KeysOf(rows) == changed.Keys - todo
      invariant forall row :: row in rows ==>
        row.key in changed && row.key !in todo && row.size == changed[row.key].size
      decreases todo
    {
      var k :| k in todo;
      todo := todo - {k};
      var row := Packing.Row(k, changed[k].size);
      assert Packing.KeysOf(rows + [row]) == Packing.KeysOf(rows) + {k};
      rows := rows + [row];
    }
  }

  lemma {:induction false} WithinIsDistinct(rows: Packing.Rows, cap: int)
    requires Packing.DistinctKeys(rows)
    ensures Packing.DistinctKeys(Packing.Within(rows, cap))
  {
    if rows != [] {
      var init, last := rows[..|rows| - 1], rows[|rows| - 1];
      WithinIsDistinct(init, cap);
      Packing.WithinKeeps(init, cap);
      forall row | row in Packing.Within(init, cap) ensures row.key != last.key {
        var i :| 0 <= i < |init| && init[i] == row;
        assert rows[i] == row;
      }
    }
  }

  /** The executed batches stay; the plan's are new, numbered from 1 in the plan's order. */
  ghost predicate Saved(before: Tables, after: Tables, run: nat, batches: seq<Packing.Rows>) {
    exists first: nat :: Packing.PartsAreChanged(before.changed, batches)
      && after == before.(batches := Kept(before.batches)
           + NewBatches(before.changed, run, first, Packing.Parts(batches), |batches|))
  }

  /** The plan's batches replace every batch no run executed. */
  method SaveBatches(p: Process, batches: seq<Packing.Rows>, ghost rows: Packing.Rows, ghost caps: Packing.Caps)
    requires p.Valid() && p.world.phase == DeltaReady
    requires Packing.IsPacking(rows, batches, caps.batchBytes, caps.batchFiles)
    requires Packing.DistinctKeys(rows) && Packing.KeysOf(rows) <= p.db.changed.Keys
    modifies p`db, p`world, p`trace
    ensures p.Valid() && old(p.trace) <= p.trace && p.world.phase == PlanReady
    ensures Saved(old(p.db), p.db, p.run, batches)
    ensures forall k :: k in Packing.KeysOf(rows) <==> Packing.IsPlanned(batches, k)
  {
    var first := FreshId(Kept(p.db.batches).Keys);
    Packing.PlanCanBeSaved(p.world, rows, batches, caps, first);
    var parts := Packing.Parts(batches);
    p.db := p.db.(batches := Kept(p.db.batches) + NewBatches(p.db.changed, p.run, first, parts, |parts|));
    p.Take(Prepare(SavePlan(first, parts)));
  }

  lemma KeptKeys(rows: Packing.Rows, cap: int, changed: map<Key, ChangedRow>)
    requires Packing.KeysOf(rows) == changed.Keys
    requires forall row :: row in rows ==> row.key in changed && row.size == changed[row.key].size
    ensures forall k :: k in Packing.KeysOf(Packing.Within(rows, cap)) <==> k in changed && changed[k].size <= cap
  {
    Packing.WithinKeeps(rows, cap);
    forall k | k in changed && changed[k].size <= cap ensures k in Packing.KeysOf(Packing.Within(rows, cap)) {
      assert k in Packing.KeysOf(rows);
      var row :| row in rows && row.key == k;
      assert row in Packing.Within(rows, cap);
    }
  }

  /** Packs the changed files the disk can stage, and saves the batches. */
  method Plan(p: Process, caps: Packing.Caps, treeBytes: nat, free: nat) returns (ok: bool, batches: seq<Packing.Rows>)
    requires p.Valid() && p.world.phase == DeltaReady && caps.batchFiles > 0
    modifies p`db, p`world, p`trace
    ensures p.Valid() && old(p.trace) <= p.trace
    ensures !ok ==> p.world == old(p.world)
    ensures ok ==> p.world.phase == PlanReady && Saved(old(p.db), p.db, p.run, batches)
    ensures ok ==> forall k :: k in p.db.changed ==>
      (Packing.IsPlanned(batches, k) <==> p.db.changed[k].size <= Packing.FileCap(caps, free))
    ensures ok ==> Packing.Tight(batches, caps.batchBytes, caps.batchFiles)
    ensures ok ==> forall i :: 0 <= i < |batches| ==> Packing.Total(batches[i]) + caps.headroom <= free
  {
    var rows := ChangedRows(p.db.changed);
    var cap := Packing.FileCap(caps, free);
    var planned := Packing.Plan(rows, caps, treeBytes, free);
    if planned.Raised? {
      return false, [];
    }
    WithinIsDistinct(rows, cap);
    Packing.WithinKeeps(rows, cap);
    batches := planned.value;
    KeptKeys(rows, cap, p.db.changed);
    SaveBatches(p, batches, Packing.Within(rows, cap), caps);
    ok := true;
  }

  // ---- the run ----

  /** The batches a run's row says were left over. */
  function Remaining(db: Tables, run: nat): Option<nat> {
    if run in db.runs then db.runs[run].remaining else None
  }

  /** What the trash step leaves, before anything is reconciled: every file where it should be. */
  ghost predicate AllConverged(w: World) {
    && TrashDone(w) && (forall k :: Converged(w, k))
    && (MirrorsListing(w.db.mirror, w.db.listing) <==> NothingWentWrong(w))
  }

  /** The trash phase of a run: when it returns having done its work, the run has converged. */
  method TrashNight(p: Process, can: Trashcan, destination: string) returns (r: Result<bool, string>)
    requires p.Valid() && p.world.phase == LoopOver && NoTrashYet(p.world)
    modifies p`db, p`world, p`trace, p.store, p.dir, can
    ensures p.Valid() && old(p.trace) <= p.trace && p.world.phase != NoRun && p.world.phase != Looping
    ensures p.db == old(p.db).(deletions := p.db.deletions, mirror := p.db.mirror)
    ensures r == Ok(false) <==> !old(TrashOpen(p.world))
    ensures r == Ok(false) ==> p.world == old(p.world) && can.calls == old(can.calls)
    ensures r == Ok(true) ==> AllConverged(p.world)
  {
    var lister := new Lister();
    r := Trash.Run(p, lister, can, destination);
    if r == Ok(true) {
      Converges(p.trace);
    }
  }

  lemma Converges(trace: seq<Step>)
    requires Replay(FirstWorld(), trace).Some?
    requires TrashDone(Replay(FirstWorld(), trace).value) && TrashOpen(Replay(FirstWorld(), trace).value)
    ensures AllConverged(Replay(FirstWorld(), trace).value)
  {
    CleanRunMirrorsTheListing(trace);
    forall k ensures Converged(Replay(FirstWorld(), trace).value, k) {
      RunConverges(trace, k);
    }
  }

  /** Nothing on record went to the trash, by itself or inside a folder, unless its first name is slashes alone. */
  ghost predicate NothingKnownTrashed(
      uni: Reconcile.Unicode, nodes: Nodes, before: Tables, o: Reconcile.Reconciliation) {
    && TreeShaped(nodes) && o.Done?
    && forall u :: u in nodes && Reconcile.IsOnRecord(uni, nodes, before, u) && Reconcile.IsTrashed(nodes, o, u) ==>
         IsBlank(FirstName(nodes, u))
  }

  lemma ExactTrashIsSafe(
      uni: Reconcile.Unicode, tree: W.Tree, s: W.Snapshot, before: Tables, after: Tables, o: Reconcile.Reconciliation)
    requires WalkLog.IsTree(tree) && WalkLog.IsExactly(tree, s)
    requires Reconcile.Reconciled(uni, s.nodes, before, after, o)
    requires AncestorClosed(Reconcile.ListedFolders(uni, before.listing))
    ensures NothingKnownTrashed(uni, s.nodes, before, o)
  {
    CompleteWalkIsTreeShaped(tree, s);
    forall u | u in s.nodes && Reconcile.IsOnRecord(uni, s.nodes, before, u) && Reconcile.IsTrashed(s.nodes, o, u)
      ensures IsBlank(FirstName(s.nodes, u))
    {
      Reconcile.NothingOnRecordIsTrashed(uni, tree, s, before, after, o, u);
    }
  }

  /** The listing is a recased one, in which every folder has its row and names are names. */
  ghost predicate WellListed(uni: Reconcile.Unicode, rows: D.Rows, l: Listing) {
    && D.PlainKeys(rows.Keys) && l == D.ListingOf(D.Recased(rows))
    && D.AllFoldersListed(rows) && D.PlainRows(rows) && KeepsNames(uni.fold)
  }

  /** Recasing closes the folder keys under ancestors, which the choice of strays relies on. */
  lemma WellListedIsClosed(uni: Reconcile.Unicode, rows: D.Rows, l: Listing)
    requires WellListed(uni, rows, l)
    ensures AncestorClosed(Reconcile.ListedFolders(uni, l))
  {
    D.FolderKeysAreClosed(rows, uni.fold);
    SameFolderKeys(uni, D.Recased(rows));
  }

  lemma SameFolderKeys(uni: Reconcile.Unicode, rows: D.Rows)
    requires D.PlainKeys(rows.Keys)
    ensures Reconcile.ListedFolders(uni, D.ListingOf(rows)) == D.FolderKeys(rows, uni.fold)
  {
    var l := D.ListingOf(rows);
    forall q | q in Reconcile.ListedFolders(uni, l) ensures q in D.FolderKeys(rows, uni.fold) {
      var k :| k in l && l[k].tag == Folder && q == ComparisonKey(uni.fold, Text(l[k].display));
      var lower :| lower in D.Entries(rows) && k == Text(lower);
      assert D.IsFolderAt(rows, lower);
    }
    forall q | q in D.FolderKeys(rows, uni.fold) ensures q in Reconcile.ListedFolders(uni, l) {
      var lower :| lower in rows && D.IsFolderAt(rows, lower)
        && q == ComparisonKey(uni.fold, Text(rows[lower].entry.display));
      assert lower in D.Entries(rows) && Text(lower) in l;
    }
  }

  /** The calls are given paths: they name the chosen nodes alone, unless a name is a twin's UID. */
  lemma CallsNameTheChosen(tree: W.Tree, s: W.Snapshot, o: Reconcile.Reconciliation, u: W.Uid)
    requires WalkLog.IsTree(tree) && WalkLog.IsExactly(tree, s) && o.Done? && u in s.nodes
    requires WalkPaths.OrdinaryPaths(s) && WalkPaths.NoClash(tree, s)
    ensures s.nodes[u].place.cliPath in Reconcile.CliPaths(s.nodes, o.files + o.folders) <==> u in o.files + o.folders
  {
    WalkPaths.PathsNameTheirNodes(tree, s, (o.files + o.folders) * s.nodes.Keys, u);
  }

  /** Where paths are what Dropbox can have, what is on record is trashed exactly if slash-named. */
  ghost predicate KnownTrashedExactly(
      uni: Reconcile.Unicode, nodes: Nodes, before: Tables, o: Reconcile.Reconciliation) {
    && TreeShaped(nodes) && o.Done?
    && forall u :: u in nodes && Reconcile.IsOnRecord(uni, nodes, before, u) ==>
         (Reconcile.IsTrashed(nodes, o, u) <==> IsBlank(FirstName(nodes, u)))
  }

  lemma ExactTrashIsExact(
      uni: Reconcile.Unicode, tree: W.Tree, s: W.Snapshot, before: Tables, after: Tables, o: Reconcile.Reconciliation)
    requires WalkLog.IsTree(tree) && WalkLog.IsExactly(tree, s)
    requires Reconcile.Reconciled(uni, s.nodes, before, after, o)
    requires AncestorClosed(Reconcile.ListedFolders(uni, before.listing))
    requires KeepsNames(uni.fold) && Reconcile.RealPaths(before)
    ensures KnownTrashedExactly(uni, s.nodes, before, o)
  {
    CompleteWalkIsTreeShaped(tree, s);
    forall u | u in s.nodes && Reconcile.IsOnRecord(uni, s.nodes, before, u)
      ensures Reconcile.IsTrashed(s.nodes, o, u) <==> IsBlank(FirstName(s.nodes, u))
    {
      Reconcile.RecordIsTrashedIffSlashNamed(uni, tree, s, before, after, o, u);
    }
  }

  /**
   A complete reconcile compared the mirror with the remote tree itself, made exactly the trash
   calls its choice asks for, and over a recased listing trashed nothing on record that is not
   under a slash-named folder.
   */
  ghost predicate ReconciledWith(
      db: Walk.Database, uni: Reconcile.Unicode, rows: D.Rows, before: Tables, after: Tables,
      o: Reconcile.Reconciliation, made: seq<set<string>>)
    requires o.Done?
    reads db
  {
    exists id :: id in db.snapshots && WalkLog.IsExactly(db.tree, db.snapshots[id])
      && Reconcile.Reconciled(uni, db.snapshots[id].nodes, before, after, o)
      && made == Reconcile.TrashCalls(db.snapshots[id].nodes, o)
      && (WellListed(uni, rows, before.listing) ==> NothingKnownTrashed(uni, db.snapshots[id].nodes, before, o))
      && (WellListed(uni, rows, before.listing) && Reconcile.RealPaths(before) ==>
            KnownTrashedExactly(uni, db.snapshots[id].nodes, before, o))
  }

  lemma ReconcileIsSafe(
      uni: Reconcile.Unicode, rows: D.Rows, tree: W.Tree, s: W.Snapshot, before: Tables, after: Tables,
      o: Reconcile.Reconciliation)
    requires WalkLog.IsTree(tree) && WalkLog.IsExactly(tree, s)
    requires Reconcile.Reconciled(uni, s.nodes, before, after, o)
    ensures WellListed(uni, rows, before.listing) ==> NothingKnownTrashed(uni, s.nodes, before, o)
    ensures WellListed(uni, rows, before.listing) && Reconcile.RealPaths(before) ==>
      KnownTrashedExactly(uni, s.nodes, before, o)
  {
    if WellListed(uni, rows, before.listing) {
      WellListedIsClosed(uni, rows, before.listing);
      ExactTrashIsSafe(uni, tree, s, before, after, o);
      if Reconcile.RealPaths(before) {
        ExactTrashIsExact(uni, tree, s, before, after, o);
      }
    }
  }

  /** The reconcile phase of a run, walk and all. The walk begins only if the gate is open. */
  method ReconcileNight(
      p: Process, can: Trashcan, db: Walk.Database, destination: string, workers: int, deadline: nat,
      checksum: string -> nat, uni: Reconcile.Unicode, ghost rows: D.Rows)
    returns (r: Result<Reconcile.Reconciliation, string>)
    requires p.Valid() && p.world.phase != NoRun && p.world.phase != Looping
    requires db.Valid() && WalkLog.IsTree(db.tree)
    modifies p`db, p`world, p`trace, p.store, p.dir, can, db
    ensures p.Valid() && old(p.trace) <= p.trace && p.db == old(p.db).(mirror := p.db.mirror)
    ensures db.Valid()
    ensures !old(ReconcileOpen(p.world)) ==>
      r == Ok(Reconcile.Skipped) && p.world == old(p.world) && can.calls == old(can.calls) && db.log == old(db.log)
    ensures r.Ok? && r.value.Done? ==>
      old(can.calls) <= can.calls
      && ReconciledWith(db, uni, rows, old(p.db), p.db, r.value, can.calls[|old(can.calls)|..])
    ensures r.Ok? && !r.value.Done? ==> p.db == old(p.db) && can.calls == old(can.calls)
  {
    p.KnowsItsRun();
    if !p.db.runs[p.run].reconcile || p.db.runs[p.run].remaining != Some(0) {
      return Ok(Reconcile.Skipped);
    }
    var walked := Walk.Inventory(db, "reconcile", destination, false, workers, Some(deadline), checksum);
    if walked.Raised? {
      return Raised(walked.error);
    }
    var s := db.snapshots[walked.value];
    ghost var before := p.db;
    r := Reconcile.Run(p, can, s, uni);
    if r.Ok? && r.value.Done? {
      ReconcileIsSafe(uni, rows, db.tree, s, before, p.db, r.value);
    }
  }

  /** On the way from one trace to the other the process was in this world. */
  ghost predicate PassedThrough(was: seq<Step>, now: seq<Step>, w: World) {
    exists n: nat :: |was| <= n <= |now| && Replay(FirstWorld(), now[..n]) == Some(w)
  }

  /** What reconcile made of the tables the trash phase left, with the last of the calls made. */
  ghost predicate ReconciledSince(
      db: Walk.Database, uni: Reconcile.Unicode, rows: D.Rows, before: Tables, after: Tables,
      o: Reconcile.Reconciliation, calls: seq<set<string>>)
    reads db
  {
    if o.Done?
    then exists m: nat :: m <= |calls| && ReconciledWith(db, uni, rows, before, after, o, calls[m..])
    else after == before
  }

  /** Trash, then reconcile: both wait for the batches. `settled` is where the trash phase left off. */
  method Close(
      p: Process, can: Trashcan, db: Walk.Database, destination: string, workers: int, deadline: nat,
      checksum: string -> nat, uni: Reconcile.Unicode, ghost rows: D.Rows)
    returns (done: bool, ghost settled: World, ghost outcome: Reconcile.Reconciliation)
    requires p.Valid() && p.world.phase == LoopOver && can.calls == [] && NoTrashYet(p.world)
    requires db.Valid() && WalkLog.IsTree(db.tree)
    modifies p`db, p`world, p`trace, p.store, p.dir, can, db
    ensures p.Valid() && old(p.trace) <= p.trace
    ensures can.calls != [] ==> EveryBatchLanded(p.world)
    ensures done ==> PassedThrough(old(p.trace), p.trace, settled) && settled.run == p.run
    ensures done ==> settled.past.base == p.base
    ensures done && Remaining(p.db, p.run) == Some(0) ==> AllConverged(settled)
    ensures done ==> settled.db == old(p.db).(deletions := settled.db.deletions, mirror := settled.db.mirror)
    ensures done ==> p.db == settled.db.(mirror := p.db.mirror)
    ensures done ==> ReconciledSince(db, uni, rows, settled.db, p.db, outcome, can.calls)
  {
    settled, outcome := p.world, Reconcile.Skipped;
    if TrashOpen(p.world) {
      AllLanded(p.trace);
    }
    var trashed := TrashNight(p, can, destination);
    if trashed.Raised? {
      return false, settled, outcome;
    }
    settled := p.world;
    ghost var passed, calls := p.trace, can.calls;
    assert trashed.value ==> trashed == Ok(true) && AllConverged(settled);
    var reconciled := ReconcileNight(p, can, db, destination, workers, deadline, checksum, uni, rows);
    done := reconciled.Ok?;
    if done {
      outcome := reconciled.value;
    }
    assert p.trace[..|passed|] == passed;
    assert done && outcome.Done? ==>
      ReconciledWith(db, uni, rows, settled.db, p.db, outcome, can.calls[|calls|..]);
  }

  /** Up to the plan: nothing leaves this machine. */
  method PlanNight(
      p: Process, rows: D.Rows, nfc: Display -> Display, ratio: real, caps: Packing.Caps, treeBytes: nat, free: nat)
    returns (done: bool)
    requires p.Valid() && p.world.phase == Opened && caps.batchFiles > 0 && D.PlainKeys(rows.Keys)
    modifies p`db, p`world, p`trace
    ensures p.Valid() && old(p.trace) <= p.trace
    ensures done ==> p.world.phase == PlanReady
    ensures done ==> p.db.listing == D.ListingOf(D.Recased(D.MarkedRows(rows)))
  {
    var recased;
    done, recased := Inventory(p, rows);
    if !done { return; }
    done := Delta(p, recased, nfc, ratio);
    if !done { return; }
    ghost var batches;
    done, batches := Plan(p, caps, treeBytes, free);
  }

  /**
   One run from the restored state on. Whatever raises, wherever the budget stops it: no call asks
   for anything to be moved to the trash unless every batch the run planned is CHECKPOINTED. A run
   that is done with nothing remaining passed through a world that had converged, and nothing but
   what its reconcile corrected has changed since.
   */
  method Run(
      p: Process, can: Trashcan, db: Walk.Database, rows: D.Rows, nfc: Display -> Display, ratio: real,
      caps: Packing.Caps, treeBytes: nat, free: nat, budget: int, start: int, destination: string, workers: int,
      deadline: nat, checksum: string -> nat, uni: Reconcile.Unicode)
    returns (done: bool, ghost settled: World, ghost outcome: Reconcile.Reconciliation)
    requires p.Valid() && p.world.phase == Opened && can.calls == [] && caps.batchFiles > 0
    requires D.PlainKeys(rows.Keys)
    requires db.Valid() && WalkLog.IsTree(db.tree)
    modifies p`db, p`staging, p`report, p`world, p`trace, p.store, p.dir, can, db
    ensures p.Valid() && old(p.trace) <= p.trace
    ensures can.calls != [] ==> EveryBatchLanded(p.world)
    ensures done ==> PassedThrough(old(p.trace), p.trace, settled) && settled.run == p.run
    ensures done ==> settled.past.base == old(p.db.mirror)
    ensures done ==> settled.db.listing == D.ListingOf(D.Recased(D.MarkedRows(rows)))
    ensures done && Remaining(p.db, p.run) == Some(0) ==> AllConverged(settled)
    ensures done ==> p.db == settled.db.(mirror := p.db.mirror)
    ensures done ==> ReconciledSince(db, uni, D.MarkedRows(rows), settled.db, p.db, outcome, can.calls)
  {
    OpenedAtItsBase(p.trace);
    settled, outcome := p.world, Reconcile.Skipped;
    done := PlanNight(p, rows, nfc, ratio, caps, treeBytes, free);
    if !done { return; }
    var left := p.RunBatches(budget, start);
    if left.Raised? {
      return false, settled, outcome;
    }
    done, settled, outcome :=
      Close(p, can, db, destination, workers, deadline, checksum, uni, D.MarkedRows(rows));
  }
}
