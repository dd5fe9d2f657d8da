/**
 The reconcile phase: after a complete walk, the mirror keeps exactly the rows Proton still
 backs, and what neither the mirror nor Dropbox knows goes to the trash. A partial walk only
 ships the state.
 */
module Reconcile {
  import opened Common
  import opened Tables
  import opened Protocol
  import opened Pipeline
  import opened ProtonTrash
  import opened SlashNames
  import opened Slashes
  import opened Strays
  import W = WalkTables
  import WalkLog

  /** The two normalisers: of a path component, and of a digest's letter case. */
  datatype Unicode = Unicode(fold: string -> string, caseless: string -> string)

  type FileNodes = map<string, W.NodeRow>

  function RowKey(uni: Unicode, r: MirrorRow): string {
    ComparisonKey(uni.fold, Text(r.display))
  }

  /** The nodes table is keyed by UID. */
  ghost predicate Keyed(nodes: Nodes) {
    forall u :: u in nodes ==> nodes[u].place.uid == u
  }

  // ---- the file nodes, by comparison key ----

  ghost predicate IsFileNode(nodes: Nodes, uni: Unicode, key: string, r: W.NodeRow) {
    exists u :: u in nodes && nodes[u] == r && LowerCase(r.nodeType) == "file" && KeyOf(uni.fold, r) == key
  }

  /** Every file node's key is there, with one of the files that have it. */
  ghost predicate FilesOf(nodes: Nodes, uni: Unicode, files: FileNodes) {
    && (forall key :: key in files ==> IsFileNode(nodes, uni, key, files[key]))
    && forall u :: u in nodes && LowerCase(nodes[u].nodeType) == "file" ==> KeyOf(uni.fold, nodes[u]) in files
  }

  /** Two files may share a comparison key; one of them is kept under it. */
  method FilesByKey(nodes: Nodes, uni: Unicode) returns (files: FileNodes)
    ensures FilesOf(nodes, uni, files)
  {
    files := map[];
    var todo := nodes.Keys;
    while todo != {}
      invariant todo <= nodes.Keys
      invariant forall key :: key in files ==> IsFileNode(nodes, uni, key, files[key])
      invariant forall u :: u in nodes && u !in todo && LowerCase(nodes[u].nodeType) == "file" ==>
        KeyOf(uni.fold, nodes[u]) in files
      decreases todo
    {
      var u :| u in todo;
      todo := todo - {u};
      if LowerCase(nodes[u].nodeType) == "file" {
        assert IsFileNode(nodes, uni, KeyOf(uni.fold, nodes[u]), nodes[u]);
        files := files[KeyOf(uni.fold, nodes[u]) := nodes[u]];
      }
    }
  }

  // ---- correcting the mirror ----

  /** Proton has the file, at the recorded size, and its digest, if there is one, does not differ. */
  predicate Backed(uni: Unicode, files: FileNodes, r: MirrorRow) {
    && RowKey(uni, r) in files
    && files[RowKey(uni, r)].size == Some(r.size)
    && (files[RowKey(uni, r)].sha1.Some? ==> uni.caseless(files[RowKey(uni, r)].sha1.value) == uni.caseless(r.sha1))
  }

  /** The mirror a complete walk leaves: the backed rows, each with its node's UID. */
  function Corrected(uni: Unicode, files: FileNodes, m: Mirror): Mirror {
    map k | k in m && Backed(uni, files, m[k]) :: m[k].(uid := Some(files[RowKey(uni, m[k])].place.uid))
  }

  ghost predicate IsStale(uni: Unicode, files: FileNodes, r: MirrorRow) {
    Backed(uni, files, r) && r.uid != Some(files[RowKey(uni, r)].place.uid)
  }

  ghost function BackedRows(uni: Unicode, files: FileNodes, m: Mirror, keys: set<Key>): set<Key> {
    set k | k in keys && k in m && Backed(uni, files, m[k])
  }

  ghost function StaleRows(uni: Unicode, files: FileNodes, m: Mirror, keys: set<Key>): set<Key> {
    set k | k in keys && k in m && IsStale(uni, files, m[k])
  }

  ghost function MirrorKeys(uni: Unicode, m: Mirror, keys: set<Key>): set<string>
    requires keys <= m.Keys
  {
    set k | k in keys :: RowKey(uni, m[k])
  }

  datatype Verdict = SizeDiffers | DigestDiffers | Matched(uid: string)

  /** What becomes of one row. */
  method Judge(row: MirrorRow, files: FileNodes, uni: Unicode) returns (v: Verdict)
    ensures v.Matched? <==> Backed(uni, files, row)
    ensures v.Matched? ==> v.uid == files[RowKey(uni, row)].place.uid
  {
    var key := RowKey(uni, row);
    if key !in files || files[key].size != Some(row.size) {
      return SizeDiffers;
    }
    var node := files[key];
    if node.sha1.Some? && uni.caseless(node.sha1.value) != uni.caseless(row.sha1) {
      return DigestDiffers;
    }
    v := Matched(node.place.uid);
  }

  /** The mirror once the rows of `done` have been judged. */
  ghost function PartlyCorrected(uni: Unicode, files: FileNodes, m: Mirror, done: set<Key>): Mirror {
    map k | k in m && (k !in done || Backed(uni, files, m[k])) ::
      if k in done then m[k].(uid := Some(files[RowKey(uni, m[k])].place.uid)) else m[k]
  }

  datatype Tally = Tally(mirror: Mirror, dropped: nat, refreshed: nat, matched: nat, known: set<string>)

  /** The tally is right for the rows of `done`. */
  ghost predicate Judged(uni: Unicode, files: FileNodes, m: Mirror, done: set<Key>, t: Tally) {
    && done <= m.Keys && t.mirror == PartlyCorrected(uni, files, m, done) && t.known == MirrorKeys(uni, m, done)
    && t.matched == |BackedRows(uni, files, m, done)| && t.refreshed == |StaleRows(uni, files, m, done)|
    && t.dropped + t.matched == |done|
  }

  lemma KnownOneMore(uni: Unicode, m: Mirror, done: set<Key>, k: Key)
    requires done <= m.Keys && k in m
    ensures MirrorKeys(uni, m, done + {k}) == MirrorKeys(uni, m, done) + {RowKey(uni, m[k])}
  {}

  lemma BackedOneMore(uni: Unicode, files: FileNodes, m: Mirror, done: set<Key>, k: Key)
    requires k in m && k !in done
    ensures |BackedRows(uni, files, m, done + {k})|
      == |BackedRows(uni, files, m, done)| + if Backed(uni, files, m[k]) then 1 else 0
  {
    assert BackedRows(uni, files, m, done + {k})
      == BackedRows(uni, files, m, done) + if Backed(uni, files, m[k]) then {k} else {};
  }

  lemma StaleOneMore(uni: Unicode, files: FileNodes, m: Mirror, done: set<Key>, k: Key)
    requires k in m && k !in done
    ensures |StaleRows(uni, files, m, done + {k})|
      == |StaleRows(uni, files, m, done)| + if IsStale(uni, files, m[k]) then 1 else 0
  {
    assert StaleRows(uni, files, m, done + {k})
      == StaleRows(uni, files, m, done) + if IsStale(uni, files, m[k]) then {k} else {};
  }

  lemma MirrorOneMore(uni: Unicode, files: FileNodes, m: Mirror, done: set<Key>, k: Key)
    requires k in m && k !in done
    ensures var was, now := PartlyCorrected(uni, files, m, done), PartlyCorrected(uni, files, m, done + {k});
      && was.Keys + {k} == was.Keys && was[k] == m[k]
      && now == if Backed(uni, files, m[k])
         then was[k := m[k].(uid := Some(files[RowKey(uni, m[k])].place.uid))] else was - {k}
  {}

  /** Judges one row: drops it, or refreshes its UID if that changed. */
  method Correct(t: Tally, k: Key, files: FileNodes, uni: Unicode, ghost m: Mirror, ghost done: set<Key>)
    returns (r: Tally)
    requires Judged(uni, files, m, done, t) && k in m && k !in done
    ensures Judged(uni, files, m, done + {k}, r)
  {
    KnownOneMore(uni, m, done, k);
    BackedOneMore(uni, files, m, done, k);
    StaleOneMore(uni, files, m, done, k);
    MirrorOneMore(uni, files, m, done, k);
    var row := t.mirror[k];
    var known := t.known + {RowKey(uni, row)};
    var verdict := Judge(row, files, uni);
    match verdict
    case Matched(uid) =>
      if row.uid != Some(uid) {
        r := Tally(t.mirror[k := row.(uid := Some(uid))], t.dropped, t.refreshed + 1, t.matched + 1, known);
      } else {
        assert t.mirror[k := row] == t.mirror;
        r := Tally(t.mirror, t.dropped, t.refreshed, t.matched + 1, known);
      }
    case _ =>
      r := Tally(t.mirror - {k}, t.dropped + 1, t.refreshed, t.matched, known);
  }

  lemma NoneJudged(uni: Unicode, files: FileNodes, m: Mirror, t: Tally)
    requires t == Tally(m, 0, 0, 0, {})
    ensures Judged(uni, files, m, {}, t)
  {}

  lemma AllJudged(uni: Unicode, files: FileNodes, m: Mirror, t: Tally)
    requires Judged(uni, files, m, m.Keys, t)
    ensures t.mirror == Corrected(uni, files, m) && t.dropped + t.matched == |m| && t.matched == |t.mirror|
  {
    assert BackedRows(uni, files, m, m.Keys) == t.mirror.Keys;
    assert |t.mirror| == |t.mirror.Keys| && |m| == |m.Keys|;
  }

  /** Row by row over the whole mirror. */
  method CorrectMirror(m: Mirror, files: FileNodes, uni: Unicode) returns (t: Tally)
    ensures t.mirror == Corrected(uni, files, m) && t.known == MirrorKeys(uni, m, m.Keys)
    ensures t.dropped + t.matched == |m| && t.matched == |t.mirror|
    ensures t.refreshed == |StaleRows(uni, files, m, m.Keys)|
  {
    t := Tally(m, 0, 0, 0, {});
    NoneJudged(uni, files, m, t);
    var done: set<Key> := {};
    while m.Keys - done != {}
      invariant Judged(uni, files, m, done, t)
      decreases m.Keys - done
    {
      var k :| k in m.Keys - done;
      t := Correct(t, k, files, uni, m, done);
      done := done + {k};
    }
    NothingLeft(m.Keys, done);
    AllJudged(uni, files, m, t);
  }

  /** A dropped row that Dropbox still lists comes back with the next delta, and nothing else does. */
  lemma DroppedComesBack(uni: Unicode, files: FileNodes, m: Mirror, l: Listing, k: Key)
    ensures k in Changed(l, Corrected(uni, files, m)) <==>
      k in Changed(l, m) || (k in l && Mirrorable(l[k]) && k in m && !Backed(uni, files, m[k]))
  {}

  // ---- what goes to the trash ----

  /** Files the listing has, and folders it has, by comparison key. */
  function ListedFiles(uni: Unicode, l: Listing): set<string> {
    set k | k in l && Present(l[k]) :: ComparisonKey(uni.fold, Text(l[k].display))
  }

  function ListedFolders(uni: Unicode, l: Listing): set<string> {
    set k | k in l && l[k].tag == Folder :: ComparisonKey(uni.fold, Text(l[k].display))
  }

  /** The mirror's rows before the correction, and the files Dropbox lists. */
  ghost function OnRecord(uni: Unicode, m: Mirror, l: Listing): set<string> {
    MirrorKeys(uni, m, m.Keys) + ListedFiles(uni, l)
  }

  function CliPaths(nodes: Nodes, uids: set<W.Uid>): set<string> {
    set u | u in uids && u in nodes :: nodes[u].place.cliPath
  }

  /** The file kept under a key that nothing on record has. */
  ghost predicate IsStrayFile(files: FileNodes, known: set<string>, u: W.Uid) {
    exists key :: key in files && key !in known && files[key].place.uid == u
  }

  /** A stray file's key is unknown, and each unknown file's key has a stray. */
  lemma StrayFilesAreUnknown(nodes: Nodes, uni: Unicode, files: FileNodes, known: set<string>, u: W.Uid)
    requires Keyed(nodes) && FilesOf(nodes, uni, files)
    ensures IsStrayFile(files, known, u) ==>
      u in nodes && LowerCase(nodes[u].nodeType) == "file" && KeyOf(uni.fold, nodes[u]) !in known
    ensures u in nodes && LowerCase(nodes[u].nodeType) == "file" && KeyOf(uni.fold, nodes[u]) !in known ==>
      exists v :: v in nodes && KeyOf(uni.fold, nodes[v]) == KeyOf(uni.fold, nodes[u]) && IsStrayFile(files, known, v)
  {
    if IsStrayFile(files, known, u) {
      var key :| key in files && key !in known && files[key].place.uid == u;
      assert IsFileNode(nodes, uni, key, files[key]);
    }
    if u in nodes && LowerCase(nodes[u].nodeType) == "file" && KeyOf(uni.fold, nodes[u]) !in known {
      var key := KeyOf(uni.fold, nodes[u]);
      assert IsFileNode(nodes, uni, key, files[key]);
      assert IsStrayFile(files, known, files[key].place.uid);
    }
  }

  datatype Reconciliation = Skipped | Partial | Done(tally: Tally, files: set<W.Uid>, folders: set<W.Uid>)

  /** What the trash calls of a complete reconcile are for: all the strays, and nothing else. */
  ghost predicate Chosen(uni: Unicode, nodes: Nodes, files: FileNodes, m: Mirror, l: Listing, o: Reconciliation) {
    var known := OnRecord(uni, m, l);
    && o.Done?
    && (forall u :: u in o.files <==> IsStrayFile(files, known, u))
    && (forall u :: u in o.folders <==> IsTop(nodes, uni.fold, ListedFolders(uni, l), known, u))
  }

  /** A complete reconcile, from these tables to those: the mirror corrected, the strays chosen. */
  ghost predicate Reconciled(uni: Unicode, nodes: Nodes, before: Tables, after: Tables, o: Reconciliation) {
    exists files :: FilesOf(nodes, uni, files)
      && after == before.(mirror := Corrected(uni, files, before.mirror))
      && Chosen(uni, nodes, files, before.mirror, before.listing, o)
  }

  /** `u` goes to the trash, by itself or inside a folder. */
  ghost predicate IsTrashed(nodes: Nodes, o: Reconciliation, u: W.Uid)
    requires TreeShaped(nodes) && u in nodes && o.Done?
  {
    u in o.files || exists top :: top in o.folders && Under(nodes, u, top)
  }

  /** A folder Dropbox lists, or a file that is mirrored or listed. */
  ghost predicate IsOnRecord(uni: Unicode, nodes: Nodes, before: Tables, u: W.Uid)
    requires u in nodes
  {
    IsKnown(nodes, uni.fold, ListedFolders(uni, before.listing), OnRecord(uni, before.mirror, before.listing), u)
  }

  lemma StraysAreOffRecord(
      uni: Unicode, nodes: Nodes, files: FileNodes, before: Tables, o: Reconciliation, u: W.Uid)
    requires TreeShaped(nodes) && FilesOf(nodes, uni, files) && u in nodes && IsOnRecord(uni, nodes, before, u)
    requires Chosen(uni, nodes, files, before.mirror, before.listing, o)
    ensures u !in o.files
  {
    assert Keyed(nodes) by {
      assert forall v :: v in nodes ==> WellPlaced(nodes, v);
    }
    StrayFilesAreUnknown(nodes, uni, files, OnRecord(uni, before.mirror, before.listing), u);
  }

  /**
   Nothing on record is trashed, by itself or inside a folder, unless the first name of its path
   is slashes alone: not a file with the key of a mirrored or listed file, and not a folder
   Dropbox lists.
   */
  lemma NothingOnRecordIsTrashed(
      uni: Unicode, tree: W.Tree, s: W.Snapshot, before: Tables, after: Tables, o: Reconciliation, u: W.Uid)
    requires WalkLog.IsTree(tree) && WalkLog.IsExactly(tree, s) && AncestorClosed(ListedFolders(uni, before.listing))
    requires Reconciled(uni, s.nodes, before, after, o) && u in s.nodes && IsOnRecord(uni, s.nodes, before, u)
    ensures TreeShaped(s.nodes)
    ensures IsTrashed(s.nodes, o, u) ==> IsBlank(FirstName(s.nodes, u))
  {
    CompleteWalkIsTreeShaped(tree, s);
    var files :| FilesOf(s.nodes, uni, files) && Chosen(uni, s.nodes, files, before.mirror, before.listing, o);
    StraysAreOffRecord(uni, s.nodes, files, before, o, u);
    if IsTrashed(s.nodes, o, u) && !IsBlank(FirstName(s.nodes, u)) {
      var top :| top in o.folders && Under(s.nodes, u, top);
      TrashedSubtreesHoldNothingKnown(
        s.nodes, uni.fold, ListedFolders(uni, before.listing), OnRecord(uni, before.mirror, before.listing), top, u);
    }
  }

  /** What Dropbox lists and the mirror records has names, and none of them holds a slash. */
  ghost predicate RealPaths(t: Tables) {
    && (forall k :: k in t.mirror ==> t.mirror[k].display != [] && Plain(t.mirror[k].display))
    && forall k :: k in t.listing ==> t.listing[k].display != [] && Plain(t.listing[k].display)
  }

  lemma RecordIsReal(uni: Unicode, t: Tables)
    requires RealPaths(t)
    ensures AllReal(uni.fold, ListedFolders(uni, t.listing)) && AllReal(uni.fold, OnRecord(uni, t.mirror, t.listing))
  {}

  /** And that is exact: what is on record is trashed if and only if its first name is slashes alone. */
  lemma RecordIsTrashedIffSlashNamed(
      uni: Unicode, tree: W.Tree, s: W.Snapshot, before: Tables, after: Tables, o: Reconciliation, u: W.Uid)
    requires WalkLog.IsTree(tree) && WalkLog.IsExactly(tree, s) && AncestorClosed(ListedFolders(uni, before.listing))
    requires Reconciled(uni, s.nodes, before, after, o) && u in s.nodes && IsOnRecord(uni, s.nodes, before, u)
    requires KeepsNames(uni.fold) && RealPaths(before)
    ensures TreeShaped(s.nodes)
    ensures IsTrashed(s.nodes, o, u) <==> IsBlank(FirstName(s.nodes, u))
  {
    NothingOnRecordIsTrashed(uni, tree, s, before, after, o, u);
    if IsBlank(FirstName(s.nodes, u)) {
      var folders, known := ListedFolders(uni, before.listing), OnRecord(uni, before.mirror, before.listing);
      RecordIsReal(uni, before);
      KnownIsTakenIffSlashNamed(s.nodes, uni.fold, folders, known, u);
      var top :| IsTop(s.nodes, uni.fold, folders, known, top) && Under(s.nodes, u, top);
      assert top in o.folders;
    }
  }

  // ---- the phase ----

  /** The rows kept, with the UIDs they get: what the correction tells the protocol. */
  ghost function KeptUids(uni: Unicode, files: FileNodes, m: Mirror): map<Key, Option<string>> {
    map k | k in m && Backed(uni, files, m[k]) :: Some(files[RowKey(uni, m[k])].place.uid)
  }

  ghost predicate CorrectedFrom(uni: Unicode, nodes: Nodes, before: Tables, after: Tables) {
    exists files :: FilesOf(nodes, uni, files) && after == before.(mirror := Corrected(uni, files, before.mirror))
  }

  lemma CorrectedIsKept(uni: Unicode, files: FileNodes, m: Mirror)
    ensures var kept := KeptUids(uni, files, m);
      && kept.Keys <= m.Keys
      && Corrected(uni, files, m) == map k | k in kept :: m[k].(uid := kept[k])
  {}

  lemma CorrectionStep(w: World, uni: Unicode, files: FileNodes) returns (s: Step, v: World)
    requires ReconcileOpen(w)
    ensures s == After(AfterStep.CorrectMirror(KeptUids(uni, files, w.db.mirror)))
    ensures Next(w, s) == Some(v)
    ensures v == w.(db := w.db.(mirror := Corrected(uni, files, w.db.mirror)), past := v.past)
    ensures ReconcileOpen(v)
  {
    CorrectedIsKept(uni, files, w.db.mirror);
    s := After(AfterStep.CorrectMirror(KeptUids(uni, files, w.db.mirror)));
    v := Next(w, s).value;
  }

  method StrayFiles(files: FileNodes, known: set<string>) returns (strays: set<W.Uid>)
    ensures forall u :: u in strays <==> IsStrayFile(files, known, u)
  {
    strays := set key | key in files && key !in known :: files[key].place.uid;
  }

  /** Moves these nodes to the trash, if there are any; the call may raise. */
  method TrashAll(p: Process, can: Trashcan, paths: set<string>) returns (ok: bool)
    requires p.Valid() && ReconcileOpen(p.world)
    modifies p`world, p`trace, can
    ensures p.Valid() && old(p.trace) <= p.trace && p.world == old(p.world)
    ensures can.calls == old(can.calls) + CallsFor(paths)
    ensures paths == {} ==> ok
  {
    ok := true;
    if paths != {} {
      p.Take(After(ReconcileTrash(paths)));
      ok := can.Trash(paths);
    }
  }

  function CallsFor(paths: set<string>): seq<set<string>> {
    if paths == {} then [] else [paths]
  }

  function TrashCalls(nodes: Nodes, o: Reconciliation): seq<set<string>>
    requires o.Done?
  {
    CallsFor(CliPaths(nodes, o.files)) + CallsFor(CliPaths(nodes, o.folders))
  }

  method CommitMirror(p: Process, mirror: Mirror, ghost uni: Unicode, ghost files: FileNodes)
    requires p.Valid() && ReconcileOpen(p.world)
    requires mirror == Corrected(uni, files, p.db.mirror)
    modifies p`db, p`world, p`trace
    ensures p.Valid() && old(p.trace) <= p.trace && ReconcileOpen(p.world)
    ensures p.db == old(p.db).(mirror := mirror)
  {
    ghost var step, corrected := CorrectionStep(p.world, uni, files);
    p.db := p.db.(mirror := mirror);
    p.Take(step);
  }

  /** Corrects the mirror in one transaction; `known` still counts the rows it dropped. */
  method CommitCorrection(p: Process, nodes: Nodes, uni: Unicode)
    returns (tally: Tally, files: FileNodes, known: set<string>)
    requires p.Valid() && ReconcileOpen(p.world)
    modifies p`db, p`world, p`trace
    ensures p.Valid() && old(p.trace) <= p.trace && ReconcileOpen(p.world)
    ensures FilesOf(nodes, uni, files) && CorrectedFrom(uni, nodes, old(p.db), p.db)
    ensures p.db == old(p.db).(mirror := Corrected(uni, files, old(p.db.mirror)))
    ensures known == OnRecord(uni, old(p.db.mirror), p.db.listing)
  {
    files := FilesByKey(nodes, uni);
    tally := CorrectMirror(p.db.mirror, files, uni);
    CommitMirror(p, tally.mirror, uni, files);
    known := tally.known + ListedFiles(uni, p.db.listing);
  }

  /** Trashes the strays, files before folders. */
  method TrashStrays(p: Process, can: Trashcan, nodes: Nodes, uni: Unicode, files: FileNodes, known: set<string>)
    returns (ok: bool, strays: set<W.Uid>, tops: set<W.Uid>)
    requires p.Valid() && ReconcileOpen(p.world)
    modifies p`world, p`trace, can
    ensures p.Valid() && old(p.trace) <= p.trace && p.world == old(p.world)
    ensures forall u :: u in strays <==> IsStrayFile(files, known, u)
    ensures ok ==> forall u :: u in tops <==> IsTop(nodes, uni.fold, ListedFolders(uni, p.db.listing), known, u)
    ensures ok ==> can.calls == old(can.calls) + (CallsFor(CliPaths(nodes, strays)) + CallsFor(CliPaths(nodes, tops)))
  {
    tops := {};
    strays := StrayFiles(files, known);
    ok := TrashAll(p, can, CliPaths(nodes, strays));
    if ok {
      tops := StrayFolders(nodes, uni.fold, ListedFolders(uni, p.db.listing), known);
      ok := TrashAll(p, can, CliPaths(nodes, tops));
    }
  }

  /** After a complete walk: the mirror is corrected first, then strays are trashed. */
  method Compare(p: Process, can: Trashcan, nodes: Nodes, uni: Unicode) returns (r: Result<Reconciliation, string>)
    requires p.Valid() && ReconcileOpen(p.world)
    modifies p`db, p`world, p`trace, can
    ensures p.Valid() && old(p.trace) <= p.trace && ReconcileOpen(p.world)
    ensures CorrectedFrom(uni, nodes, old(p.db), p.db)
    ensures r.Ok? ==> Reconciled(uni, nodes, old(p.db), p.db, r.value)
    ensures r.Ok? ==> can.calls == old(can.calls) + TrashCalls(nodes, r.value)
  {
    var tally, files, known := CommitCorrection(p, nodes, uni);
    var ok, strays, tops := TrashStrays(p, can, nodes, uni, files, known);
    r := if ok then Ok(Done(tally, strays, tops)) else Raised("the trash call failed");
    assert ok ==> Chosen(uni, nodes, files, old(p.db.mirror), p.db.listing, r.value);
  }

  /**
   The phase. Nothing happens unless the run is a reconcile run whose batches all landed, and a
   walk that did not finish changes neither the mirror nor Proton.
   */
  method Run(p: Process, can: Trashcan, s: W.Snapshot, uni: Unicode) returns (r: Result<Reconciliation, string>)
    requires p.Valid() && p.world.phase != NoRun && p.world.phase != Looping
    modifies p`db, p`world, p`trace, p.store, p.dir, can
    ensures p.Valid() && old(p.trace) <= p.trace && p.db == old(p.db).(mirror := p.db.mirror)
    ensures !old(ReconcileOpen(p.world)) ==> r == Ok(Skipped) && p.world == old(p.world) && can.calls == old(can.calls)
    ensures r == Ok(Skipped) ==> p.world == old(p.world) && can.calls == old(can.calls)
    ensures r == Ok(Partial) ==> p.db == old(p.db) && can.calls == old(can.calls)
    ensures s.status != W.Finished ==> p.db == old(p.db) && can.calls == old(can.calls)
    ensures r.Ok? && r.value.Done? ==> Reconciled(uni, s.nodes, old(p.db), p.db, r.value) && s.status == W.Finished
    ensures r.Ok? && r.value.Done? ==> FetchState(p.store.objects) == Restored(p.db)
    ensures r.Ok? && r.value.Done? ==> can.calls == old(can.calls) + TrashCalls(s.nodes, r.value)
  {
    p.KnowsItsRun();
    var row := p.db.runs[p.run];
    if !row.reconcile || row.remaining != Some(0) {
      return Ok(Skipped);
    }
    var unreachable := MayFail();
    if unreachable {
      return Raised("the destination's UID could not be checked");
    }
    if s.status != W.Finished {
      var shipped := p.PushState();
      return if shipped then Ok(Partial) else Raised("the state could not be shipped");
    }
    r := Compare(p, can, s.nodes, uni);
    if r.Ok? {
      var shipped := p.PushState();
      if !shipped {
        r := Raised("the state could not be shipped");
      }
    }
  }
}
