/**
 The durable side of the folder walk. Every write is one transaction in a log; a kill or a
 restore leaves the state some prefix of the log reaches, and a later run goes on from there.
 Whatever the log, a snapshot marked COMPLETE is exactly the remote tree.
 */
module WalkLog {
  import opened Common
  import opened WalkTables

  // ---- the reference: walking down the tree ----

  /** A way down from the root: the child position taken at each folder, last one outermost. */
  datatype Trail = Root | Below(up: Trail, i: nat)

  /** The node a trail leads to, if the folders on it hold that many usable children. */
  function At(tree: Tree, destination: string, trail: Trail): Option<NodeRow> {
    match trail
    case Root => Some(NodeRow(RootPlace(destination), "folder", None, None))
    case Below(up, i) =>
      match At(tree, destination, up)
      case None => None
      case Some(r) =>
        if IsFolder(r) && r.place.uid in tree && i < |tree[r.place.uid]| && Usable(tree[r.place.uid][i])
        then Some(Child(r.place, tree[r.place.uid], i)) else None
  }

  ghost predicate Lists(tree: Tree, f: Uid, i: nat, u: Uid) {
    f in tree && i < |tree[f]| && tree[f][i].uid == Some(u)
  }

  /** Proton's tree: a node is listed once, the root nowhere, and every folder can be listed. */
  ghost predicate IsTree(tree: Tree) {
    && (forall f, i: nat :: !Lists(tree, f, i, ROOT))
    && (forall u, f, i: nat, g, j: nat :: Lists(tree, f, i, u) && Lists(tree, g, j, u) ==> f == g && i == j)
    && (forall u, f, i: nat :: Lists(tree, f, i, u) && tree[f][i].nodeType == "folder" ==> u in tree)
    && ROOT in tree
  }

  /** One node, one way down to it. */
  lemma {:induction false} TrailIsUnique(tree: Tree, destination: string, a: Trail, b: Trail)
    requires IsTree(tree)
    requires At(tree, destination, a).Some? && At(tree, destination, b).Some?
    requires At(tree, destination, a).value.place.uid == At(tree, destination, b).value.place.uid
    ensures a == b
  {
    var u := At(tree, destination, a).value.place.uid;
    if a.Below? {
      assert Lists(tree, At(tree, destination, a.up).value.place.uid, a.i, u);
    }
    if b.Below? {
      assert Lists(tree, At(tree, destination, b.up).value.place.uid, b.i, u);
    }
    if a.Below? && b.Below? {
      TrailIsUnique(tree, destination, a.up, b.up);
    }
  }

  // ---- the log ----

  datatype Tx =
    | Open(id: nat, purpose: string, destination: string)
    | Commit(id: nat, uid: Uid)
    | Note(id: nat, uid: Uid, category: string)
    | Close(id: nat)

  /** What a transaction does, if the walk may make it in this state. */
  ghost function Apply(tree: Tree, db: Snapshots, tx: Tx): Option<Snapshots> {
    match tx
    case Open(id, purpose, destination) =>
      if id in db then None else Some(db[id := NewSnapshot(purpose, destination)])
    case Commit(id, uid) =>
      if id in db && db[id].status == Running && uid in db[id].folders && db[id].folders[uid].status == Pending
        && uid in tree && AllUsable(tree[uid])
      then Some(db[id := Committed(db[id], uid, tree[uid])]) else None
    case Note(id, uid, category) =>
      if id in db && db[id].status == Running && uid in db[id].folders
      then Some(db[id := Noted(db[id], uid, category)]) else None
    case Close(id) =>
      if id in db && NothingPending(db[id])
      then Some(db[id := db[id].(status := Finished)]) else None
  }

  ghost function Replay(tree: Tree, log: seq<Tx>): Option<Snapshots> {
    if log == [] then Some(map[])
    else
      match Replay(tree, log[..|log| - 1])
      case None => None
      case Some(db) => Apply(tree, db, log[|log| - 1])
  }

  lemma ReplayExtends(tree: Tree, log: seq<Tx>, tx: Tx)
    requires Replay(tree, log).Some?
    ensures Replay(tree, log + [tx]) == Apply(tree, Replay(tree, log).value, tx)
  {
    assert (log + [tx])[..|log + [tx]| - 1] == log;
  }

  lemma CommitExtends(tree: Tree, log: seq<Tx>, db: Snapshots, id: nat, uid: Uid)
    requires Replay(tree, log) == Some(db)
    requires id in db && db[id].status == Running && uid in db[id].folders && db[id].folders[uid].status == Pending
    requires uid in tree && AllUsable(tree[uid])
    ensures Replay(tree, log + [Commit(id, uid)]) == Some(db[id := Committed(db[id], uid, tree[uid])])
  {
    ReplayExtends(tree, log, Commit(id, uid));
  }

  // ---- what every reachable snapshot satisfies ----

  ghost predicate LeadsTo(tree: Tree, destination: string, trail: Trail, p: Place) {
    var r := At(tree, destination, trail);
    r.Some? && IsFolder(r.value) && r.value.place == p
  }

  ghost predicate FolderKnown(tree: Tree, destination: string, p: Place) {
    exists trail :: LeadsTo(tree, destination, trail, p)
  }

  ghost predicate NodeKnown(tree: Tree, destination: string, r: NodeRow) {
    exists trail :: trail != Root && At(tree, destination, trail) == Some(r)
  }

  ghost predicate FoldersSound(tree: Tree, s: Snapshot) {
    && ROOT in s.folders
    && forall u :: u in s.folders ==>
         s.folders[u].place.uid == u && FolderKnown(tree, s.destination, s.folders[u].place)
  }

  ghost predicate NodesSound(tree: Tree, s: Snapshot) {
    forall u :: u in s.nodes ==> s.nodes[u].place.uid == u && NodeKnown(tree, s.destination, s.nodes[u])
  }

  ghost predicate Recorded(s: Snapshot, r: NodeRow) {
    && r.place.uid in s.nodes && s.nodes[r.place.uid] == r
    && (IsFolder(r) ==> r.place.uid in s.folders && s.folders[r.place.uid].place == r.place)
  }

  /** The first `k` children listed under `up` are on record. */
  ghost predicate ChildrenRecorded(s: Snapshot, up: Place, listing: seq<Entry>, k: nat)
    requires k <= |listing| && AllUsable(listing)
  {
    forall i :: 0 <= i < k ==> Recorded(s, Child(up, listing, i))
  }

  ghost predicate ListingRecorded(tree: Tree, s: Snapshot, p: Place) {
    p.uid in tree && AllUsable(tree[p.uid]) && ChildrenRecorded(s, p, tree[p.uid], |tree[p.uid]|)
  }

  ghost predicate CompleteMeansRecorded(tree: Tree, s: Snapshot) {
    forall u :: u in s.folders && s.folders[u].status == Complete ==> ListingRecorded(tree, s, s.folders[u].place)
  }

  ghost predicate Sound(tree: Tree, s: Snapshot) {
    && FoldersSound(tree, s)
    && NodesSound(tree, s)
    && CompleteMeansRecorded(tree, s)
    && (s.status == Finished ==> NothingPending(s))
  }

  // ---- a commit keeps it ----

  lemma ChildIsKnown(tree: Tree, destination: string, up: Place, i: nat)
    requires FolderKnown(tree, destination, up)
    requires up.uid in tree && i < |tree[up.uid]| && Usable(tree[up.uid][i])
    ensures NodeKnown(tree, destination, Child(up, tree[up.uid], i))
    ensures IsFolder(Child(up, tree[up.uid], i)) ==> FolderKnown(tree, destination, Child(up, tree[up.uid], i).place)
  {
    var trail :| LeadsTo(tree, destination, trail, up);
    var down := Below(trail, i);
    assert At(tree, destination, down) == Some(Child(up, tree[up.uid], i));
    if IsFolder(Child(up, tree[up.uid], i)) {
      assert LeadsTo(tree, destination, down, Child(up, tree[up.uid], i).place);
    }
  }

  lemma KnownFoldersAgree(tree: Tree, destination: string, p: Place, q: Place)
    requires IsTree(tree) && p.uid == q.uid
    requires FolderKnown(tree, destination, p) && FolderKnown(tree, destination, q)
    ensures p == q
  {
    var a :| LeadsTo(tree, destination, a, p);
    var b :| LeadsTo(tree, destination, b, q);
    TrailIsUnique(tree, destination, a, b);
  }

  lemma WithChildIsSound(tree: Tree, s: Snapshot, r: NodeRow)
    requires FoldersSound(tree, s) && NodesSound(tree, s)
    requires NodeKnown(tree, s.destination, r)
    requires IsFolder(r) ==> FolderKnown(tree, s.destination, r.place)
    ensures FoldersSound(tree, WithChild(s, r)) && NodesSound(tree, WithChild(s, r))
  {}

  lemma WithChildRecords(tree: Tree, s: Snapshot, r: NodeRow)
    requires IsTree(tree) && FoldersSound(tree, s)
    requires IsFolder(r) ==> FolderKnown(tree, s.destination, r.place)
    ensures Recorded(WithChild(s, r), r)
  {
    if IsFolder(r) && r.place.uid in s.folders {
      KnownFoldersAgree(tree, s.destination, r.place, s.folders[r.place.uid].place);
    }
  }

  lemma {:induction false} WithChildrenIsSound(tree: Tree, s: Snapshot, up: Place, k: nat)
    requires FoldersSound(tree, s) && NodesSound(tree, s) && FolderKnown(tree, s.destination, up)
    requires up.uid in tree && k <= |tree[up.uid]| && AllUsable(tree[up.uid][..k])
    ensures var t := WithChildren(s, up, tree[up.uid], k);
      FoldersSound(tree, t) && NodesSound(tree, t)
  {
    if k > 0 {
      assert tree[up.uid][..k][k - 1] == tree[up.uid][k - 1];
      assert tree[up.uid][..k - 1] == tree[up.uid][..k][..k - 1];
      WithChildrenIsSound(tree, s, up, k - 1);
      ChildIsKnown(tree, s.destination, up, k - 1);
      WithChildIsSound(tree, WithChildren(s, up, tree[up.uid], k - 1), Child(up, tree[up.uid], k - 1));
    }
  }

  lemma WithChildKeeps(s: Snapshot, r: NodeRow, earlier: NodeRow)
    requires Recorded(s, earlier) && earlier.place.uid != r.place.uid
    ensures Recorded(WithChild(s, r), earlier)
  {}

  lemma {:induction false} WithChildrenKeeps(s: Snapshot, up: Place, listing: seq<Entry>, k: nat, earlier: NodeRow)
    requires k <= |listing| && AllUsable(listing[..k])
    requires Recorded(s, earlier) && forall i :: 0 <= i < k ==> listing[i].uid != Some(earlier.place.uid)
    ensures Recorded(WithChildren(s, up, listing, k), earlier)
  {
    if k > 0 {
      assert listing[..k][k - 1] == listing[k - 1];
      assert listing[..k - 1] == listing[..k][..k - 1];
      WithChildrenKeeps(s, up, listing, k - 1, earlier);
      WithChildKeeps(WithChildren(s, up, listing, k - 1), Child(up, listing, k - 1), earlier);
    }
  }

  lemma NewestChildRecorded(tree: Tree, s: Snapshot, up: Place, k: nat)
    requires IsTree(tree)
    requires FoldersSound(tree, s) && NodesSound(tree, s) && FolderKnown(tree, s.destination, up)
    requires up.uid in tree && k < |tree[up.uid]| && AllUsable(tree[up.uid])
    ensures Recorded(WithChild(WithChildren(s, up, tree[up.uid], k), Child(up, tree[up.uid], k)),
                     Child(up, tree[up.uid], k))
  {
    WithChildrenIsSound(tree, s, up, k);
    ChildIsKnown(tree, s.destination, up, k);
    WithChildRecords(tree, WithChildren(s, up, tree[up.uid], k), Child(up, tree[up.uid], k));
  }

  lemma SiblingStaysRecorded(tree: Tree, t: Snapshot, up: Place, k: nat, i: nat)
    requires IsTree(tree) && up.uid in tree && i < k < |tree[up.uid]| && AllUsable(tree[up.uid])
    requires Recorded(t, Child(up, tree[up.uid], i))
    ensures Recorded(WithChild(t, Child(up, tree[up.uid], k)), Child(up, tree[up.uid], i))
  {
    var u := tree[up.uid][k].uid.value;
    assert Lists(tree, up.uid, k, u) && !Lists(tree, up.uid, i, u);
    WithChildKeeps(t, Child(up, tree[up.uid], k), Child(up, tree[up.uid], i));
  }

  lemma {:induction false} WithChildrenRecords(tree: Tree, s: Snapshot, up: Place, k: nat, i: nat)
    requires IsTree(tree)
    requires FoldersSound(tree, s) && NodesSound(tree, s) && FolderKnown(tree, s.destination, up)
    requires up.uid in tree && i < k <= |tree[up.uid]| && AllUsable(tree[up.uid])
    ensures Recorded(WithChildren(s, up, tree[up.uid], k), Child(up, tree[up.uid], i))
  {
    var listing := tree[up.uid];
    assert listing[..k - 1] == listing[..k][..k - 1];
    if i == k - 1 {
      NewestChildRecorded(tree, s, up, k - 1);
    } else {
      WithChildrenRecords(tree, s, up, k - 1, i);
      SiblingStaysRecorded(tree, WithChildren(s, up, listing, k - 1), up, k - 1, i);
    }
  }

  lemma RecordedIgnoresStatus(s: Snapshot, uid: Uid, row: FolderRow, r: NodeRow)
    requires uid in s.folders && row.place == s.folders[uid].place && Recorded(s, r)
    ensures Recorded(s.(folders := s.folders[uid := row]), r)
  {}

  lemma CommitKeepsListing(tree: Tree, s: Snapshot, uid: Uid, p: Place)
    requires IsTree(tree) && Sound(tree, s)
    requires uid in s.folders && uid in tree && AllUsable(tree[uid])
    requires ListingRecorded(tree, s, p) && p.uid != uid
    ensures ListingRecorded(tree, Committed(s, uid, tree[uid]), p)
  {
    var listing := tree[uid];
    assert listing[..|listing|] == listing;
    var up := s.folders[uid].place;
    var t := WithChildren(s, up, listing, |listing|);
    forall i | 0 <= i < |tree[p.uid]| ensures Recorded(Committed(s, uid, listing), Child(p, tree[p.uid], i)) {
      var r := Child(p, tree[p.uid], i);
      assert Lists(tree, p.uid, i, r.place.uid);
      forall j | 0 <= j < |listing| ensures listing[j].uid != Some(r.place.uid) {
        assert !Lists(tree, uid, j, r.place.uid);
      }
      WithChildrenKeeps(s, up, listing, |listing|, r);
      RecordedIgnoresStatus(t, uid, Committed(s, uid, listing).folders[uid], r);
    }
  }

  lemma CommitRecordsListing(tree: Tree, s: Snapshot, uid: Uid)
    requires IsTree(tree) && Sound(tree, s)
    requires uid in s.folders && uid in tree && AllUsable(tree[uid])
    ensures ListingRecorded(tree, Committed(s, uid, tree[uid]), s.folders[uid].place)
  {
    var listing := tree[uid];
    assert listing[..|listing|] == listing;
    var up := s.folders[uid].place;
    var t := WithChildren(s, up, listing, |listing|);
    forall i | 0 <= i < |listing| ensures Recorded(Committed(s, uid, listing), Child(up, listing, i)) {
      WithChildrenRecords(tree, s, up, |listing|, i);
      RecordedIgnoresStatus(t, uid, Committed(s, uid, listing).folders[uid], Child(up, listing, i));
    }
  }

  /** New folder rows are PENDING, so a COMPLETE one was there before. */
  lemma {:induction false} WithChildrenAddsPending(s: Snapshot, up: Place, listing: seq<Entry>, k: nat, u: Uid)
    requires k <= |listing| && AllUsable(listing[..k])
    requires u in WithChildren(s, up, listing, k).folders && u !in s.folders
    ensures WithChildren(s, up, listing, k).folders[u].status == Pending
  {
    if k > 0 {
      assert listing[..k][k - 1] == listing[k - 1];
      assert listing[..k - 1] == listing[..k][..k - 1];
      if u in WithChildren(s, up, listing, k - 1).folders {
        WithChildrenAddsPending(s, up, listing, k - 1, u);
      }
    }
  }

  lemma CommitIsSound(tree: Tree, s: Snapshot, uid: Uid)
    requires IsTree(tree) && Sound(tree, s) && s.status == Running
    requires uid in s.folders && uid in tree && AllUsable(tree[uid])
    ensures Sound(tree, Committed(s, uid, tree[uid]))
  {
    var listing := tree[uid];
    assert listing[..|listing|] == listing;
    var up := s.folders[uid].place;
    var c := Committed(s, uid, listing);
    WithChildrenIsSound(tree, s, up, |listing|);
    forall v | v in c.folders && c.folders[v].status == Complete ensures ListingRecorded(tree, c, c.folders[v].place) {
      if v == uid {
        CommitRecordsListing(tree, s, uid);
      } else {
        if v !in s.folders {
          WithChildrenAddsPending(s, up, listing, |listing|, v);
        }
        CommitKeepsListing(tree, s, uid, s.folders[v].place);
      }
    }
  }

  lemma NoteIsSound(tree: Tree, s: Snapshot, uid: Uid, category: string)
    requires Sound(tree, s) && s.status == Running && uid in s.folders
    ensures Sound(tree, Noted(s, uid, category))
  {
    var n := Noted(s, uid, category);
    forall v | v in n.folders && n.folders[v].status == Complete ensures ListingRecorded(tree, n, n.folders[v].place) {
      var p := s.folders[v].place;
      forall i | 0 <= i < |tree[p.uid]| ensures Recorded(n, Child(p, tree[p.uid], i)) {
        RecordedIgnoresStatus(s, uid, n.folders[uid], Child(p, tree[p.uid], i));
      }
    }
  }

  lemma NewSnapshotIsSound(tree: Tree, purpose: string, destination: string)
    ensures Sound(tree, NewSnapshot(purpose, destination))
  {
    assert LeadsTo(tree, destination, Root, RootPlace(destination));
  }

  lemma CloseIsSound(tree: Tree, s: Snapshot)
    requires Sound(tree, s) && NothingPending(s)
    ensures Sound(tree, s.(status := Finished))
  {
    var c := s.(status := Finished);
    forall v | v in c.folders && c.folders[v].status == Complete ensures ListingRecorded(tree, c, c.folders[v].place) {
      var p := s.folders[v].place;
      forall i | 0 <= i < |tree[p.uid]| ensures Recorded(c, Child(p, tree[p.uid], i)) {
        assert Recorded(s, Child(p, tree[p.uid], i));
      }
    }
  }

  ghost predicate AllSound(tree: Tree, db: Snapshots) {
    forall id :: id in db ==> Sound(tree, db[id])
  }

  /** Whatever was committed, noted or interrupted before: every snapshot is sound. */
  lemma {:induction false} ReplayIsSound(tree: Tree, log: seq<Tx>)
    requires IsTree(tree) && Replay(tree, log).Some?
    ensures AllSound(tree, Replay(tree, log).value)
  {
    if log != [] {
      ReplayIsSound(tree, log[..|log| - 1]);
      var db := Replay(tree, log[..|log| - 1]).value;
      match log[|log| - 1]
      case Open(id, purpose, destination) => NewSnapshotIsSound(tree, purpose, destination);
      case Commit(id, uid) => CommitIsSound(tree, db[id], uid);
      case Note(id, uid, category) => NoteIsSound(tree, db[id], uid, category);
      case Close(id) => CloseIsSound(tree, db[id]);
    }
  }

  // ---- the main results ----

  /** On a sound snapshot with nothing pending, every way down the tree ends at a recorded row. */
  lemma {:induction false} EveryTrailIsRecorded(tree: Tree, s: Snapshot, trail: Trail)
    requires IsTree(tree) && Sound(tree, s) && NothingPending(s)
    requires At(tree, s.destination, trail).Some?
    ensures var r := At(tree, s.destination, trail).value;
      && (trail != Root ==> r.place.uid in s.nodes && s.nodes[r.place.uid] == r)
      && (IsFolder(r) ==> r.place.uid in s.folders && s.folders[r.place.uid].place == r.place)
  {
    match trail
    case Root =>
      assert LeadsTo(tree, s.destination, Root, RootPlace(s.destination));
      KnownFoldersAgree(tree, s.destination, RootPlace(s.destination), s.folders[ROOT].place);
    case Below(up, i) =>
      EveryTrailIsRecorded(tree, s, up);
      var p := At(tree, s.destination, up).value.place;
      assert ListingRecorded(tree, s, p);
      assert Recorded(s, Child(p, tree[p.uid], i));
  }

  /** The exactness of a walk: the node rows are the tree's nodes and the folder rows its folders. */
  ghost predicate IsExactly(tree: Tree, s: Snapshot) {
    && (forall u, r :: u in s.nodes && s.nodes[u] == r <==> r.place.uid == u && NodeKnown(tree, s.destination, r))
    && (forall p :: FolderKnown(tree, s.destination, p)
          <==> p.uid in s.folders && s.folders[p.uid].place == p && s.folders[p.uid].status == Complete)
  }

  lemma SoundAndDoneIsExact(tree: Tree, s: Snapshot)
    requires IsTree(tree) && Sound(tree, s) && NothingPending(s)
    ensures IsExactly(tree, s)
  {
    forall r | NodeKnown(tree, s.destination, r) ensures r.place.uid in s.nodes && s.nodes[r.place.uid] == r {
      var trail :| trail != Root && At(tree, s.destination, trail) == Some(r);
      EveryTrailIsRecorded(tree, s, trail);
    }
    forall p | FolderKnown(tree, s.destination, p) ensures p.uid in s.folders && s.folders[p.uid].place == p {
      var trail :| LeadsTo(tree, s.destination, trail, p);
      EveryTrailIsRecorded(tree, s, trail);
    }
  }

  ghost predicate FinishedAreExact(tree: Tree, db: Snapshots) {
    forall id :: id in db && db[id].status == Finished ==> IsExactly(tree, db[id])
  }

  lemma ReplayIsExact(tree: Tree, log: seq<Tx>)
    requires IsTree(tree) && Replay(tree, log).Some?
    ensures FinishedAreExact(tree, Replay(tree, log).value)
  {
    ReplayIsSound(tree, log);
    var db := Replay(tree, log).value;
    forall id | id in db && db[id].status == Finished ensures IsExactly(tree, db[id]) {
      SoundAndDoneIsExact(tree, db[id]);
    }
  }

  ghost predicate IsComplete(db: Snapshots, id: nat, uid: Uid) {
    id in db && uid in db[id].folders && db[id].folders[uid].status == Complete
  }

  lemma CommitCompletesOne(tree: Tree, s: Snapshot, uid: Uid, u: Uid)
    requires uid in s.folders && uid in tree && AllUsable(tree[uid])
    ensures var c := Committed(s, uid, tree[uid]).folders;
      && uid in c && c[uid].status == Complete
      && (u != uid ==> ((u in c && c[u].status == Complete) <==> (u in s.folders && s.folders[u].status == Complete)))
  {
    var listing := tree[uid];
    assert listing[..|listing|] == listing;
    var t := WithChildren(s, s.folders[uid].place, listing, |listing|);
    if u != uid && u in t.folders && u !in s.folders {
      WithChildrenAddsPending(s, s.folders[uid].place, listing, |listing|, u);
    }
  }

  /** A listing is committed once for each folder that is COMPLETE, and never for one that is not. */
  lemma {:induction false} CommittedExactlyOnce(tree: Tree, log: seq<Tx>, id: nat, uid: Uid)
    requires Replay(tree, log).Some?
    ensures multiset(log)[Commit(id, uid)] == if IsComplete(Replay(tree, log).value, id, uid) then 1 else 0
  {
    if log != [] {
      var before, tx := log[..|log| - 1], log[|log| - 1];
      assert log == before + [tx];
      CommittedExactlyOnce(tree, before, id, uid);
      var db := Replay(tree, before).value;
      if tx.Commit? && tx.id == id {
        CommitCompletesOne(tree, db[id], tx.uid, uid);
      }
    }
  }

  /**
   Any history of listings, failures, stops and kills, over any number of runs: once a
   snapshot is COMPLETE its nodes are exactly those reachable from the root, each with its
   true parent, segments and path, and every reachable folder was listed and committed once.
   */
  lemma CompleteSnapshotIsTheTree(tree: Tree, log: seq<Tx>, id: nat)
    requires IsTree(tree) && Replay(tree, log).Some?
    requires id in Replay(tree, log).value && Replay(tree, log).value[id].status == Finished
    ensures IsExactly(tree, Replay(tree, log).value[id])
    ensures forall p :: FolderKnown(tree, Replay(tree, log).value[id].destination, p)
              ==> multiset(log)[Commit(id, p.uid)] == 1
  {
    ReplayIsExact(tree, log);
    ReplayIsSound(tree, log);
    var s := Replay(tree, log).value[id];
    forall p | FolderKnown(tree, s.destination, p) ensures multiset(log)[Commit(id, p.uid)] == 1 {
      CommittedExactlyOnce(tree, log, id, p.uid);
    }
  }

  /** A kill leaves a prefix of the log, which is itself a history. */
  lemma {:induction false} KilledAnywhere(tree: Tree, log: seq<Tx>, k: nat)
    requires k <= |log| && Replay(tree, log).Some?
    ensures Replay(tree, log[..k]).Some?
    decreases |log|
  {
    if k < |log| {
      KilledAnywhere(tree, log[..|log| - 1], k);
      assert log[..|log| - 1][..k] == log[..k];
    } else {
      assert log[..k] == log;
    }
  }
}
