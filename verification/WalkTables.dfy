/**
 The tables a folder walk writes, as values: the snapshot's folder rows (the walk's durable
 queue) and node rows, and the log of transactions that produced them. The remote tree is
 fixed; `At` walks down it by child positions and is the reference the rows are held against.
 */
module WalkTables {
  import opened Common
  import opened CliPath

  type Uid = string

  const ROOT: Uid := "__ROOT__"

  /** One child in a folder listing, as Proton reports it. */
  datatype Entry = Entry(
    uid: Option<Uid>, name: Option<string>, nodeType: string, size: Option<int>, sha1: Option<string>)

  /** What listing each folder answers. */
  type Tree = map<Uid, seq<Entry>>

  datatype Place = Place(uid: Uid, parent: Option<Uid>, segments: seq<string>, cliPath: string)

  datatype NodeRow = NodeRow(place: Place, nodeType: string, size: Option<int>, sha1: Option<string>)

  datatype FolderStatus = Pending | Complete

  datatype FolderRow = FolderRow(place: Place, status: FolderStatus, attempts: nat, lastError: Option<string>)

  datatype SnapshotStatus = Running | Finished

  datatype Snapshot = Snapshot(
    purpose: string, destination: string, status: SnapshotStatus,
    folders: map<Uid, FolderRow>, nodes: map<Uid, NodeRow>)

  type Snapshots = map<nat, Snapshot>

  // ---- one listing ----

  /** A child without a uid (or with an empty one) or without a name raises. */
  predicate Usable(e: Entry) {
    e.uid.Some? && e.uid.value != "" && e.name.Some?
  }

  predicate AllUsable(listing: seq<Entry>) {
    forall i :: 0 <= i < |listing| ==> Usable(listing[i])
  }

  function Names(listing: seq<Entry>): (names: seq<string>)
    ensures |names| == |listing| && forall i :: 0 <= i < |listing| ==> names[i] == listing[i].name.GetOr("None")
  {
    seq(|listing|, i requires 0 <= i < |listing| => listing[i].name.GetOr("None"))
  }

  predicate IsDuplicate(listing: seq<Entry>, name: string) {
    multiset(Names(listing))[name] > 1
  }

  predicate IsFolder(r: NodeRow) {
    r.nodeType == "folder"
  }

  /** The row of the `i`th child of `up`. */
  function Child(up: Place, listing: seq<Entry>, i: nat): NodeRow
    requires i < |listing| && Usable(listing[i])
  {
    var e := listing[i];
    var name := e.name.value;
    NodeRow(
      Place(e.uid.value, Some(up.uid), up.segments + [name],
            ChildCliPath(up.cliPath, name, e.uid.value, IsDuplicate(listing, name))),
      e.nodeType, e.size, e.sha1)
  }

  /** INSERT OR REPLACE the node; a folder is queued unless its row is already there. */
  function WithChild(s: Snapshot, r: NodeRow): Snapshot {
    s.(nodes := s.nodes[r.place.uid := r],
       folders := if IsFolder(r) && r.place.uid !in s.folders
                  then s.folders[r.place.uid := FolderRow(r.place, Pending, 0, None)] else s.folders)
  }

  function WithChildren(s: Snapshot, up: Place, listing: seq<Entry>, k: nat): (t: Snapshot)
    requires k <= |listing| && AllUsable(listing[..k])
    ensures forall u :: u in s.folders ==> u in t.folders && t.folders[u] == s.folders[u]
    ensures t.purpose == s.purpose && t.destination == s.destination && t.status == s.status
  {
    if k == 0 then s
    else
      assert listing[..k][k - 1] == listing[k - 1];
      assert listing[..k - 1] == listing[..k][..k - 1];
      WithChild(WithChildren(s, up, listing, k - 1), Child(up, listing, k - 1))
  }

  function Completed(s: Snapshot, uid: Uid): Snapshot
    requires uid in s.folders
  {
    s.(folders := s.folders[uid := s.folders[uid].(status := Complete, attempts := s.folders[uid].attempts + 1)])
  }

  /** The one transaction that records a listing and completes its folder. */
  function Committed(s: Snapshot, uid: Uid, listing: seq<Entry>): (t: Snapshot)
    requires uid in s.folders && AllUsable(listing)
    ensures t.purpose == s.purpose && t.destination == s.destination && t.status == s.status
  {
    assert listing[..|listing|] == listing;
    Completed(WithChildren(s, s.folders[uid].place, listing, |listing|), uid)
  }

  function Noted(s: Snapshot, uid: Uid, category: string): Snapshot
    requires uid in s.folders
  {
    var row := s.folders[uid];
    s.(folders := s.folders[uid := row.(attempts := row.attempts + 1, lastError := Some(category))])
  }

  function RootPlace(destination: string): Place {
    Place(ROOT, None, [], destination)
  }

  function NewSnapshot(purpose: string, destination: string): Snapshot {
    Snapshot(purpose, destination, Running, map[ROOT := FolderRow(RootPlace(destination), Pending, 0, None)], map[])
  }

  ghost predicate NothingPending(s: Snapshot) {
    forall u :: u in s.folders ==> s.folders[u].status == Complete
  }
}
