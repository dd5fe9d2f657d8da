/**
 Which Proton folders a reconcile may trash: folders Dropbox no longer has and that hold
 nothing on record, topmost only, because trashing a folder takes its subtree with it.
 */
module Strays {
  import opened Common
  import opened Slashes
  import opened WalkTables
  import WalkLog

  function LowerCase(s: string): (r: string)
    ensures |r| == |s|
  {
    seq(|s|, i requires 0 <= i < |s| =>
      if 'A' <= s[i] <= 'Z' then (s[i] as int + 32) as char else s[i])
  }

  predicate FolderLike(r: NodeRow) {
    LowerCase(r.nodeType) == "folder"
  }

  type Nodes = map<Uid, NodeRow>

  /** The text a node is compared by: its names joined, which forgets what slashes they hold. */
  function KeyOf(fold: string -> string, r: NodeRow): string {
    ComparisonKey(fold, Join(r.place.segments))
  }

  // ---- the shape of a walked snapshot ----

  ghost predicate HangsFrom(p: NodeRow, r: NodeRow) {
    FolderLike(p) && |r.place.segments| > 0 && p.place.segments == r.place.segments[..|r.place.segments| - 1]
  }

  /** One node hangs where its row says. */
  ghost predicate WellPlaced(nodes: Nodes, u: Uid)
    requires u in nodes
  {
    var r := nodes[u];
    && r.place.uid == u && r.place.parent.Some?
    && (r.place.parent.value in nodes ==> HangsFrom(nodes[r.place.parent.value], r))
    && (r.place.parent.value !in nodes ==> |r.place.segments| == 1)
  }

  ghost predicate TreeShaped(nodes: Nodes) {
    forall u :: u in nodes ==> WellPlaced(nodes, u)
  }

  /** The row of a child, with the folder it was listed in on record, or listed in the root. */
  lemma ChildIsWellPlaced(tree: Tree, s: Snapshot, u: Uid, up: NodeRow, i: nat)
    requires ROOT !in s.nodes && u in s.nodes && IsFolder(up)
    requires up.place == RootPlace(s.destination) || (up.place.uid in s.nodes && s.nodes[up.place.uid] == up)
    requires up.place.uid in tree && i < |tree[up.place.uid]| && Usable(tree[up.place.uid][i])
    requires s.nodes[u] == Child(up.place, tree[up.place.uid], i) && s.nodes[u].place.uid == u
    ensures WellPlaced(s.nodes, u)
  {
    assert s.nodes[u].place.segments[..|up.place.segments|] == up.place.segments;
    assert LowerCase("folder") == "folder";
  }

  /** A node below the root is listed in the folder its trail comes from. */
  lemma ListedAbove(tree: Tree, destination: string, trail: WalkLog.Trail, r: NodeRow) returns (up: NodeRow)
    requires trail.Below? && WalkLog.At(tree, destination, trail) == Some(r)
    ensures WalkLog.At(tree, destination, trail.up) == Some(up) && IsFolder(up)
    ensures up.place.uid in tree && trail.i < |tree[up.place.uid]| && Usable(tree[up.place.uid][trail.i])
    ensures r == Child(up.place, tree[up.place.uid], trail.i)
  {
    up := WalkLog.At(tree, destination, trail.up).value;
  }

  lemma KnownIsThere(tree: Tree, s: Snapshot, trail: WalkLog.Trail, up: NodeRow)
    requires WalkLog.IsExactly(tree, s) && WalkLog.At(tree, s.destination, trail) == Some(up)
    ensures up.place == RootPlace(s.destination) || (up.place.uid in s.nodes && s.nodes[up.place.uid] == up)
  {
    if trail != WalkLog.Root {
      assert WalkLog.NodeKnown(tree, s.destination, up);
    }
  }

  lemma ExactNodeIsWellPlaced(tree: Tree, s: Snapshot, u: Uid)
    requires WalkLog.IsTree(tree) && WalkLog.IsExactly(tree, s) && u in s.nodes
    ensures WellPlaced(s.nodes, u)
  {
    RootIsNoChild(tree, s);
    assert WalkLog.NodeKnown(tree, s.destination, s.nodes[u]);
    var trail :| trail != WalkLog.Root && WalkLog.At(tree, s.destination, trail) == Some(s.nodes[u]);
    var up := ListedAbove(tree, s.destination, trail, s.nodes[u]);
    KnownIsThere(tree, s, trail.up, up);
    ChildIsWellPlaced(tree, s, u, up, trail.i);
  }

  /** A snapshot that holds exactly the remote tree is shaped like one. */
  lemma CompleteWalkIsTreeShaped(tree: Tree, s: Snapshot)
    requires WalkLog.IsTree(tree) && WalkLog.IsExactly(tree, s)
    ensures TreeShaped(s.nodes)
  {
    forall u | u in s.nodes ensures WellPlaced(s.nodes, u) {
      ExactNodeIsWellPlaced(tree, s, u);
    }
  }

  lemma RootIsNoChild(tree: Tree, s: Snapshot)
    requires WalkLog.IsTree(tree) && WalkLog.IsExactly(tree, s)
    ensures ROOT !in s.nodes
  {
    if ROOT in s.nodes {
      assert WalkLog.NodeKnown(tree, s.destination, s.nodes[ROOT]);
      var trail :| trail != WalkLog.Root && WalkLog.At(tree, s.destination, trail) == Some(s.nodes[ROOT]);
      var up := WalkLog.At(tree, s.destination, trail.up).value;
      assert WalkLog.Lists(tree, up.place.uid, trail.i, ROOT);
    }
  }

  // ---- occupied ----

  ghost predicate IsAbove(p: string, known: set<string>) {
    exists k :: k in known && IsBelow(k, p)
  }

  ghost predicate PrefixClosed(s: set<string>) {
    forall p, q :: p in s && IsBelow(p, q) ==> q in s
  }

  lemma ClimbFound(before: set<string>, key: string, at: string)
    requires PrefixClosed(before) && at in before && at <= key
    ensures forall p :: IsBelow(key, p) && |p| < |at| ==> p in before
  {
    forall p | IsBelow(key, p) && |p| < |at| ensures p in before {
      assert IsBelow(at, p) by {
        assert at[..|p| + 1] == key[..|p| + 1];
      }
    }
  }

  /** One cut further up: nothing that lies between is left out. */
  lemma ClimbStep(key: string, at: string)
    requires at <= key && '/' in at
    ensures var up := RPartition(at).0; up <= key && IsBelow(key, up)
    ensures var up := RPartition(at).0;
      forall p :: IsBelow(key, p) && |p| < |at| ==> |p| <= |up| && (|p| == |up| <==> p == up)
  {
    PartitionParts(at);
    var up := RPartition(at).0;
    assert key[..|up| + 1] == at[..|up| + 1];
    forall p | IsBelow(key, p) && |p| < |at| ensures |p| <= |up| && (|p| == |up| <==> p == up) {
      assert at[..|p| + 1] == key[..|p| + 1];
      CutIsLongest(at, p);
    }
  }

  lemma NoCut(key: string, at: string)
    requires at <= key && '/' !in at
    ensures forall p :: IsBelow(key, p) ==> |at| <= |p|
  {
    forall p | IsBelow(key, p) ensures |at| <= |p| {
      assert key[|p|] == '/';
    }
  }

  /** Climbs from one key, cutting at its last slash, up to the first ancestor already there. */
  method Climb(before: set<string>, key: string) returns (occupied: set<string>)
    requires PrefixClosed(before)
    ensures forall p :: p in occupied <==> p in before || IsBelow(key, p)
  {
    occupied := before;
    var at := key;
    while '/' in at
      invariant at <= key
      invariant forall p :: p in occupied <==> p in before || (IsBelow(key, p) && |at| <= |p|)
      decreases |at|
    {
      ClimbStep(key, at);
      PartitionShrinks(at);
      at := RPartition(at).0;
      if at in occupied {
        ClimbFound(before, key, at);
        return;
      }
      occupied := occupied + {at};
    }
    NoCut(key, at);
  }

  /** The early break loses nothing: the result is exactly what can be cut from known keys. */
  method Occupied(known: set<string>) returns (occupied: set<string>)
    ensures forall p :: p in occupied <==> IsAbove(p, known)
  {
    occupied := {};
    var todo := known;
    while todo != {}
      invariant todo <= known
      invariant forall p :: p in occupied <==> IsAbove(p, known - todo)
      decreases todo
    {
      var key :| key in todo;
      AncestorsAreClosed(known - todo, occupied);
      ghost var was := known - todo;
      occupied := Climb(occupied, key);
      todo := todo - {key};
      assert known - todo == was + {key};
      forall p ensures IsAbove(p, known - todo) <==> IsAbove(p, was) || IsBelow(key, p) {
        OneMoreKey(p, was, key);
      }
    }
    assert known - todo == known;
  }

  lemma AncestorsAreClosed(known: set<string>, s: set<string>)
    requires forall p :: p in s <==> IsAbove(p, known)
    ensures PrefixClosed(s)
  {
    forall p, q | p in s && IsBelow(p, q) ensures q in s {
      AboveIsInherited(q, p, known);
    }
  }

  lemma OneMoreKey(p: string, known: set<string>, key: string)
    ensures IsAbove(p, known + {key}) <==> IsAbove(p, known) || IsBelow(key, p)
  {
    if IsBelow(key, p) {
      assert key in known + {key};
    }
    if IsAbove(p, known) {
      var k :| k in known && IsBelow(k, p);
      assert k in known + {key};
    }
  }

  lemma AboveIsInherited(q: string, p: string, known: set<string>)
    requires IsBelow(p, q)
    ensures IsAbove(p, known) ==> IsAbove(q, known)
  {
    if IsAbove(p, known) {
      var k :| k in known && IsBelow(k, p);
      BelowIsTransitive(k, p, q);
    }
  }

  // ---- strays ----

  ghost predicate IsStray(nodes: Nodes, fold: string -> string, folders: set<string>, known: set<string>, u: Uid) {
    && u in nodes && FolderLike(nodes[u])
    && KeyOf(fold, nodes[u]) !in folders && !IsAbove(KeyOf(fold, nodes[u]), known)
  }

  ghost predicate IsTop(nodes: Nodes, fold: string -> string, folders: set<string>, known: set<string>, u: Uid) {
    IsStray(nodes, fold, folders, known, u)
    && !IsStray(nodes, fold, folders, known, nodes[u].place.parent.GetOr("None"))
  }

  /** The topmost stray folders. */
  method StrayFolders(nodes: Nodes, fold: string -> string, folders: set<string>, known: set<string>)
    returns (tops: set<Uid>)
    ensures forall u :: u in tops <==> IsTop(nodes, fold, folders, known, u)
  {
    var occupied := Occupied(known);
    var strays := set u | u in nodes && FolderLike(nodes[u])
      && KeyOf(fold, nodes[u]) !in folders && KeyOf(fold, nodes[u]) !in occupied;
    tops := set u | u in strays && nodes[u].place.parent.GetOr("None") !in strays;
  }

  /** `u` lies in the subtree of `a`, itself included. */
  ghost predicate Under(nodes: Nodes, u: Uid, a: Uid)
    requires TreeShaped(nodes) && u in nodes
    decreases |nodes[u].place.segments|
  {
    u == a || (nodes[u].place.parent.value in nodes && Under(nodes, nodes[u].place.parent.value, a))
  }

  /** Dropbox lists every folder above a folder it lists. */
  ghost predicate AncestorClosed(folders: set<string>) {
    forall p, q :: p in folders && IsBelow(p, q) && q != "" ==> q in folders
  }

  /** The name of the top-level node that `u` is, or is under. */
  function FirstName(nodes: Nodes, u: Uid): string
    requires u in nodes
  {
    if nodes[u].place.segments == [] then "" else nodes[u].place.segments[0]
  }

  lemma KeyBelowParent(nodes: Nodes, fold: string -> string, u: Uid)
    requires TreeShaped(nodes) && u in nodes && nodes[u].place.parent.value in nodes
    requires !IsBlank(Join(nodes[nodes[u].place.parent.value].place.segments))
    ensures IsBelow(KeyOf(fold, nodes[u]), KeyOf(fold, nodes[nodes[u].place.parent.value]))
  {
    var s := nodes[u].place.segments;
    var above := s[..|s| - 1];
    assert nodes[nodes[u].place.parent.value].place.segments == above && s == above + [s[|s| - 1]];
    ChildKey(fold, above, s[|s| - 1]);
  }

  /** A stray's subfolders are strays, unless the stray's path is slashes alone. */
  lemma StraysAreClosed(nodes: Nodes, fold: string -> string, folders: set<string>, known: set<string>, u: Uid)
    requires TreeShaped(nodes) && AncestorClosed(folders)
    requires u in nodes && FolderLike(nodes[u]) && IsStray(nodes, fold, folders, known, nodes[u].place.parent.value)
    requires !IsBlank(Join(nodes[nodes[u].place.parent.value].place.segments))
    ensures IsStray(nodes, fold, folders, known, u)
  {
    var r, p := nodes[u], nodes[nodes[u].place.parent.value];
    KeyBelowParent(nodes, fold, u);
    assert KeyOf(fold, p) != "";
    AboveIsInherited(KeyOf(fold, p), KeyOf(fold, r), known);
  }

  lemma ParentIsNamedLike(nodes: Nodes, u: Uid)
    requires TreeShaped(nodes) && u in nodes && nodes[u].place.parent.value in nodes
    ensures var p := nodes[u].place.parent.value;
      |nodes[p].place.segments| == |nodes[u].place.segments| - 1
      && (nodes[p].place.segments != [] ==> FirstName(nodes, p) == FirstName(nodes, u))
  {}

  /** Below a stray whose first name is not slashes alone, every folder is a stray and no file is on record. */
  lemma {:induction false} SubtreeIsStray(
      nodes: Nodes, fold: string -> string, folders: set<string>, known: set<string>, u: Uid, a: Uid)
    requires TreeShaped(nodes) && AncestorClosed(folders) && u in nodes && !IsBlank(FirstName(nodes, u))
    requires Under(nodes, u, a) && IsStray(nodes, fold, folders, known, a)
    ensures FolderLike(nodes[u]) ==> IsStray(nodes, fold, folders, known, u)
    ensures u != a ==> KeyOf(fold, nodes[u]) !in known
    decreases |nodes[u].place.segments|
  {
    if u != a {
      var p := nodes[u].place.parent.value;
      NoRootAmongNodes(nodes, p);
      ParentIsNamedLike(nodes, u);
      SubtreeIsStray(nodes, fold, folders, known, p, a);
      assert IsStray(nodes, fold, folders, known, p);
      FirstNameKeeps(nodes[p].place.segments);
      KeyBelowParent(nodes, fold, u);
      if FolderLike(nodes[u]) {
        StraysAreClosed(nodes, fold, folders, known, u);
      }
    }
  }

  /** Every node has a name. */
  lemma NoRootAmongNodes(nodes: Nodes, u: Uid)
    requires TreeShaped(nodes) && u in nodes
    ensures nodes[u].place.segments != []
  {
    assert WellPlaced(nodes, u);
  }

  /** Nothing Dropbox lists as a folder, and no file on record, is inside such a returned folder. */
  lemma TrashedSubtreesHoldNothingKnown(
      nodes: Nodes, fold: string -> string, folders: set<string>, known: set<string>, top: Uid, u: Uid)
    requires TreeShaped(nodes) && AncestorClosed(folders) && u in nodes && !IsBlank(FirstName(nodes, u))
    requires IsTop(nodes, fold, folders, known, top) && Under(nodes, u, top)
    ensures FolderLike(nodes[u]) ==> KeyOf(fold, nodes[u]) !in folders
    ensures !FolderLike(nodes[u]) ==> KeyOf(fold, nodes[u]) !in known
  {
    SubtreeIsStray(nodes, fold, folders, known, u, top);
  }

  /** The returned folder that covers a stray. */
  ghost function TopOf(nodes: Nodes, fold: string -> string, folders: set<string>, known: set<string>, u: Uid): (t: Uid)
    requires TreeShaped(nodes) && IsStray(nodes, fold, folders, known, u)
    ensures IsTop(nodes, fold, folders, known, t) && Under(nodes, u, t)
    decreases |nodes[u].place.segments|
  {
    var p := nodes[u].place.parent.value;
    if IsStray(nodes, fold, folders, known, p) then TopOf(nodes, fold, folders, known, p) else u
  }

  /** One returned folder covers such a stray: no two are nested, none is covered twice. */
  lemma {:induction false} EachStrayIsCoveredOnce(
      nodes: Nodes, fold: string -> string, folders: set<string>, known: set<string>, u: Uid, t: Uid)
    requires TreeShaped(nodes) && AncestorClosed(folders) && IsStray(nodes, fold, folders, known, u)
    requires !IsBlank(FirstName(nodes, u))
    ensures IsTop(nodes, fold, folders, known, t) && Under(nodes, u, t) <==> t == TopOf(nodes, fold, folders, known, u)
    decreases |nodes[u].place.segments|
  {
    if IsTop(nodes, fold, folders, known, t) && Under(nodes, u, t) {
      var p := nodes[u].place.parent.value;
      if u == t {
        assert !IsStray(nodes, fold, folders, known, p);
      } else {
        NoRootAmongNodes(nodes, p);
        ParentIsNamedLike(nodes, u);
        SubtreeIsStray(nodes, fold, folders, known, p, t);
        EachStrayIsCoveredOnce(nodes, fold, folders, known, p, t);
      }
    }
  }
}
