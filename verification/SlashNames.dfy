/**
 Top-level folders whose names are slashes alone. Leading slashes are stripped before paths are
 compared, so what such a folder holds is compared as if it lay at the top, while the folder
 itself is compared as the bare "/". Nothing Dropbox lists or the mirror records has that key:
 the folder is always trashed, and takes with it whatever it holds.
 */
module SlashNames {
  import opened Common
  import opened Slashes
  import opened Strays
  import opened WalkTables

  /** A key that something in Dropbox can have. */
  ghost predicate IsReal(fold: string -> string, key: string) {
    exists d: seq<string> :: d != [] && Plain(d) && key == ComparisonKey(fold, Text(d))
  }

  ghost predicate AllReal(fold: string -> string, keys: set<string>) {
    forall k :: k in keys ==> IsReal(fold, k)
  }

  lemma RealKeyHasAName(fold: string -> string, key: string)
    requires KeepsNames(fold) && IsReal(fold, key)
    ensures |key| > 1 && key[1] != '/'
  {
    var d: seq<string> :| d != [] && Plain(d) && key == ComparisonKey(fold, Text(d));
    KeyOfText(fold, d);
    FoldedIsPlain(fold, d);
    TextStarts(Folded(fold, d));
  }

  lemma BlankKey(fold: string -> string, path: string)
    requires KeepsNames(fold) && IsBlank(path)
    ensures ComparisonKey(fold, path) == "/"
  {
    assert FoldText(fold, "") == fold("") == "";
  }

  // ---- the folder itself ----

  lemma SlashFolderIsTop(nodes: Nodes, fold: string -> string, folders: set<string>, known: set<string>, u: Uid)
    requires TreeShaped(nodes) && KeepsNames(fold) && AllReal(fold, folders) && AllReal(fold, known)
    requires u in nodes && FolderLike(nodes[u]) && |nodes[u].place.segments| == 1 && IsBlank(FirstName(nodes, u))
    ensures IsTop(nodes, fold, folders, known, u)
  {
    BlankKey(fold, FirstName(nodes, u));
    assert KeyOf(fold, nodes[u]) == "/";
    if "/" in folders {
      RealKeyHasAName(fold, "/");
    }
    if IsAbove("/", known) {
      var k :| k in known && IsBelow(k, "/");
      RealKeyHasAName(fold, k);
    }
    var p := nodes[u].place.parent.value;
    if p in nodes {
      NoRootAmongNodes(nodes, p);
      ParentIsNamedLike(nodes, u);
    }
  }

  /** The top-level node that `u` is, or is under. */
  ghost function Topmost(nodes: Nodes, u: Uid): (t: Uid)
    requires TreeShaped(nodes) && u in nodes
    ensures t in nodes && Under(nodes, u, t) && |nodes[t].place.segments| == 1
    ensures FirstName(nodes, t) == FirstName(nodes, u) && (u != t ==> FolderLike(nodes[t]))
    decreases |nodes[u].place.segments|
  {
    var p := nodes[u].place.parent.value;
    if p in nodes then
      NoRootAmongNodes(nodes, p);
      ParentIsNamedLike(nodes, u);
      Topmost(nodes, p)
    else u
  }

  // ---- what it takes with it ----

  /** A folder Dropbox lists, or another node whose key is on record. */
  ghost predicate IsKnown(nodes: Nodes, fold: string -> string, folders: set<string>, known: set<string>, u: Uid)
    requires u in nodes
  {
    KeyOf(fold, nodes[u]) in if FolderLike(nodes[u]) then folders else known
  }

  ghost predicate IsTaken(nodes: Nodes, fold: string -> string, folders: set<string>, known: set<string>, u: Uid)
    requires TreeShaped(nodes) && u in nodes
  {
    exists top :: IsTop(nodes, fold, folders, known, top) && Under(nodes, u, top)
  }

  /** What is known is taken by a returned folder if and only if its first name is slashes alone. */
  lemma KnownIsTakenIffSlashNamed(
      nodes: Nodes, fold: string -> string, folders: set<string>, known: set<string>, u: Uid)
    requires TreeShaped(nodes) && AncestorClosed(folders) && u in nodes
    requires KeepsNames(fold) && AllReal(fold, folders) && AllReal(fold, known)
    requires IsKnown(nodes, fold, folders, known, u)
    ensures IsTaken(nodes, fold, folders, known, u) <==> IsBlank(FirstName(nodes, u))
  {
    if IsBlank(FirstName(nodes, u)) {
      var t := Topmost(nodes, u);
      if u == t {
        BlankKey(fold, FirstName(nodes, u));
        RealKeyHasAName(fold, KeyOf(fold, nodes[u]));
      }
      SlashFolderIsTop(nodes, fold, folders, known, t);
    } else if IsTaken(nodes, fold, folders, known, u) {
      var top :| IsTop(nodes, fold, folders, known, top) && Under(nodes, u, top);
      TrashedSubtreesHoldNothingKnown(nodes, fold, folders, known, top, u);
    }
  }

  // ---- coverage ----

  lemma {:induction false} TopAtTheTopIsOne(
      nodes: Nodes, fold: string -> string, folders: set<string>, known: set<string>, u: Uid, t: Uid)
    requires TreeShaped(nodes) && IsStray(nodes, fold, folders, known, u)
    requires |nodes[TopOf(nodes, fold, folders, known, u)].place.segments| == 1
    requires IsTop(nodes, fold, folders, known, t) && Under(nodes, u, t)
    ensures t == TopOf(nodes, fold, folders, known, u)
    decreases |nodes[u].place.segments|
  {
    var p := nodes[u].place.parent.value;
    if u != t {
      NoRootAmongNodes(nodes, p);
      ParentIsNamedLike(nodes, u);
      TopAtTheTopIsOne(nodes, fold, folders, known, p, t);
    }
  }

  ghost predicate CoveredOnce(nodes: Nodes, fold: string -> string, folders: set<string>, known: set<string>, u: Uid)
    requires TreeShaped(nodes) && IsStray(nodes, fold, folders, known, u)
  {
    forall t :: IsTop(nodes, fold, folders, known, t) && Under(nodes, u, t) ==>
      t == TopOf(nodes, fold, folders, known, u)
  }

  /**
   A stray is covered by one returned folder if and only if its first name is not slashes alone,
   or every folder above it is a stray.
   */
  lemma CoveredOnceExactly(nodes: Nodes, fold: string -> string, folders: set<string>, known: set<string>, u: Uid)
    requires TreeShaped(nodes) && AncestorClosed(folders) && IsStray(nodes, fold, folders, known, u)
    requires KeepsNames(fold) && AllReal(fold, folders) && AllReal(fold, known)
    ensures CoveredOnce(nodes, fold, folders, known, u) <==>
      !IsBlank(FirstName(nodes, u)) || |nodes[TopOf(nodes, fold, folders, known, u)].place.segments| == 1
  {
    var top := TopOf(nodes, fold, folders, known, u);
    if !IsBlank(FirstName(nodes, u)) {
      forall t | IsTop(nodes, fold, folders, known, t) && Under(nodes, u, t) ensures t == top {
        EachStrayIsCoveredOnce(nodes, fold, folders, known, u, t);
      }
    } else if |nodes[top].place.segments| == 1 {
      forall t | IsTop(nodes, fold, folders, known, t) && Under(nodes, u, t) ensures t == top {
        TopAtTheTopIsOne(nodes, fold, folders, known, u, t);
      }
    } else {
      SlashFolderIsTop(nodes, fold, folders, known, Topmost(nodes, u));
    }
  }

  // ---- closure ----

  /** Whatever is listed and on record: if the parent is a stray, so is the folder. */
  ghost predicate StaysStray(nodes: Nodes, fold: string -> string, u: Uid)
    requires TreeShaped(nodes) && u in nodes
  {
    forall folders, known ::
      AncestorClosed(folders) && AllReal(fold, folders) && AllReal(fold, known) ==>
        (IsStray(nodes, fold, folders, known, nodes[u].place.parent.value) ==> IsStray(nodes, fold, folders, known, u))
  }

  /** The keys of a path and of the folders above it. */
  ghost function KeysDownTo(fold: string -> string, d: seq<string>): set<string> {
    set n | 0 < n <= |d| :: ComparisonKey(fold, Text(d[..n]))
  }

  lemma KeyAbove(fold: string -> string, d: seq<string>, n: nat, q: string)
    requires KeepsNames(fold) && Plain(d) && 0 < n <= |d|
    requires IsBelow(ComparisonKey(fold, Text(d[..n])), q) && q != ""
    ensures q in KeysDownTo(fold, d)
  {
    var m := CutOfKey(fold, d[..n], q);
    assert d[..n][..m] == d[..m];
  }

  lemma KeysDownToAreClosed(fold: string -> string, d: seq<string>)
    requires KeepsNames(fold) && Plain(d)
    ensures AncestorClosed(KeysDownTo(fold, d)) && AllReal(fold, KeysDownTo(fold, d))
  {
    forall p, q | p in KeysDownTo(fold, d) && IsBelow(p, q) && q != "" ensures q in KeysDownTo(fold, d) {
      var n :| 0 < n <= |d| && p == ComparisonKey(fold, Text(d[..n]));
      KeyAbove(fold, d, n, q);
    }
  }

  /** A stray's subfolder of a key Dropbox can have is bound to be one if and only if the stray has a name. */
  lemma ClosedExactly(nodes: Nodes, fold: string -> string, u: Uid)
    requires TreeShaped(nodes) && KeepsNames(fold) && u in nodes && FolderLike(nodes[u])
    requires nodes[u].place.parent.value in nodes && IsReal(fold, KeyOf(fold, nodes[u]))
    ensures StaysStray(nodes, fold, u) <==> !IsBlank(Join(nodes[nodes[u].place.parent.value].place.segments))
  {
    var p := nodes[u].place.parent.value;
    if !IsBlank(Join(nodes[p].place.segments)) {
      forall folders, known | AncestorClosed(folders) && AllReal(fold, folders) && AllReal(fold, known)
        && IsStray(nodes, fold, folders, known, p) ensures IsStray(nodes, fold, folders, known, u)
      {
        StraysAreClosed(nodes, fold, folders, known, u);
      }
    } else {
      var d: seq<string> :| d != [] && Plain(d) && KeyOf(fold, nodes[u]) == ComparisonKey(fold, Text(d));
      var folders := KeysDownTo(fold, d);
      KeysDownToAreClosed(fold, d);
      BlankKey(fold, Join(nodes[p].place.segments));
      if "/" in folders {
        RealKeyHasAName(fold, "/");
      }
      assert IsStray(nodes, fold, folders, {}, p);
      assert d[..|d|] == d;
    }
  }

  // ---- a folder called "/" ----

  function Node(uid: Uid, parent: Uid, segments: seq<string>, nodeType: string): NodeRow {
    NodeRow(Place(uid, Some(parent), segments, ""), nodeType, None, None)
  }

  /** At the top a folder called "/", in it a folder "c", and in that a file "f". */
  const NODES: Nodes := map[
    "top" := Node("top", ROOT, ["/"], "folder"),
    "c" := Node("c", "top", ["/", "c"], "folder"),
    "f" := Node("f", "c", ["/", "c", "f"], "file")]

  lemma NodesAreATree()
    ensures TreeShaped(NODES)
  {
    assert ["/", "c"][..1] == ["/"] && ["/", "c", "f"][..2] == ["/", "c"];
    assert LowerCase("folder") == "folder";
  }

  /** The file is compared as if it lay in a folder "c" at the top. */
  lemma FileReadsAsBelowC(fold: string -> string)
    ensures KeyOf(fold, NODES["f"]) == ComparisonKey(fold, Text(["c", "f"]))
  {
    assert Join(["/", "c", "f"]) == "//c/f" by {
      assert ["/", "c", "f"][1..] == ["c", "f"] && ["c", "f"][1..] == ["f"];
    }
    assert Text(["c", "f"]) == "/c/f" by {
      assert ["c", "f"][..1] == ["c"] && ["c"][..0] == [];
    }
    assert LStrip("//c/f") == LStrip("/c/f") by {
      assert "//c/f"[1..] == "/c/f";
    }
  }

  lemma OneFolderIsClosed(fold: string -> string)
    requires KeepsNames(fold)
    ensures var folders := {ComparisonKey(fold, Text(["c"]))}; AncestorClosed(folders) && AllReal(fold, folders)
  {
    assert KeysDownTo(fold, ["c"]) == {ComparisonKey(fold, Text(["c"]))} by {
      assert ["c"][..1] == ["c"];
    }
    KeysDownToAreClosed(fold, ["c"]);
  }

  lemma FileIsKnown(fold: string -> string, folders: set<string>)
    ensures TreeShaped(NODES) && IsKnown(NODES, fold, folders, {ComparisonKey(fold, Text(["c", "f"]))}, "f")
    ensures IsBlank(FirstName(NODES, "f"))
  {
    NodesAreATree();
    FileReadsAsBelowC(fold);
    assert |LowerCase("file")| == 4;
  }

  lemma FileKeyIsReal(fold: string -> string)
    ensures AllReal(fold, {ComparisonKey(fold, Text(["c", "f"]))})
  {
    assert Plain(["c", "f"]);
  }

  /** Dropbox lists the folder /c and the mirror has /c/f: the file goes to the trash with the folder called "/". */
  lemma ATakenFile(fold: string -> string)
    requires KeepsNames(fold)
    ensures var folders, known := {ComparisonKey(fold, Text(["c"]))}, {ComparisonKey(fold, Text(["c", "f"]))};
      TreeShaped(NODES) && AncestorClosed(folders)
      && IsKnown(NODES, fold, folders, known, "f") && IsTaken(NODES, fold, folders, known, "f")
  {
    var folders, known := {ComparisonKey(fold, Text(["c"]))}, {ComparisonKey(fold, Text(["c", "f"]))};
    FileIsKnown(fold, folders);
    OneFolderIsClosed(fold);
    FileKeyIsReal(fold);
    KnownIsTakenIffSlashNamed(NODES, fold, folders, known, "f");
  }
}
