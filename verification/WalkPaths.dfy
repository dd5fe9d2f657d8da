/**
 What a CLI path names. The walk's rows are keyed by UID, but a trash call is given paths: when
 two nodes of a complete snapshot share one, and when they cannot.
 */
module WalkPaths {
  import opened Common
  import opened CliPath
  import opened WalkTables
  import opened WalkLog

  /** No slash and no backslash: escaping leaves it alone. */
  predicate Plain(s: string) {
    '/' !in s && '\\' !in s
  }

  lemma {:induction false} PlainIsEscaped(s: string)
    requires Plain(s)
    ensures Escape(s) == s && EscapeComponent(s) == s
  {
    if s != "" {
      assert s == [s[0]] + s[1..];
      assert s[0] in s && forall c :: c in s[1..] ==> c in s;
      PlainIsEscaped(s[1..]);
    }
    TwoPassesAreOne(s);
  }

  lemma {:induction false} LedAppends(a: seq<string>, x: string)
    ensures Led(a + [x]) == Led(a) + "/" + Escape(x)
  {
    if a == [] {
      assert [x][1..] == [];
    } else {
      assert (a + [x])[1..] == a[1..] + [x];
      LedAppends(a[1..], x);
    }
  }

  lemma {:induction false} EscapeJoins(a: string, b: string)
    ensures Escape(a + b) == Escape(a) + Escape(b)
  {
    if a == "" {
      assert a + b == b;
    } else {
      assert (a + b)[1..] == a[1..] + b;
      EscapeJoins(a[1..], b);
    }
  }

  // ---- what a path reads ----

  predicate EndsInSlash(s: string) {
    s != "" && s[|s| - 1] == '/'
  }

  /** A folder called this has a path that ends in a slash, which is stripped before a child's name is added. */
  predicate IsLoose(name: string) {
    name == "" || EndsInSlash(name)
  }

  /** The components a child's path reads as: a loose name above it runs into its own. */
  function Reading(above: seq<string>, name: string): seq<string> {
    if above != [] && IsLoose(above[|above| - 1])
    then above[..|above| - 1] + [above[|above| - 1] + name]
    else above + [name]
  }

  /** Only the last component may be loose. */
  ghost predicate FirmAbove(parts: seq<string>) {
    forall i :: 0 <= i < |parts| - 1 ==> !IsLoose(parts[i])
  }

  lemma LastDecides(s: string, t: string)
    requires t != ""
    ensures EndsInSlash(s + t) <==> EndsInSlash(t)
  {}

  lemma EscapeLast(init: string, last: char)
    ensures Escape(init + [last]) == Escape(init) + EscapeChar(last)
  {
    EscapeJoins(init, [last]);
    assert [last][1..] == "";
  }

  lemma EndsAs(whole: string, front: string, last: char)
    requires whole == front + EscapeChar(last)
    ensures whole != "" && (EndsInSlash(whole) <==> last == '/')
    ensures last == '/' ==> whole == front + "\\/"
  {}

  lemma EscapeEnds(name: string)
    requires name != ""
    ensures Escape(name) != "" && (EndsInSlash(Escape(name)) <==> EndsInSlash(name))
    ensures EndsInSlash(name) ==> Escape(name) == Escape(name[..|name| - 1]) + "\\/"
  {
    var init, last := name[..|name| - 1], name[|name| - 1];
    assert name == init + [last];
    EscapeLast(init, last);
    EndsAs(Escape(name), Escape(init), last);
  }

  /** The path of a folder and one more component. */
  lemma PathAppends(base: string, above: seq<string>, name: string)
    ensures base + Led(above + [name]) == base + Led(above) + "/" + Escape(name)
  {
    LedAppends(above, name);
  }

  lemma FirmPath(base: string, parts: seq<string>)
    requires parts != []
    ensures EndsInSlash(base + Led(parts)) <==> IsLoose(parts[|parts| - 1])
  {
    var init, last := parts[..|parts| - 1], parts[|parts| - 1];
    assert parts == init + [last];
    PathAppends(base, init, last);
    if last == "" {
      LastDecides(base + Led(init), "/");
      assert base + Led(init) + "/" + Escape(last) == base + Led(init) + "/";
    } else {
      EscapeEnds(last);
      LastDecides(base + Led(init) + "/", Escape(last));
    }
  }

  /** The escaped slash at the end loses its slash, and keeps its backslash. */
  lemma StripsOneSlash(base: string, name: string)
    ensures StripTrailingSlashes(base + (name + "\\/")) == base + name + "\\"
  {
    var whole := base + (name + "\\/");
    assert whole[..|whole| - 1] == base + name + "\\";
    StripShortens(whole[..|whole| - 1]);
  }

  /** An empty name: its separator is stripped with it. */
  lemma EmptyRunsOn(base: string, above: seq<string>, name: string)
    requires !EndsInSlash(base + Led(above))
    ensures StripTrailingSlashes(base + Led(above + [""])) + "/" + Escape(name) == base + Led(above + [name])
  {
    PathAppends(base, above, "");
    PathAppends(base, above, name);
    var whole := base + Led(above) + "/";
    assert whole + Escape("") == whole && whole[..|whole| - 1] == base + Led(above);
    StripShortens(base + Led(above));
  }

  lemma SlashJoins(head: string, stem: string, rest: string)
    ensures head + stem + "\\" + "/" + rest == head + (stem + "\\/" + rest)
  {}

  /** A name that ends in a slash: only the slash is stripped, and the next separator takes its place. */
  lemma SlashRunsOn(base: string, above: seq<string>, last: string, name: string)
    requires EndsInSlash(last)
    ensures StripTrailingSlashes(base + Led(above + [last])) + "/" + Escape(name) == base + Led(above + [last + name])
  {
    var head, stem := base + Led(above) + "/", Escape(last[..|last| - 1]);
    EscapeEnds(last);
    EscapeJoins(last, name);
    PathAppends(base, above, last);
    PathAppends(base, above, last + name);
    StripsOneSlash(head, stem);
    SlashJoins(head, stem, Escape(name));
  }

  lemma FirmInit(base: string, init: seq<string>, last: string)
    requires !EndsInSlash(base) && FirmAbove(init + [last])
    ensures !EndsInSlash(base + Led(init))
  {
    if init == [] {
      assert base + Led(init) == base;
    } else {
      assert !IsLoose((init + [last])[|init| - 1]);
      FirmPath(base, init);
    }
  }

  /** Any other name is simply added to. */
  lemma FirmRunsOn(base: string, above: seq<string>, name: string)
    requires !EndsInSlash(base + Led(above))
    ensures StripTrailingSlashes(base + Led(above)) + "/" + Escape(name) == base + Led(above + [name])
  {
    StripShortens(base + Led(above));
    PathAppends(base, above, name);
  }

  lemma ReadingIsFirmAbove(above: seq<string>, name: string)
    requires FirmAbove(above)
    ensures FirmAbove(Reading(above, name))
  {}

  /** Building a child's path from its folder's adds one component, or lengthens a loose one. */
  lemma ChildReads(base: string, above: seq<string>, name: string)
    requires !EndsInSlash(base) && FirmAbove(above)
    ensures StripTrailingSlashes(base + Led(above)) + "/" + Escape(name) == base + Led(Reading(above, name))
  {
    if above == [] {
      assert base + Led(above) == base;
      FirmRunsOn(base, above, name);
    } else {
      var init, last := above[..|above| - 1], above[|above| - 1];
      assert above == init + [last];
      if last == "" {
        FirmInit(base, init, last);
        EmptyRunsOn(base, init, name);
        assert last + name == name;
      } else if EndsInSlash(last) {
        SlashRunsOn(base, init, last, name);
      } else {
        FirmPath(base, above);
        FirmRunsOn(base, above, name);
      }
    }
  }

  // ---- the paths of a snapshot ----

  /** What a child is called in its folder's paths: its name, or its UID if the name is not unique. */
  function Label(listing: seq<Entry>, i: nat): string
    requires i < |listing| && Usable(listing[i])
  {
    if IsDuplicate(listing, listing[i].name.value) then listing[i].uid.value else listing[i].name.value
  }

  ghost function Labels(tree: Tree, destination: string, trail: Trail): (labels: seq<string>)
    requires At(tree, destination, trail).Some?
    ensures labels == [] <==> trail == Root
  {
    match trail
    case Root => []
    case Below(up, i) =>
      Labels(tree, destination, up) + [Label(tree[At(tree, destination, up).value.place.uid], i)]
  }

  /** The components a node's path reads as. */
  ghost function Reads(tree: Tree, destination: string, trail: Trail): (parts: seq<string>)
    requires At(tree, destination, trail).Some?
    ensures parts == [] <==> trail == Root
  {
    match trail
    case Root => []
    case Below(up, i) =>
      Reading(Reads(tree, destination, up), Label(tree[At(tree, destination, up).value.place.uid], i))
  }

  /** Proton's UIDs have no slash and no backslash. */
  ghost predicate PlainUids(s: Snapshot) {
    forall u :: u in s.nodes ==> Plain(u)
  }

  lemma NodeOfTrail(tree: Tree, s: Snapshot, trail: Trail)
    requires IsExactly(tree, s) && trail != Root && At(tree, s.destination, trail).Some?
    ensures var r := At(tree, s.destination, trail).value; r.place.uid in s.nodes && s.nodes[r.place.uid] == r
  {
    assert NodeKnown(tree, s.destination, At(tree, s.destination, trail).value);
  }

  lemma ChildPath(up: Place, listing: seq<Entry>, i: nat)
    requires i < |listing| && Usable(listing[i]) && Plain(listing[i].uid.value)
    ensures Child(up, listing, i).place.cliPath == StripTrailingSlashes(up.cliPath) + "/" + Escape(Label(listing, i))
  {
    TwoPassesAreOne(listing[i].name.value);
    PlainIsEscaped(listing[i].uid.value);
  }

  lemma {:induction false} StripsToFirm(path: string)
    ensures !EndsInSlash(StripTrailingSlashes(path))
    ensures StripTrailingSlashes(StripTrailingSlashes(path)) == StripTrailingSlashes(path)
  {
    if EndsInSlash(path) {
      StripsToFirm(path[..|path| - 1]);
    }
  }

  /** A node's path is the destination and what it reads, each component escaped and led by its separator. */
  lemma {:induction false} PathIsLed(tree: Tree, s: Snapshot, trail: Trail)
    requires IsExactly(tree, s) && PlainUids(s) && At(tree, s.destination, trail).Some?
    ensures FirmAbove(Reads(tree, s.destination, trail))
    ensures trail != Root ==>
      At(tree, s.destination, trail).value.place.cliPath
      == StripTrailingSlashes(s.destination) + Led(Reads(tree, s.destination, trail))
    decreases trail
  {
    if trail != Root {
      var up, base := At(tree, s.destination, trail.up).value, StripTrailingSlashes(s.destination);
      NodeOfTrail(tree, s, trail);
      PathIsLed(tree, s, trail.up);
      StripsToFirm(s.destination);
      ChildPath(up.place, tree[up.place.uid], trail.i);
      assert trail.up == Root ==> base + Led([]) == base;
      ChildReads(base, Reads(tree, s.destination, trail.up), Label(tree[up.place.uid], trail.i));
      ReadingIsFirmAbove(Reads(tree, s.destination, trail.up), Label(tree[up.place.uid], trail.i));
    }
  }

  ghost predicate IsNode(tree: Tree, s: Snapshot, u: Uid, trail: Trail) {
    u in s.nodes && trail != Root && At(tree, s.destination, trail) == Some(s.nodes[u])
  }

  ghost predicate SharePath(s: Snapshot, u: Uid, v: Uid) {
    u in s.nodes && v in s.nodes && u != v && s.nodes[u].place.cliPath == s.nodes[v].place.cliPath
  }

  /** Any two nodes of a complete snapshot have one CLI path if and only if their names read alike. */
  lemma OnePathOneReading(tree: Tree, s: Snapshot, u: Uid, a: Trail, v: Uid, b: Trail)
    requires IsExactly(tree, s) && PlainUids(s) && IsNode(tree, s, u, a) && IsNode(tree, s, v, b)
    ensures s.nodes[u].place.cliPath == s.nodes[v].place.cliPath
       <==> Reads(tree, s.destination, a) == Reads(tree, s.destination, b)
  {
    PathIsLed(tree, s, a);
    PathIsLed(tree, s, b);
    var base := StripTrailingSlashes(s.destination);
    var ra, rb := Reads(tree, s.destination, a), Reads(tree, s.destination, b);
    if base + Led(ra) == base + Led(rb) {
      assert (base + Led(ra))[|base|..] == Led(ra) && (base + Led(rb))[|base|..] == Led(rb);
      LedIsInjective(ra, rb);
    }
  }

  /** As of a folder called `name/` with a child, and a sibling whose name is the two in one. */
  lemma SlashEndedFolderClashes(parent: string, name: string, child: string, uid: string)
    ensures ChildCliPath(ChildCliPath(parent, name + "/", uid, false), child, uid, false)
      == ChildCliPath(parent, name + "/" + child, uid, false)
  {
    var base := StripTrailingSlashes(parent);
    TwoPassesAreOne(name + "/");
    TwoPassesAreOne(child);
    TwoPassesAreOne(name + "/" + child);
    assert base + Led([]) == base;
    PathAppends(base, [], name + "/");
    PathAppends(base, [], name + "/" + child);
    SlashRunsOn(base, [], name + "/", child);
  }

  // ---- ordinary paths ----

  /** No folder's path ends in a slash. */
  ghost predicate OrdinaryPaths(s: Snapshot) {
    PlainUids(s) && forall u :: u in s.nodes && IsFolder(s.nodes[u]) ==> !EndsInSlash(s.nodes[u].place.cliPath)
  }

  /** Then a path reads just as the names above and at the node. */
  lemma {:induction false} OrdinaryReads(tree: Tree, s: Snapshot, trail: Trail)
    requires IsExactly(tree, s) && OrdinaryPaths(s) && At(tree, s.destination, trail).Some?
    ensures Reads(tree, s.destination, trail) == Labels(tree, s.destination, trail)
    decreases trail
  {
    if trail != Root {
      OrdinaryReads(tree, s, trail.up);
      if trail.up != Root {
        NodeOfTrail(tree, s, trail.up);
        PathIsLed(tree, s, trail.up);
        StripsToFirm(s.destination);
        FirmPath(StripTrailingSlashes(s.destination), Reads(tree, s.destination, trail.up));
      }
    }
  }

  // ---- when labels clash ----

  /** One child's name, unique in the folder, is the UID of another whose name is not. */
  ghost predicate Clash(listing: seq<Entry>) {
    exists i: nat, j: nat :: ClashAt(listing, i, j)
  }

  ghost predicate ClashAt(listing: seq<Entry>, i: nat, j: nat) {
    && i < |listing| && j < |listing| && Usable(listing[i]) && Usable(listing[j])
    && !IsDuplicate(listing, listing[i].name.value) && IsDuplicate(listing, listing[j].name.value)
    && listing[j].uid.value == listing[i].name.value
  }

  lemma TwoOfOne(names: seq<string>, i: nat, j: nat)
    requires i < j < |names| && names[i] == names[j]
    ensures multiset(names)[names[i]] > 1
  {
    assert names == names[..j] + names[j..];
    assert names[i] in names[..j] && names[j] in names[j..];
  }

  lemma SameLabelClashes(tree: Tree, f: Uid, i: nat, j: nat)
    requires IsTree(tree) && f in tree && i < |tree[f]| && j < |tree[f]| && i != j
    requires Usable(tree[f][i]) && Usable(tree[f][j]) && Label(tree[f], i) == Label(tree[f], j)
    ensures Clash(tree[f])
  {
    var listing := tree[f];
    if listing[i].name == listing[j].name {
      TwoOfOne(Names(listing), if i < j then i else j, if i < j then j else i);
    }
    if IsDuplicate(listing, listing[i].name.value) && IsDuplicate(listing, listing[j].name.value) {
      assert Lists(tree, f, i, listing[i].uid.value) && Lists(tree, f, j, listing[i].uid.value);
    } else {
      assert ClashAt(listing, i, j) || ClashAt(listing, j, i);
    }
  }

  /** The root, or a folder on record. */
  ghost predicate IsWalked(s: Snapshot, f: Uid) {
    f == ROOT || (f in s.nodes && IsFolder(s.nodes[f]))
  }

  ghost predicate NoClash(tree: Tree, s: Snapshot) {
    forall f :: IsWalked(s, f) && f in tree ==> !Clash(tree[f])
  }

  /** Where no folder has a clash, labels lead to one node. */
  lemma {:induction false} LabelsLeadToOne(tree: Tree, s: Snapshot, a: Trail, b: Trail)
    requires IsTree(tree) && IsExactly(tree, s) && NoClash(tree, s)
    requires At(tree, s.destination, a).Some? && At(tree, s.destination, b).Some?
    requires Labels(tree, s.destination, a) == Labels(tree, s.destination, b)
    ensures a == b
    decreases a
  {
    if a != Root && b != Root {
      var la, lb := Labels(tree, s.destination, a), Labels(tree, s.destination, b);
      assert la[..|la| - 1] == Labels(tree, s.destination, a.up) && lb[..|lb| - 1] == Labels(tree, s.destination, b.up);
      LabelsLeadToOne(tree, s, a.up, b.up);
      var up := At(tree, s.destination, a.up).value;
      if a.up != Root {
        NodeOfTrail(tree, s, a.up);
      }
      assert IsWalked(s, up.place.uid);
      if a.i != b.i {
        assert la[|la| - 1] == lb[|lb| - 1];
        SameLabelClashes(tree, up.place.uid, a.i, b.i);
      }
    }
  }

  // ---- when paths clash ----

  lemma SharedPathsNeedAClash(tree: Tree, s: Snapshot, u: Uid, v: Uid)
    requires IsTree(tree) && IsExactly(tree, s) && OrdinaryPaths(s) && NoClash(tree, s)
    ensures !SharePath(s, u, v)
  {
    if SharePath(s, u, v) {
      assert NodeKnown(tree, s.destination, s.nodes[u]) && NodeKnown(tree, s.destination, s.nodes[v]);
      var a :| a != Root && At(tree, s.destination, a) == Some(s.nodes[u]);
      var b :| b != Root && At(tree, s.destination, b) == Some(s.nodes[v]);
      OnePathOneReading(tree, s, u, a, v, b);
      OrdinaryReads(tree, s, a);
      OrdinaryReads(tree, s, b);
      assert s.nodes[u].place.uid == u && s.nodes[v].place.uid == v;
      LabelsLeadToOne(tree, s, a, b);
    }
  }

  lemma ClashSharesAPath(tree: Tree, s: Snapshot, f: Uid)
    requires IsTree(tree) && IsExactly(tree, s) && OrdinaryPaths(s)
    requires IsWalked(s, f) && f in tree && Clash(tree[f])
    ensures exists u, v :: SharePath(s, u, v)
  {
    var i: nat, j: nat :| ClashAt(tree[f], i, j);
    var trail := FolderTrail(tree, s, f);
    var up := At(tree, s.destination, trail).value;
    NodeOfTrail(tree, s, Below(trail, i));
    NodeOfTrail(tree, s, Below(trail, j));
    var u, v := tree[f][i].uid.value, tree[f][j].uid.value;
    assert Lists(tree, f, i, u) && Lists(tree, f, j, v);
    PlainIsEscaped(v);
    assert SharePath(s, u, v);
  }

  lemma FolderTrail(tree: Tree, s: Snapshot, f: Uid) returns (trail: Trail)
    requires IsExactly(tree, s) && IsWalked(s, f)
    ensures At(tree, s.destination, trail).Some?
    ensures var r := At(tree, s.destination, trail).value; IsFolder(r) && r.place.uid == f
  {
    if f == ROOT {
      trail := Root;
    } else {
      assert NodeKnown(tree, s.destination, s.nodes[f]);
      trail :| trail != Root && At(tree, s.destination, trail) == Some(s.nodes[f]);
    }
  }

  /**
   Two nodes of a complete snapshot share a CLI path if and only if in some folder a name that is
   unique there is the UID of a child whose name is not.
   */
  lemma PathsClashExactly(tree: Tree, s: Snapshot)
    requires IsTree(tree) && IsExactly(tree, s) && OrdinaryPaths(s)
    ensures (exists u, v :: SharePath(s, u, v)) <==> !NoClash(tree, s)
  {
    if NoClash(tree, s) {
      forall u, v ensures !SharePath(s, u, v) {
        SharedPathsNeedAClash(tree, s, u, v);
      }
    } else {
      var f :| IsWalked(s, f) && f in tree && Clash(tree[f]);
      ClashSharesAPath(tree, s, f);
    }
  }

  /** Then a call given some nodes' paths names those nodes alone. */
  lemma PathsNameTheirNodes(tree: Tree, s: Snapshot, uids: set<Uid>, u: Uid)
    requires IsTree(tree) && IsExactly(tree, s) && OrdinaryPaths(s) && NoClash(tree, s)
    requires uids <= s.nodes.Keys && u in s.nodes
    ensures (exists v :: v in uids && s.nodes[v].place.cliPath == s.nodes[u].place.cliPath) <==> u in uids
  {
    forall v | v in uids && s.nodes[v].place.cliPath == s.nodes[u].place.cliPath ensures v == u {
      SharedPathsNeedAClash(tree, s, u, v);
    }
  }
}
