/**
 One spelling per folder. Dropbox cases the display path of each entry on its own, so the
 inventory rebuilds every path from the names of the folder rows above it, and the delta
 resolves each file's path through its parents. Paths are sequences of components here.
 */
module DisplayPaths {
  import opened Slashes
  import opened Tables
  import Strays

  type Path = seq<string>

  /** An entry of the listing, with its own name; rows are keyed by the components of the lower-case path. */
  datatype Row = Row(name: string, entry: Entry)

  type Rows = map<Path, Row>

  predicate IsFolderAt(rows: Rows, lower: Path) {
    lower in rows && rows[lower].entry.tag == Folder
  }

  /** Every folder above an entry has a row of its own. */
  ghost predicate AncestorsListed(rows: Rows, lower: Path) {
    forall p: Path :: p < lower && p != [] ==> IsFolderAt(rows, p)
  }

  // ---- recasing ----

  /** The spelling a row starts from: its lower-case path, if its display path has another depth. */
  function Spelling(rows: Rows, lower: Path): (d: Path)
    requires lower in rows
    ensures |d| == |lower|
  {
    if |rows[lower].entry.display| == |lower| then rows[lower].entry.display else lower
  }

  /** Component `i` of a rebuilt path. */
  function Component(rows: Rows, lower: Path, i: nat): string
    requires lower in rows && i < |lower|
  {
    if i == |lower| - 1 then rows[lower].name
    else if IsFolderAt(rows, lower[..i + 1]) then rows[lower[..i + 1]].name
    else Spelling(rows, lower)[i]
  }

  function Rebuilt(rows: Rows, lower: Path): (d: Path)
    requires lower in rows
    ensures |d| == |lower|
  {
    seq(|lower|, i requires 0 <= i < |lower| => Component(rows, lower, i))
  }

  function Respelt(row: Row, display: Path): Row {
    row.(entry := row.entry.(display := display))
  }

  function Recased(rows: Rows): (r: Rows)
    ensures r.Keys == rows.Keys
  {
    map lower | lower in rows :: Respelt(rows[lower], Rebuilt(rows, lower))
  }

  /** The entries whose display path the rebuilding changes. */
  ghost function Misspelt(rows: Rows): set<Path> {
    set lower | lower in rows && rows[lower].entry.display != Rebuilt(rows, lower)
  }

  /** One entry, its prefix growing by a component at a time. */
  method Rebuild(rows: Rows, lower: Path) returns (rebuilt: Path)
    requires lower in rows && lower != []
    ensures rebuilt == Rebuilt(rows, lower)
  {
    var row := rows[lower];
    var spelling := if |row.entry.display| != |lower| then lower else row.entry.display;
    var prefix: Path := [];
    rebuilt := [];
    for i := 0 to |lower| - 1
      invariant prefix == lower[..i] && |rebuilt| == i
      invariant forall j :: 0 <= j < i ==> rebuilt[j] == Component(rows, lower, j)
    {
      prefix := prefix + [lower[i]];
      assert prefix == lower[..i + 1];
      rebuilt := rebuilt + [if IsFolderAt(rows, prefix) then rows[prefix].name else spelling[i]];
    }
    rebuilt := rebuilt + [row.name];
  }

  /** Rebuilds every entry, against the names as they stood; counts the rows it changes. */
  method Recase(rows: Rows) returns (recased: Rows, count: nat)
    requires [] !in rows
    ensures recased == Recased(rows) && count == |Misspelt(rows)|
  {
    var updates: map<Path, Path> := map[];
    var todo := rows.Keys;
    while todo != {}
      invariant todo <= rows.Keys
      invariant forall lower :: lower in updates <==> lower in Misspelt(rows) && lower !in todo
      invariant forall lower :: lower in updates ==> updates[lower] == Rebuilt(rows, lower)
      decreases todo
    {
      var lower :| lower in todo;
      todo := todo - {lower};
      var rebuilt := Rebuild(rows, lower);
      if rebuilt != rows[lower].entry.display {
        updates := updates[lower := rebuilt];
      }
    }
    assert updates.Keys == Misspelt(rows);
    recased := map lower | lower in rows ::
      if lower in updates then Respelt(rows[lower], updates[lower]) else rows[lower];
    count := |updates|;
  }

  lemma RebuildingAgain(rows: Rows, lower: Path)
    requires lower in rows
    ensures Rebuilt(Recased(rows), lower) == Rebuilt(rows, lower)
  {
    var again := Recased(rows);
    forall i | 0 <= i < |lower| ensures Component(again, lower, i) == Component(rows, lower, i) {
      assert again[lower].entry.display[i] == Component(rows, lower, i);
    }
  }

  /** A second recasing changes nothing. */
  lemma RecasingIsIdempotent(rows: Rows)
    ensures Recased(Recased(rows)) == Recased(rows) && Misspelt(Recased(rows)) == {}
  {
    forall lower | lower in rows ensures Rebuilt(Recased(rows), lower) == Rebuilt(rows, lower) {
      RebuildingAgain(rows, lower);
    }
  }

  /**
   One spelling per shared ancestor: two entries below the same folder spell it alike, and as
   that folder's own row does, when every folder above them is listed.
   */
  lemma OneSpelling(rows: Rows, a: Path, b: Path, p: Path)
    requires a in rows && b in rows && p < a && p < b && p != []
    requires AncestorsListed(rows, a)
    ensures p in rows && Rebuilt(rows, a)[..|p|] == Rebuilt(rows, b)[..|p|] == Rebuilt(rows, p)
  {
    assert IsFolderAt(rows, p);
    forall i | 0 <= i < |p|
      ensures Component(rows, a, i) == Component(rows, b, i) == Component(rows, p, i)
    {
      assert a[..i + 1] == p[..i + 1] == b[..i + 1];
      assert IsFolderAt(rows, a[..i + 1]);
      assert p[..|p|] == p;
    }
  }

  function FolderKeys(rows: Rows, fold: string -> string): set<string> {
    set lower | lower in rows && IsFolderAt(rows, lower) :: ComparisonKey(fold, Text(rows[lower].entry.display))
  }

  /** Names without slashes, as Dropbox has them. */
  ghost predicate PlainRows(rows: Rows) {
    forall lower :: lower in rows ==> lower != [] && Plain(lower) && Plain(Rebuilt(rows, lower))
  }

  ghost predicate AllFoldersListed(rows: Rows) {
    forall lower :: lower in rows ==> AncestorsListed(rows, lower)
  }

  /** A recased listing with every folder in it has folder keys that are closed under ancestors. */
  lemma FolderKeysAreClosed(rows: Rows, fold: string -> string)
    requires AllFoldersListed(rows) && PlainRows(rows) && KeepsNames(fold)
    ensures Strays.AncestorClosed(FolderKeys(Recased(rows), fold))
  {
    var keys := FolderKeys(Recased(rows), fold);
    forall p, q | p in keys && IsBelow(p, q) && q != "" ensures q in keys {
      var lower :| lower in rows && IsFolderAt(rows, lower) && p == ComparisonKey(fold, Text(Rebuilt(rows, lower)));
      var above := FolderAbove(rows, fold, lower, q);
      assert IsFolderAt(Recased(rows), above);
    }
  }

  /** What can be cut from a folder's key is the key of a folder above it. */
  lemma FolderAbove(rows: Rows, fold: string -> string, lower: Path, q: string) returns (above: Path)
    requires AllFoldersListed(rows) && PlainRows(rows) && KeepsNames(fold) && lower in rows
    requires IsBelow(ComparisonKey(fold, Text(Rebuilt(rows, lower))), q) && q != ""
    ensures IsFolderAt(rows, above) && q == ComparisonKey(fold, Text(Rebuilt(rows, above)))
  {
    var n := CutOfKey(fold, Rebuilt(rows, lower), q);
    above := lower[..n];
    assert above < lower && AncestorsListed(rows, lower);
    OneSpelling(rows, lower, lower, above);
  }

  // ---- resolving ----

  function Last(d: Path): string {
    if d == [] then "" else d[|d| - 1]
  }

  function Init(d: Path): Path {
    if d == [] then [] else d[..|d| - 1]
  }

  /** A path resolved through its parents' rows, with no memory. */
  function Resolved(rows: Rows, lower: Path, display: Path): Path {
    if lower == [] then []
    else
      var parent := Init(lower);
      var base :=
        if IsFolderAt(rows, parent) then Resolved(rows, parent, rows[parent].entry.display) else Init(display);
      base + [Last(display)]
  }

  /** The memo shared by all the files of one delta. */
  class Resolver {
    const rows: Rows
    var memo: map<Path, Path>

    /** What is remembered is what plain recursion yields. */
    ghost predicate Valid()
      reads this
    {
      && [] !in rows
      && forall lower :: lower in memo ==>
           memo[lower] == Resolved(rows, lower, if lower in rows then rows[lower].entry.display else [])
    }

    constructor (rows: Rows)
      requires [] !in rows
      ensures Valid() && this.rows == rows
    {
      this.rows := rows;
      memo := map[[] := []];
    }

    method Resolve(lower: Path, display: Path) returns (d: Path)
      requires Valid() && lower in rows && rows[lower].entry.display == display
      modifies this
      ensures Valid() && d == Resolved(rows, lower, display) && forall l :: l in old(memo) ==> l in memo
      decreases |lower|
    {
      if lower in memo {
        return memo[lower];
      }
      var parent, name := Init(lower), Last(display);
      var base := Init(display);
      if IsFolderAt(rows, parent) {
        base := Resolve(parent, rows[parent].entry.display);
      }
      memo := memo[lower := base + [name]];
      d := memo[lower];
    }

    /** Every listed file's path, in whatever order the rows come. */
    method DisplayPaths(nfc: Path -> Path) returns (r: map<Path, Path>)
      requires Valid()
      modifies this
      ensures Valid()
      ensures forall lower :: lower in r <==> lower in rows && Present(rows[lower].entry)
      ensures forall lower :: lower in r ==> r[lower] == nfc(Resolved(rows, lower, rows[lower].entry.display))
    {
      r := map[];
      var todo := set lower | lower in rows && Present(rows[lower].entry);
      while todo != {}
        invariant Valid() && forall lower :: lower in todo ==> lower in rows && Present(rows[lower].entry)
        invariant forall lower :: lower in r <==> lower in rows && Present(rows[lower].entry) && lower !in todo
        invariant forall lower :: lower in r ==> r[lower] == nfc(Resolved(rows, lower, rows[lower].entry.display))
        decreases todo
      {
        var lower :| lower in todo;
        todo := todo - {lower};
        var d := Resolve(lower, rows[lower].entry.display);
        r := r[lower := nfc(d)];
      }
    }
  }

  /** On a recased listing that has every folder, resolving a path gives it back. */
  lemma {:induction false} ResolvingARecasedPath(rows: Rows, lower: Path)
    requires lower in rows && lower != [] && [] !in rows && AncestorsListed(rows, lower)
    ensures Resolved(Recased(rows), lower, Recased(rows)[lower].entry.display) == Recased(rows)[lower].entry.display
    decreases |lower|
  {
    var recased := Recased(rows);
    var d, parent := recased[lower].entry.display, Init(lower);
    assert d == Init(d) + [Last(d)];
    if parent != [] {
      assert parent < lower && IsFolderAt(rows, parent);
      ResolvingARecasedPath(rows, parent);
      OneSpelling(rows, lower, lower, parent);
    }
  }

  // ---- paths as text ----

  /** Python's `s.split("/")`. */
  function Split(s: string): Path
    decreases |s|
  {
    if '/' in s then
      PartitionShrinks(s);
      Split(RPartition(s).0) + [RPartition(s).1]
    else [s]
  }

  /** Cutting a path's text at its last slash is taking off its last component. */
  lemma PartitionOfText(p: Path)
    requires p != [] && Plain(p)
    ensures RPartition(Text(p)) == (Text(Init(p)), Last(p))
  {
    PartitionAtLastSlash(Text(Init(p)), Last(p));
  }

  lemma SplitAppends(s: string, tail: string)
    requires '/' !in tail
    ensures Split(s + "/" + tail) == Split(s) + [tail]
  {
    PartitionAtLastSlash(s, tail);
    assert (s + "/" + tail)[|s|] == '/';
  }

  lemma SplitBelow(head: string, tail: string)
    requires |head| > 1 && '/' !in tail
    ensures var s := head + "/" + tail;
      |s| > 1 && s[0] == head[0] && s[1] == head[1] && Split(s[1..]) == Split(head[1..]) + [tail]
  {
    SplitAppends(head[1..], tail);
    assert (head + "/" + tail)[1..] == head[1..] + "/" + tail;
  }

  lemma {:induction false} TextIsLed(p: Path)
    requires p != [] && Plain(p)
    ensures |Text(p)| > 1 && Text(p)[0] == '/' && Text(p)[1] == p[0][0]
    ensures Split(Text(p)[1..]) == p
  {
    var head, tail := Init(p), Last(p);
    assert p == head + [tail];
    if head == [] {
      assert Text(p)[1..] == tail;
    } else {
      TextIsLed(head);
      SplitBelow(Text(head), tail);
    }
  }

  /** Splitting a path's text gives its components back, so no two paths share a text. */
  lemma SplitOfText(p: Path)
    requires p != [] && Plain(p)
    ensures Split(LStrip(Text(p))) == p
  {
    TextIsLed(p);
    assert '/' != p[0][0] by {
      assert p[0][0] in p[0];
    }
    assert LStrip(Text(p)) == LStrip(Text(p)[1..]) == Text(p)[1..];
  }

  lemma TextIsInjective(a: Path, b: Path)
    requires Plain(a) && Plain(b) && Text(a) == Text(b)
    ensures a == b
  {
    if a != [] && b != [] {
      SplitOfText(a);
      SplitOfText(b);
    } else if a != [] {
      TextStarts(a);
    } else if b != [] {
      TextStarts(b);
    }
  }

  // ---- the listing as the database holds it ----

  predicate PlainKeys(paths: set<Path>) {
    forall p :: p in paths ==> p != [] && Plain(p)
  }

  /** The same map, keyed by the paths' text. */
  function ByText<T>(m: map<Path, T>): (r: map<Key, T>)
    requires PlainKeys(m.Keys)
    ensures forall p :: p in m ==> Text(p) in r && r[Text(p)] == m[p]
    ensures forall k :: k in r ==> exists p :: p in m && k == Text(p)
  {
    assert forall p, q :: p in m && q in m && Text(p) == Text(q) ==> p == q by {
      forall p, q | p in m && q in m && Text(p) == Text(q) ensures p == q {
        TextIsInjective(p, q);
      }
    }
    map p | p in m :: Text(p) := m[p]
  }

  function Entries(rows: Rows): (r: map<Path, Entry>)
    ensures r.Keys == rows.Keys
  {
    map lower | lower in rows :: rows[lower].entry
  }

  function ListingOf(rows: Rows): Listing
    requires PlainKeys(rows.Keys)
  {
    ByText(Entries(rows))
  }

  /** The files that could never be verified are demoted. */
  function MarkedRows(rows: Rows): (r: Rows)
    ensures r.Keys == rows.Keys
  {
    map lower | lower in rows :: rows[lower].(entry := Marked(rows[lower].entry))
  }

  lemma RecasedEntryIsMarked(rows: Rows, lower: Path)
    requires lower in rows
    ensures var e := Recased(MarkedRows(rows))[lower].entry; Present(e) ==> Mirrorable(e)
  {}

  /** A listing marked and recased needs no more marking. */
  lemma MarkedOnce(rows: Rows)
    requires PlainKeys(rows.Keys)
    ensures MarkUnhashed(ListingOf(Recased(MarkedRows(rows)))) == ListingOf(Recased(MarkedRows(rows)))
  {
    var recased := Recased(MarkedRows(rows));
    var l := ListingOf(recased);
    forall k | k in l ensures Marked(l[k]) == l[k] {
      var lower :| lower in Entries(recased) && k == Text(lower);
      RecasedEntryIsMarked(rows, lower);
    }
    NoneToMark(l);
  }

  lemma NoneToMark(l: Listing)
    requires forall k :: k in l ==> Marked(l[k]) == l[k]
    ensures MarkUnhashed(l) == l
  {}
}
