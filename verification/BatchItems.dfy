/**
 What each step of a batch does to its item rows, as functions: verify's comparison,
 confirm's reading of the upload summary, checkpoint's merge.
 */
module BatchItems {
  import opened Common
  import opened Tables

  type Staging = map<Display, Figures>

  predicate Any(items: Items, status: ItemStatus) {
    exists k :: k in items && items[k].status == status
  }

  function With(items: Items, status: ItemStatus): set<Key> {
    set k | k in items && items[k].status == status
  }

  lemma AnyIsWith(items: Items, status: ItemStatus)
    ensures Any(items, status) <==> With(items, status) != {}
  {
    if Any(items, status) {
      var k :| k in items && items[k].status == status;
      assert k in With(items, status);
    }
  }

  function SetStatus(items: Items, k: Key, status: ItemStatus): Items
    requires k in items
  {
    items[k := items[k].(status := status)]
  }

  // ---- verify ----

  predicate Matches(item: Item, f: Figures) {
    f.size == item.size && f.contentHash == item.contentHash
  }

  function VerifyItem(item: Item, f: Figures): Item {
    if Matches(item, f) then item.(status := Verified, sha1 := f.sha1, sha256 := f.sha256)
    else item.(status := HashMismatch)
  }

  // ---- the staging tree ----

  /** The last component of a display path. */
  function Basename(d: Display): string {
    if d == [] then "" else d[|d| - 1]
  }

  /** Every directory that holds a staged file, at any depth. */
  function FoldersOf(files: set<Display>): set<Display> {
    set d, n | d in files && 0 < n < |d| :: d[..n]
  }

  // ---- the upload summary ----

  datatype Failure = Failure(name: string, error: string)

  datatype Summary = Summary(transferred: int, skipped: int, failed: int, failures: seq<Failure>)

  /** The names in the failure list; a nameless failure names nothing. */
  function FailedNames(s: Summary): set<string> {
    set i | 0 <= i < |s.failures| && s.failures[i].name != "" :: s.failures[i].name
  }

  function Basenames(items: Items, keys: set<Key>): set<string>
    requires keys <= items.Keys
  {
    set k | k in keys :: Basename(items[k].display)
  }

  /** Transferred, skipped and failed items account for every verified file and every folder. */
  predicate Accounts(s: Summary, files: nat, folders: nat) {
    s.transferred + s.skipped + s.failed == files + folders
  }

  /** The verified files whose name the summary lists as failed. */
  function FailedRows(items: Items, s: Summary): set<Key> {
    set k | k in items && items[k].status == Verified && Basename(items[k].display) in FailedNames(s)
  }

  /** Whether the batch confirms: the counts add up, and every failure names a file in the batch. */
  predicate Confirms(items: Items, folders: nat, s: Summary) {
    && Accounts(s, |With(items, Verified)|, folders)
    && s.failed == |s.failures|
    && Basenames(items, FailedRows(items, s)) == FailedNames(s)
  }

  function ConfirmItem(items: Items, folders: nat, s: Summary, k: Key): Item
    requires k in items
  {
    if items[k].status != Verified then items[k]
    else if Confirms(items, folders, s) && k !in FailedRows(items, s) then items[k].(status := Confirmed)
    else items[k].(status := ConfirmFailed)
  }

  function ConfirmItems(items: Items, folders: nat, s: Summary): (r: Items)
    ensures r.Keys == items.Keys
    ensures forall k :: k in items ==> r[k] == ConfirmItem(items, folders, s, k)
  {
    map k | k in items :: ConfirmItem(items, folders, s, k)
  }

  // ---- checkpoint ----

  /** The row checkpoint writes; the recorded UID of a row already there is kept. */
  function MergedRow(m: Mirror, k: Key, item: Item, run: nat): MirrorRow {
    MirrorRow(item.display, item.size, item.contentHash, item.sha1, item.sha256,
              if k in m then m[k].uid else None, run)
  }

  function MergedRows(m: Mirror, items: Items, run: nat): (r: Mirror)
    ensures r.Keys == With(items, Confirmed)
  {
    map k | k in items && items[k].status == Confirmed :: MergedRow(m, k, items[k], run)
  }

  function CheckpointItems(items: Items): (r: Items)
    ensures r.Keys == items.Keys
  {
    map k | k in items :: if items[k].status == Confirmed then items[k].(status := Checkpointed) else items[k]
  }

  /** A batch fails only if uploads failed and nothing was recorded. */
  function CheckpointStatus(items: Items): BatchStatus {
    if With(items, ConfirmFailed) != {} && With(items, Confirmed) == {} then BatchFailed else BatchCheckpointed
  }

  // ---- confirm is sound by counting ----

  /** What became of one file or folder the CLI was handed. */
  datatype Attempt = Transferred | Skipped | Refused

  /** The files of a staging tree and the folders that hold them. */
  function Handed(staged: set<Display>): set<Display> {
    staged + FoldersOf(staged)
  }

  function Ended(attempts: map<Display, Attempt>, how: Attempt): set<Display> {
    set d | d in attempts && attempts[d] == how
  }

  /**
   An honest summary of what was attempted: each attempted file or folder counted once, and
   every failed one named in the failure list.
   */
  ghost predicate Honest(s: Summary, staged: set<Display>, attempts: map<Display, Attempt>) {
    && attempts.Keys <= Handed(staged)
    && s.transferred == |Ended(attempts, Transferred)|
    && s.skipped == |Ended(attempts, Skipped)|
    && s.failed == |Ended(attempts, Refused)|
    && forall d :: d in Ended(attempts, Refused) ==> Basename(d) in FailedNames(s)
  }

  /** The paths the items with this status are staged at. */
  function Displays(items: Items, status: ItemStatus): set<Display> {
    set k | k in items && items[k].status == status :: items[k].display
  }

  lemma ImageIsNoLarger(items: Items, keys: set<Key>)
    requires keys <= items.Keys
    ensures |set k | k in keys :: items[k].display| <= |keys|
  {
    if keys != {} {
      var k :| k in keys;
      var rest := keys - {k};
      ImageIsNoLarger(items, rest);
      var image := set j | j in rest :: items[j].display;
      assert (set j | j in keys :: items[j].display) == image + {items[k].display};
    }
  }

  lemma SubsetSize<T>(a: set<T>, b: set<T>)
    requires a <= b
    ensures |a| <= |b|
    ensures |a| == |b| ==> a == b
  {
    var rest := b - a;
    assert b == a + rest && |b| == |a| + |rest|;
  }

  lemma UnionSize<T>(a: set<T>, b: set<T>)
    ensures |a + b| <= |a| + |b|
  {
    assert a + b == a + (b - a) && |a + b| == |a| + |b - a|;
    SubsetSize(b - a, b);
  }

  lemma EndedPartition(attempts: map<Display, Attempt>)
    ensures |attempts.Keys| == |Ended(attempts, Transferred)| + |Ended(attempts, Skipped)| + |Ended(attempts, Refused)|
  {
    var t, s, r := Ended(attempts, Transferred), Ended(attempts, Skipped), Ended(attempts, Refused);
    assert attempts.Keys == (t + s) + r;
    assert |t + s| == |t| + |s|;
  }

  /** A count that adds up leaves nothing out: everything handed over was attempted. */
  lemma CountingLeavesNothingOut(items: Items, staged: set<Display>, attempts: map<Display, Attempt>, s: Summary)
    requires staged <= Displays(items, Verified)
    requires Honest(s, staged, attempts) && Accounts(s, |With(items, Verified)|, |FoldersOf(staged)|)
    ensures attempts.Keys == Handed(staged) && staged == Displays(items, Verified)
  {
    EndedPartition(attempts);
    UnionSize(staged, FoldersOf(staged));
    SubsetSize(attempts.Keys, Handed(staged));
    ImageIsNoLarger(items, With(items, Verified));
    assert Displays(items, Verified) == set k | k in With(items, Verified) :: items[k].display;
    SubsetSize(staged, Displays(items, Verified));
  }

  /**
   Every file a batch confirms really reached Proton, although the summary only counts, and
   names failures by basename alone: twins of one name, and a failed folder that shares a
   file's name, are no exception.
   */
  lemma ConfirmedWereUploaded(items: Items, staged: set<Display>, attempts: map<Display, Attempt>, s: Summary, k: Key)
    requires staged <= Displays(items, Verified) && Honest(s, staged, attempts)
    requires k in items && items[k].status == Verified
    requires ConfirmItems(items, |FoldersOf(staged)|, s)[k].status == Confirmed
    ensures items[k].display in staged && items[k].display in attempts
    ensures attempts[items[k].display] == Transferred || attempts[items[k].display] == Skipped
  {
    CountingLeavesNothingOut(items, staged, attempts, s);
    assert items[k].display in Displays(items, Verified);
    assert k !in FailedRows(items, s);
    assert items[k].display !in Ended(attempts, Refused);
  }
}
