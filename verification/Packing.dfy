/**
 Cutting the night's changed files into batches. The packing never revisits a closed batch,
 and still no way of cutting the same rows, in the same order, needs fewer batches.
 */
module Packing {
  import opened Common
  import opened Tables
  import opened Protocol

  datatype Row = Row(key: Key, size: nat)

  type Rows = seq<Row>

  function Total(rows: Rows): nat {
    if rows == [] then 0 else Total(rows[..|rows| - 1]) + rows[|rows| - 1].size
  }

  function Concat(batches: seq<Rows>): Rows {
    if batches == [] then [] else Concat(batches[..|batches| - 1]) + batches[|batches| - 1]
  }

  predicate Fits(batch: Rows, bytes: nat, files: nat) {
    Total(batch) <= bytes && |batch| <= files
  }

  /** A batch the rules allow: within both caps, or one file over the byte cap by itself. */
  predicate Legal(batch: Rows, bytes: nat, files: nat) {
    batch != [] && (Fits(batch, bytes, files) || (|batch| == 1 && batch[0].size > bytes))
  }

  ghost predicate IsPacking(rows: Rows, batches: seq<Rows>, bytes: nat, files: nat) {
    Concat(batches) == rows && forall i :: 0 <= i < |batches| ==> Legal(batches[i], bytes, files)
  }

  /** No batch could have taken even the first row of the next one. */
  ghost predicate Tight(batches: seq<Rows>, bytes: nat, files: nat) {
    && (forall i :: 0 <= i < |batches| ==> batches[i] != [])
    && forall i, j :: 0 <= i < j < |batches| && j == i + 1 ==> !Fits(batches[i] + [batches[j][0]], bytes, files)
  }

  // ---- sums and slices ----

  lemma TotalAppends(rows: Rows, row: Row)
    ensures Total(rows + [row]) == Total(rows) + row.size
  {
    assert (rows + [row])[..|rows|] == rows;
  }

  lemma {:induction false} TotalSplits(a: Rows, b: Rows)
    ensures Total(a + b) == Total(a) + Total(b)
  {
    if b == [] {
      assert a + b == a;
    } else {
      var init, last := b[..|b| - 1], b[|b| - 1];
      TotalSplits(a, init);
      TotalAppends(a + init, last);
      assert a + b == (a + init) + [last];
    }
  }

  lemma SliceFits(rows: Rows, lo: nat, from: nat, to: nat, hi: nat, bytes: nat, files: nat)
    requires lo <= from <= to <= hi <= |rows| && Fits(rows[lo..hi], bytes, files)
    ensures Fits(rows[from..to], bytes, files)
  {
    assert rows[lo..hi] == (rows[lo..from] + rows[from..to]) + rows[to..hi];
    TotalSplits(rows[lo..from] + rows[from..to], rows[to..hi]);
    TotalSplits(rows[lo..from], rows[from..to]);
  }

  lemma ConcatAppends(batches: seq<Rows>, batch: Rows)
    ensures Concat(batches + [batch]) == Concat(batches) + batch
  {
    assert (batches + [batch])[..|batches|] == batches;
  }

  /** Where batch `k` begins. */
  ghost function Start(batches: seq<Rows>, k: nat): nat
    requires k <= |batches|
  {
    |Concat(batches[..k])|
  }

  lemma {:induction false} PrefixOfConcat(batches: seq<Rows>, k: nat)
    requires k <= |batches|
    ensures Concat(batches[..k]) <= Concat(batches)
    decreases |batches| - k
  {
    if k < |batches| {
      PrefixOfConcat(batches, k + 1);
      assert batches[..k + 1][..k] == batches[..k];
    } else {
      assert batches[..k] == batches;
    }
  }

  lemma BatchIsSlice(batches: seq<Rows>, k: nat)
    requires k < |batches|
    ensures Start(batches, k + 1) == Start(batches, k) + |batches[k]| <= |Concat(batches)|
    ensures Concat(batches)[Start(batches, k)..Start(batches, k + 1)] == batches[k]
  {
    PrefixOfConcat(batches, k + 1);
    assert batches[..k + 1][..k] == batches[..k];
    assert Concat(batches[..k + 1]) == Concat(batches[..k]) + batches[k];
  }

  lemma SliceAndOneMore(batches: seq<Rows>, k: nat)
    requires k + 1 < |batches| && batches[k + 1] != []
    ensures Start(batches, k) <= Start(batches, k + 1) < |Concat(batches)|
    ensures Concat(batches)[Start(batches, k)..Start(batches, k + 1) + 1] == batches[k] + [batches[k + 1][0]]
  {
    BatchIsSlice(batches, k);
    BatchIsSlice(batches, k + 1);
    var all, from, to := Concat(batches), Start(batches, k), Start(batches, k + 1);
    assert all[to..Start(batches, k + 2)][0] == batches[k + 1][0];
    assert all[from..to + 1] == all[from..to] + [all[to]];
  }

  // ---- no partition has fewer batches ----

  /** One batch of anyone's, begun no later, ends no later: it would hold a row that did not fit. */
  lemma StepStaysAhead(rows: Rows, batches: seq<Rows>, other: seq<Rows>, bytes: nat, files: nat, k: nat)
    requires Concat(batches) == rows && Tight(batches, bytes, files)
    requires Concat(other) == rows && k < |other| && Legal(other[k], bytes, files)
    requires k + 1 < |batches| && Start(other, k) <= Start(batches, k)
    ensures Start(other, k + 1) <= Start(batches, k + 1)
  {
    SliceAndOneMore(batches, k);
    BatchIsSlice(batches, k);
    BatchIsSlice(other, k);
    var lo, from, to, hi := Start(other, k), Start(batches, k), Start(batches, k + 1), Start(other, k + 1);
    assert !Fits(batches[k] + [batches[k + 1][0]], bytes, files);
    if to < hi {
      assert |other[k]| == hi - lo && hi - lo > 1;
      SliceFits(rows, lo, from, to + 1, hi, bytes, files);
    }
  }

  /** A tight packing's first `k` batches reach at least as far as anyone's. */
  lemma {:induction false} StaysAhead(rows: Rows, batches: seq<Rows>, other: seq<Rows>, bytes: nat, files: nat, k: nat)
    requires Concat(batches) == rows && Tight(batches, bytes, files) && IsPacking(rows, other, bytes, files)
    requires k <= |batches| && k <= |other|
    ensures Start(other, k) <= Start(batches, k)
  {
    if k > 0 {
      StaysAhead(rows, batches, other, bytes, files, k - 1);
      BatchIsSlice(other, k - 1);
      if k == |batches| {
        assert batches[..k] == batches;
      } else {
        StepStaysAhead(rows, batches, other, bytes, files, k - 1);
      }
    }
  }

  /** Minimal packing: every partition that obeys the same rules has at least as many batches. */
  lemma NoneHasFewer(rows: Rows, batches: seq<Rows>, other: seq<Rows>, bytes: nat, files: nat)
    requires Concat(batches) == rows && Tight(batches, bytes, files) && IsPacking(rows, other, bytes, files)
    ensures |batches| <= |other|
  {
    if |other| < |batches| {
      StaysAhead(rows, batches, other, bytes, files, |other|);
      assert other[..|other|] == other;
      BatchIsSlice(batches, |other|);
    }
  }

  lemma NeighboursBreakACap(batches: seq<Rows>, bytes: nat, files: nat, i: nat)
    requires Tight(batches, bytes, files) && i + 1 < |batches|
    ensures !Fits(batches[i] + batches[i + 1], bytes, files)
  {
    var both, next := batches[i] + batches[i + 1], |batches[i]| + 1;
    if Fits(both, bytes, files) {
      assert both[0..|both|] == both && both[0..next] == batches[i] + [batches[i + 1][0]];
      SliceFits(both, 0, 0, next, |both|, bytes, files);
    }
  }

  // ---- the loop ----

  /** Closed batches, and the open one that may still grow. */
  ghost predicate Packed(done: Rows, batches: seq<Rows>, current: Rows, bytes: nat, files: nat) {
    && Concat(batches) + current == done
    && (forall i :: 0 <= i < |batches| ==> Legal(batches[i], bytes, files))
    && (current != [] ==> Fits(current, bytes, files))
    && (current == [] ==> Tight(batches, bytes, files))
    && (current != [] ==> Tight(batches + [current], bytes, files))
  }

  lemma TightAppends(batches: seq<Rows>, batch: Rows, bytes: nat, files: nat)
    requires Tight(batches, bytes, files) && batch != []
    requires batches != [] ==> !Fits(batches[|batches| - 1] + [batch[0]], bytes, files)
    ensures Tight(batches + [batch], bytes, files)
  {}

  lemma CloseCurrent(done: Rows, batches: seq<Rows>, current: Rows, bytes: nat, files: nat)
    requires Packed(done, batches, current, bytes, files) && current != []
    ensures Packed(done, batches + [current], [], bytes, files)
  {
    ConcatAppends(batches, current);
    assert done + [] == done;
  }

  /** The last closed batch, if the open one is empty, was closed because `row` would not fit. */
  ghost predicate Stuck(batches: seq<Rows>, row: Row, bytes: nat, files: nat) {
    batches != [] ==> !Fits(batches[|batches| - 1] + [row], bytes, files)
  }

  lemma OverCapIsAlone(done: Rows, batches: seq<Rows>, row: Row, bytes: nat, files: nat)
    requires Packed(done, batches, [], bytes, files) && row.size > bytes
    ensures Packed(done + [row], batches + [[row]], [], bytes, files)
  {
    if batches != [] {
      TotalAppends(batches[|batches| - 1], row);
    }
    TightAppends(batches, [row], bytes, files);
    ConcatAppends(batches, [row]);
    assert Concat(batches) + [] == done;
  }

  lemma RowOpens(done: Rows, batches: seq<Rows>, row: Row, bytes: nat, files: nat)
    requires Packed(done, batches, [], bytes, files) && files > 0
    requires row.size <= bytes && Stuck(batches, row, bytes, files)
    ensures Packed(done + [row], batches, [row], bytes, files)
  {
    TotalAppends([], row);
    assert [] + [row] == [row];
    assert Concat(batches) + [] == Concat(batches);
    TightAppends(batches, [row], bytes, files);
  }

  lemma RowJoins(done: Rows, batches: seq<Rows>, current: Rows, row: Row, bytes: nat, files: nat)
    requires Packed(done, batches, current, bytes, files) && current != []
    requires Total(current) + row.size <= bytes && |current| < files
    ensures Packed(done + [row], batches, current + [row], bytes, files)
  {
    TotalAppends(current, row);
    assert Concat(batches) + (current + [row]) == (Concat(batches) + current) + [row];
    GrowingStaysTight(batches, current, row, bytes, files);
  }

  lemma GrowingStaysTight(batches: seq<Rows>, current: Rows, row: Row, bytes: nat, files: nat)
    requires Tight(batches + [current], bytes, files) && current != []
    ensures Tight(batches + [current + [row]], bytes, files)
  {
    var was, now := batches + [current], batches + [current + [row]];
    forall i | 0 <= i < |now| ensures now[i] != [] && now[i][0] == was[i][0] && (i < |batches| ==> now[i] == was[i]) {
      assert was[i] != [];
    }
  }

  lemma StuckAfterALoneFile(last: Rows, row: Row, bytes: nat, files: nat)
    requires last != [] && last[0].size > bytes
    ensures !Fits(last + [row], bytes, files)
  {
    assert last == [last[0]] + last[1..];
    TotalSplits([last[0]], last[1..]);
    TotalAppends([], last[0]);
    TotalAppends(last, row);
    assert [] + [last[0]] == [last[0]];
  }

  /** The loop's state: an open batch is empty only at the start and after a file over the cap. */
  ghost predicate Going(done: Rows, batches: seq<Rows>, current: Rows, bytes: nat, files: nat) {
    && Packed(done, batches, current, bytes, files)
    && (current == [] && batches != [] ==> batches[|batches| - 1][0].size > bytes)
  }

  /** A file over the cap closes the open batch and is one by itself. */
  lemma PlacedAlone(done: Rows, batches: seq<Rows>, current: Rows, row: Row, bytes: nat, files: nat)
    requires Going(done, batches, current, bytes, files) && row.size > bytes
    ensures Going(done + [row], (if current == [] then batches else batches + [current]) + [[row]], [], bytes, files)
  {
    if current == [] {
      OverCapIsAlone(done, batches, row, bytes, files);
    } else {
      CloseCurrent(done, batches, current, bytes, files);
      OverCapIsAlone(done, batches + [current], row, bytes, files);
    }
  }

  /** A row the open batch has no room for opens the next one. */
  lemma PlacedNext(done: Rows, batches: seq<Rows>, current: Rows, row: Row, bytes: nat, files: nat)
    requires Going(done, batches, current, bytes, files) && current != [] && row.size <= bytes && files > 0
    requires Total(current) + row.size > bytes || |current| >= files
    ensures Going(done + [row], batches + [current], [row], bytes, files) && Total([row]) == row.size
  {
    TotalAppends(current, row);
    TotalAppends([], row);
    assert [] + [row] == [row];
    CloseCurrent(done, batches, current, bytes, files);
    RowOpens(done, batches + [current], row, bytes, files);
  }

  /** A row with room joins the open batch, or opens the first one, or one after a file over the cap. */
  lemma PlacedHere(done: Rows, batches: seq<Rows>, current: Rows, row: Row, bytes: nat, files: nat)
    requires Going(done, batches, current, bytes, files) && row.size <= bytes && files > 0
    requires current != [] ==> Total(current) + row.size <= bytes && |current| < files
    ensures Going(done + [row], batches, current + [row], bytes, files)
    ensures Total(current + [row]) == Total(current) + row.size
  {
    TotalAppends(current, row);
    if current == [] {
      if batches != [] {
        StuckAfterALoneFile(batches[|batches| - 1], row, bytes, files);
      }
      RowOpens(done, batches, row, bytes, files);
      assert current + [row] == [row];
    } else {
      RowJoins(done, batches, current, row, bytes, files);
    }
  }

  /** One turn of the loop. */
  method Place(batches: seq<Rows>, current: Rows, currentBytes: nat, row: Row, bytes: nat, files: nat, ghost done: Rows)
    returns (batches': seq<Rows>, current': Rows, currentBytes': nat)
    requires Going(done, batches, current, bytes, files) && currentBytes == Total(current) && files > 0
    ensures Going(done + [row], batches', current', bytes, files) && currentBytes' == Total(current')
  {
    batches', current', currentBytes' := batches, current, currentBytes;
    if row.size > bytes {
      PlacedAlone(done, batches, current, row, bytes, files);
      if current != [] {
        batches' := batches' + [current];
      }
      return batches' + [[row]], [], 0;
    }
    if current != [] && (currentBytes + row.size > bytes || |current| >= files) {
      PlacedNext(done, batches, current, row, bytes, files);
      return batches + [current], [row], row.size;
    }
    PlacedHere(done, batches, current, row, bytes, files);
    return batches, current + [row], currentBytes + row.size;
  }

  /**
   Packs the rows in order. Every batch is legal, and none could have taken one more row; by
   NoneHasFewer that makes the packing minimal.
   */
  method Pack(rows: Rows, bytes: nat, files: nat) returns (batches: seq<Rows>)
    requires files > 0
    ensures IsPacking(rows, batches, bytes, files) && Tight(batches, bytes, files)
  {
    batches := [];
    var current, currentBytes := [], 0;
    for i := 0 to |rows|
      invariant Going(rows[..i], batches, current, bytes, files) && currentBytes == Total(current)
    {
      assert rows[..i + 1] == rows[..i] + [rows[i]];
      batches, current, currentBytes := Place(batches, current, currentBytes, rows[i], bytes, files, rows[..i]);
    }
    assert rows[..|rows|] == rows;
    if current != [] {
      CloseCurrent(rows, batches, current, bytes, files);
      batches := batches + [current];
    }
    assert Concat(batches) + [] == Concat(batches);
  }

  // ---- the plan ----

  /** The configured limits; `batchFiles` is at least one. */
  datatype Caps = Caps(batchBytes: nat, batchFiles: nat, maxFile: nat, ceiling: nat, headroom: nat)

  /** The largest file the disk can stage and the configuration allows; negative on a full disk. */
  function FileCap(caps: Caps, free: nat): int {
    if caps.maxFile < free - caps.headroom then caps.maxFile else free - caps.headroom
  }

  function Within(rows: Rows, cap: int): Rows {
    if rows == [] then []
    else
      var init, last := rows[..|rows| - 1], rows[|rows| - 1];
      Within(init, cap) + if last.size <= cap then [last] else []
  }

  function Largest(rows: Rows): nat {
    if rows == [] then 0
    else
      var init, last := Largest(rows[..|rows| - 1]), rows[|rows| - 1].size;
      if init < last then last else init
  }

  lemma {:induction false} WithinKeeps(rows: Rows, cap: int)
    ensures forall row :: row in Within(rows, cap) <==> row in rows && row.size <= cap
  {
    if rows != [] {
      WithinKeeps(rows[..|rows| - 1], cap);
      assert rows == rows[..|rows| - 1] + [rows[|rows| - 1]];
    }
  }

  lemma {:induction false} LargestIsOne(rows: Rows)
    ensures forall row :: row in rows ==> row.size <= Largest(rows)
    ensures Largest(rows) > 0 ==> exists row :: row in rows && row.size == Largest(rows)
    ensures Largest(rows) == 0 ==> Total(rows) == 0
  {
    if rows != [] {
      var init, last := rows[..|rows| - 1], rows[|rows| - 1];
      LargestIsOne(init);
      assert rows == init + [last] && last in rows;
      forall row | row in init ensures row in rows {}
    }
  }

  /** A legal batch of files the disk can stage leaves the headroom free. */
  lemma BatchFitsTheDisk(rows: Rows, batches: seq<Rows>, caps: Caps, free: nat, i: nat)
    requires IsPacking(rows, batches, caps.batchBytes, caps.batchFiles) && i < |batches|
    requires forall row :: row in rows ==> row.size + caps.headroom <= free
    requires Total(rows) == 0 || caps.batchBytes + caps.headroom <= free || Total(rows) + caps.headroom <= free
    ensures Total(batches[i]) + caps.headroom <= free
  {
    BatchIsSlice(batches, i);
    var batch, from, to := batches[i], Start(batches, i), Start(batches, i + 1);
    assert batch[0] in rows by {
      assert batch[0] == rows[from];
    }
    if |batch| == 1 {
      assert batch == [] + [batch[0]];
      TotalAppends([], batch[0]);
    } else {
      assert rows[0..|rows|] == rows;
      assert rows == (rows[..from] + batch) + rows[to..];
      TotalSplits(rows[..from] + batch, rows[to..]);
      TotalSplits(rows[..from], batch);
    }
  }

  /**
   Plans a run. It refuses a tree over the ceiling, and a disk that cannot hold one batch;
   otherwise every file the disk can stage is in one batch, and every batch, staged whole,
   leaves the headroom free.
   */
  method Plan(rows: Rows, caps: Caps, treeBytes: nat, free: nat) returns (r: Result<seq<Rows>, string>)
    requires caps.batchFiles > 0
    ensures r.Raised? <==> (treeBytes > caps.ceiling ||
      var sum := Total(Within(rows, FileCap(caps, free)));
      sum > 0 && (if caps.batchBytes < sum then caps.batchBytes else sum) + caps.headroom > free)
    ensures r.Ok? ==> IsPacking(Within(rows, FileCap(caps, free)), r.value, caps.batchBytes, caps.batchFiles)
    ensures r.Ok? ==> Tight(r.value, caps.batchBytes, caps.batchFiles)
    ensures r.Ok? ==> forall i :: 0 <= i < |r.value| ==> Total(r.value[i]) + caps.headroom <= free
  {
    if treeBytes > caps.ceiling {
      return Raised("the tree is over the ceiling");
    }
    var fileCap := FileCap(caps, free);
    var rows' := Within(rows, fileCap);
    var largest, sum := Largest(rows'), Total(rows');
    WithinKeeps(rows, fileCap);
    LargestIsOne(rows');
    LargestIsPartOfTotal(rows');
    var batch := if caps.batchBytes < sum then caps.batchBytes else sum;
    var needed := (if largest < batch then batch else largest) + caps.headroom;
    if largest > 0 && free < needed {
      return Raised("disk cannot hold a batch");
    }
    var batches := Pack(rows', caps.batchBytes, caps.batchFiles);
    forall i | 0 <= i < |batches| ensures Total(batches[i]) + caps.headroom <= free {
      BatchFitsTheDisk(rows', batches, caps, free, i);
    }
    r := Ok(batches);
  }

  lemma {:induction false} LargestIsPartOfTotal(rows: Rows)
    ensures Largest(rows) <= Total(rows)
  {
    if rows != [] {
      LargestIsPartOfTotal(rows[..|rows| - 1]);
    }
  }

  // ---- a plan is a step of the protocol ----

  function KeysOf(rows: Rows): set<Key> {
    set row | row in rows :: row.key
  }

  function Parts(batches: seq<Rows>): (parts: seq<set<Key>>)
    ensures |parts| == |batches| && forall i :: 0 <= i < |parts| ==> parts[i] == KeysOf(batches[i])
  {
    seq(|batches|, i requires 0 <= i < |batches| => KeysOf(batches[i]))
  }

  ghost predicate IsPlanned(batches: seq<Rows>, key: Key) {
    exists i :: 0 <= i < |batches| && key in Parts(batches)[i]
  }

  ghost predicate PartsAreChanged(changed: map<Key, ChangedRow>, batches: seq<Rows>) {
    forall i :: 0 <= i < |batches| ==> Parts(batches)[i] <= changed.Keys
  }

  ghost predicate DistinctKeys(rows: Rows) {
    forall i, j :: 0 <= i < j < |rows| ==> rows[i].key != rows[j].key
  }

  lemma RowOfBatch(batches: seq<Rows>, i: nat, key: Key) returns (at: nat)
    requires i < |batches| && key in KeysOf(batches[i])
    ensures Start(batches, i) <= at < Start(batches, i + 1) <= |Concat(batches)|
    ensures Concat(batches)[at].key == key
  {
    BatchIsSlice(batches, i);
    var row :| row in batches[i] && row.key == key;
    var j :| 0 <= j < |batches[i]| && batches[i][j] == row;
    at := Start(batches, i) + j;
  }

  lemma StartsGrow(batches: seq<Rows>, i: nat, j: nat)
    requires i <= j <= |batches|
    ensures Start(batches, i) <= Start(batches, j)
  {
    PrefixOfConcat(batches[..j], i);
    assert batches[..j][..i] == batches[..i];
  }

  /** What a plan returns, the protocol can save: its parts are disjoint, nonempty sets of changed files. */
  lemma PlanCanBeSaved(w: World, rows: Rows, batches: seq<Rows>, caps: Caps, first: nat)
    requires IsPacking(rows, batches, caps.batchBytes, caps.batchFiles)
    requires DistinctKeys(rows) && KeysOf(rows) <= w.db.changed.Keys
    requires forall b :: b in Kept(w.db.batches) ==> b < first
    ensures CanPlan(w, first, Parts(batches))
    ensures forall key :: key in KeysOf(rows) <==> IsPlanned(batches, key)
  {
    var parts := Parts(batches);
    forall i | 0 <= i < |parts| ensures parts[i] != {} && parts[i] <= KeysOf(rows) {
      assert batches[i][0].key in parts[i];
      forall key | key in parts[i] ensures key in KeysOf(rows) {
        var at := RowOfBatch(batches, i, key);
        assert rows[at] in rows;
      }
    }
    forall i, j | 0 <= i < j < |parts| ensures parts[i] !! parts[j] {
      StartsGrow(batches, i + 1, j);
      forall key | key in parts[i] && key in parts[j] ensures false {
        var a := RowOfBatch(batches, i, key);
        var b := RowOfBatch(batches, j, key);
      }
    }
    forall key | key in KeysOf(rows) ensures IsPlanned(batches, key) {
      var row :| row in rows && row.key == key;
      var i := BatchHolding(batches, row);
      assert row.key in KeysOf(batches[i]) && KeysOf(batches[i]) == parts[i];
    }
  }

  lemma {:induction false} BatchHolding(batches: seq<Rows>, row: Row) returns (i: nat)
    requires row in Concat(batches)
    ensures i < |batches| && row in batches[i]
  {
    var k := |batches| - 1;
    if row in batches[k] {
      i := k;
    } else {
      i := BatchHolding(batches[..k], row);
    }
  }
}
