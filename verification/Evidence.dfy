/**
 Nothing is on record as mirrored until an upload summary has accounted for it: in every
 reachable world, local or restored, each mirror row has an upload behind it.
 */
module Evidence {
  import opened Common
  import opened Tables
  import opened BatchItems
  import opened Protocol
  import opened RunLoop

  predicate SameFile(i: Item, r: MirrorRow) {
    i.display == r.display && i.size == r.size && i.contentHash == r.contentHash
    && i.sha1 == r.sha1 && i.sha256 == r.sha256
  }

  predicate Hashed(i: Item, f: Figures) {
    f == Figures(i.size, i.contentHash, i.sha1, i.sha256)
  }

  /** An item staged at this path was found to differ, and the file removed. */
  ghost predicate TwinRemoved(items: Items, d: Display) {
    exists j :: j in items && items[j].display == d && items[j].status == HashMismatch
  }

  /**
   `u` is an upload that accounts for item `i` under key `k`: the file was in the tree that was
   sent, with exactly this size and hash, if and only if no other item staged at its path was
   removed; and the summary confirmed the batch without naming it.
   */
  ghost predicate Proves(u: Upload, k: Key, i: Item) {
    && k in u.items && u.items[k] == i && i.status == Verified
    && (i.display in u.sent ==> Hashed(i, u.sent[i.display]))
    && (i.display in u.sent <==> !TwinRemoved(u.items, i.display))
    && u.sent.Keys <= Displays(u.items, Verified)
    && u.summary.Some? && Confirms(u.items, |FoldersOf(u.sent.Keys)|, u.summary.value)
    && k !in FailedRows(u.items, u.summary.value)
  }

  /** Verify hashed what was staged for the item, and it was exactly this file. */
  ghost predicate HashedAs(compared: set<Comparison>, k: Key, i: Item) {
    i.status == Verified && Comparison(k, i, Figures(i.size, i.contentHash, i.sha1, i.sha256)) in compared
  }

  ghost predicate ItemEvidenced(uploads: seq<Upload>, k: Key, i: Item) {
    exists n :: 0 <= n < |uploads| && Proves(uploads[n], k, i)
  }

  ghost predicate RowEvidenced(uploads: seq<Upload>, compared: set<Comparison>, k: Key, r: MirrorRow) {
    exists i :: SameFile(i, r) && HashedAs(compared, k, i) && ItemEvidenced(uploads, k, i)
  }

  ghost predicate MirrorEvidenced(uploads: seq<Upload>, compared: set<Comparison>, m: Mirror) {
    forall k :: k in m ==> RowEvidenced(uploads, compared, k, m[k])
  }

  // ---- the bench: items, staging and the upload of the batch in progress ----

  /** Every staged file belongs to an item that was fetched and not found to differ. */
  ghost predicate Held(items: Items, staging: Staging) {
    staging.Keys <= Displays(items, Fetched) + Displays(items, Verified)
  }

  /** Nothing is staged where a file was removed. */
  ghost predicate RemovedStay(items: Items, staging: Staging) {
    forall j :: j in items && items[j].status == HashMismatch ==> items[j].display !in staging
  }

  /** What verify found about `k`, and whether that is still what is staged. */
  ghost predicate StillStaged(items: Items, staging: Staging, compared: set<Comparison>, k: Key) {
    k in items && items[k].status == Verified ==>
      && HashedAs(compared, k, items[k])
      && (items[k].display in staging ==> Hashed(items[k], staging[items[k].display]))
      && (items[k].display in staging <==> !TwinRemoved(items, items[k].display))
  }

  ghost predicate AllStillStaged(items: Items, staging: Staging, compared: set<Comparison>) {
    RemovedStay(items, staging) && forall k :: StillStaged(items, staging, compared, k)
  }

  ghost predicate ConfirmedEvidenced(uploads: seq<Upload>, compared: set<Comparison>, items: Items) {
    forall k :: k in items && items[k].status == Confirmed ==>
      && HashedAs(compared, k, items[k].(status := Verified))
      && ItemEvidenced(uploads, k, items[k].(status := Verified))
  }

  /** What holds of the batch in progress: its items, the staging tree, the comparisons and uploads so far. */
  ghost predicate BenchFits(
      step: BatchStep, items: Items, staging: Staging, report: Option<Summary>,
      uploads: seq<Upload>, compared: set<Comparison>) {
    && (step == Fetching || step == Verifying || step == Checked || step == Sent ==> Held(items, staging))
    && (step == Verifying || step == Checked || step == Sent ==> AllStillStaged(items, staging, compared))
    && (step == Sent && Any(items, Verified) ==>
          uploads != [] && uploads[|uploads| - 1] == Upload(items, staging, report))
    && (step == Settled ==> ConfirmedEvidenced(uploads, compared, items))
  }

  ghost predicate Bench(w: World) {
    InBatch(w) ==> BenchFits(w.step, CurrentItems(w), w.staging, w.report, w.past.uploads, w.past.compared)
  }

  lemma FetchKeepsHeld(items: Items, staging: Staging, k: Key, got: Option<Figures>)
    requires Held(items, staging) && k in items && items[k].status == ItemStatus.Planned
    ensures got.Some? ==> Held(SetStatus(items, k, Fetched), staging[items[k].display := got.value])
    ensures got.None? ==> Held(SetStatus(items, k, Vanished), staging)
  {
    var how := if got.Some? then Fetched else Vanished;
    var after := SetStatus(items, k, how);
    forall d | d in staging ensures d in Displays(after, Fetched) + Displays(after, Verified) {
      var j :| j in items && (items[j].status == Fetched || items[j].status == Verified) && items[j].display == d;
      assert j in after && after[j] == items[j];
    }
    if got.Some? {
      assert k in after && after[k].status == Fetched && after[k].display == items[k].display;
    }
  }

  lemma NothingComparedNothingStale(items: Items, staging: Staging, compared: set<Comparison>)
    requires forall k :: k in items ==> items[k].status != Verified && items[k].status != HashMismatch
    ensures AllStillStaged(items, staging, compared)
  {}

  lemma VerifyKeepsHeld(items: Items, staging: Staging, k: Key)
    requires Held(items, staging) && k in items && items[k].status == Fetched && items[k].display in staging
    ensures var f := staging[items[k].display];
      Held(items[k := VerifyItem(items[k], f)], if Matches(items[k], f) then staging else staging - {items[k].display})
  {
    var f := staging[items[k].display];
    var after := items[k := VerifyItem(items[k], f)];
    var staging' := if Matches(items[k], f) then staging else staging - {items[k].display};
    forall d | d in staging' ensures d in Displays(after, Fetched) + Displays(after, Verified) {
      var j :| j in items && (items[j].status == Fetched || items[j].status == Verified) && items[j].display == d;
      assert j in after && after[j].display == d && (after[j].status == Fetched || after[j].status == Verified);
    }
  }

  /** Verifying one file, as it changes items, staging and comparisons. */
  ghost predicate Verifies(
      items: Items, staging: Staging, compared: set<Comparison>, k: Key,
      items': Items, staging': Staging, compared': set<Comparison>) {
    && k in items && items[k].status == Fetched && items[k].display in staging
    && var i, f := items[k], staging[items[k].display];
      && items' == items[k := VerifyItem(i, f)]
      && staging' == (if Matches(i, f) then staging else staging - {i.display})
      && compared' == compared + {Comparison(k, VerifyItem(i, f), f)}
  }

  lemma VerifyRemoves(
      items: Items, staging: Staging, compared: set<Comparison>, k: Key,
      items': Items, staging': Staging, compared': set<Comparison>, d: Display)
    requires Verifies(items, staging, compared, k, items', staging', compared')
    ensures TwinRemoved(items', d) <==>
      TwinRemoved(items, d) || (d == items[k].display && !Matches(items[k], staging[items[k].display]))
  {
    if TwinRemoved(items, d) {
      var j :| j in items && items[j].display == d && items[j].status == HashMismatch;
      assert j in items' && items'[j] == items[j];
    }
    if d == items[k].display && !Matches(items[k], staging[d]) {
      assert k in items' && items'[k].display == d && items'[k].status == HashMismatch;
    }
  }

  lemma VerifyKeepsStaged(
      items: Items, staging: Staging, compared: set<Comparison>, k: Key,
      items': Items, staging': Staging, compared': set<Comparison>, j: Key)
    requires AllStillStaged(items, staging, compared)
    requires Verifies(items, staging, compared, k, items', staging', compared')
    ensures RemovedStay(items', staging') && StillStaged(items', staging', compared', j)
  {
    assert StillStaged(items, staging, compared, j);
    if j in items {
      VerifyRemoves(items, staging, compared, k, items', staging', compared', items[j].display);
      assert !TwinRemoved(items, items[k].display);
    }
  }

  lemma LastUploadProves(items: Items, staging: Staging, compared: set<Comparison>, s: Summary, k: Key)
    requires Held(items, staging) && AllStillStaged(items, staging, compared)
    requires forall j :: j in items ==> items[j].status != Fetched
    requires k in items && items[k].status == Verified
    requires ConfirmItem(items, |FoldersOf(staging.Keys)|, s, k).status == Confirmed
    ensures Proves(Upload(items, staging, Some(s)), k, items[k]) && HashedAs(compared, k, items[k])
  {
    assert StillStaged(items, staging, compared, k);
    assert Displays(items, Fetched) == {};
  }

  lemma ConfirmIsEvidenced(items: Items, staging: Staging, compared: set<Comparison>, s: Summary, uploads: seq<Upload>)
    requires Held(items, staging) && AllStillStaged(items, staging, compared)
    requires forall j :: j in items ==> items[j].status != Fetched && items[j].status != Confirmed
    requires uploads != [] && uploads[|uploads| - 1] == Upload(items, staging, Some(s))
    ensures ConfirmedEvidenced(uploads, compared, ConfirmItems(items, |FoldersOf(staging.Keys)|, s))
  {
    var after := ConfirmItems(items, |FoldersOf(staging.Keys)|, s);
    forall k | k in after && after[k].status == Confirmed
      ensures HashedAs(compared, k, after[k].(status := Verified))
      ensures ItemEvidenced(uploads, k, after[k].(status := Verified))
    {
      LastUploadProves(items, staging, compared, s, k);
      assert after[k].(status := Verified) == items[k];
    }
  }

  lemma MergeIsEvidenced(uploads: seq<Upload>, compared: set<Comparison>, m: Mirror, items: Items, run: nat)
    requires MirrorEvidenced(uploads, compared, m) && ConfirmedEvidenced(uploads, compared, items)
    ensures MirrorEvidenced(uploads, compared, m + MergedRows(m, items, run))
  {
    var rows := MergedRows(m, items, run);
    forall k | k in m + rows ensures RowEvidenced(uploads, compared, k, (m + rows)[k]) {
      if k in rows {
        assert items[k].status == Confirmed;
        assert SameFile(items[k].(status := Verified), rows[k]);
      }
    }
  }

  /** Evidence is never lost. */
  lemma MoreEvidence(
      uploads: seq<Upload>, compared: set<Comparison>, more: seq<Upload>, wider: set<Comparison>, m: Mirror)
    requires MirrorEvidenced(uploads, compared, m) && uploads <= more && compared <= wider
    ensures MirrorEvidenced(more, wider, m)
  {
    forall k | k in m ensures RowEvidenced(more, wider, k, m[k]) {
      var i :| SameFile(i, m[k]) && HashedAs(compared, k, i) && ItemEvidenced(uploads, k, i);
      var n :| 0 <= n < |uploads| && Proves(uploads[n], k, i);
      assert Proves(more[n], k, i);
    }
  }

  /** The local mirror and every state ever shipped rest on the uploads so far. */
  ghost predicate Evidenced(w: World) {
    && MirrorEvidenced(w.past.uploads, w.past.compared, w.db.mirror)
    && forall t :: t in w.past.puts ==> MirrorEvidenced(w.past.uploads, w.past.compared, t.mirror)
  }

  // ---- every step keeps the bench and the evidence ----

  ghost predicate Proven(w: World) {
    Accounted(w) && Bench(w) && Evidenced(w)
  }

  lemma FetchKeepsBench(w: World, key: Key, got: Option<Figures>)
    requires Bench(w) && At(w, Fetching) && key in CurrentItems(w) && CurrentItems(w)[key].status == ItemStatus.Planned
    ensures Bench(FetchDone(w, key, got))
  {
    FetchKeepsHeld(CurrentItems(w), w.staging, key, got);
  }

  lemma VerifyKeepsBench(w: World, key: Key)
    requires Bench(w) && At(w, Verifying) && key in CurrentItems(w) && CurrentItems(w)[key].status == Fetched
    requires CurrentItems(w)[key].display in w.staging
    ensures Bench(VerifyDone(w, key))
  {
    VerifyKeepsHeld(CurrentItems(w), w.staging, key);
    var v := VerifyDone(w, key);
    forall j ensures RemovedStay(CurrentItems(v), v.staging)
      && StillStaged(CurrentItems(v), v.staging, v.past.compared, j)
    {
      VerifyKeepsStaged(
        CurrentItems(w), w.staging, w.past.compared, key, CurrentItems(v), v.staging, v.past.compared, j);
    }
  }

  lemma ConfirmMoves(w: World)
    requires NextWork(w, Confirm).Some?
    ensures var v := NextWork(w, Confirm).value;
      && At(v, Settled) && v.past == w.past
      && CurrentItems(v) == if Any(CurrentItems(w), Verified)
         then ConfirmItems(CurrentItems(w), |FoldersOf(w.staging.Keys)|, w.report.value) else CurrentItems(w)
  {}

  /** What confirming the batch commits has its evidence. */
  lemma SentItemsAreEvidenced(w: World)
    requires Bench(w) && Statuses(w) && At(w, Sent) && (Any(CurrentItems(w), Verified) ==> w.report.Some?)
    ensures ConfirmedEvidenced(w.past.uploads, w.past.compared,
      if Any(CurrentItems(w), Verified)
      then ConfirmItems(CurrentItems(w), |FoldersOf(w.staging.Keys)|, w.report.value) else CurrentItems(w))
  {
    var items := CurrentItems(w);
    assert StatusesFit(Sent, w.db.batches[Current(w)]);
    if Any(items, Verified) {
      ConfirmIsEvidenced(items, w.staging, w.past.compared, w.report.value, w.past.uploads);
    }
  }

  lemma SettledFits(v: World)
    requires At(v, Settled) && ConfirmedEvidenced(v.past.uploads, v.past.compared, CurrentItems(v))
    ensures Bench(v)
  {}

  lemma ConfirmKeepsBench(w: World)
    requires Bench(w) && Statuses(w) && NextWork(w, Confirm).Some?
    ensures Bench(NextWork(w, Confirm).value)
  {
    ConfirmMoves(w);
    SentItemsAreEvidenced(w);
    SettledFits(NextWork(w, Confirm).value);
  }

  lemma TurnKeepsBench(w: World, s: WorkStep)
    requires s.BeginBatch? || s.EndFetch? || s.EndVerify? || s.Send? || s.SkipSend?
    requires Bench(w) && Statuses(w) && NextWork(w, s).Some?
    ensures Bench(NextWork(w, s).value)
  {
    if s.EndFetch? {
      NothingComparedNothingStale(CurrentItems(w), w.staging, w.past.compared);
    }
  }

  lemma WorkKeepsBench(w: World, s: WorkStep)
    requires Bench(w) && Statuses(w) && NextWork(w, s).Some?
    ensures Bench(NextWork(w, s).value)
  {
    match s
    case BeginBatch => TurnKeepsBench(w, s);
    case FetchOne(key, got) => FetchKeepsBench(w, key, got);
    case EndFetch => TurnKeepsBench(w, s);
    case VerifyOne(key) => VerifyKeepsBench(w, key);
    case EndVerify => TurnKeepsBench(w, s);
    case Send(summary) => TurnKeepsBench(w, s);
    case SkipSend => TurnKeepsBench(w, s);
    case Confirm => ConfirmKeepsBench(w);
    case Merge =>
  }

  lemma WorkFrame(w: World, s: WorkStep)
    requires NextWork(w, s).Some? && !s.Merge?
    ensures var v := NextWork(w, s).value;
      && v.past.puts == w.past.puts && v.db.mirror == w.db.mirror
      && w.past.uploads <= v.past.uploads && w.past.compared <= v.past.compared
  {
    match s
    case BeginBatch =>
    case FetchOne(_, _) =>
    case EndFetch =>
    case VerifyOne(_) =>
    case EndVerify =>
    case Send(_) =>
    case SkipSend =>
    case Confirm =>
  }

  lemma WorkKeepsEvidence(w: World, s: WorkStep)
    requires Bench(w) && Evidenced(w) && NextWork(w, s).Some?
    ensures Evidenced(NextWork(w, s).value)
  {
    var v := NextWork(w, s).value;
    if s.Merge? {
      MergeIsEvidenced(w.past.uploads, w.past.compared, w.db.mirror, CurrentItems(w), w.run);
    } else {
      WorkFrame(w, s);
      MoreEvidence(w.past.uploads, w.past.compared, v.past.uploads, v.past.compared, w.db.mirror);
      forall t | t in w.past.puts ensures MirrorEvidenced(v.past.uploads, v.past.compared, t.mirror) {
        MoreEvidence(w.past.uploads, w.past.compared, v.past.uploads, v.past.compared, t.mirror);
      }
    }
  }

  lemma OuterKeepsProof(w: World, s: OuterStep)
    requires Ids(w) && Evidenced(w) && NextOuter(w, s).Some?
    ensures Bench(NextOuter(w, s).value) && Evidenced(NextOuter(w, s).value)
  {}

  lemma PrepareKeepsProof(w: World, s: PrepareStep)
    requires Evidenced(w) && NextPrepare(w, s).Some?
    ensures Bench(NextPrepare(w, s).value) && Evidenced(NextPrepare(w, s).value)
  {}

  lemma ShipKeepsProof(w: World, s: ShipStep)
    requires Bench(w) && Evidenced(w) && NextShip(w, s).Some?
    ensures Bench(NextShip(w, s).value) && Evidenced(NextShip(w, s).value)
  {}

  lemma AfterKeepsProof(w: World, s: AfterStep)
    requires Evidenced(w) && NextAfter(w, s).Some?
    ensures Bench(NextAfter(w, s).value) && Evidenced(NextAfter(w, s).value)
  {
    if s.CorrectMirror? {
      var v := NextAfter(w, s).value;
      forall k | k in v.db.mirror ensures RowEvidenced(w.past.uploads, w.past.compared, k, v.db.mirror[k]) {
        var i :| SameFile(i, w.db.mirror[k]) && HashedAs(w.past.compared, k, i) && ItemEvidenced(w.past.uploads, k, i);
        assert SameFile(i, v.db.mirror[k]);
      }
    }
  }

  lemma StepKeepsProof(w: World, s: Step)
    requires Proven(w) && Next(w, s).Some?
    ensures Proven(Next(w, s).value)
  {
    StepKeepsAccount(w, s);
    match s
    case Outer(outer) => OuterKeepsProof(w, outer);
    case Prepare(prepare) => PrepareKeepsProof(w, prepare);
    case Work(work) =>
      WorkKeepsBench(w, work);
      WorkKeepsEvidence(w, work);
    case Ship(ship) => ShipKeepsProof(w, ship);
    case After(after) => AfterKeepsProof(w, after);
  }

  lemma {:induction false} EveryRunIsProven(trace: seq<Step>)
    requires Replay(FirstWorld(), trace).Some?
    ensures Proven(Replay(FirstWorld(), trace).value)
  {
    if trace != [] {
      EveryRunIsProven(trace[..|trace| - 1]);
      StepKeepsProof(Replay(FirstWorld(), trace[..|trace| - 1]).value, trace[|trace| - 1]);
    }
  }

  /**
   From any reachable world, local or restored after a crash anywhere: every mirror row was
   staged and hashed by verify as exactly this file, was in the tree an upload sent unless a
   file staged at the same path had been removed, and was confirmed by a summary that accounts
   for every verified file and staged folder.
   */
  lemma EveryMirrorRowWasUploaded(trace: seq<Step>, key: string, k: Key)
    requires Replay(FirstWorld(), trace).Some?
    ensures var w := Replay(FirstWorld(), trace).value;
      && (k in w.db.mirror ==> RowEvidenced(w.past.uploads, w.past.compared, k, w.db.mirror[k]))
      && (key in w.objects && k in w.objects[key].mirror ==>
            RowEvidenced(w.past.uploads, w.past.compared, k, w.objects[key].mirror[k]))
  {
    EveryRunIsProven(trace);
  }

  /** What the evidence means for Proton when the CLI counts honestly: the file got there. */
  lemma EvidenceMeansUploaded(u: Upload, k: Key, i: Item, attempts: map<Display, Attempt>)
    requires Proves(u, k, i) && Honest(u.summary.value, u.sent.Keys, attempts)
    ensures i.display in u.sent && Hashed(i, u.sent[i.display])
    ensures i.display in attempts && (attempts[i.display] == Transferred || attempts[i.display] == Skipped)
  {
    assert ConfirmItem(u.items, |FoldersOf(u.sent.Keys)|, u.summary.value, k).status == Confirmed;
    ConfirmedWereUploaded(u.items, u.sent.Keys, attempts, u.summary.value, k);
  }
}
