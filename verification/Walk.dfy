/**
 The folder walk behind the Proton inventory: workers pull folders from their own queues,
 steal from the longest one, and list them concurrently; listings land in any order, fail,
 or lose their session, and a deadline may stop the walk at any turn.
 */
module Walk {
  import opened Common
  import opened WalkTables
  import opened WalkLog

  // ---- ownership, on values ----

  /** A listing under way: who runs it, and the folder row it was dispatched with. */
  datatype Slot = Slot(worker: nat, folder: Place)

  type Flights = map<nat, Slot>

  type Queues = seq<seq<Uid>>

  ghost predicate AllEmpty(queues: Queues) {
    forall w :: 0 <= w < |queues| ==> queues[w] == []
  }

  ghost predicate IsLongest(queues: Queues, w: nat) {
    w < |queues| && queues[w] != [] && forall v :: 0 <= v < |queues| ==> |queues[v]| <= |queues[w]|
  }

  /** `after` lacks the head of queue `w`, and nothing else. */
  ghost predicate TakenFrom(queues: Queues, after: Queues, w: nat) {
    w < |queues| && queues[w] != [] && after == queues[w := queues[w][1..]]
  }

  /** The worker has a listing in flight. */
  ghost predicate Busy(inFlight: Flights, worker: nat) {
    exists f :: f in inFlight && inFlight[f].worker == worker
  }

  /** How often `u` is queued, over all queues. */
  ghost function Count(queues: Queues, u: Uid): nat {
    if queues == [] then 0 else multiset(queues[0])[u] + Count(queues[1..], u)
  }

  ghost predicate InFlight(inFlight: Flights, u: Uid) {
    exists f :: f in inFlight && inFlight[f].folder.uid == u
  }

  ghost predicate IsPending(s: Snapshot, u: Uid) {
    u in s.folders && s.folders[u].status == Pending
  }

  /** No worker has two listings in flight, and no folder is in flight twice. */
  ghost predicate Distinct(inFlight: Flights) {
    forall f, g :: f in inFlight && g in inFlight && f != g ==>
      inFlight[f].worker != inFlight[g].worker && inFlight[f].folder.uid != inFlight[g].folder.uid
  }

  ghost predicate SlotsKnown(workers: nat, inFlight: Flights, s: Snapshot) {
    forall f :: f in inFlight ==>
      && inFlight[f].worker < workers
      && inFlight[f].folder.uid in s.folders && s.folders[inFlight[f].folder.uid].place == inFlight[f].folder
  }

  ghost function One(b: bool): nat {
    if b then 1 else 0
  }

  /** `u` sits once in the queues and the slots if it is PENDING, and not at all if it is not. */
  ghost predicate OwnedOnce(queues: Queues, inFlight: Flights, s: Snapshot, u: Uid) {
    Count(queues, u) + One(InFlight(inFlight, u)) == One(IsPending(s, u))
  }

  ghost predicate Owned(queues: Queues, inFlight: Flights, s: Snapshot) {
    && (forall u :: OwnedOnce(queues, inFlight, s, u))
    && Distinct(inFlight)
    && SlotsKnown(|queues|, inFlight, s)
  }

  lemma {:induction false} CountUpdate(queues: Queues, w: nat, q: seq<Uid>, u: Uid)
    requires w < |queues|
    ensures Count(queues[w := q], u) + multiset(queues[w])[u] == Count(queues, u) + multiset(q)[u]
  {
    var changed := queues[w := q];
    if w == 0 {
      assert changed[1..] == queues[1..];
    } else {
      assert changed[1..] == queues[1..][w - 1 := q];
      CountUpdate(queues[1..], w - 1, q, u);
    }
  }

  lemma {:induction false} CountHolds(queues: Queues, w: nat, u: Uid)
    requires w < |queues|
    ensures multiset(queues[w])[u] <= Count(queues, u)
  {
    if w > 0 {
      CountHolds(queues[1..], w - 1, u);
    }
  }

  lemma {:induction false} CountEmpty(queues: Queues, u: Uid)
    requires forall w :: 0 <= w < |queues| ==> queues[w] == []
    ensures Count(queues, u) == 0
  {
    if queues != [] {
      CountEmpty(queues[1..], u);
    }
  }

  ghost predicate KeyedByUid(s: Snapshot) {
    forall u :: u in s.folders ==> s.folders[u].place.uid == u
  }

  lemma HeadCount(q: seq<Uid>, u: Uid)
    requires q != []
    ensures multiset(q)[u] == multiset(q[1..])[u] + One(u == q[0])
  {
    assert q == [q[0]] + q[1..];
  }

  lemma PrependCount(x: Uid, q: seq<Uid>, u: Uid)
    ensures multiset([x] + q)[u] == multiset(q)[u] + One(u == x)
  {}

  lemma AppendCount(q: seq<Uid>, more: seq<Uid>, u: Uid)
    ensures multiset(q + more)[u] == multiset(q)[u] + multiset(more)[u]
  {}

  lemma HeadIsPending(queues: Queues, inFlight: Flights, s: Snapshot, from: nat)
    requires Owned(queues, inFlight, s) && from < |queues| && queues[from] != []
    ensures IsPending(s, queues[from][0]) && !InFlight(inFlight, queues[from][0])
  {
    var uid := queues[from][0];
    CountHolds(queues, from, uid);
    HeadCount(queues[from], uid);
    assert OwnedOnce(queues, inFlight, s, uid);
  }

  lemma FlyingAdds(inFlight: Flights, future: nat, slot: Slot, u: Uid)
    requires future !in inFlight
    ensures InFlight(inFlight[future := slot], u) <==> InFlight(inFlight, u) || u == slot.folder.uid
  {
    var more := inFlight[future := slot];
    if InFlight(inFlight, u) {
      var f :| f in inFlight && inFlight[f].folder.uid == u;
      assert f in more && more[f].folder.uid == u;
    }
    assert future in more && more[future].folder.uid == slot.folder.uid;
  }

  lemma Lands(inFlight: Flights, future: nat, u: Uid)
    requires Distinct(inFlight) && future in inFlight
    ensures InFlight(inFlight, u) <==> InFlight(inFlight - {future}, u) || u == inFlight[future].folder.uid
    ensures !InFlight(inFlight - {future}, inFlight[future].folder.uid)
  {
    var rest := inFlight - {future};
    assert inFlight == rest[future := inFlight[future]];
    FlyingAdds(rest, future, inFlight[future], u);
  }

  lemma SlotIsPending(queues: Queues, inFlight: Flights, s: Snapshot, future: nat)
    requires Owned(queues, inFlight, s) && future in inFlight
    ensures IsPending(s, inFlight[future].folder.uid)
  {
    assert OwnedOnce(queues, inFlight, s, inFlight[future].folder.uid);
  }

  /** Taking the head of any queue, its own or a stolen one, and dispatching it. */
  lemma DispatchKeepsOwned(queues: Queues, inFlight: Flights, s: Snapshot, from: nat, worker: nat, future: nat)
    requires Owned(queues, inFlight, s) && KeyedByUid(s)
    requires from < |queues| && queues[from] != [] && worker < |queues|
    requires future !in inFlight && forall f :: f in inFlight ==> inFlight[f].worker != worker
    ensures queues[from][0] in s.folders
    ensures Owned(queues[from := queues[from][1..]],
                  inFlight[future := Slot(worker, s.folders[queues[from][0]].place)], s)
  {
    var uid := queues[from][0];
    HeadIsPending(queues, inFlight, s, from);
    var slot := Slot(worker, s.folders[uid].place);
    var queues', inFlight' := queues[from := queues[from][1..]], inFlight[future := slot];
    forall u ensures OwnedOnce(queues', inFlight', s, u) {
      CountUpdate(queues, from, queues[from][1..], u);
      HeadCount(queues[from], u);
      FlyingAdds(inFlight, future, slot, u);
      assert OwnedOnce(queues, inFlight, s, u);
    }
    DispatchKeepsDistinct(inFlight, future, slot);
  }

  lemma DispatchKeepsDistinct(inFlight: Flights, future: nat, slot: Slot)
    requires Distinct(inFlight) && future !in inFlight && !InFlight(inFlight, slot.folder.uid)
    requires forall f :: f in inFlight ==> inFlight[f].worker != slot.worker
    ensures Distinct(inFlight[future := slot])
  {}

  ghost predicate SameQueueState(s: Snapshot, t: Snapshot) {
    && s.folders.Keys == t.folders.Keys
    && forall u :: u in s.folders ==>
         t.folders[u].place == s.folders[u].place && t.folders[u].status == s.folders[u].status
  }

  /** A failed listing goes back to the head of its worker's queue. */
  lemma RequeueKeepsOwned(queues: Queues, inFlight: Flights, s: Snapshot, future: nat, t: Snapshot)
    requires Owned(queues, inFlight, s) && future in inFlight && SameQueueState(s, t)
    ensures var slot := inFlight[future];
      Owned(queues[slot.worker := [slot.folder.uid] + queues[slot.worker]], inFlight - {future}, t)
  {
    var slot := inFlight[future];
    var q := [slot.folder.uid] + queues[slot.worker];
    var queues', inFlight' := queues[slot.worker := q], inFlight - {future};
    forall u ensures OwnedOnce(queues', inFlight', t, u) {
      CountUpdate(queues, slot.worker, q, u);
      PrependCount(slot.folder.uid, queues[slot.worker], u);
      Lands(inFlight, future, u);
      assert OwnedOnce(queues, inFlight, s, u);
      assert IsPending(t, u) == IsPending(s, u);
    }
  }

  // ---- a commit, on values ----

  /** The uids a listing adds to the queue, in listing order. */
  function Queued(s: Snapshot, up: Place, listing: seq<Entry>, k: nat): seq<Uid>
    requires k <= |listing| && AllUsable(listing[..k])
  {
    if k == 0 then []
    else
      assert listing[..k][k - 1] == listing[k - 1];
      assert listing[..k - 1] == listing[..k][..k - 1];
      var r := Child(up, listing, k - 1);
      Queued(s, up, listing, k - 1)
      + if IsFolder(r) && r.place.uid !in WithChildren(s, up, listing, k - 1).folders then [r.place.uid] else []
  }

  lemma WithChildPending(s: Snapshot, r: NodeRow, u: Uid)
    ensures One(IsPending(WithChild(s, r), u))
         == One(IsPending(s, u)) + One(IsFolder(r) && r.place.uid !in s.folders && u == r.place.uid)
  {}

  lemma {:induction false} QueuedArePending(s: Snapshot, up: Place, listing: seq<Entry>, k: nat, u: Uid)
    requires k <= |listing| && AllUsable(listing[..k])
    ensures One(IsPending(WithChildren(s, up, listing, k), u))
         == One(IsPending(s, u)) + multiset(Queued(s, up, listing, k))[u]
  {
    if k > 0 {
      assert listing[..k][k - 1] == listing[k - 1];
      assert listing[..k - 1] == listing[..k][..k - 1];
      QueuedArePending(s, up, listing, k - 1, u);
      WithChildPending(WithChildren(s, up, listing, k - 1), Child(up, listing, k - 1), u);
    }
  }

  lemma CommitMovesPending(s: Snapshot, uid: Uid, listing: seq<Entry>, u: Uid)
    requires IsPending(s, uid) && AllUsable(listing)
    ensures listing[..|listing|] == listing
    ensures One(IsPending(Committed(s, uid, listing), u)) + One(u == uid)
         == One(IsPending(s, u)) + multiset(Queued(s, s.folders[uid].place, listing, |listing|))[u]
  {
    assert listing[..|listing|] == listing;
    QueuedArePending(s, s.folders[uid].place, listing, |listing|, u);
  }

  lemma CommitOwnsOnce(queues: Queues, inFlight: Flights, s: Snapshot, future: nat, listing: seq<Entry>, u: Uid)
    requires Owned(queues, inFlight, s) && future in inFlight && AllUsable(listing)
    requires IsPending(s, inFlight[future].folder.uid) && listing[..|listing|] == listing
    ensures var slot := inFlight[future];
      OwnedOnce(queues[slot.worker := queues[slot.worker] + Queued(s, slot.folder, listing, |listing|)],
                inFlight - {future}, Committed(s, slot.folder.uid, listing), u)
  {
    var slot := inFlight[future];
    var more := Queued(s, slot.folder, listing, |listing|);
    CommitMovesPending(s, slot.folder.uid, listing, u);
    CountUpdate(queues, slot.worker, queues[slot.worker] + more, u);
    AppendCount(queues[slot.worker], more, u);
    Lands(inFlight, future, u);
    assert OwnedOnce(queues, inFlight, s, u);
  }

  /** A landed listing completes its folder and queues its subfolders to the same worker. */
  lemma CommitKeepsOwned(queues: Queues, inFlight: Flights, s: Snapshot, future: nat, listing: seq<Entry>)
    requires Owned(queues, inFlight, s) && future in inFlight && AllUsable(listing)
    ensures IsPending(s, inFlight[future].folder.uid)
    ensures listing[..|listing|] == listing
    ensures var slot := inFlight[future];
      Owned(queues[slot.worker := queues[slot.worker] + Queued(s, slot.folder, listing, |listing|)],
            inFlight - {future}, Committed(s, slot.folder.uid, listing))
  {
    var slot := inFlight[future];
    assert OwnedOnce(queues, inFlight, s, slot.folder.uid);
    assert listing[..|listing|] == listing;
    var queues' := queues[slot.worker := queues[slot.worker] + Queued(s, slot.folder, listing, |listing|)];
    var inFlight', committed := inFlight - {future}, Committed(s, slot.folder.uid, listing);
    forall u ensures OwnedOnce(queues', inFlight', committed, u) {
      CommitOwnsOnce(queues, inFlight, s, future, listing, u);
    }
  }

  // ---- the state database ----

  /** Between `earlier` and `later`, snapshot `id`'s walk committed listings and noted failures, nothing else. */
  ghost predicate OnlyWalked(earlier: seq<Tx>, later: seq<Tx>, id: nat) {
    && earlier <= later
    && forall k :: |earlier| <= k < |later| ==> (later[k].Commit? || later[k].Note?) && later[k].id == id
  }

  lemma NextChild(s: Snapshot, up: Place, listing: seq<Entry>, i: nat)
    requires i < |listing| && AllUsable(listing[..i]) && Usable(listing[i])
    ensures AllUsable(listing[..i + 1])
    ensures WithChildren(s, up, listing, i + 1) == WithChild(WithChildren(s, up, listing, i), Child(up, listing, i))
    ensures var r := Child(up, listing, i);
      Queued(s, up, listing, i + 1) == Queued(s, up, listing, i)
        + if IsFolder(r) && r.place.uid !in WithChildren(s, up, listing, i).folders then [r.place.uid] else []
  {
    assert listing[..i + 1][..i] == listing[..i];
  }

  /** The loop over a listing's children; an unusable child rolls the transaction back. */
  method RecordChildren(s: Snapshot, folder: Place, children: seq<Entry>)
    returns (r: Result<(Snapshot, seq<Uid>), string>)
    ensures r.Ok? <==> AllUsable(children)
    ensures r.Ok? ==>
      && children[..|children|] == children
      && r.value.0 == WithChildren(s, folder, children, |children|)
      && r.value.1 == Queued(s, folder, children, |children|)
  {
    var work := s;
    var queued: seq<Uid> := [];
    var i := 0;
    while i < |children|
      invariant 0 <= i <= |children| && AllUsable(children[..i])
      invariant work == WithChildren(s, folder, children, i)
      invariant queued == Queued(s, folder, children, i)
    {
      if !Usable(children[i]) {
        return Raised("Proton node had no stable UID or no visible name");
      }
      NextChild(s, folder, children, i);
      var node := Child(folder, children, i);
      if IsFolder(node) && node.place.uid !in work.folders {
        queued := queued + [node.place.uid];
      }
      work := WithChild(work, node);
      i := i + 1;
    }
    assert children[..|children|] == children;
    r := Ok((work, queued));
  }

  lemma WalkedOn(a: seq<Tx>, b: seq<Tx>, c: seq<Tx>, id: nat)
    requires OnlyWalked(a, b, id) && OnlyWalked(b, c, id)
    ensures OnlyWalked(a, c, id)
  {}

  /** No more folders are unfinished than were, and if something was listed, fewer. */
  ghost predicate Progress(was: set<Uid>, now: set<Uid>, listed: bool) {
    now <= was && (listed ==> now < was)
  }

  lemma ProgressGoesOn(was: set<Uid>, mid: set<Uid>, now: set<Uid>, listed: bool, more: bool)
    requires Progress(was, mid, listed) && Progress(mid, now, more)
    ensures Progress(was, now, listed || more)
  {}

  predicate Walks(s: Snapshot, purpose: string, destination: string) {
    s.purpose == purpose && s.destination == destination
  }

  class Database {
    /** Proton, which does not change while it is walked: what listing a folder answers. */
    const tree: Tree

    var snapshots: Snapshots

    /** Every transaction made so far. */
    ghost var log: seq<Tx>

    ghost predicate Valid()
      reads this
    {
      Replay(tree, log) == Some(snapshots)
    }

    constructor (tree: Tree)
      ensures Valid() && this.tree == tree && log == []
    {
      this.tree := tree;
      snapshots := map[];
      log := [];
    }

    ghost predicate IsLatest(id: nat, purpose: string, destination: string)
      reads this
    {
      && id in snapshots && Walks(snapshots[id], purpose, destination)
      && forall k :: k in snapshots && Walks(snapshots[k], purpose, destination) ==> k <= id
    }

    /** There is a snapshot of this purpose and destination, and the latest has this status. */
    ghost predicate LatestIs(purpose: string, destination: string, status: SnapshotStatus)
      reads this
    {
      exists k :: IsLatest(k, purpose, destination) && snapshots[k].status == status
    }

    method Latest(purpose: string, destination: string) returns (id: Option<nat>)
      ensures id.Some? ==> IsLatest(id.value, purpose, destination)
      ensures id.None? ==> forall k :: k in snapshots ==> !Walks(snapshots[k], purpose, destination)
    {
      id := None;
      var todo := snapshots.Keys;
      while todo != {}
        invariant todo <= snapshots.Keys
        invariant id.Some? ==> id.value in snapshots && Walks(snapshots[id.value], purpose, destination)
        invariant forall k ::
          k in snapshots && k !in todo && Walks(snapshots[k], purpose, destination) ==> id.Some? && k <= id.value
        decreases todo
      {
        var k :| k in todo;
        todo := todo - {k};
        if Walks(snapshots[k], purpose, destination) && (id.None? || id.value < k) {
          id := Some(k);
        }
      }
    }

    method NewSnapshot(purpose: string, destination: string) returns (id: nat)
      requires Valid()
      modifies this
      ensures Valid()
      ensures forall k :: k in old(snapshots) ==> k < id
      ensures snapshots == old(snapshots)[id := WalkTables.NewSnapshot(purpose, destination)]
      ensures log == old(log) + [Open(id, purpose, destination)]
    {
      id := 0;
      var todo := snapshots.Keys;
      while todo != {}
        invariant todo <= snapshots.Keys
        invariant forall k :: k in snapshots && k !in todo ==> k < id
        decreases todo
      {
        var k :| k in todo;
        todo := todo - {k};
        if id <= k {
          id := k + 1;
        }
      }
      ReplayExtends(tree, log, Open(id, purpose, destination));
      snapshots := snapshots[id := WalkTables.NewSnapshot(purpose, destination)];
      log := log + [Open(id, purpose, destination)];
    }

    /** The RUNNING snapshot to resume, a new one, or None when a COMPLETE walk may be reused. */
    method OpenSnapshot(purpose: string, destination: string, reuseComplete: bool) returns (id: Option<nat>)
      requires Valid()
      modifies this
      ensures Valid()
      ensures id.None? <==> reuseComplete && old(LatestIs(purpose, destination, Finished))
      ensures id.None? ==> snapshots == old(snapshots) && log == old(log)
      ensures id.Some? ==>
        && id.value in snapshots && snapshots[id.value].status == Running
        && Walks(snapshots[id.value], purpose, destination)
      ensures id.Some? ==>
        || (IsLatest(id.value, purpose, destination) && snapshots == old(snapshots) && log == old(log))
        || (&& id.value !in old(snapshots) && log == old(log) + [Open(id.value, purpose, destination)]
            && snapshots == old(snapshots)[id.value := WalkTables.NewSnapshot(purpose, destination)])
      ensures log == old(log) <==>
        old(LatestIs(purpose, destination, Running)) || (reuseComplete && old(LatestIs(purpose, destination, Finished)))
    {
      id := Latest(purpose, destination);
      if id.Some? && snapshots[id.value].status == Running {
        return;
      }
      if id.Some? && reuseComplete {
        id := None;
        return;
      }
      var created := NewSnapshot(purpose, destination);
      id := Some(created);
    }

    method CloseSnapshot(id: nat) returns (r: Result<(), string>)
      requires Valid() && id in snapshots && snapshots[id].status == Running
      modifies this
      ensures Valid()
      ensures r.Ok? <==> NothingPending(old(snapshots[id]))
      ensures r.Ok? ==>
        && snapshots == old(snapshots)[id := old(snapshots[id]).(status := Finished)]
        && log == old(log) + [Close(id)]
      ensures r.Raised? ==> snapshots == old(snapshots) && log == old(log)
    {
      if exists u :: u in snapshots[id].folders.Keys && snapshots[id].folders[u].status != Complete {
        return Raised("Proton folder queue is incomplete");
      }
      ReplayExtends(tree, log, Close(id));
      snapshots := snapshots[id := snapshots[id].(status := Finished)];
      log := log + [Close(id)];
      r := Ok(());
    }

    /** Records a folder's children and marks it COMPLETE, all in one transaction. */
    method CommitListing(id: nat, folder: Place, children: seq<Entry>) returns (r: Result<seq<Uid>, string>)
      requires Valid() && id in snapshots && snapshots[id].status == Running
      requires IsPending(snapshots[id], folder.uid) && snapshots[id].folders[folder.uid].place == folder
      requires folder.uid in tree && children == tree[folder.uid]
      modifies this
      ensures Valid()
      ensures r.Ok? <==> AllUsable(children)
      ensures r.Raised? ==> snapshots == old(snapshots) && log == old(log)
      ensures r.Ok? ==>
        && children[..|children|] == children && log == old(log) + [Commit(id, folder.uid)]
        && snapshots == old(snapshots)[id := Committed(old(snapshots[id]), folder.uid, children)]
        && r.value == Queued(old(snapshots[id]), folder, children, |children|)
    {
      var recorded := RecordChildren(snapshots[id], folder, children);
      if recorded.Raised? {
        return Raised(recorded.error);
      }
      var (work, queued) := recorded.value;
      CommitExtends(tree, log, snapshots, id, folder.uid);
      snapshots := snapshots[id := Completed(work, folder.uid)];
      log := log + [Commit(id, folder.uid)];
      r := Ok(queued);
    }

    method NoteFailure(id: nat, uid: Uid, category: string)
      requires Valid() && id in snapshots && snapshots[id].status == Running && uid in snapshots[id].folders
      modifies this
      ensures Valid()
      ensures snapshots == old(snapshots)[id := Noted(old(snapshots[id]), uid, category)]
      ensures log == old(log) + [Note(id, uid, category)]
    {
      ReplayExtends(tree, log, Note(id, uid, category));
      snapshots := snapshots[id := Noted(snapshots[id], uid, category)];
      log := log + [Note(id, uid, category)];
    }
  }

  // ---- the environment ----

  /** What one `filesystem list` command, with its retries, came back with. */
  datatype Reply = Listing(children: seq<Entry>) | NotJson | Refused(category: string) | Crashed(kind: string)

  /** Proton may refuse or garble a listing; one it does return is the folder's. */
  method ListFolder(tree: Tree, uid: Uid) returns (reply: Reply)
    ensures reply.Listing? ==> uid in tree && reply.children == tree[uid]
  {
    reply := *;
    if reply.Listing? {
      reply := if uid in tree then Listing(tree[uid]) else Refused("EXIT_1");
    }
  }

  /** Which of the listings under way finish next. */
  method WaitFirst(inFlight: set<nat>) returns (done: set<nat>)
    requires inFlight != {}
    ensures done != {} && done <= inFlight
  {
    var guess: set<nat> := *;
    done := guess * inFlight;
    if done == {} {
      done := inFlight;
    }
  }

  method Now() returns (t: nat)
  {
    t := *;
  }

  // ---- the walk ----

  /** What a round of landings came to. */
  datatype Verdict = AllListed | LostSession | ListingFailed

  /** An authentication failure outranks success, and any other failure outranks both. */
  function Worse(outcome: Verdict, landed: Verdict): Verdict {
    if landed == LostSession && outcome != ListingFailed then LostSession
    else if landed == ListingFailed then ListingFailed
    else outcome
  }

  datatype RunResult = Done | Stopped | Failed(error: string)

  ghost function Unfinished(tree: Tree, s: Snapshot): set<Uid> {
    set u | u in tree && !(u in s.folders && s.folders[u].status == Complete)
  }

  lemma CommitShrinksUnfinished(tree: Tree, s: Snapshot, uid: Uid)
    requires uid in tree && AllUsable(tree[uid]) && IsPending(s, uid)
    ensures Unfinished(tree, Committed(s, uid, tree[uid])) < Unfinished(tree, s)
  {
    assert tree[uid][..|tree[uid]|] == tree[uid];
    var c := Committed(s, uid, tree[uid]);
    assert uid in Unfinished(tree, s) && uid !in Unfinished(tree, c);
  }

  /** While the queues are rebuilt: a pending folder is queued once, or still to be queued. */
  ghost predicate Spread(queues: Queues, todo: set<Uid>, s: Snapshot, u: Uid) {
    Count(queues, u) + One(u in todo) == One(IsPending(s, u))
  }

  lemma SpreadOne(queues: Queues, todo: set<Uid>, s: Snapshot, w: nat, uid: Uid, u: Uid)
    requires w < |queues| && uid in todo && Spread(queues, todo, s, u)
    ensures Spread(queues[w := queues[w] + [uid]], todo - {uid}, s, u)
  {
    CountUpdate(queues, w, queues[w] + [uid], u);
    AppendCount(queues[w], [uid], u);
  }

  const RESCUES: nat := 3

  class Walk {
    const db: Database
    const id: nat
    const workers: nat
    const deadline: Option<nat>

    /** What the snapshot was opened for. */
    ghost const purpose: string
    ghost const destination: string

    /** The checksum that spreads a resumed walk's folders over the workers. */
    const checksum: string -> nat

    var queues: Queues
    var inFlight: Flights
    var nextFuture: nat
    var rescues: nat
    var listed: nat

    /** The walk's snapshot is there and still open. */
    ghost predicate IsOpen()
      reads db
    {
      && db.Valid() && IsTree(db.tree)
      && id in db.snapshots && db.snapshots[id].status == Running && Walks(db.snapshots[id], purpose, destination)
    }

    ghost function Rows(): Snapshot
      reads db
      requires id in db.snapshots
    {
      db.snapshots[id]
    }

    ghost predicate Valid()
      reads this, db
    {
      && IsOpen()
      && 1 <= workers == |queues|
      && (forall f :: f in inFlight ==> f < nextFuture)
      && Owned(queues, inFlight, Rows())
    }

    constructor (db: Database, id: nat, walkWorkers: int, deadline: Option<nat>, checksum: string -> nat)
      requires id in db.snapshots
      ensures Walks(db.snapshots[id], purpose, destination)
      ensures this.db == db && this.id == id && this.deadline == deadline && this.checksum == checksum
      ensures workers == if walkWorkers < 1 then 1 else walkWorkers
      ensures queues == seq(workers, _ => []) && inFlight == map[] && nextFuture == 0
      ensures rescues == 0 && listed == 0
    {
      purpose, destination := db.snapshots[id].purpose, db.snapshots[id].destination;
      this.db, this.id, this.deadline, this.checksum := db, id, deadline, checksum;
      var n: nat := if walkWorkers < 1 then 1 else walkWorkers;
      workers := n;
      queues := seq(n, _ => []);
      inFlight := map[];
      nextFuture, rescues, listed := 0, 0, 0;
    }

    /** Rebuilds the queues from the PENDING rows, spread by the top-level folder's name. */
    method LoadPending()
      requires IsOpen() && 1 <= workers && queues == seq(workers, _ => []) && inFlight == map[]
      modifies `queues
      ensures Valid()
    {
      var folders := db.snapshots[id].folders;
      var todo := set u | u in folders && folders[u].status == Pending;
      forall u ensures Spread(queues, todo, Rows(), u) {
        CountEmpty(queues, u);
      }
      while todo != {}
        invariant |queues| == workers && inFlight == map[]
        invariant todo <= folders.Keys
        invariant forall u :: Spread(queues, todo, Rows(), u)
        decreases todo
      {
        var uid :| uid in todo;
        var segments := folders[uid].place.segments;
        var w := checksum(if segments == [] then "" else segments[0]) % workers;
        ghost var queues', todo' := queues[w := queues[w] + [uid]], todo - {uid};
        forall u ensures Spread(queues', todo', Rows(), u) {
          SpreadOne(queues, todo, Rows(), w, uid, u);
        }
        queues := queues[w := queues[w] + [uid]];
        todo := todo - {uid};
      }
      forall u ensures OwnedOnce(queues, inFlight, Rows(), u) {
        assert Spread(queues, todo, Rows(), u);
      }
    }

    /** The first of the longest queues. */
    method Longest() returns (w: nat)
      requires 1 <= |queues|
      ensures w < |queues| && forall v :: 0 <= v < |queues| ==> |queues[v]| <= |queues[w]|
    {
      w := 0;
      var v := 1;
      while v < |queues|
        invariant w < v <= |queues|
        invariant forall x :: 0 <= x < v ==> |queues[x]| <= |queues[w]|
      {
        if |queues[w]| < |queues[v]| {
          w := v;
        }
        v := v + 1;
      }
    }

    /** Gives an idle worker its own next folder, or one stolen from the longest queue. */
    method Assign(worker: nat)
      requires Valid() && KeyedByUid(Rows())
      requires worker < workers && forall f :: f in inFlight ==> inFlight[f].worker != worker
      modifies `queues, `inFlight, `nextFuture
      ensures Valid()
      ensures forall f :: f in inFlight ==> f in old(inFlight) || inFlight[f].worker == worker
      ensures old(inFlight) != map[] ==> inFlight != map[]
      ensures forall f :: f in old(inFlight) ==> f in inFlight && inFlight[f] == old(inFlight)[f]
      ensures Busy(inFlight, worker) || AllEmpty(queues)
      ensures forall w :: Busy(old(inFlight), w) ==> Busy(inFlight, w)
      ensures AllEmpty(old(queues)) ==> AllEmpty(queues)
      ensures old(queues)[worker] != [] ==> TakenFrom(old(queues), queues, worker)
      ensures old(queues)[worker] == [] && !AllEmpty(old(queues)) ==>
        exists w :: IsLongest(old(queues), w) && TakenFrom(old(queues), queues, w)
    {
      var from := worker;
      if queues[from] == [] {
        from := Longest();
      }
      if queues[from] != [] {
        var uid := queues[from][0];
        DispatchKeepsOwned(queues, inFlight, Rows(), from, worker, nextFuture);
        var folder := db.snapshots[id].folders[uid].place;
        queues := queues[from := queues[from][1..]];
        assert TakenFrom(old(queues), queues, from);
        inFlight := inFlight[nextFuture := Slot(worker, folder)];
        assert nextFuture in inFlight && inFlight[nextFuture].worker == worker;
        nextFuture := nextFuture + 1;
      }
    }

    lemma EmptyMeansDone()
      requires Valid() && inFlight == map[] && AllEmpty(queues)
      ensures NothingPending(Rows())
    {
      forall u | u in Rows().folders ensures Rows().folders[u].status == Complete {
        CountEmpty(queues, u);
        assert OwnedOnce(queues, inFlight, Rows(), u);
      }
    }

    lemma UidsAreKeys()
      requires IsOpen()
      ensures KeyedByUid(Rows())
    {
      ReplayIsSound(db.tree, db.log);
    }

    /**
     Gives every idle worker a folder: afterwards no worker is idle while a folder waits. With
     nothing in flight afterwards, nothing is pending.
     */
    method Dispatch()
      requires Valid()
      modifies `queues, `inFlight, `nextFuture
      ensures Valid()
      ensures AllEmpty(queues) || forall w: nat :: w < workers ==> Busy(inFlight, w)
      ensures inFlight == map[] ==> NothingPending(Rows())
    {
      UidsAreKeys();
      var busy := set f | f in inFlight :: inFlight[f].worker;
      var worker := 0;
      while worker < workers
        invariant worker <= workers && Valid() && KeyedByUid(Rows())
        invariant forall f :: f in inFlight ==> inFlight[f].worker in busy || inFlight[f].worker < worker
        invariant forall w :: w in busy ==> Busy(inFlight, w)
        invariant AllEmpty(queues) || forall w: nat :: w < worker ==> Busy(inFlight, w)
      {
        if worker !in busy {
          Assign(worker);
        }
        worker := worker + 1;
      }
      if inFlight == map[] {
        assert !Busy(inFlight, 0);
        EmptyMeansDone();
      }
    }

    /** A refused listing: noted, and put back at the head of its worker's queue. */
    method Requeue(future: nat, category: string)
      requires Valid() && future in inFlight
      modifies `queues, `inFlight, db
      ensures Valid() && inFlight == old(inFlight) - {future}
      ensures db.log == old(db.log) + [Note(id, old(inFlight)[future].folder.uid, category)]
      ensures SameQueueState(old(Rows()), Rows())
    {
      var slot := inFlight[future];
      RequeueKeepsOwned(queues, inFlight, Rows(), future, Noted(Rows(), slot.folder.uid, category));
      db.NoteFailure(id, slot.folder.uid, category);
      queues := queues[slot.worker := [slot.folder.uid] + queues[slot.worker]];
      inFlight := inFlight - {future};
    }

    /** Its folder is complete: the listing leaves flight, and what it found joins its worker's queue. */
    method Enqueue(future: nat, found: seq<Uid>)
      requires IsOpen() && 1 <= workers == |queues| && future in inFlight && inFlight[future].worker < workers
      requires forall f :: f in inFlight ==> f < nextFuture
      requires Owned(queues[inFlight[future].worker := queues[inFlight[future].worker] + found],
                     inFlight - {future}, Rows())
      modifies `queues, `inFlight, `listed
      ensures Valid() && inFlight == old(inFlight) - {future}
    {
      var worker := inFlight[future].worker;
      queues := queues[worker := queues[worker] + found];
      inFlight := inFlight - {future};
      listed := listed + 1;
    }

    /** A listing that came back: committed, its subfolders queued to the worker that listed it. */
    method Accept(future: nat, children: seq<Entry>) returns (r: Result<(), string>)
      requires Valid() && future in inFlight
      requires inFlight[future].folder.uid in db.tree && children == db.tree[inFlight[future].folder.uid]
      modifies `queues, `inFlight, `listed, db
      ensures IsOpen()
      ensures r.Ok? <==> AllUsable(children)
      ensures r.Raised? ==> db.log == old(db.log) && db.snapshots == old(db.snapshots)
      ensures r.Ok? ==>
        && Valid() && inFlight == old(inFlight) - {future}
        && db.log == old(db.log) + [Commit(id, old(inFlight)[future].folder.uid)]
        && Unfinished(db.tree, Rows()) < old(Unfinished(db.tree, Rows()))
    {
      var slot := inFlight[future];
      var uid := slot.folder.uid;
      ghost var rows := Rows();
      SlotIsPending(queues, inFlight, rows, future);
      var queued := db.CommitListing(id, slot.folder, children);
      if queued.Raised? {
        inFlight := inFlight - {future};
        return Raised(queued.error);
      }
      CommitKeepsOwned(queues, inFlight, rows, future, children);
      CommitShrinksUnfinished(db.tree, rows, uid);
      Enqueue(future, queued.value);
      r := Ok(());
    }

    /** Handles one finished listing. */
    method Land(future: nat) returns (r: Result<Verdict, string>)
      requires Valid() && future in inFlight
      modifies `queues, `inFlight, `listed, db
      ensures IsOpen() && OnlyWalked(old(db.log), db.log, id)
      ensures Progress(old(Unfinished(db.tree, Rows())), Unfinished(db.tree, Rows()), r == Ok(AllListed))
      ensures r.Ok? ==> Valid() && inFlight == old(inFlight) - {future}
    {
      var reply := ListFolder(db.tree, inFlight[future].folder.uid);
      match reply
      case NotJson =>
        inFlight := inFlight - {future};
        r := Raised("Proton filesystem list was not a JSON array");
      case Crashed(kind) =>
        db.NoteFailure(id, inFlight[future].folder.uid, kind);
        inFlight := inFlight - {future};
        r := Raised(kind);
      case Refused(category) =>
        Requeue(future, category);
        r := Ok(if category == "AUTH" then LostSession else ListingFailed);
      case Listing(children) =>
        var accepted := Accept(future, children);
        r := if accepted.Ok? then Ok(AllListed) else Raised(accepted.error);
    }

    /** One more landing of a turn, after others that came to `outcome`. */
    method LandAlso(future: nat, outcome: Verdict, ghost began: seq<Tx>, ghost left: set<Uid>, ghost others: bool)
      returns (r: Result<Verdict, string>)
      requires Valid() && future in inFlight && OnlyWalked(began, db.log, id)
      requires Progress(left, Unfinished(db.tree, Rows()), outcome == AllListed && others)
      modifies `queues, `inFlight, `listed, db
      ensures IsOpen() && OnlyWalked(began, db.log, id)
      ensures Progress(left, Unfinished(db.tree, Rows()), r == Ok(AllListed))
      ensures r.Ok? ==> Valid() && inFlight == old(inFlight) - {future}
    {
      ghost var sofar, fewer := db.log, Unfinished(db.tree, Rows());
      r := Land(future);
      WalkedOn(began, sofar, db.log, id);
      ProgressGoesOn(left, fewer, Unfinished(db.tree, Rows()), outcome == AllListed && others, r == Ok(AllListed));
      if r.Ok? {
        r := Ok(Worse(outcome, r.value));
      }
    }

    /** Lands every listing in `done`, in whatever order they are handed out. */
    method Collect(done: set<nat>) returns (r: Result<Verdict, string>)
      requires Valid() && done <= inFlight.Keys
      modifies `queues, `inFlight, `listed, db
      ensures IsOpen() && OnlyWalked(old(db.log), db.log, id)
      ensures Progress(old(Unfinished(db.tree, Rows())), Unfinished(db.tree, Rows()), r == Ok(AllListed) && done != {})
      ensures r.Ok? ==> Valid() && forall f :: f in inFlight <==> f in old(inFlight) && f !in done
    {
      ghost var began, left := db.log, Unfinished(db.tree, Rows());
      r := Ok(AllListed);
      var todo := done;
      while todo != {}
        invariant r.Ok? && Valid() && todo <= done
        invariant forall f :: f in inFlight <==> f in old(inFlight) && (f in done ==> f in todo)
        invariant OnlyWalked(began, db.log, id)
        invariant Progress(left, Unfinished(db.tree, Rows()), r.value == AllListed && todo != done)
        decreases todo
      {
        var future :| future in todo;
        r := LandAlso(future, r.value, began, left, todo != done);
        if r.Raised? {
          return;
        }
        todo := todo - {future};
      }
    }

    /** A worker's refresh lost the race: adopt the session that won, three times at most. */
    method Rescue() returns (ok: bool)
      requires Valid() && rescues <= RESCUES
      modifies `rescues
      ensures Valid() && rescues == old(rescues) + 1
      ensures ok <==> rescues <= RESCUES
    {
      rescues := rescues + 1;
      ok := rescues <= RESCUES;
    }

    method PastDeadline() returns (past: bool)
      ensures deadline.None? ==> !past
    {
      var t := Now();
      past := deadline.Some? && deadline.value <= t;
    }

    /** One turn's landings; once anything went wrong or time is up, the rest land as well. */
    method LandTurn() returns (r: Result<Verdict, string>)
      requires Valid() && inFlight != map[]
      modifies `queues, `inFlight, `listed, db
      ensures IsOpen() && OnlyWalked(old(db.log), db.log, id)
      ensures Unfinished(db.tree, Rows()) <= old(Unfinished(db.tree, Rows()))
      ensures r.Ok? ==> Valid()
      ensures r == Ok(AllListed) ==> Unfinished(db.tree, Rows()) < old(Unfinished(db.tree, Rows()))
    {
      var done := WaitFirst(inFlight.Keys);
      r := Collect(done);
      if r.Raised? {
        return;
      }
      var past := PastDeadline();
      if r.value != AllListed || past {
        var drained := Collect(inFlight.Keys);
        if drained.Raised? {
          return drained;
        }
        if r.value == AllListed {
          r := drained;
        }
      }
    }

    /**
     Walks until nothing is pending, the deadline passes or something raises. Every turn that
     does none of these completes a folder or spends a rescue, so the walk ends.
     */
    method Run() returns (r: RunResult)
      requires IsOpen() && 1 <= workers && queues == seq(workers, _ => []) && inFlight == map[] && rescues == 0
      modifies this, db
      ensures IsOpen() && OnlyWalked(old(db.log), db.log, id)
      ensures r == Done ==> NothingPending(Rows())
      ensures deadline.None? ==> r != Stopped
    {
      LoadPending();
      while true
        invariant Valid() && rescues <= RESCUES && OnlyWalked(old(db.log), db.log, id)
        decreases RESCUES - rescues, Unfinished(db.tree, Rows())
      {
        Dispatch();
        if inFlight == map[] {
          return Done;
        }
        var outcome := LandTurn();
        if outcome.Raised? {
          return Failed(outcome.error);
        }
        if outcome.value == ListingFailed {
          return Failed("Proton filesystem_list exhausted retries");
        }
        if outcome.value == LostSession {
          var ok := Rescue();
          if !ok {
            return Failed("Proton session could not be recovered for the walk");
          }
        }
        var past := PastDeadline();
        if past {
          return Stopped;
        }
      }
    }
  }

  /**
   The inventory of Proton: resumes or starts a snapshot, walks it, and closes it when the
   walk finished. A walk that finished always closes.
   */
  method Inventory(
    db: Database, purpose: string, destination: string, reuseComplete: bool,
    walkWorkers: int, deadline: Option<nat>, checksum: string -> nat)
    returns (r: Result<nat, string>)
    requires db.Valid() && IsTree(db.tree)
    modifies db
    ensures db.Valid() && old(db.log) <= db.log
    ensures r.Ok? ==> r.value in db.snapshots && Walks(db.snapshots[r.value], purpose, destination)
    ensures FinishedAreExact(db.tree, db.snapshots)
    ensures r.Ok? && deadline.None? ==> db.snapshots[r.value].status == Finished
  {
    var snapshot := db.OpenSnapshot(purpose, destination, reuseComplete);
    if snapshot.None? {
      var latest := db.Latest(purpose, destination);
      ReplayIsExact(db.tree, db.log);
      return Ok(latest.value);
    }
    var id := snapshot.value;
    var walk := new Walk(db, id, walkWorkers, deadline, checksum);
    var result := walk.Run();
    if result.Failed? {
      r := Raised(result.error);
    } else {
      if result == Done {
        var closed := db.CloseSnapshot(id);
      }
      r := Ok(id);
    }
    ReplayIsExact(db.tree, db.log);
  }
}
