/**
 The trash phase: files that left Dropbox are looked up folder by folder, trashed by the UID
 recorded when they were mirrored, and only then dropped from the mirror.
 */
module Trash {
  import opened Common
  import opened Tables
  import opened BatchItems
  import opened CliPath
  import opened Protocol
  import opened Pipeline
  import opened ProtonTrash
  import Convergence

  function Parent(destination: string, d: Display): string {
    ParentCliPath(destination, d[..if d == [] then 0 else |d| - 1])
  }

  function NamesOf(children: seq<Found>): seq<string> {
    seq(|children|, i requires 0 <= i < |children| => children[i].name)
  }

  predicate IsDuplicate(children: seq<Found>, name: string) {
    multiset(NamesOf(children))[name] > 1
  }

  // ---- which node a row means ----

  predicate IsCandidate(c: Found, name: string) {
    c.isFile && c.name == name
  }

  /** The first file of that name. */
  ghost predicate IsFirst(children: seq<Found>, name: string, i: int) {
    0 <= i < |children| && IsCandidate(children[i], name) && forall j :: 0 <= j < i ==> !IsCandidate(children[j], name)
  }

  ghost predicate RecordedIsThere(children: seq<Found>, name: string, recorded: Option<string>) {
    exists c :: c in children && IsCandidate(c, name) && Some(c.uid) == recorded
  }

  /**
   The node to trash for a row: none only if no file has the name; the recorded one if it is
   there, never a twin; the first of that name otherwise.
   */
  ghost predicate Picks(children: seq<Found>, name: string, recorded: Option<string>, pick: Option<Found>) {
    && (pick.None? ==> forall c :: c in children ==> !IsCandidate(c, name))
    && (pick.Some? ==> pick.value in children && IsCandidate(pick.value, name))
    && (pick.Some? && RecordedIsThere(children, name, recorded) ==> Some(pick.value.uid) == recorded)
    && (pick.Some? && !RecordedIsThere(children, name, recorded) ==>
          exists i :: IsFirst(children, name, i) && children[i] == pick.value)
  }

  method Pick(children: seq<Found>, name: string, recorded: Option<string>) returns (pick: Option<Found>)
    ensures Picks(children, name, recorded, pick)
  {
    var first := None;
    for i := 0 to |children|
      invariant first.None? ==> forall j :: 0 <= j < i ==> !IsCandidate(children[j], name)
      invariant first.Some? ==> IsFirst(children, name, first.value)
      invariant forall j :: 0 <= j < i && IsCandidate(children[j], name) ==> Some(children[j].uid) != recorded
    {
      var c := children[i];
      if IsCandidate(c, name) {
        if Some(c.uid) == recorded {
          return Some(c);
        }
        if first.None? {
          first := Some(i);
        }
      }
    }
    pick := if first.Some? then Some(children[first.value]) else None;
  }

  // ---- what was seen and done ----

  /** The trash phase so far: the folders looked at, and the trash calls that returned. */
  datatype Doings = Doings(looks: set<Look>, returned: seq<set<string>>)

  ghost predicate NoLess(was: Doings, now: Doings) {
    was.looks <= now.looks && was.returned <= now.returned
  }

  /**
   `target` is the CLI path of the node this listing picks for the row, which has this UID: by
   UID exactly when the name is not unique in the folder.
   */
  ghost predicate Means(look: Look, row: DeletedRow, uid: string, target: string)
    requires look.Listed?
  {
    var name := Basename(row.display);
    exists pick: Found ::
      && Picks(look.children, name, row.uid, Some(pick)) && pick.uid == uid
      && target == ChildCliPath(look.parent, name, uid, IsDuplicate(look.children, name))
  }

  ghost predicate IsTargeted(look: Look, row: DeletedRow, uid: string, targets: set<string>)
    requires look.Listed?
  {
    exists target :: target in targets && Means(look, row, uid, target)
  }

  /** A trash call that returned had the picked node as a target. */
  ghost predicate WasTrashed(destination: string, done: Doings, row: DeletedRow, uid: string) {
    exists look, call :: look in done.looks && call in done.returned && look.Listed?
      && look.parent == Parent(destination, row.display) && IsTargeted(look, row, uid, call)
  }

  /** A listing of the file's folder had no file of its name. */
  ghost predicate WasMissing(destination: string, done: Doings, row: DeletedRow) {
    exists look :: look in done.looks && look.Listed? && look.parent == Parent(destination, row.display)
      && Picks(look.children, Basename(row.display), row.uid, None)
  }

  ghost predicate IsTrue(destination: string, done: Doings, row: DeletedRow, d: Deletion) {
    match d
    case Trashed(uid) => WasTrashed(destination, done, row, uid)
    case NotFound => WasMissing(destination, done, row)
    case ListingFailed => Unlisted(Parent(destination, row.display)) in done.looks
  }

  /** What this run recorded, it saw and did. */
  ghost predicate Truthful(destination: string, done: Doings, db: Tables, run: nat) {
    forall k :: k in db.deleted && (run, k) in db.deletions ==>
      IsTrue(destination, done, db.deleted[k], db.deletions[(run, k)])
  }

  lemma MoreIsTrue(destination: string, was: Doings, now: Doings, row: DeletedRow, d: Deletion)
    requires NoLess(was, now) && IsTrue(destination, was, row, d)
    ensures IsTrue(destination, now, row, d)
  {
    match d
    case Trashed(uid) =>
      var look, call :| look in was.looks && call in was.returned && look.Listed?
        && look.parent == Parent(destination, row.display) && IsTargeted(look, row, uid, call);
      assert look in now.looks && call in now.returned;
    case NotFound =>
      var look :| look in was.looks && look.Listed? && look.parent == Parent(destination, row.display)
        && Picks(look.children, Basename(row.display), row.uid, None);
      assert look in now.looks;
    case ListingFailed =>
  }

  lemma StaysTruthful(destination: string, was: Doings, now: Doings, db: Tables, run: nat)
    requires NoLess(was, now) && Truthful(destination, was, db, run)
    ensures Truthful(destination, now, db, run)
  {
    forall k | k in db.deleted && (run, k) in db.deletions
      ensures IsTrue(destination, now, db.deleted[k], db.deletions[(run, k)])
    {
      MoreIsTrue(destination, was, now, db.deleted[k], db.deletions[(run, k)]);
    }
  }

  // ---- recording ----

  type Deletions = map<(nat, Key), Deletion>

  ghost predicate AllNoted(d: Deletions, run: nat, keys: set<Key>) {
    forall k :: k in keys ==> (run, k) in d
  }

  /** Rows are only ever added or replaced, and only this run's, for these keys. */
  ghost predicate OnlyFor(was: Deletions, now: Deletions, run: nat, keys: set<Key>) {
    && (forall x :: x in was ==> x in now)
    && (forall x :: x in now && !(x.0 == run && x.1 in keys) ==> x in was && now[x] == was[x])
  }

  /** Nothing but outcomes for `keys` was recorded, and truthfully. */
  ghost predicate OnlyRecorded(destination: string, done: Doings, was: Tables, now: Tables, run: nat, keys: set<Key>) {
    && now == was.(deletions := now.deletions) && OnlyFor(was.deletions, now.deletions, run, keys)
    && Truthful(destination, done, now, run)
  }

  lemma RecordKeeps(
      destination: string, done: Doings, was: Tables, now: Tables, run: nat, keys: set<Key>, k: Key, deletion: Deletion)
    requires OnlyRecorded(destination, done, was, now, run, keys) && k in keys && k in now.deleted
    requires IsTrue(destination, done, now.deleted[k], deletion)
    ensures OnlyRecorded(destination, done, was, now.(deletions := now.deletions[(run, k) := deletion]), run, keys)
  {}

  lemma RecordedAgain(
      destination: string, done: Doings, was: Tables, mid: Tables, now: Tables, run: nat, keys: set<Key>,
      more: set<Key>)
    requires OnlyFor(was.deletions, mid.deletions, run, keys) && mid == was.(deletions := mid.deletions)
    requires OnlyRecorded(destination, done, mid, now, run, more) && more <= keys
    ensures OnlyRecorded(destination, done, was, now, run, keys)
  {}

  lemma NotedStaysNoted(
      destination: string, done: Doings, mid: Tables, now: Tables, run: nat, keys: set<Key>, noted: set<Key>)
    requires AllNoted(mid.deletions, run, noted) && OnlyRecorded(destination, done, mid, now, run, keys)
    ensures AllNoted(now.deletions, run, noted)
  {}

  /** One row's outcome, in its own transaction. */
  method Record(p: Process, key: Key, deletion: Deletion)
    requires p.Valid() && TrashOpen(p.world) && key in p.db.deleted
    modifies p`db, p`world, p`trace
    ensures p.Valid() && TrashOpen(p.world) && old(p.trace) <= p.trace && p.world.past == old(p.world.past)
    ensures p.db == old(p.db).(deletions := old(p.db.deletions)[(p.run, key) := deletion])
  {
    p.db := p.db.(deletions := p.db.deletions[(p.run, key) := deletion]);
    p.Take(After(RecordDeletion(key, deletion)));
  }

  /** One more outcome, truthfully recorded. */
  method RecordTrue(
      p: Process, key: Key, deletion: Deletion, ghost destination: string, ghost doings: Doings, ghost was: Tables,
      ghost keys: set<Key>, ghost noted: set<Key>)
    requires p.Valid() && TrashOpen(p.world) && key in keys && key in p.db.deleted
    requires OnlyRecorded(destination, doings, was, p.db, p.run, keys) && AllNoted(p.db.deletions, p.run, noted)
    requires IsTrue(destination, doings, p.db.deleted[key], deletion)
    modifies p`db, p`world, p`trace
    ensures p.Valid() && TrashOpen(p.world) && old(p.trace) <= p.trace && p.world.past == old(p.world.past)
    ensures OnlyRecorded(destination, doings, was, p.db, p.run, keys)
    ensures AllNoted(p.db.deletions, p.run, noted + {key})
  {
    RecordKeeps(destination, doings, was, p.db, p.run, keys, key, deletion);
    Record(p, key, deletion);
  }

  /** Each of these outcomes is so. */
  ghost predicate AllTrue(destination: string, done: Doings, rows: map<Key, DeletedRow>, outcomes: map<Key, Deletion>) {
    forall k :: k in outcomes ==> k in rows && IsTrue(destination, done, rows[k], outcomes[k])
  }

  /** Records each outcome, in its own transaction. */
  method RecordAll(p: Process, outcomes: map<Key, Deletion>, ghost destination: string, ghost doings: Doings)
    requires p.Valid() && TrashOpen(p.world) && Truthful(destination, doings, p.db, p.run)
    requires AllTrue(destination, doings, p.db.deleted, outcomes)
    modifies p`db, p`world, p`trace
    ensures p.Valid() && TrashOpen(p.world) && old(p.trace) <= p.trace && p.world.past == old(p.world.past)
    ensures OnlyRecorded(destination, doings, old(p.db), p.db, p.run, outcomes.Keys)
    ensures AllNoted(p.db.deletions, p.run, outcomes.Keys)
  {
    ghost var was := p.db;
    var done: set<Key> := {};
    while outcomes.Keys - done != {}
      invariant done <= outcomes.Keys && p.Valid() && TrashOpen(p.world) && old(p.trace) <= p.trace
      invariant p.world.past == old(p.world.past)
      invariant OnlyRecorded(destination, doings, was, p.db, p.run, outcomes.Keys)
      invariant AllNoted(p.db.deletions, p.run, done)
      decreases outcomes.Keys - done
    {
      var k :| k in outcomes.Keys - done;
      RecordTrue(p, k, outcomes[k], destination, doings, was, outcomes.Keys, done);
      done := done + {k};
    }
    NothingLeft(outcomes.Keys, done);
  }

  /** Each found file's node is a target, as the listing picked it. */
  ghost predicate AllTargeted(look: Look, rows: map<Key, DeletedRow>, found: map<Key, string>, targets: set<string>)
    requires look.Listed?
  {
    forall k :: k in found ==> k in rows && IsTargeted(look, rows[k], found[k], targets)
  }

  /** What looking up one file adds to the trash call's targets. */
  method LookUp(row: DeletedRow, look: Look) returns (r: Option<(string, string)>)
    requires look.Listed?
    ensures r.None? ==> Picks(look.children, Basename(row.display), row.uid, None)
    ensures r.Some? ==> Means(look, row, r.value.0, r.value.1)
  {
    var name := Basename(row.display);
    var pick := Pick(look.children, name, row.uid);
    if pick.None? {
      return None;
    }
    var uid := pick.value.uid;
    r := Some((uid, ChildCliPath(look.parent, name, uid, IsDuplicate(look.children, name))));
  }

  lemma TargetJoins(
      look: Look, rows: map<Key, DeletedRow>, found: map<Key, string>, targets: set<string>,
      k: Key, uid: string, target: string)
    requires look.Listed? && AllTargeted(look, rows, found, targets) && k in rows && Means(look, rows[k], uid, target)
    ensures AllTargeted(look, rows, found[k := uid], targets + {target})
  {
    var now := found[k := uid];
    forall j | j in now ensures j in rows && IsTargeted(look, rows[j], now[j], targets + {target}) {
      if j == k {
        assert target in targets + {target};
      } else {
        var t :| t in targets && Means(look, rows[j], now[j], t);
        assert t in targets + {target};
      }
    }
  }

  /** Looks up one folder's files: what is not there is recorded at once, the rest is to be trashed. */
  method LookUpAll(p: Process, destination: string, look: Look, group: set<Key>, ghost doings: Doings)
    returns (found: map<Key, string>, targets: set<string>)
    requires p.Valid() && TrashOpen(p.world) && group <= p.db.deleted.Keys && look in doings.looks && look.Listed?
    requires forall k :: k in group ==> Parent(destination, p.db.deleted[k].display) == look.parent
    requires Truthful(destination, doings, p.db, p.run)
    modifies p`db, p`world, p`trace
    ensures p.Valid() && TrashOpen(p.world) && old(p.trace) <= p.trace && p.world.past == old(p.world.past)
    ensures OnlyRecorded(destination, doings, old(p.db), p.db, p.run, group)
    ensures found.Keys <= group && AllNoted(p.db.deletions, p.run, group - found.Keys)
    ensures AllTargeted(look, p.db.deleted, found, targets)
  {
    found, targets := map[], {};
    var done: set<Key> := {};
    while group - done != {}
      invariant done <= group && p.Valid() && TrashOpen(p.world) && old(p.trace) <= p.trace
      invariant p.world.past == old(p.world.past)
      invariant OnlyRecorded(destination, doings, old(p.db), p.db, p.run, group)
      invariant found.Keys <= done && AllNoted(p.db.deletions, p.run, done - found.Keys)
      invariant AllTargeted(look, p.db.deleted, found, targets)
      decreases group - done
    {
      var k :| k in group - done;
      var got := LookUp(p.db.deleted[k], look);
      if got.None? {
        RecordTrue(p, k, Deletion.NotFound, destination, doings, old(p.db), group, done - found.Keys);
      } else {
        TargetJoins(look, p.db.deleted, found, targets, k, got.value.0, got.value.1);
        found := found[k := got.value.0];
        targets := targets + {got.value.1};
      }
      done := done + {k};
    }
    NothingLeft(group, done);
  }

  /** The trash call returned: its files are trashed, each under the UID picked for it. */
  lemma TargetedWereTrashed(
      destination: string, doings: Doings, look: Look, rows: map<Key, DeletedRow>, found: map<Key, string>,
      targets: set<string>)
    requires look.Listed? && look in doings.looks && targets in doings.returned
    requires AllTargeted(look, rows, found, targets)
    requires forall k :: k in found && k in rows ==> Parent(destination, rows[k].display) == look.parent
    ensures AllTrue(destination, doings, rows, AsTrashed(found))
  {}

  function AsTrashed(found: map<Key, string>): (outcomes: map<Key, Deletion>)
    ensures outcomes.Keys == found.Keys
  {
    map k | k in found :: Trashed(found[k])
  }

  /** The rest of a folder's files were recorded before the trash call, these after it. */
  lemma AllOfTheGroup(
      destination: string, doings: Doings, was: Tables, mid: Tables, now: Tables, run: nat, group: set<Key>,
      found: set<Key>)
    requires OnlyFor(was.deletions, mid.deletions, run, group) && mid == was.(deletions := mid.deletions)
    requires found <= group && AllNoted(mid.deletions, run, group - found)
    requires OnlyRecorded(destination, doings, mid, now, run, found) && AllNoted(now.deletions, run, found)
    ensures OnlyRecorded(destination, doings, was, now, run, group) && AllNoted(now.deletions, run, group)
  {
    RecordedAgain(destination, doings, was, mid, now, run, group, found);
    NotedStaysNoted(destination, doings, mid, now, run, found, group - found);
    assert group == (group - found) + found;
  }

  // ---- the phase ----

  function GroupOf(destination: string, rows: map<Key, DeletedRow>, parent: string): set<Key> {
    set k | k in rows && Parent(destination, rows[k].display) == parent
  }

  function ParentsOf(destination: string, rows: map<Key, DeletedRow>): set<string> {
    set k | k in rows :: Parent(destination, rows[k].display)
  }

  lemma NothingFound(look: Look, rows: map<Key, DeletedRow>, found: map<Key, string>)
    requires look.Listed? && AllTargeted(look, rows, found, {})
    ensures found == map[]
  {
    assert forall k :: k in found ==> IsTargeted(look, rows[k], found[k], {});
    assert forall k :: k !in found;
  }

  /** The listing answered: trash what is found, record every file of the folder. */
  method TrashFound(p: Process, can: Trashcan, destination: string, look: Look, group: set<Key>, ghost looks: set<Look>)
    returns (ok: bool)
    requires p.Valid() && TrashOpen(p.world) && group <= p.db.deleted.Keys && look in looks && look.Listed?
    requires forall k :: k in group ==> Parent(destination, p.db.deleted[k].display) == look.parent
    requires Truthful(destination, Doings(looks, can.returned), p.db, p.run)
    modifies p`db, p`world, p`trace, can
    ensures p.Valid() && TrashOpen(p.world) && old(p.trace) <= p.trace && p.world.past == old(p.world.past)
    ensures old(can.returned) <= can.returned
    ensures OnlyRecorded(destination, Doings(looks, can.returned), old(p.db), p.db, p.run, group)
    ensures ok ==> AllNoted(p.db.deletions, p.run, group)
  {
    ghost var was, before := p.db, Doings(looks, can.returned);
    var found, targets := LookUpAll(p, destination, look, group, before);
    if targets == {} {
      NothingFound(look, p.db.deleted, found);
      return true;
    }
    ghost var mid := p.db;
    p.Take(After(TrashCall(targets)));
    ok := can.Trash(targets);
    ghost var doings := Doings(looks, can.returned);
    StaysTruthful(destination, before, doings, mid, p.run);
    if ok {
      TargetedWereTrashed(destination, doings, look, mid.deleted, found, targets);
      RecordAll(p, AsTrashed(found), destination, doings);
      AllOfTheGroup(destination, doings, was, mid, p.db, p.run, group, found.Keys);
    }
  }

  /** What has been seen and done. */
  ghost function Seen(lister: Lister, can: Trashcan): Doings
    reads lister, can
  {
    Doings(lister.looks, can.returned)
  }

  /** One folder: list it, trash what is found, record every file of it. A trash call that raises ends the phase. */
  method TrashGroup(
      p: Process, lister: Lister, can: Trashcan, destination: string, parent: string, group: set<Key>)
    returns (ok: bool)
    requires p.Valid() && TrashOpen(p.world) && group <= p.db.deleted.Keys
    requires forall k :: k in group ==> Parent(destination, p.db.deleted[k].display) == parent
    requires Truthful(destination, Seen(lister, can), p.db, p.run)
    modifies p`db, p`world, p`trace, lister, can
    ensures p.Valid() && TrashOpen(p.world) && old(p.trace) <= p.trace && p.world.past == old(p.world.past)
    ensures OnlyRecorded(destination, Seen(lister, can), old(p.db), p.db, p.run, group)
    ensures NoLess(old(Seen(lister, can)), Seen(lister, can))
    ensures ok ==> AllNoted(p.db.deletions, p.run, group)
  {
    ghost var before := Seen(lister, can);
    var children := lister.ListChildren(parent);
    StaysTruthful(destination, before, Seen(lister, can), p.db, p.run);
    if children.Raised? {
      // The files may well still be there: their rows stay for the next run.
      RecordAll(p, map k | k in group :: Deletion.ListingFailed, destination, Seen(lister, can));
      return true;
    }
    ok := TrashFound(p, can, destination, Listed(parent, children.value), group, lister.looks);
  }

  /** Every folder in turn. */
  method TrashGroups(p: Process, lister: Lister, can: Trashcan, destination: string) returns (ok: bool)
    requires p.Valid() && TrashOpen(p.world) && Truthful(destination, Seen(lister, can), p.db, p.run)
    modifies p`db, p`world, p`trace, lister, can
    ensures p.Valid() && TrashOpen(p.world) && old(p.trace) <= p.trace && p.world.past == old(p.world.past)
    ensures OnlyRecorded(destination, Seen(lister, can), old(p.db), p.db, p.run, p.db.deleted.Keys)
    ensures ok ==> AllNoted(p.db.deletions, p.run, p.db.deleted.Keys)
  {
    var rows := p.db.deleted;
    ghost var done: set<Key> := {};
    var parents := ParentsOf(destination, rows);
    ok := true;
    while parents != {}
      invariant p.Valid() && TrashOpen(p.world) && old(p.trace) <= p.trace && p.world.past == old(p.world.past)
      invariant OnlyRecorded(destination, Seen(lister, can), old(p.db), p.db, p.run, rows.Keys)
      invariant AllNoted(p.db.deletions, p.run, done)
      invariant forall k :: k in rows && k !in done ==> Parent(destination, rows[k].display) in parents
      decreases parents
    {
      var parent :| parent in parents;
      parents := parents - {parent};
      var group := GroupOf(destination, rows, parent);
      ghost var mid := p.db;
      ok := TrashGroup(p, lister, can, destination, parent, group);
      RecordedAgain(destination, Seen(lister, can), old(p.db), mid, p.db, p.run, rows.Keys, group);
      if !ok {
        return;
      }
      NotedStaysNoted(destination, Seen(lister, can), mid, p.db, p.run, group, done);
      done := done + group;
    }
    assert forall k :: k in rows ==> k in done;
  }

  /** Drops from the mirror what was trashed or not found, in one transaction. */
  method DropGone(p: Process)
    requires p.Valid() && TrashOpen(p.world)
    modifies p`db, p`world, p`trace
    ensures p.Valid() && TrashOpen(p.world) && old(p.trace) <= p.trace
    ensures p.db == old(p.db).(mirror := old(p.db.mirror) - Gone(old(p.db), p.run))
    ensures p.world.past == old(p.world.past).(dropped := old(p.world.past.dropped) + Gone(old(p.db), p.run))
  {
    var gone := set k | k in p.db.deleted && (p.run, k) in p.db.deletions && !p.db.deletions[(p.run, k)].ListingFailed?;
    assert gone == Gone(p.db, p.run);
    p.db := p.db.(mirror := p.db.mirror - gone);
    p.Take(After(DropDeleted));
  }

  /** What the phase may leave when it ends. */
  ghost predicate MirrorKeptOrDropped(was: Tables, now: Tables, run: nat) {
    now.mirror == was.mirror || now.mirror == was.mirror - Gone(now, run)
  }

  /** Looks up and trashes what there is, drops it from the mirror, and ships the state. */
  method Sweep(p: Process, lister: Lister, can: Trashcan, destination: string) returns (swept: Result<(), string>)
    requires p.Valid() && TrashOpen(p.world) && Truthful(destination, Seen(lister, can), p.db, p.run)
    modifies p`db, p`world, p`trace, p.store, p.dir, lister, can
    ensures p.Valid() && old(p.trace) <= p.trace && p.world.phase != NoRun && p.world.phase != Looping
    ensures Swept(destination, Seen(lister, can), old(p.db), p.db, p.run)
    ensures swept.Ok? ==> AllNoted(p.db.deletions, p.run, p.db.deleted.Keys)
    ensures swept.Ok? ==> p.world.phase == LoopOver && p.db.mirror == old(p.db.mirror) - Gone(p.db, p.run)
    ensures swept.Ok? ==> p.world.past.dropped == old(p.world.past.dropped) + Gone(p.db, p.run)
    ensures p.world.past.reconciled == old(p.world.past.reconciled)
  {
    var ok := TrashGroups(p, lister, can, destination);
    if !ok {
      return Raised("the trash call failed");
    }
    DropGone(p);
    var shipped := p.PushState();
    swept := if shipped then Ok(()) else Raised("the state could not be shipped");
  }

  /** What a sweep may do to the tables: truthful records, and the mirror as it was or without what is gone. */
  ghost predicate Swept(destination: string, doings: Doings, was: Tables, now: Tables, run: nat) {
    && now == was.(deletions := now.deletions, mirror := now.mirror)
    && OnlyFor(was.deletions, now.deletions, run, now.deleted.Keys) && Truthful(destination, doings, now, run)
    && MirrorKeptOrDropped(was, now, run)
  }

  /**
   The phase. It waits for every batch to have landed. A file leaves the mirror only if this run
   recorded it as trashed, which the node picked for it in its folder's listing was, by a call
   that returned, or as not found in that listing; a folder that could not be listed keeps its
   rows, and a trash call that raised keeps them all. When the phase returns, the run's deletions
   are carried out.
   */
  method Run(p: Process, lister: Lister, can: Trashcan, destination: string) returns (r: Result<bool, string>)
    requires p.Valid() && p.world.phase != NoRun && p.world.phase != Looping
    requires Truthful(destination, Seen(lister, can), p.db, p.run)
    modifies p`db, p`world, p`trace, p.store, p.dir, lister, can
    ensures p.Valid() && old(p.trace) <= p.trace && p.world.phase != NoRun && p.world.phase != Looping
    ensures r == Ok(false) <==> !old(TrashOpen(p.world))
    ensures r == Ok(false) ==>
      p.world == old(p.world) && can.calls == old(can.calls) && lister.looks == old(lister.looks)
    ensures Swept(destination, Seen(lister, can), old(p.db), p.db, p.run)
    ensures r == Ok(true) ==> AllNoted(p.db.deletions, p.run, p.db.deleted.Keys)
    ensures r == Ok(true) ==> p.db.mirror == old(p.db.mirror) - Gone(p.db, p.run)
    ensures r == Ok(true) && old(Convergence.NoTrashYet(p.world)) ==> Convergence.TrashDone(p.world)
  {
    p.KnowsItsRun();
    if p.db.runs[p.run].remaining != Some(0) {
      return Ok(false);
    }
    if p.db.deleted == map[] {
      assert Gone(p.db, p.run) == {};
      return Ok(true);
    }
    var unreachable := MayFail();
    if unreachable {
      return Raised("the destination's UID could not be checked");
    }
    var swept := Sweep(p, lister, can, destination);
    r := if swept.Ok? then Ok(true) else Raised(swept.error);
  }
}
