/**
 Chained runs. A run that asks to be chained leaves strictly less of its listing to do, so over
 a listing that does not change a chain ends within as many runs as it has changed files.
 */
module Chaining {
  import opened Common
  import opened Tables
  import opened BatchItems
  import opened Protocol
  import opened RunLoop
  import opened Convergence
  import opened Durable

  // ---- one run of a chain ----

  /** The run ended asking to be chained, and none of its files had vanished. */
  ghost predicate ChainsOn(w: World) {
    && w.phase == LoopOver && w.run in w.db.runs && w.db.runs[w.run].remaining.Some? && w.db.runs[w.run].chain
    && forall b, k :: HoldsItem(w.db.batches, w.run, b, k) ==> w.db.batches[b].items[k].status != Vanished
  }

  lemma ChainRecordsSomething(w: World)
    requires Accounted(w) && Tracked(w) && ChainsOn(w)
    ensures exists k :: Recorded(w.db.batches, w.run, k)
  {
    var b := w.planned[0];
    assert b in w.planned && Done(w.db.batches[b]);
    var items := w.db.batches[b].items;
    var j :| j in items;
    assert HoldsItem(w.db.batches, w.run, b, j);
    var k :| k in items && items[k].status == Checkpointed;
    assert RecordedIn(w.db.batches, w.run, b, k);
  }

  /** A run that ends asking to be chained leaves strictly less of its listing to do. */
  lemma ChainShrinksTheDelta(w: World)
    requires Accounted(w) && Tracked(w) && ChainsOn(w)
    ensures !w.past.reconciled && w.past.dropped == {}
    ensures Changed(w.db.listing, w.db.mirror) < Changed(w.db.listing, w.past.base)
  {
    ChainRecordsSomething(w);
    var m := w.db.mirror;
    assert m == w.past.base + w.past.landed by {
      assert (w.past.base + w.past.landed) - {} == w.past.base + w.past.landed;
    }
    var k :| Recorded(w.db.batches, w.run, k);
    LandedIsUnchanged(w.db.listing, w.past.base, w.past.landed, w.db.changed);
    assert k in w.past.landed && k in Changed(w.db.listing, w.past.base);
  }

  /** Merging rows that are the listing's takes exactly their keys out of the delta. */
  lemma LandedIsUnchanged(l: Listing, base: Mirror, landed: Mirror, changed: map<Key, ChangedRow>)
    requires forall k :: k in landed ==> k in changed && RowIs(landed[k], changed[k])
    requires forall k :: k in changed ==>
      k in l && Some(changed[k].size) == l[k].size && Some(changed[k].contentHash) == l[k].contentHash
    ensures Changed(l, base + landed) == Changed(l, base) - landed.Keys
  {}

  lemma SmallerSet<T>(a: set<T>, b: set<T>)
    requires a < b
    ensures |a| < |b|
  {
    SubsetSize(a, b);
  }

  /** The ends of a chain's runs, oldest first: each run starts from the mirror the one before it left. */
  ghost predicate IsChain(ends: seq<World>, l: Listing) {
    && (forall i :: 0 <= i < |ends| ==>
          Accounted(ends[i]) && Tracked(ends[i]) && ChainsOn(ends[i]) && ends[i].db.listing == l)
    && forall i :: 0 < i < |ends| ==> ends[i].past.base == ends[i - 1].db.mirror
  }

  lemma {:induction false} ChainIsShort(ends: seq<World>, l: Listing)
    requires IsChain(ends, l) && ends != []
    ensures |ends| + |Changed(l, ends[|ends| - 1].db.mirror)| <= |Changed(l, ends[0].past.base)|
  {
    var last := |ends| - 1;
    ChainShrinksTheDelta(ends[last]);
    SmallerSet(Changed(l, ends[last].db.mirror), Changed(l, ends[last].past.base));
    if |ends| > 1 {
      ChainIsShort(ends[..last], l);
    }
  }

  // ---- the successive runs of one trace ----

  /** The world after the first `n` steps. */
  ghost function WorldAt(trace: seq<Step>, n: nat): World
    requires n <= |trace| && Replay(FirstWorld(), trace[..n]).Some?
  {
    Replay(FirstWorld(), trace[..n]).value
  }

  lemma {:induction false} PrefixReplays(trace: seq<Step>, n: nat)
    requires n <= |trace| && Replay(FirstWorld(), trace).Some?
    ensures Replay(FirstWorld(), trace[..n]).Some?
    decreases |trace|
  {
    if n < |trace| {
      PrefixReplays(trace[..|trace| - 1], n);
      assert trace[..|trace| - 1][..n] == trace[..n];
    } else {
      assert trace[..n] == trace;
    }
  }

  lemma Steps(before: seq<Step>, s: Step, after: seq<Step>)
    requires after == before + [s] && Replay(FirstWorld(), before).Some? && Replay(FirstWorld(), after).Some?
    ensures Next(Replay(FirstWorld(), before).value, s) == Some(Replay(FirstWorld(), after).value)
  {
    ReplayExtends(FirstWorld(), before, s);
  }

  lemma OneMore(trace: seq<Step>, n: nat)
    requires n < |trace|
    ensures trace[..n + 1] == trace[..n] + [trace[n]]
  {}

  lemma StepOf(trace: seq<Step>, n: nat)
    requires n < |trace|
    requires Replay(FirstWorld(), trace[..n]).Some? && Replay(FirstWorld(), trace[..n + 1]).Some?
    ensures Next(WorldAt(trace, n), trace[n]) == Some(WorldAt(trace, n + 1))
  {
    OneMore(trace, n);
    Steps(trace[..n], trace[n], trace[..n + 1]);
  }

  /** Inside a run nothing moves the mirror it started from. */
  lemma {:induction false} BaseStays(trace: seq<Step>, lo: nat, hi: nat)
    requires lo <= hi <= |trace| && Replay(FirstWorld(), trace).Some?
    requires forall j :: lo <= j < hi ==> !trace[j].Outer?
    ensures Replay(FirstWorld(), trace[..lo]).Some? && Replay(FirstWorld(), trace[..hi]).Some?
    ensures WorldAt(trace, hi).past.base == WorldAt(trace, lo).past.base
    decreases hi
  {
    PrefixReplays(trace, lo);
    PrefixReplays(trace, hi);
    if lo < hi {
      BaseStays(trace, lo, hi - 1);
      StepOf(trace, hi - 1);
      StepKeepsBase(WorldAt(trace, hi - 1), trace[hi - 1]);
    }
  }

  /** A process that dies leaves the bucket as it is. */
  lemma {:induction false} BucketOutlivesCrashes(trace: seq<Step>, lo: nat, hi: nat)
    requires lo <= hi <= |trace| && Replay(FirstWorld(), trace).Some?
    requires forall j :: lo <= j < hi ==> trace[j] == Outer(Crash)
    ensures Replay(FirstWorld(), trace[..lo]).Some? && Replay(FirstWorld(), trace[..hi]).Some?
    ensures WorldAt(trace, hi).objects == WorldAt(trace, lo).objects
    decreases hi
  {
    PrefixReplays(trace, lo);
    PrefixReplays(trace, hi);
    if lo < hi {
      BucketOutlivesCrashes(trace, lo, hi - 1);
      StepOf(trace, hi - 1);
    }
  }

  /** Run `i` begins at step `starts[i]` and goes on to `ends[i]`; its process may then die. */
  ghost predicate RunsOf(trace: seq<Step>, starts: seq<nat>, ends: seq<nat>) {
    && |starts| == |ends|
    && (forall i :: 0 <= i < |starts| ==> starts[i] < ends[i] <= |trace|)
    && (forall i :: 0 <= i < |starts| ==> trace[starts[i]].Outer? && trace[starts[i]].outer.StartRun?)
    && (forall i, j :: 0 <= i < |starts| && starts[i] < j < ends[i] ==> !trace[j].Outer?)
    && (forall i :: 0 < i < |starts| ==> ends[i - 1] <= starts[i])
    && forall i, j :: 0 < i < |starts| && ends[i - 1] <= j < starts[i] ==> trace[j] == Outer(Crash)
  }

  /** Every one of these runs asks for the next, none of its files vanished, and all list the same. */
  ghost predicate AllChainOn(trace: seq<Step>, ends: seq<nat>, l: Listing)
    requires Replay(FirstWorld(), trace).Some? && forall i :: 0 <= i < |ends| ==> ends[i] <= |trace|
  {
    forall i :: 0 <= i < |ends| ==>
      Replay(FirstWorld(), trace[..ends[i]]).Some?
      && ChainsOn(WorldAt(trace, ends[i])) && WorldAt(trace, ends[i]).db.listing == l
  }

  lemma ChainedMirrorIsDurable(trace: seq<Step>)
    requires Replay(FirstWorld(), trace).Some? && AsksForChain(Replay(FirstWorld(), trace).value)
    ensures DurableMirror(Replay(FirstWorld(), trace).value.objects) == Replay(FirstWorld(), trace).value.db.mirror
  {
    EveryRunIsShipped(trace);
  }

  lemma StartReadsTheBucket(w: World, s: OuterStep)
    requires s.StartRun? && NextOuter(w, s).Some?
    ensures NextOuter(w, s).value.past.base == DurableMirror(w.objects)
  {}

  lemma NextStartsWhereItEnded(trace: seq<Step>, starts: seq<nat>, ends: seq<nat>, i: nat)
    requires Replay(FirstWorld(), trace).Some? && RunsOf(trace, starts, ends) && 0 < i < |starts|
    requires Replay(FirstWorld(), trace[..ends[i - 1]]).Some? && AsksForChain(WorldAt(trace, ends[i - 1]))
    ensures Replay(FirstWorld(), trace[..ends[i]]).Some?
    ensures WorldAt(trace, ends[i]).past.base == WorldAt(trace, ends[i - 1]).db.mirror
  {
    var e, s := ends[i - 1], starts[i];
    ChainedMirrorIsDurable(trace[..e]);
    BucketOutlivesCrashes(trace, e, s);
    PrefixReplays(trace, s + 1);
    StepOf(trace, s);
    StartReadsTheBucket(WorldAt(trace, s), trace[s].outer);
    BaseStays(trace, s + 1, ends[i]);
  }

  ghost function EndsOf(trace: seq<Step>, ends: seq<nat>, l: Listing): (worlds: seq<World>)
    requires Replay(FirstWorld(), trace).Some? && forall i :: 0 <= i < |ends| ==> ends[i] <= |trace|
    requires AllChainOn(trace, ends, l)
    ensures |worlds| == |ends| && forall i :: 0 <= i < |ends| ==> worlds[i] == WorldAt(trace, ends[i])
  {
    seq(|ends|, i requires 0 <= i < |ends| => WorldAt(trace, ends[i]))
  }

  lemma EndsAreAChain(trace: seq<Step>, starts: seq<nat>, ends: seq<nat>, l: Listing)
    requires Replay(FirstWorld(), trace).Some? && RunsOf(trace, starts, ends) && AllChainOn(trace, ends, l)
    ensures IsChain(EndsOf(trace, ends, l), l)
  {
    var worlds := EndsOf(trace, ends, l);
    forall i | 0 <= i < |ends| ensures Accounted(worlds[i]) && Tracked(worlds[i]) {
      EveryRunIsTracked(trace[..ends[i]]);
    }
    forall i | 0 < i < |ends| ensures worlds[i].past.base == worlds[i - 1].db.mirror {
      NextStartsWhereItEnded(trace, starts, ends, i);
    }
  }

  /**
   Chaining ends: the successive runs of one trace, each asking for the next over an unchanging
   listing, are no more than the files their first delta had.
   */
  lemma ChainingEnds(trace: seq<Step>, starts: seq<nat>, ends: seq<nat>, l: Listing)
    requires Replay(FirstWorld(), trace).Some? && RunsOf(trace, starts, ends) && AllChainOn(trace, ends, l)
    requires ends != []
    ensures |ends| + |Changed(l, WorldAt(trace, ends[|ends| - 1]).db.mirror)|
      <= |Changed(l, WorldAt(trace, ends[0]).past.base)|
  {
    EndsAreAChain(trace, starts, ends, l);
    ChainIsShort(EndsOf(trace, ends, l), l);
  }
}
