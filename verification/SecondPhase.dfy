/**
 Why the trash gate needs one batches phase to a run. A second one selects only what is still
 PLANNED, so a batch the first one failed is behind it and out of its count: the gate it opens
 is right exactly when no batch of the run had failed before it began.
 */
module SecondPhase {
  import opened Common
  import opened Tables
  import opened Protocol
  import opened RunLoop
  import Example

  /** The protocol with a batches phase that may begin again where it ended. */
  ghost function NextTwice(w: World, s: Step): Option<World> {
    if s.Prepare? && s.prepare.BeginLoop? && w.phase == LoopOver && Selects(w.db, w.run, s.prepare.order)
    then Some(Begun(w, s.prepare.order))
    else Next(w, s)
  }

  ghost function Begun(w: World, order: seq<nat>): World {
    w.(phase := Looping, planned := order, completed := 0, step := Between)
  }

  ghost function ReplayTwice(start: World, trace: seq<Step>): Option<World> {
    if trace == [] then Some(start)
    else
      match ReplayTwice(start, trace[..|trace| - 1])
      case None => None
      case Some(w) => NextTwice(w, trace[|trace| - 1])
  }

  // ---- a phase from its selection to its end ----

  ghost predicate InPhase(trace: seq<Step>) {
    forall i :: 0 <= i < |trace| ==> trace[i].Work? || trace[i].Ship?
  }

  /** How a batch stands, compared with its selection: landed if the loop is past it, else as it was. */
  ghost predicate Stands(batches: map<nat, Batch>, order: seq<nat>, w: World, b: nat) {
    b in batches ==>
      && b in w.db.batches && w.db.batches[b].runId == batches[b].runId
      && (b !in order ==> w.db.batches[b].status == batches[b].status)
  }

  /** What holds from the selection on: `batches` are the rows as they were selected from. */
  ghost predicate Follows(batches: map<nat, Batch>, order: seq<nat>, w: World) {
    && w.planned == order && w.completed <= |order|
    && (w.phase == Looping || w.phase == LoopOver)
    && (forall b :: Stands(batches, order, w, b))
    && (forall b :: b in w.db.batches ==> b in batches)
    && (forall i :: 0 <= i < w.completed ==>
          order[i] in w.db.batches && w.db.batches[order[i]].status == BatchCheckpointed)
    && (w.phase == LoopOver ==>
          w.run in w.db.runs && w.db.runs[w.run].remaining == Some(|order| - w.completed))
  }

  ghost predicate Distinct(order: seq<nat>) {
    forall i, j :: 0 <= i < j < |order| ==> order[i] != order[j]
  }

  lemma WorkFollows(batches: map<nat, Batch>, order: seq<nat>, w: World, s: WorkStep)
    requires Follows(batches, order, w) && Distinct(order) && NextWork(w, s).Some?
    ensures Follows(batches, order, NextWork(w, s).value) && NextWork(w, s).value.run == w.run
  {
    WorkIsOnCurrent(w, s);
    var v := NextWork(w, s).value;
    var b := Current(w);
    assert b in order;
    forall c ensures Stands(batches, order, v, c) {
      assert Stands(batches, order, w, c);
    }
    forall i | 0 <= i < v.completed ensures v.db.batches[order[i]].status == BatchCheckpointed {
      assert order[i] != order[w.completed];
    }
  }

  lemma NextBatchFollows(batches: map<nat, Batch>, order: seq<nat>, w: World)
    requires Follows(batches, order, w) && NextShip(w, NextBatch).Some?
    ensures Follows(batches, order, NextShip(w, NextBatch).value)
  {
    var v := NextShip(w, NextBatch).value;
    forall c ensures Stands(batches, order, v, c) {
      assert Stands(batches, order, w, c);
    }
  }

  lemma EndFollows(batches: map<nat, Batch>, order: seq<nat>, w: World, s: ShipStep)
    requires Follows(batches, order, w) && Distinct(order) && (s.EndLoop? || s.Abort?) && NextShip(w, s).Some?
    ensures Follows(batches, order, NextShip(w, s).value)
  {
    var v := NextShip(w, s).value;
    forall c ensures Stands(batches, order, v, c) {
      assert Stands(batches, order, w, c);
      assert s.Abort? ==> w.planned[w.completed] in order;
    }
    forall i | 0 <= i < v.completed ensures v.db.batches[order[i]].status == BatchCheckpointed {
      assert s.Abort? ==> order[i] != order[w.completed];
    }
  }

  lemma ShipmentFollows(batches: map<nat, Batch>, order: seq<nat>, w: World, s: ShipStep)
    requires Follows(batches, order, w) && NextShip(w, s).Some?
    requires s.PutHistory? || s.CopyCanonical? || s.ClearStaging?
    ensures Follows(batches, order, NextShip(w, s).value)
  {
    forall c ensures Stands(batches, order, NextShip(w, s).value, c) {
      assert Stands(batches, order, w, c);
    }
  }

  lemma ShipFollows(batches: map<nat, Batch>, order: seq<nat>, w: World, s: ShipStep)
    requires Follows(batches, order, w) && Distinct(order) && NextShip(w, s).Some?
    ensures Follows(batches, order, NextShip(w, s).value) && NextShip(w, s).value.run == w.run
  {
    match s
    case PutHistory(_) => ShipmentFollows(batches, order, w, s);
    case CopyCanonical => ShipmentFollows(batches, order, w, s);
    case ClearStaging => ShipmentFollows(batches, order, w, s);
    case NextBatch => NextBatchFollows(batches, order, w);
    case EndLoop => EndFollows(batches, order, w, s);
    case Abort => EndFollows(batches, order, w, s);
  }

  lemma {:induction false} PhaseFollows(w: World, order: seq<nat>, trace: seq<Step>)
    requires Selects(w.db, w.run, order) && InPhase(trace) && Replay(Begun(w, order), trace).Some?
    ensures Follows(w.db.batches, order, Replay(Begun(w, order), trace).value)
    ensures Replay(Begun(w, order), trace).value.run == w.run
  {
    if trace != [] {
      var init, last := trace[..|trace| - 1], trace[|trace| - 1];
      PhaseFollows(w, order, init);
      var v := Replay(Begun(w, order), init).value;
      match last
      case Work(work) => WorkFollows(w.db.batches, order, v, work);
      case Ship(ship) => ShipFollows(w.db.batches, order, v, ship);
    }
  }

  ghost predicate NoneFailed(w: World) {
    forall b :: b in w.db.batches && w.db.batches[b].runId == w.run ==> w.db.batches[b].status != BatchFailed
  }

  /**
   From any world, selected from at any time: if the phase ends with nothing remaining, the gate
   it opens is right, every batch of the run CHECKPOINTED, if and only if no batch of the run was
   FAILED when the phase selected. The selection's own query can read that.
   */
  lemma GateIsRightIffNoneHadFailed(w: World, order: seq<nat>, trace: seq<Step>)
    requires Selects(w.db, w.run, order) && InPhase(trace) && Replay(Begun(w, order), trace).Some?
    requires TrashOpen(Replay(Begun(w, order), trace).value)
    ensures EveryBatchLanded(Replay(Begun(w, order), trace).value) <==> NoneFailed(w)
  {
    PhaseFollows(w, order, trace);
    var v := Replay(Begun(w, order), trace).value;
    forall b | b in w.db.batches && w.db.batches[b].runId == w.run
      ensures b in v.db.batches && v.db.batches[b].runId == v.run
      ensures v.db.batches[b].status == BatchCheckpointed <==> w.db.batches[b].status != BatchFailed
    {
      assert Stands(w.db.batches, order, v, b);
      if b in order {
        var i :| 0 <= i < |order| && order[i] == b;
      }
    }
    forall b | b in v.db.batches && v.db.batches[b].runId == v.run ensures w.db.batches[b].runId == w.run {
      assert Stands(w.db.batches, order, v, b);
    }
  }

  // ---- a failing run ----

  lemma {:induction false} OnceIsTwice(start: World, trace: seq<Step>)
    requires Replay(start, trace).Some?
    ensures ReplayTwice(start, trace) == Replay(start, trace)
  {
    if trace != [] {
      OnceIsTwice(start, trace[..|trace| - 1]);
    }
  }

  lemma TwiceExtends(start: World, trace: seq<Step>, s: Step)
    requires ReplayTwice(start, trace).Some?
    ensures ReplayTwice(start, trace + [s]) == NextTwice(ReplayTwice(start, trace).value, s)
  {
    assert (trace + [s])[..|trace + [s]| - 1] == trace;
  }

  /** The first phase's one batch raises. */
  lemma FirstPhaseFails() returns (trace: seq<Step>)
    ensures ReplayTwice(FirstWorld(), trace).Some?
    ensures var w := ReplayTwice(FirstWorld(), trace).value;
      && w.phase == LoopOver && w.run in w.db.runs && w.db.batches.Keys == {0}
      && w.db.batches[0].runId == w.run && w.db.batches[0].status == BatchFailed
  {
    var t := Example.Prepares();
    OnceIsTwice(FirstWorld(), t);
    TwiceExtends(FirstWorld(), t, Ship(Abort));
    trace := t + [Ship(Abort)];
  }

  lemma EmptyPhaseOpensTheGate(w: World)
    requires w.phase == Looping && w.planned == [] && w.completed == 0 && w.step == Between && w.run in w.db.runs
    requires 0 in w.db.batches && w.db.batches[0].runId == w.run && w.db.batches[0].status == BatchFailed
    ensures NextTwice(w, Ship(EndLoop)).Some?
    ensures var v := NextTwice(w, Ship(EndLoop)).value;
      TrashOpen(v) && !EveryBatchLanded(v) && NextTwice(v, After(TrashCall({"/a"}))).Some?
  {}

  /** A second phase then finds nothing to select, ends with nothing remaining, and opens the gate. */
  lemma SecondPhaseOpensTheGate() returns (trace: seq<Step>)
    ensures ReplayTwice(FirstWorld(), trace).Some?
    ensures var w := ReplayTwice(FirstWorld(), trace).value;
      TrashOpen(w) && !EveryBatchLanded(w) && NextTwice(w, After(TrashCall({"/a"}))).Some?
  {
    var t := FirstPhaseFails();
    var w := ReplayTwice(FirstWorld(), t).value;
    var again := Prepare(BeginLoop([]));
    assert Selects(w.db, w.run, []);
    TwiceExtends(FirstWorld(), t, again);
    var begun := Begun(w, []);
    assert ReplayTwice(FirstWorld(), t + [again]) == Some(begun);
    EmptyPhaseOpensTheGate(begun);
    TwiceExtends(FirstWorld(), t + [again], Ship(EndLoop));
    trace := t + [again] + [Ship(EndLoop)];
  }
}
