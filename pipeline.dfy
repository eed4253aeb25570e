/** The three stages wired through four pipes, as the program starts them:
    requests go into the first pipe, the spawning stage feeds the moving
    stage, which feeds the paper stage, whose output is the last pipe. The
    stages are run one after another, each until it stops or its input is
    empty, which is one of the schedules the threads allow. */
module Pipeline {
  import opened Vectors
  import opened Particles
  import opened Pipes
  import opened Spawning
  import opened Moving
  import opened Painting

  /** The requests the spawning stage takes: a prefix of them, all of them
      when there is no terminal sentinel, and otherwise one that ends with
      the first terminal sentinel and holds no other. */
  function Taken(requests: seq<Particle>): (s: seq<Particle>)
    ensures |s| <= |requests| && s == requests[..|s|]
    ensures !HasClose(requests) ==> s == requests
    ensures HasClose(requests) ==> EndsWithClose(s)
  {
    if HasClose(requests) then
      StopPrefixEndsWithClose(requests);
      requests[..StopIndex(requests)]
    else
      requests[..StopIndex(requests)]
  }

  /** The spawning stage's output carries the terminal sentinel exactly when
      the requests do, and then only as its last record; apart from the
      sentinels it holds exactly the children requested. */
  lemma SpawnedWhole(requests: seq<Particle>, draws: nat -> nat -> Sample)
    ensures !HasClose(SpawnAll(Taken(requests), draws)) || EndsWithClose(SpawnAll(Taken(requests), draws))
    ensures HasClose(SpawnAll(Taken(requests), draws)) <==> HasClose(requests)
    ensures Ordinary(SpawnAll(Taken(requests), draws)) == Requested(Taken(requests))
  {
    var s := Taken(requests);
    SpawnAllHasClose(s, draws);
    SpawnAllOrdinary(s, draws);
    if HasClose(requests) {
      StopPrefixEndsWithClose(requests);
      SpawnAllEndsWithClose(s, draws);
    }
  }

  /** When every record has settled, the moving stage's output has the
      codes of its input, so the paper stage takes all of it. */
  lemma SettledWhole(spawned: seq<Particle>, moved: seq<Particle>, planeY: real)
    requires |spawned| == |moved|
    requires forall i :: 0 <= i < |spawned| ==> Forwarded(spawned[i], moved[i], planeY)
    requires !HasClose(spawned) || EndsWithClose(spawned)
    ensures StopIndex(moved) == |moved|
    ensures HasClose(moved) <==> HasClose(spawned)
    ensures Ordinary(moved) == Ordinary(spawned)
  {
    ForwardedSameCodes(spawned, moved, planeY);
    SameCodesHasClose(spawned, moved);
    SameCodesOrdinary(spawned, moved);
    if HasClose(spawned) {
      SameCodesEndsWithClose(spawned, moved);
    }
    StopIndexWhole(moved);
  }

  /** The moving and paper stages compose: given what the moving stage
      took from `spawned` and forwarded as `moved`, and what the paper stage
      then took, every record that reached the paper is a forwarded copy of
      the spawned record at the same place, and all of them reach it exactly
      when none was left in flight. */
  lemma Compose(spawned: seq<Particle>, taken: nat, stuck: bool, forwarded: seq<Particle>,
                moved: seq<Particle>, landed: seq<Particle>, planeY: real)
    requires !HasClose(spawned) || EndsWithClose(spawned)
    requires taken <= StopIndex(spawned) && (!stuck ==> taken == StopIndex(spawned)) && (stuck ==> 0 < taken)
    requires forwarded == spawned[..taken] && |forwarded| == |moved| + (if stuck then 1 else 0)
    requires forall i :: 0 <= i < |moved| ==> Forwarded(forwarded[i], moved[i], planeY)
    requires landed == moved[..StopIndex(moved)]
    ensures |landed| <= |spawned| && (!stuck <==> |landed| == |spawned|)
    ensures forall i :: 0 <= i < |landed| ==> Forwarded(spawned[i], landed[i], planeY)
    ensures !stuck ==> landed == moved && Ordinary(landed) == Ordinary(spawned) &&
                       (HasClose(landed) <==> HasClose(spawned))
  {
    StopIndexWhole(spawned);
    forall i | 0 <= i < |landed| ensures Forwarded(spawned[i], landed[i], planeY) {
      assert landed[i] == moved[i] && forwarded[i] == spawned[i];
    }
    if !stuck {
      assert forwarded == spawned;
      SettledWhole(spawned, moved, planeY);
    }
  }

  /** A run of the moving stage that stopped with a record in flight took
      only records before the first terminal sentinel, so none reaches the
      paper stage. */
  lemma StuckLandsNoClose(spawned: seq<Particle>, taken: nat, forwarded: seq<Particle>,
                          moved: seq<Particle>, landed: seq<Particle>, planeY: real)
    requires 0 < taken <= StopIndex(spawned)
    requires forwarded == spawned[..taken] && |forwarded| == |moved| + 1
    requires forall i :: 0 <= i < |moved| ==> Forwarded(forwarded[i], moved[i], planeY)
    requires landed == moved[..StopIndex(moved)]
    ensures !HasClose(landed)
  {
    var before := spawned[..taken - 1];
    BeforeStopNoClose(spawned, taken - 1);
    forall i | 0 <= i < |moved| ensures Forwarded(before[i], moved[i], planeY) {
      assert before[i] == forwarded[i];
    }
    ForwardedSameCodes(before, moved, planeY);
    SameCodesHasClose(before, moved);
  }

  /** Pushes `requests` into a fresh pipe and runs the spawning stage from
      it into another fresh pipe; `closed1` is whether the first pipe ends
      closed. */
  method SpawnPhase(requests: seq<Particle>, draws: nat -> nat -> Sample) returns (q2: Pipe, closed1: bool)
    ensures fresh(q2) && !q2.closed && q2.items == SpawnAll(Taken(requests), draws)
    ensures closed1 == HasClose(requests)
  {
    var q1 := new Pipe();
    for i := 0 to |requests|
      invariant q1.items == requests[..i] && !q1.closed
    {
      q1.Push(requests[i]);
    }
    assert requests[..|requests|] == requests;
    q2 := new Pipe();
    var spawner := new SpawningStage();
    spawner.Run(q1, q2, draws);
    assert q2.items == [] + SpawnAll(Taken(requests), draws);
    closed1 := q1.closed;
  }

  /** Runs the moving stage from `q2` into a fresh pipe. A run that ends
      `stuck` holds an ordinary record in flight, the last one it took. */
  method MovePhase(q2: Pipe, planeY: real, fuel: nat)
    returns (q3: Pipe, stuck: bool, ghost taken: nat, ghost forwarded: seq<Particle>)
    modifies q2
    ensures fresh(q3) && !q3.closed
    ensures var s := old(q2.items);
      taken <= StopIndex(s) && (!stuck ==> taken == StopIndex(s)) &&
      (stuck ==> 0 < taken && !IsSentinel(s[taken - 1])) &&
      forwarded == s[..taken] && |forwarded| == |q3.items| + (if stuck then 1 else 0) &&
      (forall i :: 0 <= i < |q3.items| ==> Forwarded(forwarded[i], q3.items[i], planeY)) &&
      q2.items == s[taken..] && q2.closed == (old(q2.closed) || (!stuck && HasClose(s)))
  {
    q3 := new Pipe();
    var mover := new MovingStage(planeY);
    ghost var moved;
    stuck, taken, moved := mover.Run(q2, q3, fuel);
    forwarded := mover.consumed;
    assert forwarded == [] + old(q2.items)[..taken] && q3.items == [] + moved && mover.emitted == [] + moved;
  }

  /** Runs the paper stage from `q3` into a fresh pipe, on `paper` and a
      canvas that starts as `canvas`; `finished` is whether the stage
      returned. */
  method PaintPhase(q3: Pipe, paper: Paper, canvas: Canvas)
    returns (q4: Pipe, ghost landed: seq<Particle>, collisions: nat, misses: nat, total: nat,
             finalCanvas: Canvas, saved: seq<Canvas>, finished: bool)
    modifies q3
    ensures fresh(q4)
    ensures landed == old(q3.items)[..StopIndex(old(q3.items))]
    ensures q3.items == old(q3.items)[StopIndex(old(q3.items))..]
    ensures finished == HasClose(landed) && q3.closed == (old(q3.closed) || finished)
    ensures Outputs(landed, q4.items, paper) && (HasClose(landed) ==> EndsWithClose(q4.items))
    ensures Tally(canvas, landed, paper, total, collisions, misses, finalCanvas, saved)
    ensures total == collisions + misses
  {
    q4 := new Pipe();
    var painter := new PaperStage(paper, canvas);
    var out := painter.Run(q3, q4);
    landed := painter.consumed;
    collisions, misses, total := painter.collisions, painter.misses, painter.total;
    finalCanvas, saved := painter.canvas, painter.saved;
    finished := painter.done;
    StopPrefixHasClose(old(q3.items));
    assert landed == [] + old(q3.items)[..StopIndex(old(q3.items))];
    assert q4.items == [] + out && painter.emitted == [] + out;
  }

  /** Pushes `requests` into a fresh pipe and runs the three stages over it.
      `settled` says that every spawned record reached the plane of the
      paper within `fuel` integration steps; `closed1`, `closed2` and
      `closed3` say whether the first three pipes end closed. */
  method RunPipeline(requests: seq<Particle>, draws: nat -> nat -> Sample, paper: Paper,
                     canvas: Canvas, fuel: nat)
    returns (settled: bool, result: seq<Particle>, collisions: nat, misses: nat, total: nat,
             finalCanvas: Canvas, saved: seq<Canvas>, closed1: bool, closed2: bool, closed3: bool,
             ghost spawned: seq<Particle>, ghost landed: seq<Particle>)
    ensures spawned == SpawnAll(Taken(requests), draws)
    ensures |landed| <= |spawned| && (settled <==> |landed| == |spawned|)
    ensures forall i :: 0 <= i < |landed| ==> Forwarded(spawned[i], landed[i], paper.position.y)
    ensures Outputs(landed, result, paper)
    ensures total == Ordinary(landed) && collisions == Hits(landed, paper) &&
            misses == Misses(landed, paper) && total == collisions + misses
    ensures finalCanvas == PaintAll(canvas, landed, paper) && saved == Saves(canvas, landed, paper)
    ensures settled ==> total == Requested(Taken(requests))
    ensures settled ==> (HasClose(result) <==> HasClose(requests))
    ensures settled && HasClose(requests) ==> EndsWithClose(result)
    ensures Ordinary(spawned) == 0 ==> settled
    ensures closed1 == HasClose(requests)
    ensures closed2 == (settled && HasClose(requests)) && closed3 == closed2
  {
    var q2;
    q2, closed1 := SpawnPhase(requests, draws);
    spawned := q2.items;
    SpawnedWhole(requests, draws);
    var q3, stuck, taken, forwarded := MovePhase(q2, paper.position.y, fuel);
    settled := !stuck;
    closed2 := q2.closed;
    ghost var moved := q3.items;
    var q4, finished;
    q4, landed, collisions, misses, total, finalCanvas, saved, finished :=
      PaintPhase(q3, paper, canvas);
    result := q4.items;
    closed3 := q3.closed;
    Compose(spawned, taken, stuck, forwarded, moved, landed, paper.position.y);
    if settled {
      OutputsSameCodes(landed, result, paper);
      SameCodesHasClose(landed, result);
    } else {
      StuckLandsNoClose(spawned, taken, forwarded, moved, landed, paper.position.y);
      OrdinaryPositive(spawned, taken - 1);
    }
  }
}
