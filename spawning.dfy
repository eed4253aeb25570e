/** `spawning_stage`: expands spawn requests into child trajectories. */
module Spawning {
  import opened Vectors
  import opened Particles
  import opened Pipes

  /** What the random source supplies for one child: the cosine and sine of
      the rotation angle and the jitter added to each velocity axis. */
  datatype Draw = Draw(cos: real, sin: real, jx: real, jy: real, jz: real)

  /** The angle comes from `gen_range(-0.1..0.1)`, so its sine is at most
      0.1 in size and its cosine is positive; each jitter lies in [-0.1, 0.1). */
  predicate ValidDraw(d: Draw) {
    d.cos * d.cos + d.sin * d.sin == 1.0 && d.cos > 0.0 && -0.1 <= d.sin <= 0.1 &&
    -0.1 <= d.jx < 0.1 && -0.1 <= d.jy < 0.1 && -0.1 <= d.jz < 0.1
  }

  type Sample = d: Draw | ValidDraw(d) witness Draw(1.0, 0.0, 0.0, 0.0, 0.0)

  /** Rotation about the vertical axis: it keeps the vertical component and
      the horizontal length. */
  function Rotate(v: Vec3, s: Sample): (r: Vec3)
    ensures r.y == v.y
    ensures r.x * r.x + r.z * r.z == v.x * v.x + v.z * v.z
  {
    var c, n := s.cos, s.sin;
    calc {
      (c * v.x - n * v.z) * (c * v.x - n * v.z) + (n * v.x + c * v.z) * (n * v.x + c * v.z);
      (c * c + n * n) * (v.x * v.x) + (c * c + n * n) * (v.z * v.z);
      v.x * v.x + v.z * v.z;
    }
    Vec3(c * v.x - n * v.z, v.y, n * v.x + c * v.z)
  }

  /** One child of `parent`: aimed from the parent's position at its target,
      rotated and jittered by `s`, with code 0. */
  function Child(parent: Particle, s: Sample): (c: Particle)
    ensures c.particleCode == 0
    ensures c.position == parent.position && c.colour == parent.colour && c.target == parent.target
  {
    var r := Rotate(Sub(parent.target, parent.position), s);
    var vel := Vec3(r.x + s.jx, r.y + s.jy, r.z + s.jz);
    New(parent.position, vel, parent.colour, parent.target, 0)
  }

  /** A child's velocity is the rotated direction towards the target, off by
      less than 0.1 on every axis. */
  lemma ChildVelocityEnvelope(parent: Particle, s: Sample)
    ensures var base := Rotate(Sub(parent.target, parent.position), s);
      var v := Child(parent, s).velocity;
      -0.1 <= v.x - base.x < 0.1 && -0.1 <= v.y - base.y < 0.1 && -0.1 <= v.z - base.z < 0.1
  {
    var dir := Sub(parent.target, parent.position);
    var v := Child(parent, s).velocity;
    assert v == Vec3(s.cos * dir.x - s.sin * dir.z + s.jx, dir.y + s.jy, s.sin * dir.x + s.cos * dir.z + s.jz);
    assert Rotate(dir, s) == Vec3(s.cos * dir.x - s.sin * dir.z, dir.y, s.sin * dir.x + s.cos * dir.z);
  }

  /** The first `n` children, the i-th drawn with `draw(i)`. */
  function Children(parent: Particle, draw: nat -> Sample, n: nat): (r: seq<Particle>)
    ensures |r| == n
    ensures forall i :: 0 <= i < n ==> r[i] == Child(parent, draw(i))
  {
    if n == 0 then [] else Children(parent, draw, n - 1) + [Child(parent, draw(n - 1))]
  }

  /** No child is a terminal sentinel. */
  lemma {:induction false} ChildrenNoClose(parent: Particle, draw: nat -> Sample, n: nat)
    ensures !HasClose(Children(parent, draw, n))
  {
    if n > 0 {
      ChildrenNoClose(parent, draw, n - 1);
      HasCloseAppend(Children(parent, draw, n - 1), Child(parent, draw(n - 1)));
    }
  }

  /** Everything the stage pushes for one popped record: the record itself
      if it is a sentinel, else as many records as its code asks for (none
      for a code of 0 or below), all of code 0. */
  function SpawnOutput(p: Particle, draw: nat -> Sample): (r: seq<Particle>)
    ensures |r| == if IsSentinel(p) then 1 else if p.particleCode > 0 then p.particleCode else 0
    ensures !IsSentinel(p) ==> forall i :: 0 <= i < |r| ==> r[i].particleCode == 0
  {
    if p.particleCode == CLOSE || p.particleCode == SAVE then [p]
    else if p.particleCode > 0 then Children(p, draw, p.particleCode as nat)
    else []
  }

  /** Sentinels are forwarded unchanged; a spawn request of n yields exactly n
      records, each with code 0 and the parent's position, colour and target;
      any other code yields nothing. Only the terminal sentinel itself puts a
      terminal sentinel on the output. */
  lemma SpawnOutputCases(p: Particle, draw: nat -> Sample)
    ensures IsSentinel(p) ==> SpawnOutput(p, draw) == [p]
    ensures p.particleCode > 0 ==>
      |SpawnOutput(p, draw)| == p.particleCode &&
      forall c :: c in SpawnOutput(p, draw) ==>
        c.particleCode == 0 && c.position == p.position &&
        c.colour == p.colour && c.target == p.target
    ensures !IsSentinel(p) && p.particleCode <= 0 ==> SpawnOutput(p, draw) == []
    ensures HasClose(SpawnOutput(p, draw)) <==> p.particleCode == CLOSE
  {
    if p.particleCode > 0 {
      var r := SpawnOutput(p, draw);
      forall c | c in r
        ensures c.particleCode == 0 && c.position == p.position
        ensures c.colour == p.colour && c.target == p.target
      {
        var i :| 0 <= i < |r| && r[i] == c;
        assert c == Child(p, draw(i));
      }
      ChildrenNoClose(p, draw, p.particleCode as nat);
    } else if IsSentinel(p) {
      HasCloseAppend([], p);
    }
  }

  /** What the stage pushes for the records `s`, the i-th using `draws(i)`. */
  function SpawnAll(s: seq<Particle>, draws: nat -> nat -> Sample): seq<Particle> {
    if s == [] then []
    else SpawnAll(s[..|s| - 1], draws) + SpawnOutput(s[|s| - 1], draws(|s| - 1))
  }

  lemma SpawnAllSnoc(s: seq<Particle>, i: nat, draws: nat -> nat -> Sample)
    requires i < |s|
    ensures SpawnAll(s[..i + 1], draws) == SpawnAll(s[..i], draws) + SpawnOutput(s[i], draws(i))
  {
    assert s[..i + 1][..i] == s[..i];
  }

  /** The driver loop's bookkeeping: one more record consumed appends its
      output to what the stage has pushed so far. */
  lemma SpawnAllGrows(out0: seq<Particle>, before: seq<Particle>, after: seq<Particle>,
                      s: seq<Particle>, i: nat, draws: nat -> nat -> Sample)
    requires i < |s|
    requires before == out0 + SpawnAll(s[..i], draws)
    requires after == before + SpawnOutput(s[i], draws(i))
    ensures after == out0 + SpawnAll(s[..i + 1], draws)
  {
    SpawnAllSnoc(s, i, draws);
    Assoc(out0, SpawnAll(s[..i], draws), SpawnOutput(s[i], draws(i)));
  }

  /** The stage puts a terminal sentinel on its output exactly when it was given one. */
  lemma {:induction false} SpawnAllHasClose(s: seq<Particle>, draws: nat -> nat -> Sample)
    ensures HasClose(SpawnAll(s, draws)) <==> HasClose(s)
  {
    if s != [] {
      var n := |s| - 1;
      var init := s[..n];
      assert s == init + [s[n]];
      SpawnAllHasClose(init, draws);
      SpawnOutputCases(s[n], draws(n));
      HasCloseConcat(SpawnAll(init, draws), SpawnOutput(s[n], draws(n)));
      HasCloseAppend(init, s[n]);
    }
  }

  /** The terminal sentinel leaves the stage exactly once, after everything
      the stage pushed for earlier records. */
  lemma SpawnAllEndsWithClose(s: seq<Particle>, draws: nat -> nat -> Sample)
    requires EndsWithClose(s)
    ensures EndsWithClose(SpawnAll(s, draws))
  {
    var n := |s| - 1;
    SpawnAllHasClose(s[..n], draws);
    SpawnOutputCases(s[n], draws(n));
    var r := SpawnAll(s, draws);
    assert r == SpawnAll(s[..n], draws) + [s[n]];
    assert r[..|r| - 1] == SpawnAll(s[..n], draws);
  }

  /** The number of children the spawn requests in `s` ask for. */
  function Requested(s: seq<Particle>): nat {
    if s == [] then 0
    else
      var code := s[|s| - 1].particleCode;
      Requested(s[..|s| - 1]) + if code > 0 then code as nat else 0
  }

  lemma {:induction false} ChildrenOrdinary(parent: Particle, draw: nat -> Sample, n: nat)
    ensures Ordinary(Children(parent, draw, n)) == n
  {
    if n > 0 {
      var r := Children(parent, draw, n);
      assert r[..n - 1] == Children(parent, draw, n - 1);
      ChildrenOrdinary(parent, draw, n - 1);
    }
  }

  /** Apart from the sentinels it forwards, the stage emits exactly as many
      records as the spawn requests it consumed ask for. */
  lemma {:induction false} SpawnAllOrdinary(s: seq<Particle>, draws: nat -> nat -> Sample)
    ensures Ordinary(SpawnAll(s, draws)) == Requested(s)
  {
    if s != [] {
      var n := |s| - 1;
      var p := s[n];
      var before, out := SpawnAll(s[..n], draws), SpawnOutput(p, draws(n));
      assert SpawnAll(s, draws) == before + out;
      SpawnAllOrdinary(s[..n], draws);
      OrdinaryConcat(before, out);
      assert Ordinary(out) == if p.particleCode > 0 then p.particleCode as nat else 0 by {
        if IsSentinel(p) {
          assert out[..0] == [];
        } else if p.particleCode > 0 {
          ChildrenOrdinary(p, draws(n), p.particleCode as nat);
        }
      }
    }
  }

  class SpawningStage {
    /** Set once the terminal sentinel has been handled (`return`). */
    var done: bool
    /** Every record popped so far, and every record pushed so far. */
    ghost var consumed: seq<Particle>
    ghost var emitted: seq<Particle>

    /** The stage has stopped exactly when it has taken the terminal sentinel,
        which was then the last record it took and the last it pushed. */
    ghost predicate Valid()
      reads this
    {
      (done <==> HasClose(consumed)) &&
      (done ==> consumed[|consumed| - 1].particleCode == CLOSE && EndsWithClose(emitted)) &&
      (!done ==> !HasClose(emitted))
    }

    constructor ()
      ensures Valid() && !done && consumed == [] && emitted == []
    {
      done := false;
      consumed := [];
      emitted := [];
    }

    /** One turn of the `while true` loop of `spawning_stage`. An empty input
        changes nothing (the source spins). */
    method Step(input: Pipe, output: Pipe, draw: nat -> Sample)
      requires Valid() && !done && input != output
      modifies this, input, output
      ensures Valid()
      ensures output.closed == old(output.closed)
      ensures old(input.items) == [] ==>
        input.items == old(input.items) && input.closed == old(input.closed) &&
        output.items == old(output.items) && !done &&
        consumed == old(consumed) && emitted == old(emitted)
      ensures old(input.items) != [] ==>
        var p := old(input.items)[0];
        var out := SpawnOutput(p, draw);
        input.items == old(input.items)[1..] &&
        input.closed == (old(input.closed) || p.particleCode == CLOSE) &&
        output.items == (if old(output.closed) then old(output.items) else old(output.items) + out) &&
        done == (p.particleCode == CLOSE) &&
        consumed == old(consumed) + [p] && emitted == old(emitted) + out
    {
      var dataOption := input.Pop();
      if dataOption.None? {
        return;
      }
      Handle(input, output, dataOption.value, draw);
    }

    /** The rest of one turn of `spawning_stage` once `data` has been popped. */
    method Handle(input: Pipe, output: Pipe, data: Particle, draw: nat -> Sample)
      requires Valid() && !done && input != output
      modifies this, input, output
      ensures Valid()
      ensures output.closed == old(output.closed)
      ensures var out := SpawnOutput(data, draw);
        input.items == old(input.items) &&
        input.closed == (old(input.closed) || data.particleCode == CLOSE) &&
        output.items == (if old(output.closed) then old(output.items) else old(output.items) + out) &&
        done == (data.particleCode == CLOSE) &&
        consumed == old(consumed) + [data] && emitted == old(emitted) + out
    {
      ghost var out := SpawnOutput(data, draw);
      SpawnOutputCases(data, draw);
      HasCloseAppend(consumed, data);
      HasCloseConcat(emitted, out);

      if data.particleCode == CLOSE {
        output.Push(data);
        input.Close();
        consumed := consumed + [data];
        assert (emitted + [data])[..|emitted|] == emitted;
        emitted := emitted + [data];
        done := true;
        return;
      }

      if data.particleCode == SAVE {
        output.Push(data);
        consumed := consumed + [data];
        emitted := emitted + [data];
        return;
      }

      if data.particleCode > 0 {
        PushChildren(output, data, draw);
      }
      consumed := consumed + [data];
      emitted := emitted + out;
    }

    /** The `for` loop that pushes the `n` children of a spawn request. */
    static method PushChildren(output: Pipe, data: Particle, draw: nat -> Sample)
      requires data.particleCode > 0
      modifies output
      ensures output.closed == old(output.closed)
      ensures output.items == if old(output.closed) then old(output.items)
                              else old(output.items) + Children(data, draw, data.particleCode as nat)
    {
      for i := 0 to data.particleCode
        invariant output.closed == old(output.closed)
        invariant output.items == if old(output.closed) then old(output.items)
                                  else old(output.items) + Children(data, draw, i)
      {
        output.Push(Child(data, draw(i)));
      }
    }

    /** The stage's loop, driven until it has handled the terminal sentinel
        or its input is empty; record i is expanded with `draws(i)`. */
    method Run(input: Pipe, output: Pipe, draws: nat -> nat -> Sample)
      requires Valid() && !done && input != output && !output.closed
      modifies this, input, output
      ensures Valid() && !output.closed
      ensures var s := old(input.items); var m := StopIndex(s);
        input.items == s[m..] &&
        consumed == old(consumed) + s[..m] &&
        output.items == old(output.items) + SpawnAll(s[..m], draws) &&
        (done <==> HasClose(s)) &&
        input.closed == (old(input.closed) || HasClose(s))
    {
      ghost var s, out0, taken0, closed0 := input.items, output.items, consumed, input.closed;
      ghost var m := StopIndex(s);
      var i := 0;
      var empty := input.IsEmpty();
      while !done && !empty
        invariant Valid() && !output.closed
        invariant 0 <= i <= m
        invariant empty <==> input.items == []
        invariant input.items == s[i..]
        invariant consumed == taken0 + s[..i]
        invariant output.items == out0 + SpawnAll(s[..i], draws)
        invariant done <==> 0 < i && s[i - 1].particleCode == CLOSE
        invariant input.closed == (closed0 || done)
        decreases |s| - i
      {
        StopIndexAhead(s, i);
        ghost var outBefore, takenBefore := output.items, consumed;
        var data := input.Pop();
        assert data.value == s[i];
        Handle(input, output, data.value, draws(i));
        SpawnAllGrows(out0, outBefore, output.items, s, i, draws);
        PrefixGrows(taken0, takenBefore, consumed, s, i);
        i := i + 1;
        empty := input.IsEmpty();
      }
      StopIndexReached(s, i, done);
    }
  }
}
