/** `moving_stage`: records fall under gravity and drag until they reach the
    plane of the paper. */
module Moving {
  import opened Vectors
  import opened Particles
  import opened Pipes

  const DRAG: real := 0.05
  const GRAVITY: Vec3 := Vec3(0.0, -9.8, 0.0)

  /** `delta_t` is kept as an integer count of 0.005 s ticks, so that the
      sawtooth is exact: it starts at -0.5 s, gains one tick per integration
      step and drops to -1.4 s once it exceeds 0.7 s. */
  const TICK_START: int := -100
  const TICK_MAX: int := 140
  const TICK_RESET: int := -280

  function DeltaT(k: int): real {
    (k as real) * 0.005
  }

  predicate TickInRange(k: int) {
    TICK_RESET <= k <= TICK_MAX
  }

  /** The three sawtooth constants stand for -0.5, 0.7 and -1.4 seconds, and
      every tick in range is a `delta_t` in [-1.4, 0.7]. */
  lemma DeltaTBounds(k: int)
    requires TickInRange(k)
    ensures DeltaT(TICK_START) == -0.5 && DeltaT(TICK_MAX) == 0.7 && DeltaT(TICK_RESET) == -1.4
    ensures -1.4 <= DeltaT(k) <= 0.7
  {
  }

  /** `delta_t += 0.005; if delta_t > 0.7 { delta_t = -1.4; }` */
  function NextTick(k: int): (k': int)
    ensures TICK_RESET - 1 <= k ==> TickInRange(k')
    ensures k' == k + 1 || (k' == TICK_RESET && k + 1 > TICK_MAX)
  {
    if k + 1 > TICK_MAX then TICK_RESET else k + 1
  }

  /** The tick after `n` integration steps. */
  function Ticks(k: int, n: nat): int
    decreases n
  {
    if n == 0 then k else Ticks(NextTick(k), n - 1)
  }

  /** Below the top the tick climbs one step at a time. */
  lemma {:induction false} TicksRise(k: int, n: nat)
    requires k + n <= TICK_MAX
    ensures Ticks(k, n) == k + n
    decreases n
  {
    if n > 0 {
      TicksRise(k + 1, n - 1);
    }
  }

  lemma {:induction false} TicksCompose(k: int, a: nat, b: nat)
    ensures Ticks(k, a + b) == Ticks(Ticks(k, a), b)
    decreases a
  {
    if a > 0 {
      TicksCompose(NextTick(k), a - 1, b);
    }
  }

  lemma {:induction false} TicksInRange(k: int, n: nat)
    requires TickInRange(k)
    ensures TickInRange(Ticks(k, n))
    decreases n
  {
    if n > 0 {
      TicksInRange(NextTick(k), n - 1);
    }
  }

  /** From any tick in range, the step after reaching 0.7 s lands on -1.4 s. */
  lemma TicksReset(k: int)
    requires TickInRange(k)
    ensures Ticks(k, TICK_MAX - k + 1) == TICK_RESET
  {
    TicksRise(k, TICK_MAX - k);
    TicksCompose(k, TICK_MAX - k, 1);
  }

  /** The sawtooth is periodic: 421 steps (2.105 s) bring any tick in range
      back to itself. */
  lemma TicksPeriod(k: int)
    requires TickInRange(k)
    ensures Ticks(k, 421) == k
  {
    TicksReset(k);
    TicksCompose(k, TICK_MAX - k + 1, 280 + k);
    TicksRise(TICK_RESET, 280 + k);
  }

  /** The distance covered in one step of length `dt`:
      `v*|dt| + (gravity - drag*(v*v)) * 0.5 * |dt|^2`. A step of length 0
      goes nowhere, there is no sideways drift without sideways velocity,
      and a record already falling does not rise. */
  function Distance(v: Vec3, dt: real): (d: Vec3)
    ensures dt == 0.0 ==> d == Zero
    ensures v.x == 0.0 ==> d.x == 0.0
    ensures v.z == 0.0 ==> d.z == 0.0
    ensures v.y <= 0.0 ==> d.y <= 0.0
  {
    var accel := Sub(GRAVITY, Scale(Mul(v, v), DRAG));
    Add(Scale(v, Abs(dt)), Scale(Scale(accel, 0.5), Abs(dt) * Abs(dt)))
  }

  /** The guard of the integration loop. Sentinels and codes below -1 never
      enter it. */
  predicate Airborne(p: Particle, planeY: real)
    ensures Airborne(p, planeY) ==> !IsSentinel(p) && p.particleCode >= 0 && p.position.y > planeY
  {
    p.position.y > planeY && p.particleCode > -1
  }

  /** The integration loop run for at most `fuel` steps from tick `k`,
      returning the record and the tick. Only the position of the record
      changes (its velocity is never updated), the tick stays in range, and a
      record that fails the guard is returned untouched. */
  function Fly(p: Particle, k: int, planeY: real, fuel: nat): (r: (Particle, int))
    ensures r.0 == p.(position := r.0.position)
    ensures TickInRange(k) ==> TickInRange(r.1)
    ensures !Airborne(p, planeY) ==> r == (p, k)
    decreases fuel
  {
    if !Airborne(p, planeY) || fuel == 0 then (p, k)
    else
      var k' := NextTick(k);
      Fly(p.(position := Add(p.position, Distance(p.velocity, DeltaT(k')))), k', planeY, fuel - 1)
  }

  /** Running the loop for `a` steps and then resuming it for `b` more is
      running it for `a + b` steps: a flight may be cut into pieces. */
  lemma {:induction false} FlyResume(p: Particle, k: int, planeY: real, a: nat, b: nat)
    ensures var r := Fly(p, k, planeY, a); Fly(r.0, r.1, planeY, b) == Fly(p, k, planeY, a + b)
    decreases a
  {
    if Airborne(p, planeY) && a > 0 {
      var k' := NextTick(k);
      FlyResume(p.(position := Add(p.position, Distance(p.velocity, DeltaT(k')))), k', planeY, a - 1, b);
    }
  }

  /** A record still airborne after the loop has used every step, so the
      tick has advanced exactly `fuel` times. */
  lemma {:induction false} FlyStillAirborne(p: Particle, k: int, planeY: real, fuel: nat)
    requires Airborne(Fly(p, k, planeY, fuel).0, planeY)
    ensures Fly(p, k, planeY, fuel).1 == Ticks(k, fuel)
    decreases fuel
  {
    if fuel > 0 {
      var k' := NextTick(k);
      FlyStillAirborne(p.(position := Add(p.position, Distance(p.velocity, DeltaT(k')))), k', planeY, fuel - 1);
    }
  }

  /** The inner `while` of `moving_stage`, for at most `fuel` iterations. */
  method Integrate(p: Particle, k: int, planeY: real, fuel: nat) returns (q: Particle, k': int)
    ensures (q, k') == Fly(p, k, planeY, fuel)
  {
    q, k' := p, k;
    var n := fuel;
    while q.position.y > planeY && q.particleCode > -1 && n > 0
      invariant Fly(q, k', planeY, n) == Fly(p, k, planeY, fuel)
      decreases n
    {
      ghost var k0 := k';
      k' := k' + 1;
      if k' > TICK_MAX {
        k' := TICK_RESET;
      }
      var distance := Distance(q.velocity, DeltaT(k'));
      assert k' == NextTick(k0);
      q := q.(position := Add(q.position, distance));
      n := n - 1;
    }
  }

  /** How record `a` may leave the stage as `b`: only its position differs,
      a record that entered the loop ends at or below the plane, and every
      other record (sentinels included) is forwarded unchanged. */
  predicate Forwarded(a: Particle, b: Particle, planeY: real) {
    b == a.(position := b.position) &&
    (a.particleCode > -1 ==> b.position.y <= planeY) &&
    (a.particleCode <= -1 ==> b == a)
  }

  /** Record `a` was taken and `r` is where the loop has left it so far. */
  predicate InFlight(a: Particle, r: Particle) {
    r == a.(position := r.position) && (a.particleCode <= -1 ==> r == a)
  }

  lemma ForwardedSameCodes(a: seq<Particle>, b: seq<Particle>, planeY: real)
    requires |a| == |b|
    requires forall i :: 0 <= i < |a| ==> Forwarded(a[i], b[i], planeY)
    ensures SameCodes(a, b)
  {
    forall j | 0 <= j < |a| ensures a[j].particleCode == b[j].particleCode {
      assert Forwarded(a[j], b[j], planeY);
    }
  }

  class MovingStage {
    /** The `y` of the paper position; the other coordinates are unused. */
    const planeY: real
    var tick: int
    var done: bool
    /** A record whose integration loop has not finished yet. The source
        stays inside that loop; here it is resumed by the next `Step`. */
    var inFlight: Option<Particle>
    ghost var consumed: seq<Particle>
    ghost var emitted: seq<Particle>

    /** The tick is in range; every record taken has been forwarded once, in
        order, except the one in flight; the stage has stopped exactly when
        it has taken the terminal sentinel, which is then the last record in
        and out. */
    ghost predicate Valid()
      reads this
    {
      TickInRange(tick) &&
      |consumed| == |emitted| + (if inFlight.Some? then 1 else 0) &&
      (forall i {:trigger Forwarded(consumed[i], emitted[i], planeY)} :: 0 <= i < |emitted| ==> Forwarded(consumed[i], emitted[i], planeY)) &&
      (inFlight.Some? ==> InFlight(consumed[|consumed| - 1], inFlight.value)) &&
      (done <==> HasClose(consumed)) &&
      (done ==> inFlight.None? && EndsWithClose(consumed) && EndsWithClose(emitted))
    }

    constructor (paperY: real)
      ensures Valid() && planeY == paperY && tick == TICK_START && !done && inFlight == None
      ensures consumed == [] && emitted == []
    {
      planeY := paperY;
      tick := TICK_START;
      done := false;
      inFlight := None;
      consumed := [];
      emitted := [];
    }

    /** The state after the loop has run `fuel` more steps on `p` from tick
        `k0`: a record that reached the plane has been pushed, one still
        above it stays in flight. */
    ghost predicate Flew(p: Particle, k0: int, fuel: nat, e0: seq<Particle>,
                         out0: seq<Particle>, closed0: bool, out: seq<Particle>)
      reads this
    {
      var r := Fly(p, k0, planeY, fuel);
      tick == r.1 &&
      if Airborne(r.0, planeY) then
        inFlight == Some(r.0) && emitted == e0 && out == out0
      else
        inFlight == None && emitted == e0 + [r.0] && out == Pushed(out0, closed0, r.0)
    }

    /** Runs the integration loop of the record in flight for at most `fuel`
        steps and pushes it once it has reached the plane. */
    method Resume(output: Pipe, fuel: nat) returns (ghost pushed: seq<Particle>)
      requires Valid() && inFlight.Some?
      modifies this, output
      ensures Valid()
      ensures !old(output.closed) ==> emitted == old(emitted) + pushed && output.items == old(output.items) + pushed
      ensures output.closed == old(output.closed)
      ensures consumed == old(consumed) && done == old(done)
      ensures Flew(old(inFlight).value, old(tick), fuel, old(emitted),
                   old(output.items), old(output.closed), output.items)
    {
      var p := inFlight.value;
      var q, k := Integrate(p, tick, planeY, fuel);
      tick := k;
      if q.position.y > planeY && q.particleCode > -1 {
        inFlight := Some(q);
        pushed := [];
      } else {
        output.Push(q);
        emitted := emitted + [q];
        inFlight := None;
        pushed := [q];
      }
    }

    /** The body of the `while true` loop of `moving_stage` for one popped
        record `data`. */
    method Handle(input: Pipe, output: Pipe, data: Particle, fuel: nat) returns (ghost pushed: seq<Particle>)
      requires Valid() && !done && inFlight.None? && input != output
      modifies this, input, output
      ensures Valid()
      ensures !old(output.closed) ==> emitted == old(emitted) + pushed && output.items == old(output.items) + pushed
      ensures output.closed == old(output.closed) && input.items == old(input.items)
      ensures consumed == old(consumed) + [data]
      ensures done == (data.particleCode == CLOSE)
      ensures input.closed == (old(input.closed) || data.particleCode == CLOSE)
      ensures IsSentinel(data) ==>
        tick == old(tick) && inFlight == None && emitted == old(emitted) + [data] &&
        output.items == Pushed(old(output.items), old(output.closed), data)
      ensures !IsSentinel(data) ==>
        Flew(data, old(tick), fuel, old(emitted), old(output.items), old(output.closed), output.items)
    {
      if data.particleCode == CLOSE {
        ForwardedSameCodes(consumed, emitted, planeY);
        SameCodesHasClose(consumed, emitted);
        HasCloseAppend(consumed, data);
        output.Push(data);
        input.Close();
        assert (consumed + [data])[..|consumed|] == consumed;
        assert (emitted + [data])[..|emitted|] == emitted;
        consumed := consumed + [data];
        emitted := emitted + [data];
        done := true;
        pushed := [data];
        return;
      }
      HasCloseAppend(consumed, data);
      if data.particleCode == SAVE {
        output.Push(data);
        consumed := consumed + [data];
        emitted := emitted + [data];
        pushed := [data];
        return;
      }
      consumed := consumed + [data];
      inFlight := Some(data);
      pushed := Resume(output, fuel);
    }

    /** One turn of the `while true` loop of `moving_stage`: resume the
        record in flight, or pop the next one (an empty input changes
        nothing). */
    method Step(input: Pipe, output: Pipe, fuel: nat)
      requires Valid() && !done && input != output
      modifies this, input, output
      ensures Valid()
      ensures output.closed == old(output.closed)
      ensures old(inFlight).Some? ==>
        input.items == old(input.items) && input.closed == old(input.closed) &&
        consumed == old(consumed) && !done &&
        Flew(old(inFlight).value, old(tick), fuel, old(emitted), old(output.items), old(output.closed), output.items)
      ensures old(inFlight).None? && old(input.items) == [] ==>
        input.items == old(input.items) && input.closed == old(input.closed) &&
        output.items == old(output.items) && tick == old(tick) && !done && inFlight == None &&
        consumed == old(consumed) && emitted == old(emitted)
      ensures old(inFlight).None? && old(input.items) != [] ==>
        var p := old(input.items)[0];
        input.items == old(input.items)[1..] &&
        input.closed == (old(input.closed) || p.particleCode == CLOSE) &&
        consumed == old(consumed) + [p] && done == (p.particleCode == CLOSE) &&
        (IsSentinel(p) ==>
          tick == old(tick) && inFlight == None && emitted == old(emitted) + [p] &&
          output.items == Pushed(old(output.items), old(output.closed), p)) &&
        (!IsSentinel(p) ==>
          Flew(p, old(tick), fuel, old(emitted), old(output.items), old(output.closed), output.items))
    {
      if inFlight.Some? {
        ghost var pushed := Resume(output, fuel);
        return;
      }
      var dataOption := input.Pop();
      if dataOption.None? {
        return;
      }
      ghost var pushed := Handle(input, output, dataOption.value, fuel);
    }

    /** `Handle` as the driver loop sees it: the record is taken, and what
        is pushed for it extends both the stage's output and the pipe. It
        models no code of its own; it exists so that the loop of `Run`
        reasons about this short contract instead of the case split of
        `Handle`. */
    method Take(input: Pipe, output: Pipe, data: Particle, fuel: nat) returns (ghost pushed: seq<Particle>)
      requires Valid() && !done && inFlight.None? && input != output && !output.closed
      modifies this, input, output
      ensures Valid() && !output.closed
      ensures emitted == old(emitted) + pushed && output.items == old(output.items) + pushed
      ensures input.items == old(input.items) && consumed == old(consumed) + [data]
      ensures done == (data.particleCode == CLOSE)
      ensures input.closed == (old(input.closed) || done)
      ensures inFlight.Some? ==> Airborne(inFlight.value, planeY)
    {
      pushed := Handle(input, output, data, fuel);
    }

    /** The stage's loop, driven until it has handled the terminal sentinel,
        its input is empty, or a record is still above the plane after
        `fuel` integration steps (`stuck`; the record stays in flight, and
        it is an ordinary record still above the plane). `taken` records
        were popped and `moved` is what was pushed. */
    method Run(input: Pipe, output: Pipe, fuel: nat) returns (stuck: bool, ghost taken: nat, ghost moved: seq<Particle>)
      requires Valid() && !done && inFlight.None? && input != output && !output.closed
      modifies this, input, output
      ensures Valid() && !output.closed
      ensures stuck <==> inFlight.Some?
      ensures stuck ==> Airborne(inFlight.value, planeY)
      ensures var s := old(input.items);
        taken <= StopIndex(s) && (!stuck ==> taken == StopIndex(s)) &&
        (stuck ==> 0 < taken && !IsSentinel(s[taken - 1]) && 0 <= s[taken - 1].particleCode) &&
        input.items == s[taken..] &&
        consumed == old(consumed) + s[..taken] &&
        emitted == old(emitted) + moved && output.items == old(output.items) + moved &&
        (done <==> !stuck && HasClose(s)) &&
        input.closed == (old(input.closed) || done)
    {
      ghost var s, out0, taken0, e0, closed0 := input.items, output.items, consumed, emitted, input.closed;
      ghost var m := StopIndex(s);
      taken, moved := 0, [];
      var empty := input.IsEmpty();
      while !done && !empty && inFlight.None?
        invariant Valid() && !output.closed
        invariant 0 <= taken <= m
        invariant empty <==> input.items == []
        invariant input.items == s[taken..]
        invariant consumed == taken0 + s[..taken]
        invariant emitted == e0 + moved && output.items == out0 + moved
        invariant done <==> 0 < taken && s[taken - 1].particleCode == CLOSE
        invariant inFlight.Some? ==> 0 < taken && Airborne(inFlight.value, planeY)
        invariant input.closed == (closed0 || done)
        decreases |s| - taken
      {
        StopIndexAhead(s, taken);
        ghost var takenBefore, movedBefore := consumed, moved;
        var data := input.Pop();
        assert data.value == s[taken];
        ghost var pushed := Take(input, output, data.value, fuel);
        Assoc(e0, moved, pushed);
        Assoc(out0, moved, pushed);
        moved := moved + pushed;
        PrefixGrows(taken0, takenBefore, consumed, s, taken);
        assert s[taken..][1..] == s[taken + 1..];
        taken := taken + 1;
        empty := input.IsEmpty();
      }
      stuck := inFlight.Some?;
      if !stuck {
        StopIndexReached(s, taken, done);
      }
    }
  }
}
