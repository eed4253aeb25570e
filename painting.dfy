/** `paper_stage`: counts records, tests them against the paper and blends
    the colour of every hit into one cell of the canvas. */
module Painting {
  import opened Vectors
  import opened Particles
  import opened Pipes

  /** The fields of `Paper` the stage reads: its position and extent. */
  datatype Paper = Paper(position: Vec3, width: real, height: real)

  /** The canvas, one colour per cell; a cell never written reads as black. */
  type Canvas = map<(int, int), Vec3>

  function Get(c: Canvas, key: (int, int)): Vec3 {
    if key in c then c[key] else Zero
  }

  /** Truncation toward zero, the rounding of Rust's float-to-int `as`. */
  function Trunc(r: real): (n: int)
    ensures 0.0 <= r ==> n as real <= r < n as real + 1.0
    ensures r < 0.0 ==> n as real - 1.0 < r <= n as real
  {
    if 0.0 <= r then r.Floor else -((-r).Floor)
  }

  /** `as i32` saturates at the bounds of the type. The contract is the
      definition, one clause per range of `n`. */
  function SatI32(n: int): (m: I32)
    ensures I32_MIN <= n <= I32_MAX ==> m == n
    ensures n > I32_MAX ==> m == I32_MAX
    ensures n < I32_MIN ==> m == I32_MIN
  {
    if n > I32_MAX then I32_MAX else if n < I32_MIN then I32_MIN else n
  }

  /** `as u32` saturates at both bounds of the type. */
  function SatU32(n: int): (m: nat)
    ensures 0 <= n <= 0xffff_ffff ==> m == n
    ensures n < 0 ==> m == 0
    ensures n > 0xffff_ffff ==> m == 0xffff_ffff
  {
    if n < 0 then 0 else if n > 0xffff_ffff then 0xffff_ffff else n
  }

  /** The number of columns of the image `Paper::new` allocates for a
      paper of width `w` (and of rows, for height `w`): a whole thousand
      per whole unit of width, so a paper narrower than 1 gets none. */
  function ImageSize(w: real): (n: nat)
    ensures n % 1000 == 0
    ensures 0.0 <= w < 0x1_0000_0000 as real ==> n as real <= w * 1000.0 < n as real + 1000.0
    ensures w < 1.0 ==> n == 0
  {
    SatU32(Trunc(w)) * 1000
  }

  /** The cell index along one axis of a record at coordinate `c` on a paper
      of extent `e`: `(c * 1000 + (e / 2) * 1000) as i32`. The paper's
      position does not enter. */
  function CellIndex(c: real, e: real): (i: I32)
    ensures var d := (c + e / 2.0) * 1000.0;
      (0.0 <= d <= I32_MAX as real ==> i as real <= d < i as real + 1.0) &&
      (0.0 <= d ==> 0 <= i) && (d < 0.0 ==> i <= 0)
  {
    SatI32(Trunc(c * 1000.0 + (e / 2.0) * 1000.0))
  }

  /** The collision test: both bounds inclusive on each axis, so a hit is
      a record at most half the extent away from the paper's centre. */
  predicate Hit(p: Particle, paper: Paper)
    ensures Hit(p, paper) <==>
      Abs(p.position.x - paper.position.x) <= paper.width / 2.0 &&
      Abs(p.position.z - paper.position.z) <= paper.height / 2.0
  {
    var xLower := -(paper.width / 2.0) + paper.position.x;
    var xUpper := (paper.width / 2.0) + paper.position.x;
    var zLower := -(paper.height / 2.0) + paper.position.z;
    var zUpper := (paper.height / 2.0) + paper.position.z;
    xLower <= p.position.x <= xUpper && zLower <= p.position.z <= zUpper
  }

  /** The cell a hit writes: its column counts the thousandths from the
      left edge of a paper of the same width centred at the origin to `x`,
      its row the same from `z` with the height. The paper's own position
      does not enter. */
  function Cell(p: Particle, paper: Paper): (r: (int, int))
    ensures var dx := (p.position.x + paper.width / 2.0) * 1000.0;
      0.0 <= dx <= I32_MAX as real ==> r.0 as real <= dx < r.0 as real + 1.0
    ensures var dz := (p.position.z + paper.height / 2.0) * 1000.0;
      0.0 <= dz <= I32_MAX as real ==> r.1 as real <= dz < r.1 as real + 1.0
  {
    (CellIndex(p.position.x, paper.width) as int, CellIndex(p.position.z, paper.height) as int)
  }

  /** `old * (1 - 0.1) + incoming * 0.1`: a convex combination, so a colour
      in the unit cube stays there, and a cell already at the incoming
      colour keeps it. */
  function Blend(current: Vec3, incoming: Vec3): (c: Vec3)
    ensures InUnitCube(current) && InUnitCube(incoming) ==> InUnitCube(c)
    ensures current == incoming ==> c == current
  {
    Add(Scale(current, 1.0 - 0.1), Scale(incoming, 0.1))
  }

  /** `set_pixel` after `get_pixel` on one cell: blends `incoming` into the
      cell `key` and leaves every other cell alone. */
  function BlendAt(c: Canvas, key: (int, int), incoming: Vec3): (r: Canvas)
    ensures Get(r, key) == Blend(Get(c, key), incoming)
    ensures forall other {:trigger Get(r, other)} :: other != key ==> Get(r, other) == Get(c, other)
  {
    c[key := Blend(Get(c, key), incoming)]
  }

  /** The canvas after one record: only a hit writes, and only its cell. */
  function Paint(c: Canvas, p: Particle, paper: Paper): (r: Canvas)
    ensures r == c || (!IsSentinel(p) && Hit(p, paper))
    ensures forall key {:trigger Get(r, key)} :: key != Cell(p, paper) ==> Get(r, key) == Get(c, key)
    ensures !IsSentinel(p) && Hit(p, paper) ==>
      Get(r, Cell(p, paper)) == Blend(Get(c, Cell(p, paper)), p.colour)
  {
    if IsSentinel(p) || !Hit(p, paper) then c
    else BlendAt(c, Cell(p, paper), p.colour)
  }

  /** The canvas after a whole sequence of records. */
  function PaintAll(c: Canvas, s: seq<Particle>, paper: Paper): Canvas {
    if s == [] then c else Paint(PaintAll(c, s[..|s| - 1], paper), s[|s| - 1], paper)
  }

  /** A canvas whose colours all lie in the unit cube keeps that property
      for any sequence of records whose colours do. */
  lemma {:induction false} PaintAllInUnitCube(c: Canvas, s: seq<Particle>, paper: Paper)
    requires forall key :: key in c ==> InUnitCube(c[key])
    requires forall i :: 0 <= i < |s| ==> InUnitCube(s[i].colour)
    ensures forall key :: InUnitCube(Get(PaintAll(c, s, paper), key))
  {
    if s == [] {
      forall key ensures InUnitCube(Get(c, key)) {
        if key !in c {
          assert Get(c, key) == Zero;
        }
      }
    } else {
      var n := |s| - 1;
      PaintAllInUnitCube(c, s[..n], paper);
      assert InUnitCube(s[n].colour);
    }
  }

  /** Records outside the paper, and sentinels, leave the canvas as it was. */
  lemma {:induction false} PaintAllMisses(c: Canvas, s: seq<Particle>, paper: Paper)
    requires forall i :: 0 <= i < |s| ==> IsSentinel(s[i]) || !Hit(s[i], paper)
    ensures PaintAll(c, s, paper) == c
  {
    if s != [] {
      PaintAllMisses(c, s[..|s| - 1], paper);
    }
  }

  /** What the stage pushes for record `p`: a hit is forwarded with its
      colour scaled by 0.1 (the blend scales it in place before the push);
      every other record is forwarded unchanged. */
  function Out(p: Particle, paper: Paper): (q: Particle)
    ensures q == p.(colour := q.colour)
    ensures !IsSentinel(p) && Hit(p, paper) ==> q.colour == Scale(p.colour, 0.1)
    ensures IsSentinel(p) || !Hit(p, paper) ==> q == p
  {
    if !IsSentinel(p) && Hit(p, paper) then p.(colour := Scale(p.colour, 0.1)) else p
  }

  /** `b` is what the stage pushes for `a`, record by record. */
  predicate Outputs(a: seq<Particle>, b: seq<Particle>, paper: Paper) {
    |a| == |b| && forall i :: 0 <= i < |a| ==> b[i] == Out(a[i], paper)
  }

  lemma OutputsAppend(a: seq<Particle>, b: seq<Particle>, p: Particle, paper: Paper)
    requires Outputs(a, b, paper)
    ensures Outputs(a + [p], b + [Out(p, paper)], paper)
  {
  }

  /** Forwarding keeps every code, so the sentinels pass through in place. */
  lemma OutputsSameCodes(a: seq<Particle>, b: seq<Particle>, paper: Paper)
    requires Outputs(a, b, paper)
    ensures SameCodes(a, b)
  {
    forall j | 0 <= j < |a| ensures a[j].particleCode == b[j].particleCode {
      assert b[j] == Out(a[j], paper);
    }
  }

  /** The number of records that hit the paper (`col_counter`). */
  function Hits(s: seq<Particle>, paper: Paper): nat {
    if s == [] then 0
    else Hits(s[..|s| - 1], paper) + if !IsSentinel(s[|s| - 1]) && Hit(s[|s| - 1], paper) then 1 else 0
  }

  /** The number of records that miss it (`miss_counter`). */
  function Misses(s: seq<Particle>, paper: Paper): nat {
    if s == [] then 0
    else Misses(s[..|s| - 1], paper) + if !IsSentinel(s[|s| - 1]) && !Hit(s[|s| - 1], paper) then 1 else 0
  }

  /** Every ordinary record is exactly one of a hit and a miss. */
  lemma {:induction false} HitsPlusMisses(s: seq<Particle>, paper: Paper)
    ensures Hits(s, paper) + Misses(s, paper) == Ordinary(s)
  {
    if s != [] {
      HitsPlusMisses(s[..|s| - 1], paper);
    }
  }

  /** The canvases written out by the snapshot sentinels of `s`, in order. */
  function Saves(c: Canvas, s: seq<Particle>, paper: Paper): seq<Canvas> {
    if s == [] then []
    else
      var init := s[..|s| - 1];
      Saves(c, init, paper) + if s[|s| - 1].particleCode == SAVE then [PaintAll(c, init, paper)] else []
  }

  /** The stage's counters, canvas and saved canvases are exactly those
      of the records `s`, starting from canvas `c`. */
  ghost predicate Tally(c: Canvas, s: seq<Particle>, paper: Paper, total: nat, collisions: nat,
                        misses: nat, canvas: Canvas, saved: seq<Canvas>)
  {
    total == Ordinary(s) && collisions == Hits(s, paper) && misses == Misses(s, paper) &&
    canvas == PaintAll(c, s, paper) && saved == Saves(c, s, paper)
  }

  /** An ordinary record adds one to `total` and to exactly one of
      `collisions` and `misses`, and paints the canvas. */
  lemma TallyRecord(c: Canvas, s: seq<Particle>, p: Particle, paper: Paper, total: nat,
                    collisions: nat, misses: nat, canvas: Canvas, saved: seq<Canvas>)
    requires Tally(c, s, paper, total, collisions, misses, canvas, saved) && !IsSentinel(p)
    ensures Hit(p, paper) ==>
      Tally(c, s + [p], paper, total + 1, collisions + 1, misses, Paint(canvas, p, paper), saved)
    ensures !Hit(p, paper) ==>
      Tally(c, s + [p], paper, total + 1, collisions, misses + 1, canvas, saved)
  {
    assert (s + [p])[..|s|] == s;
  }

  /** A sentinel leaves the counters and the canvas alone; a snapshot
      sentinel saves the canvas. */
  lemma TallySentinel(c: Canvas, s: seq<Particle>, p: Particle, paper: Paper, total: nat,
                      collisions: nat, misses: nat, canvas: Canvas, saved: seq<Canvas>)
    requires Tally(c, s, paper, total, collisions, misses, canvas, saved) && IsSentinel(p)
    ensures Tally(c, s + [p], paper, total, collisions, misses, canvas,
                  saved + if p.particleCode == SAVE then [canvas] else [])
  {
    assert (s + [p])[..|s|] == s;
  }

  // ----- the cell index -----

  /** On a paper at the origin whose extent `e` gives an index within
      `i32`, a coordinate inside the inclusive bounds gets an index in
      `0 ..= e * 1000`, the top value exactly at the far edge. */
  lemma CellIndexRange(c: real, e: real)
    requires 0.0 <= e && e * 1000.0 <= I32_MAX as real
    requires -(e / 2.0) <= c <= e / 2.0
    ensures 0 <= CellIndex(c, e) as int <= Trunc(e * 1000.0)
    ensures c == e / 2.0 ==> CellIndex(c, e) as int == Trunc(e * 1000.0)
  {
    var r := c * 1000.0 + (e / 2.0) * 1000.0;
    assert 0.0 <= r <= e * 1000.0;
    TruncMonotone(r, e * 1000.0);
  }

  lemma TruncMonotone(a: real, b: real)
    requires 0.0 <= a <= b
    ensures Trunc(a) <= Trunc(b)
  {
  }

  /** On a paper at the origin of whole-number width `n`, a hit lands in a
      column of the allocated image exactly when it is short of the far
      edge: the edge `x == n / 2`, which the inclusive bound accepts, gets
      the index `n * 1000`, one past the last column. */
  lemma EdgeColumnOffImage(p: Particle, paper: Paper, n: nat)
    requires paper.position == Zero && paper.width == n as real && n <= 2147483
    requires Hit(p, paper)
    ensures 0 <= Cell(p, paper).0
    ensures Cell(p, paper).0 < ImageSize(paper.width) <==> p.position.x < paper.width / 2.0
    ensures p.position.x == paper.width / 2.0 ==> Cell(p, paper).0 == ImageSize(paper.width)
  {
    var x := p.position.x;
    var w := paper.width;
    CellIndexRange(x, w);
    assert Trunc(w) == n;
    assert Trunc(w * 1000.0) == n * 1000;
    var r := x * 1000.0 + (w / 2.0) * 1000.0;
    if x < w / 2.0 {
      assert r < (n * 1000) as real;
    } else {
      assert r == (n * 1000) as real;
    }
  }

  /** The index ignores the paper's position: on a paper of width `n`
      centred at `x == n`, every hit gets a column at or past the image's
      last one. */
  lemma ShiftedPaperOffImage(p: Particle, paper: Paper, n: nat)
    requires paper.position.x == n as real && paper.width == n as real && n <= 1000000
    requires Hit(p, paper)
    ensures Cell(p, paper).0 >= ImageSize(paper.width)
  {
    var x := p.position.x;
    var w := paper.width;
    assert Trunc(w) == n;
    var r := x * 1000.0 + (w / 2.0) * 1000.0;
    assert r >= (n * 1000) as real;
    assert r <= (n * 2000) as real;
    TruncMonotone((n * 1000) as real, r);
  }

  class PaperStage {
    const paper: Paper
    /** The canvas the stage was given. */
    ghost const canvas0: Canvas
    var collisions: nat
    var misses: nat
    var total: nat
    var canvas: Canvas
    /** The canvas at every `save` event, oldest first. */
    var saved: seq<Canvas>
    var done: bool
    ghost var consumed: seq<Particle>
    ghost var emitted: seq<Particle>

    /** The counters count the records taken (so `total == collisions +
        misses`), the canvas holds exactly their blends, every record taken
        has been forwarded once, in order, and the stage has stopped exactly
        when it has taken the terminal sentinel, which is then the last
        record in and out. */
    ghost predicate Valid()
      reads this
    {
      Tally(canvas0, consumed, paper, total, collisions, misses, canvas, saved) &&
      total == collisions + misses &&
      Outputs(consumed, emitted, paper) &&
      (done <==> HasClose(consumed)) &&
      (done ==> EndsWithClose(consumed) && EndsWithClose(emitted))
    }

    /** The three counters start at 0. */
    constructor (p: Paper, c: Canvas)
      ensures Valid() && paper == p && canvas0 == c && canvas == c && saved == []
      ensures collisions == 0 && misses == 0 && total == 0 && !done
      ensures consumed == [] && emitted == []
    {
      paper := p;
      canvas0 := c;
      canvas := c;
      saved := [];
      collisions, misses, total := 0, 0, 0;
      done := false;
      consumed, emitted := [], [];
    }

    /** The body of the `while true` loop of `paper_stage` for one popped
        record `data`. */
    method Handle(input: Pipe, output: Pipe, data: Particle)
      requires Valid() && !done && input != output
      modifies this, input, output
      ensures Valid()
      ensures output.closed == old(output.closed) && input.items == old(input.items)
      ensures input.closed == (old(input.closed) || data.particleCode == CLOSE)
      ensures done == (data.particleCode == CLOSE)
      ensures consumed == old(consumed) + [data] && emitted == old(emitted) + [Out(data, paper)]
      ensures output.items == Pushed(old(output.items), old(output.closed), Out(data, paper))
      ensures canvas == Paint(old(canvas), data, paper)
      ensures saved == old(saved) + if data.particleCode == SAVE then [old(canvas)] else []
      ensures IsSentinel(data) ==> total == old(total) && collisions == old(collisions) && misses == old(misses)
      ensures !IsSentinel(data) ==> (total == old(total) + 1 &&
        (if Hit(data, paper) then collisions == old(collisions) + 1 && misses == old(misses)
         else collisions == old(collisions) && misses == old(misses) + 1))
    {
      HasCloseAppend(consumed, data);
      OutputsAppend(consumed, emitted, data, paper);
      if data.particleCode == CLOSE {
        TallySentinel(canvas0, consumed, data, paper, total, collisions, misses, canvas, saved);
        OutputsSameCodes(consumed, emitted, paper);
        SameCodesHasClose(consumed, emitted);
        assert (emitted + [data])[..|emitted|] == emitted;
        output.Push(data);
        input.Close();
        consumed := consumed + [data];
        emitted := emitted + [data];
        done := true;
        return;
      }
      if data.particleCode == SAVE {
        TallySentinel(canvas0, consumed, data, paper, total, collisions, misses, canvas, saved);
        output.Push(data);
        saved := saved + [canvas];
        consumed := consumed + [data];
        emitted := emitted + [data];
        return;
      }
      // both arms of the source's hit test end by pushing the record
      var forwarded := Record(data);
      output.Push(forwarded);
    }

    /** An ordinary record: count it, test it against the paper and blend a
        hit into its cell; `forwarded` is the record to push. */
    method Record(data: Particle) returns (forwarded: Particle)
      requires Valid() && !done && !IsSentinel(data)
      modifies this
      ensures Valid() && !done
      ensures forwarded == Out(data, paper)
      ensures consumed == old(consumed) + [data] && emitted == old(emitted) + [forwarded]
      ensures canvas == Paint(old(canvas), data, paper) && saved == old(saved)
      ensures total == old(total) + 1
      ensures Hit(data, paper) ==> collisions == old(collisions) + 1 && misses == old(misses)
      ensures !Hit(data, paper) ==> collisions == old(collisions) && misses == old(misses) + 1
    {
      HasCloseAppend(consumed, data);
      TallyRecord(canvas0, consumed, data, paper, total, collisions, misses, canvas, saved);
      OutputsAppend(consumed, emitted, data, paper);
      total := total + 1;
      var xLower := -(paper.width / 2.0) + paper.position.x;
      var xUpper := (paper.width / 2.0) + paper.position.x;
      var zLower := -(paper.height / 2.0) + paper.position.z;
      var zUpper := (paper.height / 2.0) + paper.position.z;
      forwarded := data;
      var inside := data.position.x >= xLower && data.position.x <= xUpper &&
                    data.position.z >= zLower && data.position.z <= zUpper;
      assert inside == Hit(data, paper);
      if inside {
        var xRound := CellIndex(data.position.x, paper.width);
        var zRound := CellIndex(data.position.z, paper.height);
        var current := Get(canvas, (xRound, zRound));
        var newColour := Scale(current, 1.0 - 0.1);
        forwarded := forwarded.(colour := Scale(forwarded.colour, 0.1));
        newColour := Add(newColour, forwarded.colour);
        canvas := canvas[(xRound, zRound) := newColour];
        collisions := collisions + 1;
      } else {
        misses := misses + 1;
      }
      assert forwarded == Out(data, paper);
      consumed := consumed + [data];
      emitted := emitted + [forwarded];
    }

    /** One turn of the `while true` loop of `paper_stage` (an empty input
        changes nothing). */
    method Step(input: Pipe, output: Pipe)
      requires Valid() && !done && input != output
      modifies this, input, output
      ensures Valid()
      ensures output.closed == old(output.closed)
      ensures old(input.items) == [] ==>
        input.items == old(input.items) && input.closed == old(input.closed) &&
        output.items == old(output.items) && !done && consumed == old(consumed) &&
        emitted == old(emitted) && canvas == old(canvas) && saved == old(saved) &&
        total == old(total) && collisions == old(collisions) && misses == old(misses)
      ensures old(input.items) != [] ==>
        var p := old(input.items)[0];
        input.items == old(input.items)[1..] &&
        input.closed == (old(input.closed) || p.particleCode == CLOSE) &&
        done == (p.particleCode == CLOSE) &&
        consumed == old(consumed) + [p] && emitted == old(emitted) + [Out(p, paper)] &&
        output.items == Pushed(old(output.items), old(output.closed), Out(p, paper)) &&
        canvas == Paint(old(canvas), p, paper) &&
        saved == old(saved) + (if p.particleCode == SAVE then [old(canvas)] else []) &&
        total == old(total) + (if IsSentinel(p) then 0 else 1) &&
        collisions == old(collisions) + (if !IsSentinel(p) && Hit(p, paper) then 1 else 0) &&
        misses == old(misses) + (if !IsSentinel(p) && !Hit(p, paper) then 1 else 0)
    {
      var dataOption := input.Pop();
      if dataOption.None? {
        return;
      }
      Handle(input, output, dataOption.value);
    }

    /** The stage's loop, driven until it has handled the terminal sentinel
        or its input is empty; `moved` is what it pushed. */
    method Run(input: Pipe, output: Pipe) returns (ghost moved: seq<Particle>)
      requires Valid() && !done && input != output && !output.closed
      modifies this, input, output
      ensures Valid() && !output.closed
      ensures var s := old(input.items); var m := StopIndex(s);
        input.items == s[m..] &&
        consumed == old(consumed) + s[..m] &&
        emitted == old(emitted) + moved && output.items == old(output.items) + moved &&
        (done <==> HasClose(s)) &&
        input.closed == (old(input.closed) || HasClose(s))
    {
      ghost var s, out0, taken0, e0, closed0 := input.items, output.items, consumed, emitted, input.closed;
      ghost var m := StopIndex(s);
      var i := 0;
      moved := [];
      var empty := input.IsEmpty();
      while !done && !empty
        invariant Valid() && !output.closed
        invariant 0 <= i <= m
        invariant empty <==> input.items == []
        invariant input.items == s[i..]
        invariant consumed == taken0 + s[..i]
        invariant emitted == e0 + moved && output.items == out0 + moved
        invariant done <==> 0 < i && s[i - 1].particleCode == CLOSE
        invariant input.closed == (closed0 || done)
        decreases |s| - i
      {
        StopIndexAhead(s, i);
        ghost var takenBefore := consumed;
        var data := input.Pop();
        assert data.value == s[i];
        Handle(input, output, data.value);
        Assoc(e0, moved, [Out(data.value, paper)]);
        Assoc(out0, moved, [Out(data.value, paper)]);
        moved := moved + [Out(data.value, paper)];
        PrefixGrows(taken0, takenBefore, consumed, s, i);
        assert s[i..][1..] == s[i + 1..];
        i := i + 1;
        empty := input.IsEmpty();
      }
      StopIndexReached(s, i, done);
    }
  }
}
