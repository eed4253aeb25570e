# Particle pipeline, modelled in Dafny

The program is a three-stage pipeline of particle records. The stages are
connected by four FIFO pipes:

- the **spawning stage** turns a request with code `n > 0` into `n`
  child particles aimed at the request's target;
- the **moving stage** integrates each particle's fall until it is at or below
  the plane of the paper;
- the **paper stage** tests each particle against the paper rectangle,
  blends the colour of every hit into the paper's cell, and counts hits,
  misses and the total.

The moving and paper stages forward every record they take. The spawning
stage replaces each spawn request with its children and pushes nothing for
a record of code 0 or of a negative code other than the sentinels. Every
stage forwards both sentinel codes, which carry a shutdown protocol:

- `-1` terminates. Each stage forwards it, closes its own input and returns.
- `-9999` requests a snapshot. It is forwarded, and the paper stage also
  saves the paper.

The model has one module per part of the program:

- `Vectors`: the 3-vector, over exact reals.
- `Particles`: the particle record and its constructors. It also holds the
  facts about the sentinel protocol that every stage shares: `HasClose`,
  `StopIndex`, and how much of a queue a stage takes before it stops.
- `Pipes`: the pipe, a class holding a sequence and a close flag.
- `Spawning`, `Moving`, `Painting`: one class per stage. Each class has the
  stage's local state and a `Step` for one turn of its `while true` loop.
  A `Run` driver loop steps until the stage has stopped or its input is
  empty. Each class also keeps a ghost trace of what it consumed and
  emitted, and a `Valid` invariant over that trace: it says where the
  terminal sentinel may stand, and for the moving and paper stages it ties
  the trace to `Forwarded`, `Out`, `PaintAll`, `Hits`, `Misses` and
  `Saves`. The spawning stage's `Run` states its output as `SpawnAll` of
  what it took.
- `Pipeline`: runs the three stages one after another over fresh pipes, in
  the order the program wires them. It also proves what reaches the last
  pipe.

Three behaviours of the code worth noting:

- **Cell index truncates** (Rust/src/pipeline.rs:201-202). The cell index
  is computed with `as i32`. That truncates toward zero and saturates at
  the `i32` range; it does not round.
- **Hits are forwarded with a scaled colour** (Rust/src/pipeline.rs:208
  and 213). A hit record is forwarded with its colour multiplied by 0.1,
  because the stage scales `data.colour` in place before pushing it.
  Misses are forwarded unchanged.
- **The index can reach the image width** (Rust/src/paper.rs:21). With the
  paper at the origin, the cell index ranges over `0..=w*1000`, bounds
  included. For a whole-number width `w`, the image allocated in
  `Paper::new` has only `w*1000` columns (in general `trunc(w)*1000`). A
  hit exactly on the edge `x = w/2` therefore gets the index one past the
  last column. `Painting.EdgeColumnOffImage` states this.
  `Painting.ShiftedPaperOffImage` shows that a paper moved right by its own
  whole-number width gets only indices outside the image.

## Model

| member | source | states |
|---|---|---|
| Particles.New | Rust/src/particle.rs:15-23 | position, velocity and code are stored as passed; the third argument becomes the colour and the fourth the target, the reverse of the field order |
| Particles.Empty | Rust/src/particle.rs:25-33 | all four vectors are zero and the code is 0 |
| Particles.CodeOnly | Rust/src/particle.rs:35-39 | the code is `c` and every other field equals `Empty()` |
| Particles.StopIndex | Rust/src/pipeline.rs:61-66 | how many records of a queue a stage takes before it returns: up to and including the first terminal sentinel, or the whole queue if there is none; the queue holds a terminal sentinel iff the last record taken is one |
| Particles.StopIndexClear | Rust/src/pipeline.rs:61-66 | no record before the stopping record is a terminal sentinel |
| Particles.StopPrefixEndsWithClose | Rust/src/pipeline.rs:61-66 | when the queue holds a terminal sentinel, what the stage takes ends with that sentinel and holds no other |
| Particles.StopIndexReached | Rust/src/pipeline.rs:51-66 | a loop that took `i` records and stopped, either on the terminal sentinel or on an empty queue, took exactly `StopIndex(s)`; it stopped on the sentinel iff the queue held one |
| Particles.StopIndexWhole | Rust/src/pipeline.rs:61-66 | a queue with no terminal sentinel, or with exactly one as its last record, is taken whole |
| Particles.StopPrefixHasClose | Rust/src/pipeline.rs:61-66 | what a stage takes holds a terminal sentinel iff its queue does |
| Particles.BeforeStopNoClose | Rust/src/pipeline.rs:61-66 | the records taken before the stopping one hold no terminal sentinel |
| Particles.OrdinaryPositive | Rust/src/pipeline.rs:132 | a sequence holding a non-sentinel record, the kind the integration loop admits, has a positive ordinary count |
| Particles.SameCodesHasClose | Rust/src/pipeline.rs:120-129 | two record sequences with the same codes at every position hold a terminal sentinel together or not at all |
| Pipes.Pushed | Rust/src/pipeline.rs:29-31 | a push keeps the old contents as a prefix; it adds one record, `p` at the tail, exactly when the pipe is open |
| Pipes.Pipe.constructor | Rust/src/pipeline.rs:18-23 | a new pipe is open and empty |
| Pipes.Pipe.IsEmpty | Rust/src/pipeline.rs:25-27 | true exactly when no record is buffered |
| Pipes.Pipe.Push | Rust/src/pipeline.rs:29-31 | an open pipe gets the record appended at its tail; a closed pipe keeps its contents (the failed push is discarded); the close flag is unchanged |
| Pipes.Pipe.Pop | Rust/src/pipeline.rs:33-43 | on an empty pipe: `None`, nothing changes; otherwise the oldest record is returned and exactly that one is removed; a closed pipe still yields its buffered records |
| Pipes.Pipe.Close | Rust/src/pipeline.rs:45-47 | the pipe is closed and its contents are unchanged, so closing twice changes nothing more |
| Spawning.Rotate | Rust/src/pipeline.rs:81-85 | the rotation by the random angle keeps `y` and the horizontal length `x*x + z*z` |
| Spawning.Child | Rust/src/pipeline.rs:96-97 | a child has code 0 and its parent's position, colour and target |
| Spawning.ChildVelocityEnvelope | Rust/src/pipeline.rs:78-93 | a child's velocity is the rotated vector from position to target, plus jitter in `[-0.1, 0.1)` on every axis |
| Spawning.Children | Rust/src/pipeline.rs:76-98 | exactly `n` children, where the `i`-th is built from the `i`-th draw |
| Spawning.ChildrenNoClose | Rust/src/pipeline.rs:76-98 | no child is a terminal sentinel |
| Spawning.ChildrenOrdinary | Rust/src/pipeline.rs:76-98 | all `n` children are ordinary records |
| Spawning.SpawnOutput | Rust/src/pipeline.rs:61-101 | one record's output has length 1 for a sentinel, `n` for code `n > 0` and 0 otherwise; apart from a sentinel, every record output has code 0 |
| Spawning.SpawnOutputCases | Rust/src/pipeline.rs:61-101 | a sentinel is forwarded alone and unchanged; code `n > 0` yields exactly its `n` children; any other code yields nothing; the output holds a terminal sentinel iff the record is one |
| Spawning.SpawnAllHasClose | Rust/src/pipeline.rs:50-103 | a run's output holds a terminal sentinel iff its input does |
| Spawning.SpawnAllEndsWithClose | Rust/src/pipeline.rs:61-66 | if the input ends with its only terminal sentinel, the output does too |
| Spawning.SpawnAllOrdinary | Rust/src/pipeline.rs:74-99 | the number of ordinary records output equals the sum of the positive codes input |
| Spawning.SpawningStage.Handle | Rust/src/pipeline.rs:58-101 | one popped record: its output is pushed (if the pipe is open) and recorded; the input is closed and the stage is done exactly when it was the terminal sentinel; `Valid` is kept |
| Spawning.SpawningStage.PushChildren | Rust/src/pipeline.rs:76-98 | the `for` loop appends exactly `Children(data, draw, n)` to an open pipe and nothing to a closed one |
| Spawning.SpawningStage.Step | Rust/src/pipeline.rs:51-102 | an empty input changes nothing; otherwise the head is popped and handled as in `Handle` |
| Spawning.SpawningStage.Run | Rust/src/pipeline.rs:50-103 | the stage takes exactly `StopIndex` of its input and pushes `SpawnAll` of what it took; it is done and has closed the input iff the input held a terminal sentinel |
| Moving.DeltaTBounds | Rust/src/pipeline.rs:108-137 | the tick encodes -0.5 at start, 0.7 at its maximum and -1.4 at its reset; every tick in range has `delta_t` in `[-1.4, 0.7]` |
| Moving.NextTick | Rust/src/pipeline.rs:134-137 | the tick goes up by one, or resets to -1.4 once it passes 0.7; from any tick at or above the reset less one, the next tick is in range |
| Moving.TicksRise | Rust/src/pipeline.rs:134-137 | below the maximum, `n` steps add exactly `n` units of 0.005 |
| Moving.TicksCompose | Rust/src/pipeline.rs:134-137 | `a + b` steps are `a` steps followed by `b` more |
| Moving.TicksInRange | Rust/src/pipeline.rs:134-137 | a tick in range stays in range for any number of steps |
| Moving.TicksReset | Rust/src/pipeline.rs:134-137 | from tick `k` the reset comes after exactly `141 - k` steps |
| Moving.TicksPeriod | Rust/src/pipeline.rs:134-137 | the sawtooth has period 421 steps |
| Moving.Distance | Rust/src/pipeline.rs:139-151 | a step of length 0 goes nowhere; without velocity along `x` (or `z`) there is no motion along it; a record already falling (`v.y <= 0`) does not rise |
| Moving.Airborne | Rust/src/pipeline.rs:132 | only a record above the plane with code at least 0 enters the loop, so no sentinel ever does |
| Moving.Fly | Rust/src/pipeline.rs:132-155 | the integration loop changes only the position of a record; the tick stays in range; a record that fails the guard (at or below the plane, or code below -1) is returned untouched |
| Moving.FlyResume | Rust/src/pipeline.rs:132-155 | running the loop for `a` steps and then `b` more equals running it for `a + b` steps, so a record left in flight resumes where it stopped |
| Moving.FlyStillAirborne | Rust/src/pipeline.rs:132-137 | a record still above the plane has taken every step of the fuel |
| Moving.Integrate | Rust/src/pipeline.rs:132-155 | the loop with its tick updates computes `Fly` |
| Moving.ForwardedSameCodes | Rust/src/pipeline.rs:132-157 | records forwarded by the moving stage keep their codes |
| Moving.MovingStage.constructor | Rust/src/pipeline.rs:105-108 | the stage starts at `delta_t = -0.5` with nothing taken |
| Moving.MovingStage.Resume | Rust/src/pipeline.rs:132-157 | the record in flight is integrated for at most `fuel` steps; once below the plane it is pushed once |
| Moving.MovingStage.Handle | Rust/src/pipeline.rs:117-157 | sentinels are pushed unchanged and do not touch the tick; the terminal one closes the input and stops the stage; any other record runs the integration loop and is pushed once it is at or below the plane |
| Moving.MovingStage.Step | Rust/src/pipeline.rs:110-158 | resumes a record in flight, or changes nothing on an empty input, or pops the head and handles it |
| Moving.MovingStage.Run | Rust/src/pipeline.rs:105-159 | the stage takes the input up to `StopIndex` and forwards every taken record once, in order, as `Forwarded`: only the position differs and the record is at or below the plane; a record still in flight stops the run (`stuck`), and it is then an ordinary record above the plane, the last one taken; otherwise the stage is done iff the input held a terminal sentinel |
| Painting.Trunc | Rust/src/pipeline.rs:201-202 | `as` truncates toward zero |
| Painting.SatI32 | Rust/src/pipeline.rs:201-202 | `as i32` keeps in-range values and saturates at both ends |
| Painting.SatU32 | Rust/src/paper.rs:21 | `as u32` keeps in-range values and saturates at 0 and at `0xffff_ffff` |
| Painting.ImageSize | Rust/src/paper.rs:21 | the image has a whole thousand columns per whole unit of width, between `w*1000 - 1000` and `w*1000`; a paper narrower than 1 gets none |
| Painting.Hit | Rust/src/pipeline.rs:192-198 | a hit is a record at most half the width from the paper's centre along `x` and at most half the height along `z`, bounds included |
| Painting.CellIndex | Rust/src/pipeline.rs:201-202 | the index is the whole number of thousandths from the left edge `-e/2` to `c` (in range), at least 0 to the right of that edge and at most 0 to the left of it |
| Painting.Cell | Rust/src/pipeline.rs:201-202 | the column counts thousandths from `-w/2` to `x` and the row from `-h/2` to `z`; the paper's position does not enter |
| Painting.Blend | Rust/src/pipeline.rs:205-211 | `0.9 * current + 0.1 * incoming` stays in the unit cube and leaves a cell of the incoming colour unchanged |
| Painting.BlendAt | Rust/src/pipeline.rs:205-211 | only the hit cell changes, to the blend of its old colour and the incoming one |
| Painting.Paint | Rust/src/pipeline.rs:183-211 | only a hit changes the canvas; whatever the record, every cell other than its `Cell` keeps its colour; a hit's cell gets the blend of its old colour and the record's |
| Painting.PaintAllInUnitCube | Rust/src/pipeline.rs:205-211 | if the canvas and all records' colours are in the unit cube, every cell of the painted canvas is too |
| Painting.PaintAllMisses | Rust/src/pipeline.rs:215-218 | records that are all sentinels or misses leave the canvas unchanged |
| Painting.Out | Rust/src/pipeline.rs:198-217 | a hit is forwarded with only its colour changed, scaled by 0.1; sentinels and misses are forwarded unchanged |
| Painting.OutputsSameCodes | Rust/src/pipeline.rs:176-217 | the paper stage's output has the codes of its input |
| Painting.HitsPlusMisses | Rust/src/pipeline.rs:189-217 | hits plus misses equal the number of ordinary records |
| Painting.TallyRecord | Rust/src/pipeline.rs:189-217 | an ordinary record adds one to the total and one to exactly one of the hit and miss counters, and paints the canvas |
| Painting.TallySentinel | Rust/src/pipeline.rs:176-187 | a sentinel leaves the counters and the canvas unchanged; a snapshot sentinel appends the current canvas to the saved ones |
| Painting.CellIndexRange | Rust/src/pipeline.rs:201-202 | for a coordinate inside the paper at the origin, the index is in `0..=trunc(e*1000)`, and the edge `e/2` gets the top value |
| Painting.EdgeColumnOffImage | Rust/src/pipeline.rs:198-202 | for a paper of whole width `n` at the origin, a hit's column is inside the image iff `x < w/2`; the hit at `x = w/2` gets column `w*1000`, one past the last column |
| Painting.ShiftedPaperOffImage | Rust/src/pipeline.rs:201-202 | the index ignores the paper's position, so a paper moved right by its own whole-number width gets no column inside the image |
| Painting.PaperStage.constructor | Rust/src/pipeline.rs:161-164 | the three counters start at 0, with nothing taken or saved |
| Painting.PaperStage.Record | Rust/src/pipeline.rs:189-217 | an ordinary record adds 1 to the total and 1 to exactly one of collisions and misses, paints the canvas and is forwarded as `Out` |
| Painting.PaperStage.Handle | Rust/src/pipeline.rs:173-218 | sentinels are pushed unchanged with the counters unchanged; the terminal one closes the input and stops the stage; the snapshot sentinel saves the canvas; other records are handled as in `Record` |
| Painting.PaperStage.Step | Rust/src/pipeline.rs:166-219 | an empty input changes nothing; otherwise the head is popped and handled |
| Painting.PaperStage.Run | Rust/src/pipeline.rs:161-220 | the stage takes exactly `StopIndex` of its input; its counters, canvas and saved canvases are those of the taken records (so `total == collisions + misses`), and each taken record is forwarded once as `Out`; it is done iff the input held a terminal sentinel |
| Pipeline.Taken | Rust/src/pipeline.rs:61-66 | the requests the spawning stage takes are a prefix of them: all of them when there is no terminal sentinel, otherwise one ending with the first terminal sentinel and holding no other |
| Pipeline.SpawnedWhole | Rust/src/pipeline.rs:50-103 | the spawning stage's output holds a terminal sentinel iff the requests do, and then only as its last record; its ordinary records number the children requested |
| Pipeline.SettledWhole | Rust/src/pipeline.rs:105-159 | when all records have settled, the moving stage's output has the codes of its input, so the paper stage takes all of it |
| Pipeline.Compose | Rust/src/pipeline.rs:105-220 | every record that reaches the paper stage is a forwarded copy of the spawned record at the same position; all spawned records reach it iff none is left in flight |
| Pipeline.StuckLandsNoClose | Rust/src/pipeline.rs:120-157 | when the moving stage stops with a record in flight, no terminal sentinel reaches the paper stage |
| Pipeline.SpawnPhase | Rust/src/main.rs:127-152 | requests pushed into a fresh pipe and run through the spawning stage give `SpawnAll` of the requests taken; the first pipe ends closed iff the requests hold a terminal sentinel |
| Pipeline.MovePhase | Rust/src/main.rs:153 | the moving stage run between two pipes forwards a prefix of what it took, leaves the rest in its input and closes that input iff it settled on a terminal sentinel; when it is stuck, the last record taken is not a sentinel |
| Pipeline.PaintPhase | Rust/src/main.rs:155 | the paper stage run between two pipes tallies and forwards `StopIndex` of its input, leaves the rest there, and returns and closes its input iff what it took holds a terminal sentinel |
| Pipeline.RunPipeline | Rust/src/main.rs:127-155 | end to end: the paper stage's counters, canvas and saved canvases are those of the records that reached it, each a `Forwarded` copy of a spawned record; it forwards every record it receives as `Out`; when everything settles, `total` is the number of children requested, the output holds the terminal sentinel iff the requests do, and then as its last record; a run with no ordinary record always settles; the first pipe ends closed iff the requests hold a terminal sentinel, and the second and third iff besides everything settled |

## Left out

- Floating point. Vectors and `delta_t` are exact reals, and `delta_t` is an integer count of 0.005 steps, so f32 rounding and accumulation error are not modelled.
- The paper's pixels. The `bmp` image is a map from cell to colour. The u8 quantisation and the division by 255 in `set_pixel`/`get_pixel` are not modelled, nor the conversion of the `i32` index to `f32` and then `u32`.
- Out-of-image writes. The `bmp` crate's behaviour on an index outside the image is not modelled; the canvas map accepts any index, and `Painting.EdgeColumnOffImage` states when that happens.
- Painting.ImageSize: `p_width as u32 * 1000` is not wrapped at 32 bits.
- `Paper::save` writes a BMP file. Here it is an event: the canvas at a snapshot sentinel is appended to `saved`.
- `Paper::clear` is not modelled; the canvas is a parameter.
- The `println!` report at the terminal sentinel is not modelled. The counters it prints are the stage's fields.
- Randomness. The angle and the three jitters of each child are a `Sample` parameter: `cos`/`sin` of an angle with `|sin| <= 0.1`, and jitter in `[-0.1, 0.1)`. `sin` and `cos` themselves are not modelled.
- Moving.MovingStage.Run: the source stays in the integration loop until the record is at or below the plane, even when that never happens. Here the loop gets `fuel` steps per `Step`; a record still above the plane stays in flight, and `Run` returns `stuck`; the run does not take the records behind it, so a pipeline with such a record does not close its second and third pipes. `Fly` proves only what holds when the loop exits.
- Concurrency: threads, the `Mutex` in `pop`, the two moving workers sharing one pair of pipes (Rust/src/main.rs:153-154), and the atomic counters. `pop` is atomic, the counters are plain integers, and `Pipeline.RunPipeline` runs one moving stage. The stages run one after another, each until it stops or its input is empty. That is one of the schedules the threads allow.
- The spinning on an empty pipe (`continue`). A `Step` on an empty input changes nothing, and `Run` stops there.
- Rust/src/main.rs apart from its pipe wiring: keyboard handling, `stdin`, timing and the polling of the output pipe.
- Rust/src/vector3.rs is not part of this model beyond component-wise arithmetic on reals (`Vectors`).
- The `Display` impl of `Particle` is not modelled; it is output only.
