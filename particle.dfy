/** The particle record carried through every queue of the pipeline. */
module Particles {
  import opened Vectors

  const I32_MIN: int := -0x8000_0000
  const I32_MAX: int := 0x7fff_ffff

  /** A Rust `i32`. */
  type I32 = x: int | I32_MIN <= x <= I32_MAX

  /** Terminal sentinel: forward, close the input, stop. */
  const CLOSE: I32 := -1
  /** Snapshot sentinel: forward and carry on (the paper stage also saves). */
  const SAVE: I32 := -9999

  datatype Particle = Particle(
    position: Vec3,
    velocity: Vec3,
    target: Vec3,
    colour: Vec3,
    particleCode: I32)

  predicate IsSentinel(p: Particle) {
    p.particleCode == CLOSE || p.particleCode == SAVE
  }

  /** `Particle::new`. The third argument is the colour and the fourth the
      target, although the record declares `target` before `colour`. */
  function New(pos: Vec3, vel: Vec3, col: Vec3, target: Vec3, code: I32): (p: Particle)
    ensures p.position == pos && p.velocity == vel && p.particleCode == code
    ensures p.colour == col && p.target == target
  {
    Particle(pos, vel, target, col, code)
  }

  /** `Particle::empty`: every vector zero and code 0. */
  function Empty(): (p: Particle)
    ensures p.position == Zero && p.velocity == Zero
    ensures p.colour == Zero && p.target == Zero
    ensures p.particleCode == 0
  {
    Particle(Zero, Zero, Zero, Zero, 0)
  }

  /** `Particle::code_only`: an empty record carrying only a control code. */
  function CodeOnly(c: I32): (p: Particle)
    ensures p.particleCode == c
    ensures p.(particleCode := 0) == Empty()
  {
    var temp := Empty();
    temp.(particleCode := c)
  }

  // ----- facts about sequences of records shared by every stage -----

  /** Some record of `s` is the terminal sentinel. */
  predicate HasClose(s: seq<Particle>) {
    exists j :: 0 <= j < |s| && s[j].particleCode == CLOSE
  }

  /** A sentinel at index j is in every prefix longer than j. */
  lemma HasClosePrefix(s: seq<Particle>, k: int, j: int)
    requires 0 <= j < k <= |s| && s[j].particleCode == CLOSE
    ensures HasClose(s[..k])
  {
    assert s[..k][j] == s[j];
  }

  lemma HasCloseAppend(s: seq<Particle>, p: Particle)
    ensures HasClose(s + [p]) <==> HasClose(s) || p.particleCode == CLOSE
  {
    HasCloseConcat(s, [p]);
    assert [p][0] == p;
  }

  lemma HasCloseConcat(a: seq<Particle>, b: seq<Particle>)
    ensures HasClose(a + b) <==> HasClose(a) || HasClose(b)
  {
    if HasClose(a + b) {
      var j :| 0 <= j < |a + b| && (a + b)[j].particleCode == CLOSE;
      if j < |a| {
        assert a[j] == (a + b)[j];
      } else {
        assert b[j - |a|] == (a + b)[j];
      }
    }
    if HasClose(a) {
      var j :| 0 <= j < |a| && a[j].particleCode == CLOSE;
      assert (a + b)[j] == a[j];
    }
    if HasClose(b) {
      var j :| 0 <= j < |b| && b[j].particleCode == CLOSE;
      assert (a + b)[|a| + j] == b[j];
    }
  }

  /** `s` holds exactly one terminal sentinel, and it is the last record. */
  predicate EndsWithClose(s: seq<Particle>) {
    |s| > 0 && s[|s| - 1].particleCode == CLOSE && !HasClose(s[..|s| - 1])
  }

  /** The number of records a stage takes from `s` before it stops: up to
      and including the first terminal sentinel, or all of `s` if there is none. */
  function StopIndex(s: seq<Particle>): (m: nat)
    ensures m <= |s|
    ensures HasClose(s) <==> 0 < m && s[m - 1].particleCode == CLOSE
    ensures !HasClose(s) ==> m == |s|
  {
    if s == [] then 0
    else
      assert s == [s[0]] + s[1..];
      HasCloseConcat([s[0]], s[1..]);
      assert HasClose([s[0]]) <==> s[0].particleCode == CLOSE by {
        assert [s[0]][..0] == [];
      }
      if s[0].particleCode == CLOSE then 1
      else
        var m := 1 + StopIndex(s[1..]);
        assert m > 1 ==> s[m - 1] == s[1..][m - 2];
        m
  }

  /** No record before the last one a stage takes is the terminal sentinel. */
  lemma {:induction false} StopIndexClear(s: seq<Particle>, j: nat)
    requires j + 1 < StopIndex(s)
    ensures s[j].particleCode != CLOSE
  {
    if j > 0 {
      StopIndexClear(s[1..], j - 1);
    }
  }

  /** The prefix a stage consumes ends with the sentinel when there is one. */
  lemma StopPrefixEndsWithClose(s: seq<Particle>)
    requires HasClose(s)
    ensures EndsWithClose(s[..StopIndex(s)])
  {
    var m := StopIndex(s);
    var before := s[..m - 1];
    assert s[..m][..m - 1] == before;
    forall j | 0 <= j < m - 1 ensures before[j].particleCode != CLOSE {
      StopIndexClear(s, j);
    }
  }

  /** When a driver loop stops after `i` records, having seen the sentinel
      exactly when the i-th record carried it, it has taken `StopIndex(s)`. */
  lemma StopIndexReached(s: seq<Particle>, i: nat, done: bool)
    requires i <= StopIndex(s)
    requires done <==> 0 < i && s[i - 1].particleCode == CLOSE
    requires done || i == |s|
    ensures i == StopIndex(s)
    ensures done <==> HasClose(s)
  {
    if done {
      StopIndexClosed(s, i);
    } else {
      StopIndexExhausted(s);
    }
  }

  lemma StopIndexClosed(s: seq<Particle>, i: nat)
    requires 0 < i <= StopIndex(s) && s[i - 1].particleCode == CLOSE
    ensures i == StopIndex(s) && HasClose(s)
  {
    StopIndexFirst(s, i - 1);
  }

  lemma StopIndexExhausted(s: seq<Particle>)
    requires |s| <= StopIndex(s)
    requires !(0 < |s| && s[|s| - 1].particleCode == CLOSE)
    ensures !HasClose(s)
  {
    var m := StopIndex(s);
    assert m == |s|;
  }

  /** No record before the stop index is the terminal sentinel. */
  lemma {:induction false} StopIndexFirst(s: seq<Particle>, j: nat)
    requires j < |s| && s[j].particleCode == CLOSE
    ensures StopIndex(s) <= j + 1
  {
    if s[0].particleCode != CLOSE {
      StopIndexFirst(s[1..], j - 1);
    }
  }

  /** A driver loop that has neither stopped nor run dry has not yet reached
      `StopIndex(s)`. */
  lemma StopIndexAhead(s: seq<Particle>, i: nat)
    requires i <= StopIndex(s) && i < |s|
    requires !(0 < i && s[i - 1].particleCode == CLOSE)
    ensures i < StopIndex(s)
  {
  }

  /** Bookkeeping for driver loops: taking record i extends the prefix taken. */
  lemma PrefixGrows(t0: seq<Particle>, before: seq<Particle>, after: seq<Particle>,
                    s: seq<Particle>, i: nat)
    requires i < |s|
    requires before == t0 + s[..i]
    requires after == before + [s[i]]
    ensures after == t0 + s[..i + 1]
  {
    assert s[..i] + [s[i]] == s[..i + 1];
  }

  /** Associativity of concatenation, stated once so that the driver loops
      can name the regrouping of their traces. */
  lemma Assoc(a: seq<Particle>, b: seq<Particle>, c: seq<Particle>)
    ensures (a + b) + c == a + (b + c)
  {
  }

  /** Two sequences whose records carry the same codes, position by position. */
  predicate SameCodes(a: seq<Particle>, b: seq<Particle>) {
    |a| == |b| && forall j :: 0 <= j < |a| ==> a[j].particleCode == b[j].particleCode
  }

  lemma {:induction false} SameCodesHasClose(a: seq<Particle>, b: seq<Particle>)
    requires SameCodes(a, b)
    ensures HasClose(a) <==> HasClose(b)
  {
    if a != [] {
      var n := |a| - 1;
      assert SameCodes(a[..n], b[..n]) by {
        forall j | 0 <= j < n ensures a[..n][j].particleCode == b[..n][j].particleCode {
          assert a[..n][j] == a[j] && b[..n][j] == b[j];
        }
      }
      SameCodesHasClose(a[..n], b[..n]);
    }
  }

  lemma SameCodesEndsWithClose(a: seq<Particle>, b: seq<Particle>)
    requires SameCodes(a, b) && EndsWithClose(a)
    ensures EndsWithClose(b)
  {
    var n := |a| - 1;
    assert SameCodes(a[..n], b[..n]) by {
      forall j | 0 <= j < n ensures a[..n][j].particleCode == b[..n][j].particleCode {
        assert a[..n][j] == a[j] && b[..n][j] == b[j];
      }
    }
    SameCodesHasClose(a[..n], b[..n]);
  }

  /** A sequence whose first terminal sentinel, if any, is its last record
      is taken whole. */
  lemma StopIndexWhole(s: seq<Particle>)
    requires !HasClose(s) || EndsWithClose(s)
    ensures StopIndex(s) == |s|
  {
    if HasClose(s) {
      StopIndexBeyond(s, |s| - 1);
    }
  }

  /** A stage that finds no terminal sentinel among the first n records
      takes more than n of them. */
  lemma {:induction false} StopIndexBeyond(s: seq<Particle>, n: nat)
    requires n < |s| && !HasClose(s[..n])
    ensures n < StopIndex(s)
  {
    if n > 0 {
      assert s[..n] == [s[0]] + s[1..][..n - 1];
      HasCloseConcat([s[0]], s[1..][..n - 1]);
      HasCloseAppend([], s[0]);
      StopIndexBeyond(s[1..], n - 1);
    }
  }

  /** The number of records that are not sentinels. */
  function Ordinary(s: seq<Particle>): nat {
    if s == [] then 0
    else Ordinary(s[..|s| - 1]) + if IsSentinel(s[|s| - 1]) then 0 else 1
  }

  lemma {:induction false} OrdinaryConcat(a: seq<Particle>, b: seq<Particle>)
    ensures Ordinary(a + b) == Ordinary(a) + Ordinary(b)
  {
    if b == [] {
      assert a + b == a;
    } else {
      var init := b[..|b| - 1];
      assert (a + b)[..|a + b| - 1] == a + init;
      OrdinaryConcat(a, init);
    }
  }

  lemma {:induction false} SameCodesOrdinary(a: seq<Particle>, b: seq<Particle>)
    requires SameCodes(a, b)
    ensures Ordinary(a) == Ordinary(b)
  {
    if a != [] {
      var n := |a| - 1;
      assert SameCodes(a[..n], b[..n]) by {
        forall j | 0 <= j < n ensures a[..n][j].particleCode == b[..n][j].particleCode {
          assert a[..n][j] == a[j] && b[..n][j] == b[j];
        }
      }
      SameCodesOrdinary(a[..n], b[..n]);
      assert a[n].particleCode == b[n].particleCode;
    }
  }

  /** A sequence holding a record that is not a sentinel has a positive
      ordinary count. */
  lemma {:induction false} OrdinaryPositive(s: seq<Particle>, j: nat)
    requires j < |s| && !IsSentinel(s[j])
    ensures Ordinary(s) > 0
  {
    var n := |s| - 1;
    if j < n {
      assert s[..n][j] == s[j];
      OrdinaryPositive(s[..n], j);
    }
  }

  /** What a stage takes holds a terminal sentinel exactly when its queue
      does. */
  lemma StopPrefixHasClose(s: seq<Particle>)
    ensures HasClose(s[..StopIndex(s)]) <==> HasClose(s)
  {
    var t := s[..StopIndex(s)];
    if HasClose(s) {
      StopPrefixEndsWithClose(s);
      assert t[|t| - 1].particleCode == CLOSE;
    } else {
      assert t == s;
    }
  }

  /** Anything a stage took before its stopping record holds no terminal
      sentinel. */
  lemma BeforeStopNoClose(s: seq<Particle>, k: nat)
    requires k < StopIndex(s)
    ensures !HasClose(s[..k])
  {
    forall j | 0 <= j < k ensures s[..k][j].particleCode != CLOSE {
      StopIndexClear(s, j);
    }
  }
}
