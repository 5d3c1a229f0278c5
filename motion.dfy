/**
 * The per-frame bookkeeping of the moving-element engines, as functions on
 * the engine's arrays: the flip schedule of `_initFlipDirec`, the random
 * selection of elements to flip, the speed writes of `_update_stim_speed`
 * and `_revive_flipped_stim`, the position advance and the respawn of dead
 * elements in `_update_stim_mov`. The engine classes are proved against
 * these functions.
 */
module Motion {
  import opened Common

  // ---------------------------------------------------------------------
  // Flip schedule (`_initFlipDirec`)

  /**
   * `val2array` on one flip interval: a single value stands for itself
   * twice, two values are kept; anything else is rejected.
   */
  function Interval(f: seq<real>): Option<(real, real)>
  {
    if |f| == 1 then Some((f[0], f[0]))
    else if |f| == 2 then Some((f[0], f[1]))
    else None
  }

  /**
   * The end frame of interval i: its second value when the two differ;
   * otherwise the frame before the next interval's start, or -1 (no end)
   * for the last interval. An empty next interval has no start: IndexError.
   */
  function EndOf(ivs: seq<seq<real>>, i: nat): Result<real>
    requires i < |ivs| && Interval(ivs[i]).Some?
  {
    var iv := Interval(ivs[i]).value;
    if iv.0 != iv.1 then Ok(iv.1)
    else if i == |ivs| - 1 then Ok(-1.0)
    else if ivs[i + 1] == [] then Err(IndexError)
    else Ok(ivs[i + 1][0] - 1.0)
  }

  predicate WellFormed(ivs: seq<seq<real>>, i: nat)
    requires i < |ivs|
  {
    Interval(ivs[i]).Some? && EndOf(ivs, i).Ok?
  }

  /**
   * The error of the first malformed interval from `from` on: ValueError
   * for a bad length, IndexError for a missing next start; None when every
   * interval is well formed.
   */
  function ScheduleError(ivs: seq<seq<real>>, from: nat): (e: Option<Error>)
    ensures e.None? <==> forall i :: from <= i < |ivs| ==> WellFormed(ivs, i)
    ensures e.Some? ==> e.value == ValueError || e.value == IndexError
    decreases |ivs| - from
  {
    if from >= |ivs| then None
    else if Interval(ivs[from]).None? then assert !WellFormed(ivs, from); Some(ValueError)
    else if EndOf(ivs, from).Err? then assert !WellFormed(ivs, from); Some(IndexError)
    else assert WellFormed(ivs, from); ScheduleError(ivs, from + 1)
  }

  /**
   * `_initFlipDirec`: one start and one end frame per interval, in order;
   * the first malformed interval raises (ValueError for a bad length,
   * IndexError for a missing next start).
   */
  method InitFlipDirec(ivs: seq<seq<real>>) returns (r: Result<(seq<real>, seq<real>)>)
    ensures r.Ok? <==> forall i :: 0 <= i < |ivs| ==> WellFormed(ivs, i)
    ensures r.Err? ==> Some(r.error) == ScheduleError(ivs, 0)
    ensures r.Ok? ==> |r.value.0| == |ivs| && |r.value.1| == |ivs|
    ensures r.Ok? ==> forall i :: 0 <= i < |ivs| ==>
              (WellFormed(ivs, i) && r.value.0[i] == ivs[i][0] && r.value.1[i] == EndOf(ivs, i).value)
  {
    var starts: seq<real> := [];
    var ends: seq<real> := [];
    var i := 0;
    while i < |ivs|
      invariant 0 <= i <= |ivs|
      invariant |starts| == i && |ends| == i
      invariant forall j :: 0 <= j < i ==> WellFormed(ivs, j) && starts[j] == ivs[j][0] && ends[j] == EndOf(ivs, j).value
      invariant ScheduleError(ivs, i) == ScheduleError(ivs, 0)
    {
      var flip := Interval(ivs[i]);
      if flip.None? {
        assert !WellFormed(ivs, i);
        return Err(ValueError);
      }
      starts := starts + [flip.value.0];
      var e := EndOf(ivs, i);
      if e.Err? {
        assert !WellFormed(ivs, i);
        return Err(e.error);
      }
      ends := ends + [e.value];
      i := i + 1;
    }
    return Ok((starts, ends));
  }

  /** A single-valued interval ends before the next one starts, or never. */
  lemma SingleEndsBeforeNext(ivs: seq<seq<real>>, i: nat)
    requires i < |ivs| && |ivs[i]| == 1 && EndOf(ivs, i).Ok?
    ensures i == |ivs| - 1 ==> EndOf(ivs, i).value == -1.0
    ensures i < |ivs| - 1 ==> EndOf(ivs, i).value < ivs[i + 1][0]
  {
  }

  // ---------------------------------------------------------------------
  // Flip selection and speed writes

  /**
   * `np.where(rand(m) < flipfrac)[0]`: the indices below m whose draw (a
   * fraction in [0, 1), the i-th read at `cur + i`) is below `frac`.
   */
  function Select(m: nat, frac: real, u: nat -> real, cur: nat): (sel: seq<nat>)
    ensures |sel| <= m
  {
    if m == 0 then []
    else Select(m - 1, frac, u, cur) + (if Frac(u(cur + m - 1)) < frac then [m - 1] else [])
  }

  /** An element is selected exactly when it is among the first m and its draw is below `frac`. */
  lemma {:induction false} SelectMembers(m: nat, frac: real, u: nat -> real, cur: nat, i: nat)
    ensures i in Select(m, frac, u, cur) <==> i < m && Frac(u(cur + i)) < frac
    decreases m
  {
    if m > 0 {
      SelectMembers(m - 1, frac, u, cur, i);
    }
  }

  /** Every selected index is below m. */
  lemma SelectBelow(m: nat, frac: real, u: nat -> real, cur: nat)
    ensures forall k :: 0 <= k < |Select(m, frac, u, cur)| ==> Select(m, frac, u, cur)[k] < m
  {
    var sel := Select(m, frac, u, cur);
    forall k | 0 <= k < |sel| ensures sel[k] < m {
      SelectMembers(m, frac, u, cur, sel[k]);
    }
  }

  /** Indices in strictly increasing order, each below m. */
  predicate IncreasingBelow(sel: seq<nat>, m: nat)
  {
    forall a, b :: 0 <= a < b < |sel| ==> sel[a] < sel[b] < m
  }

  /** The selection lists indices in increasing order, each below m. */
  lemma {:induction false} SelectIncreasing(m: nat, frac: real, u: nat -> real, cur: nat)
    ensures IncreasingBelow(Select(m, frac, u, cur), m)
    decreases m
  {
    if m > 0 {
      SelectIncreasing(m - 1, frac, u, cur);
      var prev := Select(m - 1, frac, u, cur);
      forall k | 0 <= k < |prev| ensures prev[k] < m - 1 {
        SelectMembers(m - 1, frac, u, cur, prev[k]);
      }
      var sel := Select(m, frac, u, cur);
      forall a, b | 0 <= a < b < |sel| ensures sel[a] < sel[b] < m {
        if b < |prev| {
          assert sel[a] == prev[a] && sel[b] == prev[b];
          assert prev[a] < prev[b] < m - 1;
        } else {
          assert sel[a] == prev[a] && sel[b] == m - 1;
          assert prev[a] < m - 1;
        }
      }
    }
  }

  /** `s[idx] = v`: the listed positions take `v`, the others keep their value. */
  function SetAt(s: seq<real>, idx: seq<nat>, v: real): (r: seq<real>)
    ensures |r| == |s|
  {
    seq(|s|, i requires 0 <= i < |s| => if i in idx then v else s[i])
  }

  /** Flipping a set of elements and then restoring them gives back the default speeds. */
  lemma FlipRestores(s: seq<real>, idx: seq<nat>, d: real)
    requires forall i :: 0 <= i < |s| && i in idx ==> s[i] == d
    ensures SetAt(SetAt(s, idx, -d), idx, d) == s
  {
    var t := SetAt(SetAt(s, idx, -d), idx, d);
    forall i | 0 <= i < |s| ensures t[i] == s[i] {
    }
  }

  /** Flipping touches only the listed elements. */
  lemma SetAtFrame(s: seq<real>, idx: seq<nat>, v: real, i: nat)
    requires i < |s| && i !in idx
    ensures SetAt(s, idx, v)[i] == s[i]
  {
  }

  /**
   * `_revive_flipped_stim`, speeds: every listed element that is dead gets
   * the default speed back.
   */
  function ReviveSpeeds(s: seq<real>, dead: seq<bool>, idx: seq<nat>, d: real): (r: seq<real>)
    requires |dead| == |s|
    ensures |r| == |s|
  {
    seq(|s|, i requires 0 <= i < |s| => if i in idx && dead[i] then d else s[i])
  }

  /**
   * `_revive_flipped_stim`, mask: the listed elements are no longer dead.
   * A definition: its ensures is the pointwise reading that SurvivorsAt uses.
   */
  function ClearAt(dead: seq<bool>, idx: seq<nat>): (r: seq<bool>)
    ensures |r| == |dead|
    ensures forall i :: 0 <= i < |dead| ==> (r[i] <==> dead[i] && i !in idx)
  {
    seq(|dead|, i requires 0 <= i < |dead| => dead[i] && i !in idx)
  }

  // ---------------------------------------------------------------------
  // Advance and respawn

  /**
   * One frame of motion: each of the first m elements moves by its speed
   * along (cos, sin) of the direction; the rest stay put.
   */
  function Advance(coords: seq<Point>, speed: seq<real>, m: nat, c: real, s: real): (r: seq<Point>)
    requires |speed| == |coords|
    ensures |r| == |coords|
  {
    seq(|coords|, i requires 0 <= i < |coords| =>
      if i < m then Step(coords[i], speed[i], c, s) else coords[i])
  }

  /** One element's move: `speed` times (cos, sin) added to its position. */
  function Step(p: Point, v: real, c: real, s: real): Point
  {
    Point(p.x + v * c, p.y + v * s)
  }

  /** Elements past the first m keep their position. */
  lemma AdvanceKeepsRest(coords: seq<Point>, speed: seq<real>, m: nat, c: real, s: real, i: nat)
    requires |speed| == |coords| && m <= i < |coords|
    ensures Advance(coords, speed, m, c, s)[i] == coords[i]
  {
  }

  /** Number of dead elements among the first i. */
  function CountTrue(b: seq<bool>): nat
  {
    if b == [] then 0 else CountTrue(b[..|b| - 1]) + (if b[|b| - 1] then 1 else 0)
  }

  lemma {:induction false} CountTruePrefix(b: seq<bool>, i: nat)
    requires i < |b|
    ensures CountTrue(b[..i]) + (if b[i] then 1 else 0) == CountTrue(b[..i + 1])
    ensures CountTrue(b[..i + 1]) <= CountTrue(b)
    decreases |b| - i
  {
    assert b[..i + 1][..i] == b[..i];
    if i + 1 < |b| {
      CountTruePrefix(b, i + 1);
    } else {
      assert b[..i + 1] == b;
    }
  }

  /**
   * `coords[dead, :] = new`: the k-th dead element, in index order, takes
   * the k-th new position; the others keep theirs.
   */
  function Respawn(coords: seq<Point>, dead: seq<bool>, spawned: seq<Point>): (r: seq<Point>)
    requires |dead| == |coords| && |spawned| == CountTrue(dead)
    ensures |r| == |coords|
  {
    seq(|coords|, i requires 0 <= i < |coords| =>
      if dead[i] then (CountTruePrefix(dead, i); spawned[CountTrue(dead[..i])]) else coords[i])
  }

  /**
   * After a respawn, every element holds either its old position (not
   * dead) or one of the new positions (dead), and each new position is
   * used by exactly the dead element of its rank.
   */
  lemma RespawnPlaces(coords: seq<Point>, dead: seq<bool>, spawned: seq<Point>, i: nat)
    requires |dead| == |coords| && |spawned| == CountTrue(dead) && i < |coords|
    ensures !dead[i] ==> Respawn(coords, dead, spawned)[i] == coords[i]
    ensures dead[i] ==> CountTrue(dead[..i]) < |spawned| && Respawn(coords, dead, spawned)[i] == spawned[CountTrue(dead[..i])]
  {
    CountTruePrefix(dead, i);
  }

  /**
   * Elements past the first m that hold `p` and are not dead still hold it
   * after a move and a respawn: the parked tail stays parked.
   */
  lemma MoveKeepsTail(coords: seq<Point>, speed: seq<real>, m: nat, c: real, s: real,
                      dead: seq<bool>, spawned: seq<Point>, p: Point)
    requires |speed| == |coords| && |dead| == |coords| && |spawned| == CountTrue(dead)
    requires forall i :: m <= i < |coords| ==> coords[i] == p && !dead[i]
    ensures forall i :: m <= i < |coords| ==> Respawn(Advance(coords, speed, m, c, s), dead, spawned)[i] == p
  {
    forall i | m <= i < |coords| ensures Respawn(Advance(coords, speed, m, c, s), dead, spawned)[i] == p {
      RespawnPlaces(Advance(coords, speed, m, c, s), dead, spawned, i);
    }
  }

  /** With no dead element a respawn changes nothing. */
  lemma RespawnNone(coords: seq<Point>, dead: seq<bool>)
    requires |dead| == |coords| && CountTrue(dead) == 0
    ensures Respawn(coords, dead, []) == coords
  {
    forall i | 0 <= i < |coords| ensures Respawn(coords, dead, [])[i] == coords[i] {
      RespawnPlaces(coords, dead, [], i);
    }
  }
}
