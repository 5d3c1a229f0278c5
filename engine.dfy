/**
 * The moving-element engine `OurStims` in its three versions: the earlier
 * one (`ourstimuli.py`), the ophys day-11 one and the habituation day-11
 * one with element suppression. One class holds the engine's state; the
 * `rig` says which version's branches apply.
 *
 * Randomness is the oracle `u` (uniform fractions) read at the engine's
 * cursor, and `vonMises` (orientation draws, in degrees). The cosine and
 * sine of the direction come from `trig`; the diagonal respawn placement
 * from `diag`.
 */
module Engine {
  import opened Common
  import opened Geometry
  import opened Motion
  import Timelines

  /** Which version of the engine. */
  datatype Rig = Early | Ophys | Habituation

  /** Python list indexing: negative indices count from the end. */
  function PyIndex(len: nat, i: int): (r: Option<nat>)
    ensures r.Some? <==> -(len as int) <= i < len
    ensures r.Some? ==> r.value < len && (r.value == i || r.value == len + i)
  {
    if 0 <= i < len then Some(i) else if -(len as int) <= i < 0 then Some(len + i) else None
  }

  // ---------------------------------------------------------------------
  // Position/size set selection (`setPosSizesAll`)

  /** The bank entry to show and the orientation mean to keep. */
  datatype Choice = Choice(bank: int, mu: real)

  /**
   * The choice of `setPosSizesAll(combo)`. The earlier and habituation
   * engines show the surprise set 4 and turn the mean by 90 degrees when
   * the surprise flag is 1 at combo 3. The ophys engine at combo 3 with a
   * surprise shows set 4 (flag 1) or keeps set 3 (flag 2) and turns the mean
   * by 180 (rotating control) or 90 degrees; otherwise the control mode
   * turns the mean by combo quarter turns. An unset flag raises
   * AttributeError, an unknown ophys flag ValueError.
   */
  function PosSizeChoice(rig: Rig, ctrl: bool, surp: Option<int>, combo: int, mu: real): (r: Result<Choice>)
    ensures r.Err? <==> surp.None? || (rig.Ophys? && surp.value != 0 && combo == 3 && surp.value != 1 && surp.value != 2)
    ensures r.Ok? && r.value.mu != mu ==> 0.0 <= r.value.mu < 360.0
  {
    if surp.None? then Err(AttributeError)
    else
      var s := surp.value;
      if !rig.Ophys? then
        if s == 1 && combo == 3 then Ok(Choice(4, Mod360(mu + 90.0))) else Ok(Choice(combo, mu))
      else if s != 0 && combo == 3 then
        if s == 1 || s == 2 then
          Ok(Choice(if s == 1 then 4 else 3, Mod360(mu + if ctrl then 180.0 else 90.0)))
        else Err(ValueError)
      else
        Ok(Choice(combo, if ctrl then Mod360(mu + (combo * 90) as real) else mu))
  }

  /**
   * The exception `setPosSizesAll(combo)` raises, if any: the earlier
   * engine first indexes the bank at `combo`; then the choice's own
   * exception; then the bank at the chosen set (TypeError without a bank,
   * IndexError for an index out of range).
   */
  function PosSizesError(rig: Rig, ctrl: bool, surp: Option<int>, combo: int, mu: real,
                         possizes: Option<seq<(seq<Point>, seq<real>)>>): (r: Option<Error>)
    ensures r.None? <==>
              && possizes.Some? && PosSizeChoice(rig, ctrl, surp, combo, mu).Ok?
              && PyIndex(|possizes.value|, PosSizeChoice(rig, ctrl, surp, combo, mu).value.bank).Some?
              && (rig.Early? ==> PyIndex(|possizes.value|, combo).Some?)
    ensures possizes.None? && (rig.Early? || PosSizeChoice(rig, ctrl, surp, combo, mu).Ok?) ==> r == Some(TypeError)
    ensures var c := PosSizeChoice(rig, ctrl, surp, combo, mu);
            c.Err? && (rig.Early? ==> possizes.Some? && PyIndex(|possizes.value|, combo).Some?) ==> r == Some(c.error)
    ensures r.Some? && r != Some(TypeError) && r != Some(IndexError) ==>
              PosSizeChoice(rig, ctrl, surp, combo, mu) == Err(r.value)
  {
    var c := PosSizeChoice(rig, ctrl, surp, combo, mu);
    if rig.Early? && possizes.None? then Some(TypeError)
    else if rig.Early? && PyIndex(|possizes.value|, combo).None? then Some(IndexError)
    else if c.Err? then Some(c.error)
    else if possizes.None? then Some(TypeError)
    else if PyIndex(|possizes.value|, c.value.bank).None? then Some(IndexError)
    else None
  }

  /** `x` is a whole number of quarter turns. */
  predicate QuarterTurns(x: real)
  {
    (x / 90.0).Floor as real == x / 90.0
  }

  /** Adding whole quarter turns and reducing modulo 360 stays a whole number of quarter turns away. */
  lemma Mod360Quarter(mu: real, q: int)
    ensures QuarterTurns(Mod360(mu + (q * 90) as real) - mu)
  {
    var x := mu + (q * 90) as real;
    var r := Mod360(x);
    var m := ((x - r) / 360.0).Floor;
    QuarterStep(mu, q, r, m);
  }

  lemma QuarterStep(mu: real, q: int, r: real, m: int)
    requires mu + (q * 90) as real - r == 360.0 * m as real
    ensures (r - mu) / 90.0 == (q - 4 * m) as real
  {
    assert r - mu == (90 * q - 360 * m) as real;
  }

  /**
   * Whatever set is shown, the orientation mean moves by whole quarter
   * turns, and it moves by exactly a half turn (control) or a quarter turn
   * at an ophys surprise.
   */
  lemma ChoiceTurnsByQuarters(rig: Rig, ctrl: bool, surp: Option<int>, combo: int, mu: real)
    requires PosSizeChoice(rig, ctrl, surp, combo, mu).Ok?
    ensures QuarterTurns(PosSizeChoice(rig, ctrl, surp, combo, mu).value.mu - mu)
  {
    var s := surp.value;
    if !rig.Ophys? {
      if s == 1 && combo == 3 { Mod360Quarter(mu, 1); } else { assert (mu - mu) / 90.0 == 0.0; }
    } else if s != 0 && combo == 3 {
      Mod360Quarter(mu, if ctrl then 2 else 1);
    } else if ctrl {
      Mod360Quarter(mu, combo);
    } else {
      assert (mu - mu) / 90.0 == 0.0;
    }
  }

  /**
   * With combo in 0..3 and a flag the engine accepts, the choice is one of
   * the five sets A, B, C, D and the surprise set, so a five-entry bank
   * (`possizearrays` with four images) never raises.
   */
  lemma ChoiceInBank(rig: Rig, ctrl: bool, s: int, combo: int, mu: real)
    requires 0 <= combo <= 3
    requires rig.Ophys? ==> 0 <= s <= 2
    ensures var r := PosSizeChoice(rig, ctrl, Some(s), combo, mu);
            r.Ok? && PyIndex(5, r.value.bank) == Some(r.value.bank as nat)
    ensures var r := PosSizeChoice(rig, ctrl, Some(s), combo, mu);
            r.value.bank == (if combo == 3 && s == 1 then 4 else combo)
  {
  }

  /** In the ophys control mode two surprise rounds bring the mean back to where it started. */
  lemma SurpriseTwiceReturns(s: int, mu: real)
    requires s == 1 || s == 2
    requires 0.0 <= mu < 360.0
    ensures var c1 := PosSizeChoice(Ophys, true, Some(s), 3, mu).value;
            PosSizeChoice(Ophys, true, Some(s), 3, c1.mu).value.mu == mu
  {
    var x1 := mu + 180.0;
    var r1 := Mod360(x1);
    var x2 := r1 + 180.0;
    var r2 := Mod360(x2);
    var t1 := (x1 - r1) / 360.0;
    var t2 := (x2 - r2) / 360.0;
    assert t1 == t1.Floor as real && t2 == t2.Floor as real;
    var z := 1 - t1.Floor - t2.Floor;
    assert r2 - mu == 360.0 * z as real;
    assert -360.0 < 360.0 * z as real < 360.0;
    assert z == 0;
  }

  // ---------------------------------------------------------------------
  // Orientations

  /**
   * The dispersion as the engine holds it, None meaning none: the earlier
   * engine takes a kappa of 0 for no dispersion, the day-11 engines None.
   */
  function Dispersion(rig: Rig, kappa: Option<real>): Option<real>
  {
    if rig.Early? && kappa == Some(0.0) then None else kappa
  }

  /** How many von Mises draws one orientation array takes. */
  function OriDraws(kappa: Option<real>, n: nat): nat { if kappa.None? then 0 else n }

  /**
   * `setOriParams`: every element at the mean when there is no dispersion,
   * otherwise n von Mises draws about it.
   */
  function OriParams(mu: real, kappa: Option<real>, n: nat, vonMises: (real, real, nat) -> real, cur: nat)
    : (r: seq<real>)
    ensures |r| == n
    ensures kappa.None? ==> forall i :: 0 <= i < n ==> r[i] == mu
  {
    if kappa.None? then Repeat(mu, n) else seq(n, i requires 0 <= i < n => vonMises(mu, kappa.value, cur + i))
  }

  /**
   * `_initOriArrays`: one orientation array per mean, drawn in order; the
   * mean list must be as long as the list of change frames.
   */
  method InitOriArrays(newOri: seq<real>, orimus: seq<real>, kappa: Option<real>, n: nat,
                       vonMises: (real, real, nat) -> real, cur: nat)
    returns (r: Result<seq<seq<real>>>, next: nat)
    ensures r.Err? <==> |newOri| != |orimus|
    ensures r.Err? ==> r.error.ValueError? && next == cur
    ensures r.Ok? ==> |r.value| == |orimus| && next == cur + |orimus| * OriDraws(kappa, n)
    ensures r.Ok? ==> forall k :: 0 <= k < |orimus| ==>
              r.value[k] == OriParams(orimus[k], kappa, n, vonMises, cur + k * OriDraws(kappa, n))
  {
    if |newOri| != |orimus| {
      return Err(ValueError), cur;
    }
    var arrays: seq<seq<real>> := [];
    next := cur;
    var k := 0;
    while k < |orimus|
      invariant 0 <= k <= |orimus|
      invariant |arrays| == k && next == cur + k * OriDraws(kappa, n)
      invariant forall j :: 0 <= j < k ==>
                  arrays[j] == OriParams(orimus[j], kappa, n, vonMises, cur + j * OriDraws(kappa, n))
    {
      arrays := arrays + [OriParams(orimus[k], kappa, n, vonMises, next)];
      next := next + OriDraws(kappa, n);
      k := k + 1;
    }
    return Ok(arrays), next;
  }

  /** The first position of `x` in `s` (Python's `list.index`). */
  function FirstIndex(s: seq<real>, x: real): (i: nat)
    requires x in s
    ensures i < |s| && s[i] == x && x !in s[..i]
  {
    if s[0] == x then 0 else 1 + FirstIndex(s[1..], x)
  }

  /** One `posByFrame` entry: coordinates rounded half to even, then cast to int16. */
  function PosFrame(cs: seq<Point>): (r: seq<(int, int)>)
    ensures |r| == |cs|
    ensures forall i :: 0 <= i < |cs| ==> -32768 <= r[i].0 < 32768 && -32768 <= r[i].1 < 32768
  {
    seq(|cs|, i requires 0 <= i < |cs| => (Int16(RoundHalfEven(cs[i].x)), Int16(RoundHalfEven(cs[i].y))))
  }

  /** On-screen coordinates are recorded to within half a unit. */
  lemma PosFrameClose(cs: seq<Point>, i: nat)
    requires i < |cs| && Abs(cs[i].x) <= 32767.0 && Abs(cs[i].y) <= 32767.0
    ensures Abs(PosFrame(cs)[i].0 as real - cs[i].x) <= 0.5
    ensures Abs(PosFrame(cs)[i].1 as real - cs[i].y) <= 0.5
  {
    Int16InRange(RoundHalfEven(cs[i].x));
    Int16InRange(RoundHalfEven(cs[i].y));
  }

  /** One `orisByImg` entry: orientations rounded half to even, then cast to int16. */
  function OriFrame(os: seq<real>): (r: seq<int>)
    ensures |r| == |os|
    ensures forall i :: 0 <= i < |os| ==> -32768 <= r[i] < 32768
  {
    seq(|os|, i requires 0 <= i < |os| => Int16(RoundHalfEven(os[i])))
  }

  // ---------------------------------------------------------------------
  // Frame counter

  /**
   * How far one `draw` advances the frame counter: the earlier engine
   * counts once in `draw` and again in `_update_stim_mov` when the elements
   * move; the day-11 engines count once.
   */
  function FrameStep(rig: Rig, moving: bool): nat
  {
    if rig.Early? && moving then 2 else 1
  }

  /** The frame count the k-th `draw` sees (the counter starts at 0). */
  function SeenAt(rig: Rig, moving: bool, k: nat): int
  {
    k * FrameStep(rig, moving)
  }

  /**
   * As written, the earlier engine with moving elements never sees an odd
   * frame, so a flip, position or orientation change scheduled there never
   * happens, and an even frame f is reached at draw f/2.
   */
  lemma EarlySkipsOddFrames(k: nat, frame: int)
    requires frame % 2 == 1
    ensures SeenAt(Early, true, k) != frame
    ensures SeenAt(Early, true, k) == 2 * k
  {
  }

  /** The day-11 engines see frame f at draw f, moving or not. */
  lemma Day11SeesEveryFrame(rig: Rig, moving: bool, frame: nat)
    requires !rig.Early?
    ensures SeenAt(rig, moving, frame) == frame
    ensures forall k: nat :: SeenAt(rig, moving, k) == frame ==> k == frame
  {
  }


  // ---------------------------------------------------------------------
  // Engine invariants

  /** Every speed is the default speed or its reverse. */
  predicate SpeedsOk(s: seq<real>, d: real)
  {
    forall i :: 0 <= i < |s| ==> s[i] == d || s[i] == -d
  }

  /** A live flip selection: not empty, every index an element. */
  predicate FlipSet(idx: seq<nat>, n: nat)
  {
    idx != [] && forall k :: 0 <= k < |idx| ==> idx[k] < n
  }

  /** Flipping or restoring keeps every speed at plus or minus the default. */
  lemma SetAtKeepsSpeeds(s: seq<real>, idx: seq<nat>, v: real, d: real)
    requires SpeedsOk(s, d) && (v == d || v == -d)
    ensures SpeedsOk(SetAt(s, idx, v), d)
  {
  }

  /** Reviving keeps every speed at plus or minus the default. */
  lemma ReviveKeepsSpeeds(s: seq<real>, dead: seq<bool>, idx: seq<nat>, d: real)
    requires SpeedsOk(s, d) && |dead| == |s|
    ensures SpeedsOk(ReviveSpeeds(s, dead, idx, d), d)
  {
  }

  /**
   * The dead elements left for respawning: dead, and not among the flipped
   * elements, which are revived instead.
   */
  function Survivors(f: Field, coords: seq<Point>, randel: Option<seq<nat>>): (dead: seq<bool>)
    ensures |dead| == |coords|
  {
    if randel.Some? then ClearAt(DeadMask(f, coords), randel.value) else DeadMask(f, coords)
  }

  /** An element is respawned exactly when it is dead and not flipped. */
  lemma SurvivorsAt(f: Field, coords: seq<Point>, randel: Option<seq<nat>>, i: nat)
    requires i < |coords|
    ensures Survivors(f, coords, randel)[i] <==> IsDead(f, coords[i]) && !(randel.Some? && i in randel.value)
  {
  }

  /** Parked elements are never respawned. */
  lemma ParkedNotRespawned(f: Field, coords: seq<Point>, randel: Option<seq<nat>>, i: nat)
    requires f.Nonneg() && i < |coords| && coords[i] == Parked(f)
    ensures !Survivors(f, coords, randel)[i]
  {
    ParkedAlive(f);
  }

  /**
   * Revived flipped elements keep their advanced position, the other dead
   * elements take the new points in order, and the rest keep their advanced
   * position.
   */
  lemma RevivedStay(f: Field, coords: seq<Point>, moved: seq<Point>, randel: seq<nat>, spawned: seq<Point>, k: nat)
    requires |moved| == |coords| && k < |randel| && randel[k] < |coords|
    requires |spawned| == CountTrue(Survivors(f, coords, Some(randel)))
    ensures Respawn(moved, Survivors(f, coords, Some(randel)), spawned)[randel[k]] == moved[randel[k]]
  {
    var dead := Survivors(f, coords, Some(randel));
    assert !dead[randel[k]];
    RespawnPlaces(moved, dead, spawned, randel[k]);
  }

  /** Whether any of the listed elements is dead. */
  predicate AnyDeadAt(dead: seq<bool>, idx: seq<nat>)
  {
    exists k :: 0 <= k < |idx| && idx[k] < |dead| && dead[idx[k]]
  }

  /**
   * What one motion step reads and changes: the positions `_coords`, the
   * speeds, the flip selection, `initScr` and the draw cursor.
   */
  datatype MovState = MovState(coords: seq<Point>, speed: seq<real>, randel: Option<seq<nat>>,
                               initScr: bool, cursor: nat)

  /** A call's exception, or the motion state it leaves when it raises none. */
  function Outcome(err: Option<Error>, s: MovState): Result<MovState>
  {
    if err.Some? then Err(err.value) else Ok(s)
  }

  // ---------------------------------------------------------------------
  // The engine

  class ElementField {
    const rig: Rig
    /** `nElements`. */
    const n: nat
    /** The initialization field and its buffer. */
    const f: Field
    const defaultSpeed: real
    const flipFrac: real
    /** Whether flip intervals were given (`len(flipdirec) != 0`). */
    const hasFlipDirec: bool
    const flipStart: seq<real>
    const flipEnd: seq<real>
    /** Frames at which to re-place and to re-orient the elements. */
    const newPos: seq<real>
    const newOri: seq<real>
    const oriArrays: seq<seq<real>>
    /** The position/size bank, (positions, sizes) per set. */
    const possizes: Option<seq<(seq<Point>, seq<real>)>>
    /**
     * `_ctrl`: the ophys engine's rotating-control mode, on at construction;
     * a session turns it off for the main gabor run.
     */
    var ctrl: bool
    const u: nat -> real
    const diag: nat -> Point
    const trig: real -> (real, real)
    const vonMises: (real, real, nat) -> real

    /** `_coords`: the engine's own element positions. */
    const coords: array<Point>
    /** Whether `_coords` has been set (not when a bank gave the first positions). */
    var hasCoords: bool
    /** `_speed`: signed speed of every element. */
    const speed: array<real>
    /** The elements flipped at the last flip start, if any. */
    var randel: Option<seq<nat>>
    var flip: int
    /** Number of trailing elements kept out of the field. */
    var suppress: nat
    var currSize: Option<real>
    var currDirec: Option<Direction>
    var direc: real
    var buffSign: (int, int)
    var initScr: bool
    var countFrames: int
    var lastFrame: int
    var posByFrame: Option<seq<seq<(int, int)>>>
    var orisByImg: Option<seq<seq<int>>>
    /** What was last handed to the display: positions, sizes and orientations. */
    var xys: seq<Point>
    var sizes: seq<real>
    var oris: seq<real>
    var orimu: real
    var kappa: Option<real>
    var surp: Option<int>
    /** Position of the next draw from `u` and `vonMises`. */
    var cursor: nat

    /**
     * The engine's invariant: one position and one speed per element, every
     * speed at plus or minus the default, a flip selection of elements, a
     * suppressed tail no longer than the elements (none outside the
     * habituation engine) and a normalised direction.
     */
    ghost predicate Valid()
      reads this`suppress, this`randel, this`direc, this`posByFrame, speed
    {
      && coords.Length == n && speed.Length == n
      && f.Nonneg() && f.initWid != 0.0
      && suppress <= n
      && (!rig.Habituation? ==> suppress == 0)
      && SpeedsOk(speed[..], defaultSpeed)
      && (randel.Some? ==> FlipSet(randel.value, n))
      && 0.0 <= direc < 360.0
      && (!rig.Early? && defaultSpeed != 0.0 ==> posByFrame.Some?)
      && |oriArrays| == |newOri|
    }

    /** The suppressed tail sits at the parking place. */
    ghost predicate ParkedTail()
      reads this`suppress, coords
    {
      coords.Length == n && suppress <= n &&
      forall i :: n - suppress <= i < n ==> coords[i] == Parked(f)
    }

    /** Whether `_update_stim_speed` starts a flip at frame `count`. */
    predicate StartsAt(count: int, signal: Option<int>)
    {
      signal == Some(1) || count as real in flipStart
    }

    /** Whether `_update_stim_speed` ends a flip at frame `count`. */
    predicate EndsAt(count: int, signal: Option<int>)
    {
      signal == Some(0) || count as real in flipEnd
    }

    /** Whether `_update_stim_speed` starts a flip now. */
    predicate StartsFlip(signal: Option<int>)
      reads this`countFrames
    {
      StartsAt(countFrames, signal)
    }

    /** Whether `_update_stim_speed` ends a flip now. */
    predicate EndsFlip(signal: Option<int>)
      reads this`countFrames
    {
      EndsAt(countFrames, signal)
    }

    /** Whether `draw` moves the elements. */
    predicate Moving()
      reads speed
    {
      if rig.Early? then n > 0 && speed.Length > 0 && speed[0] != 0.0 else defaultSpeed != 0.0
    }

    /** The part of the engine's state a motion step reads and changes. */
    ghost function Snapshot(): MovState
      reads this`randel, this`initScr, this`cursor, coords, speed
    {
      MovState(coords[..], speed[..], randel, initScr, cursor)
    }

    /**
     * `_update_stim_speed` on a state: a flip start selects among the first
     * `live` elements and reverses them; a flip end gives the selection the
     * default speed back and forgets it (the earlier engine reads the size
     * of a missing selection: AttributeError); otherwise nothing changes.
     */
    function SpeedUpdate(start: bool, stop: bool, s: MovState, live: nat): (r: Result<MovState>)
      ensures r.Err? <==> !start && stop && s.randel.None? && rig.Early?
      ensures r.Ok? ==> r.value.coords == s.coords && r.value.initScr == s.initScr
      ensures r.Ok? ==> |r.value.speed| == |s.speed|
    {
      if start then
        var sel := Select(live, flipFrac, u, s.cursor);
        Ok(s.(speed := SetAt(s.speed, sel, -defaultSpeed), randel := if sel == [] then None else Some(sel),
              cursor := s.cursor + live))
      else if stop then
        if s.randel.Some? then Ok(s.(speed := SetAt(s.speed, s.randel.value, defaultSpeed), randel := None))
        else if rig.Early? then Err(AttributeError)
        else Ok(s.(randel := None))
      else Ok(s)
    }

    /** `_revive_flipped_stim` on a state, when a flipped element is dead. */
    function Revived(s: MovState, dead: seq<bool>): (r: MovState)
      requires |dead| == |s.speed|
      ensures r.coords == s.coords && r.randel == s.randel && r.initScr == s.initScr && r.cursor == s.cursor
      ensures |r.speed| == |s.speed|
    {
      if s.randel.Some? && AnyDeadAt(dead, s.randel.value) then
        s.(speed := ReviveSpeeds(s.speed, dead, s.randel.value, defaultSpeed))
      else s
    }

    /**
     * The move of `_update_stim_mov` on a state: the first `live` elements
     * advance along the direction, then the dead ones take
     * `_newStimsXY(sum(dead))` in index order. With `initScr` still set that
     * placement first replaces `_coords` wholesale, so the boolean index
     * fails unless every element was dead.
     */
    function MoveRespawn(s: MovState, dead: seq<bool>, live: nat, direc: real, sign: (int, int)): (r: Result<MovState>)
      requires f.Nonneg() && |s.speed| == |s.coords| == |dead|
      ensures r.Ok? ==> r.value.speed == s.speed && r.value.randel == s.randel && |r.value.coords| == |s.coords|
      ensures CountTrue(dead) == 0 ==> r.Ok? && r.value.cursor == s.cursor && r.value.initScr == s.initScr
    {
      var moved := Advance(s.coords, s.speed, live, trig(direc).0, trig(direc).1);
      var k := CountTrue(dead);
      if k == 0 then Ok(s.(coords := moved))
      else
        var p := NewStimsXY(f, s.initScr, s.speed[0], direc, sign, k, u, s.cursor, diag);
        if p.Err? then Err(p.error)
        else if s.initScr && k != |dead| then Err(IndexError)
        else Ok(s.(coords := Respawn(moved, dead, p.value.points), initScr := p.value.initScr, cursor := s.cursor + 2 * k))
    }

    /**
     * `_update_stim_mov` on a state at frame `count`, once `_coords` exists:
     * the dead elements are found, the speeds are updated when flip
     * intervals were given, dead flipped elements are revived instead of
     * respawned, then the unsuppressed elements move and the other dead
     * ones respawn.
     */
    function StimMov(count: int, s: MovState, live: nat, direc: real, sign: (int, int)): (r: Result<MovState>)
      requires f.Nonneg() && |s.speed| == |s.coords|
      ensures r.Ok? ==> |r.value.coords| == |s.coords| && |r.value.speed| == |s.speed|
    {
      var s2 := FlipPhase(count, s, live);
      if s2.Err? then s2
      else MoveRespawn(s2.value, Survivors(f, s.coords, s2.value.randel), live, direc, sign)
    }

    /**
     * The flip half of `_update_stim_mov` on a state: the speed update when
     * flip intervals were given, then the revival of dead flipped elements
     * judged on the positions before the move.
     */
    function FlipPhase(count: int, s: MovState, live: nat): (r: Result<MovState>)
      requires |s.speed| == |s.coords|
      ensures r.Ok? ==> r.value.coords == s.coords && r.value.initScr == s.initScr && |r.value.speed| == |s.speed|
    {
      var s1 := if hasFlipDirec then SpeedUpdate(StartsAt(count, None), EndsAt(count, None), s, live) else Ok(s);
      if s1.Err? then s1
      else Ok(Revived(s1.value, DeadMask(f, s.coords)))
    }

    /**
     * `_update_stim_pos` on a state: `initScr` set and every element placed
     * afresh by `_newStimsXY(nElements)` (IndexError with no elements).
     */
    function Replaced(s: MovState, direc: real, sign: (int, int)): (r: Result<MovState>)
      requires f.Nonneg() && |s.speed| == |s.coords|
      ensures r.Err? <==> s.coords == []
      ensures r.Ok? ==> r.value.speed == s.speed && r.value.randel == s.randel && |r.value.coords| == |s.coords|
    {
      if |s.speed| == 0 then Err(IndexError)
      else
        var p := NewStimsXY(f, true, s.speed[0], direc, sign, |s.coords|, u, s.cursor, diag);
        Ok(s.(coords := p.value.points, initScr := p.value.initScr, cursor := s.cursor + 2 * |s.coords|))
    }

    /** Whether `draw` re-places at frame `count`. */
    predicate PosAt(count: int)
    {
      |newPos| > 0 && count as real in newPos
    }

    /**
     * The part of `draw` before the counter, on a state at frame `count`
     * (`coordsSet`: whether `_coords` exists): the re-placement at a
     * position frame, then the position record of moving day-11 elements,
     * which reads `_coords` (AttributeError while it is unset).
     */
    function ShowStep(count: int, s: MovState, coordsSet: bool, direc: real, sign: (int, int)): (r: Result<MovState>)
      requires f.Nonneg() && |s.speed| == |s.coords|
      ensures r.Err? <==> (PosAt(count) && s.coords == [])
                          || (!PosAt(count) && !coordsSet && !rig.Early? && defaultSpeed != 0.0)
      ensures r.Ok? && !PosAt(count) ==> r.value == s
      ensures r.Ok? ==> r.value.speed == s.speed && r.value.randel == s.randel && |r.value.coords| == |s.coords|
    {
      var placed := if PosAt(count) then Replaced(s, direc, sign) else Ok(s);
      if placed.Err? then placed
      else if !rig.Early? && defaultSpeed != 0.0 && !(coordsSet || PosAt(count)) then Err(AttributeError)
      else placed
    }

    /**
     * The second half of `draw`, on a state at frame `count` before it is
     * counted: the earlier engine reads the first speed (IndexError without
     * elements), then moving elements take `_update_stim_mov`, which needs
     * `_coords` (AttributeError while it is unset).
     */
    function CountMoveStep(count: int, s: MovState, coordsSet: bool, moving: bool, live: nat,
                           direc: real, sign: (int, int)): (r: Result<MovState>)
      requires f.Nonneg() && |s.speed| == |s.coords|
      ensures !moving ==> r == (if rig.Early? && s.coords == [] then Err(IndexError) else Ok(s))
      ensures moving && !coordsSet && !(rig.Early? && s.coords == []) ==> r == Err(AttributeError)
      ensures r.Ok? ==> |r.value.coords| == |s.coords|
    {
      if rig.Early? && |s.coords| == 0 then Err(IndexError)
      else MoveStep(count + 1, s, coordsSet, moving, live, direc, sign)
    }

    /**
     * The move of `draw`, on a state at frame `count` after it is counted:
     * `_update_stim_mov` for moving elements (the earlier engine counting
     * once more first), AttributeError while `_coords` is unset.
     */
    function MoveStep(count: int, s: MovState, coordsSet: bool, moving: bool, live: nat,
                      direc: real, sign: (int, int)): (r: Result<MovState>)
      requires f.Nonneg() && |s.speed| == |s.coords|
      ensures !moving ==> r == Ok(s)
      ensures moving && !coordsSet ==> r == Err(AttributeError)
      ensures r.Ok? ==> |r.value.coords| == |s.coords|
    {
      if !moving then Ok(s)
      else if !coordsSet then Err(AttributeError)
      else StimMov(count + (if rig.Early? then 1 else 0), s, live, direc, sign)
    }

    /**
     * One `draw` on the motion state at frame `count`: the display part,
     * then the count and the move, the first exception ending the frame.
     */
    function DrawStep(count: int, s: MovState, coordsSet: bool, moving: bool, live: nat,
                      direc: real, sign: (int, int)): (r: Result<MovState>)
      requires f.Nonneg() && |s.speed| == |s.coords|
      ensures ShowStep(count, s, coordsSet, direc, sign).Err? ==> r == ShowStep(count, s, coordsSet, direc, sign)
      ensures r.Ok? ==> |r.value.coords| == |s.coords|
    {
      var shown := ShowStep(count, s, coordsSet, direc, sign);
      if shown.Err? then shown
      else CountMoveStep(count, shown.value, coordsSet || PosAt(count), moving, live, direc, sign)
    }

    constructor (rig: Rig, n: nat, f: Field, defaultSpeed: real, flipFrac: real, hasFlipDirec: bool,
                 flipStart: seq<real>, flipEnd: seq<real>, newPos: seq<real>, newOri: seq<real>,
                 oriArrays: seq<seq<real>>, possizes: Option<seq<(seq<Point>, seq<real>)>>,
                 u: nat -> real, diag: nat -> Point, trig: real -> (real, real),
                 vonMises: (real, real, nat) -> real, setup: Setup)
      requires f.Nonneg() && f.initWid != 0.0
      requires setup.suppress <= n && (!rig.Habituation? ==> setup.suppress == 0)
      requires 0.0 <= setup.direc < 360.0 && |oriArrays| == |newOri| && |oriArrays| > 0
      ensures Valid()
      ensures this.rig == rig && this.n == n && this.f == f && this.defaultSpeed == defaultSpeed
      ensures this.flipFrac == flipFrac && this.hasFlipDirec == hasFlipDirec
      ensures this.flipStart == flipStart && this.flipEnd == flipEnd
      ensures this.newPos == newPos && this.newOri == newOri && this.oriArrays == oriArrays
      ensures this.possizes == possizes && this.ctrl == rig.Ophys?
      ensures this.u == u && this.diag == diag && this.trig == trig && this.vonMises == vonMises
      ensures direc == setup.direc && buffSign == setup.buffSign && flip == setup.flip
      ensures suppress == setup.suppress && currSize == setup.currSize && currDirec == setup.currDirec
      ensures sizes == setup.sizes && initScr == setup.initScr && orimu == setup.orimu
      ensures kappa == setup.kappa && cursor == setup.cursor
      ensures speed[..] == Repeat(defaultSpeed, n) && fresh(coords) && fresh(speed)
      ensures randel.None? && !hasCoords && countFrames == 0 && lastFrame == 0 && surp.None?
      ensures oris == oriArrays[0] && xys == []
      ensures posByFrame == (if !rig.Early? && defaultSpeed != 0.0 then Some([]) else None)
      ensures orisByImg == (if !rig.Early? && defaultSpeed == 0.0 then Some([]) else None)
    {
      this.rig := rig;
      this.n := n;
      this.f := f;
      this.defaultSpeed := defaultSpeed;
      this.flipFrac := flipFrac;
      this.hasFlipDirec := hasFlipDirec;
      this.flipStart := flipStart;
      this.flipEnd := flipEnd;
      this.newPos := newPos;
      this.newOri := newOri;
      this.oriArrays := oriArrays;
      this.possizes := possizes;
      this.ctrl := rig.Ophys?;
      this.u := u;
      this.diag := diag;
      this.trig := trig;
      this.vonMises := vonMises;
      coords := new Point[n](_ => Point(0.0, 0.0));
      speed := new real[n](_ => defaultSpeed);
      hasCoords := false;
      randel := None;
      flip := setup.flip;
      suppress := setup.suppress;
      currSize := setup.currSize;
      currDirec := setup.currDirec;
      direc := setup.direc;
      buffSign := setup.buffSign;
      initScr := setup.initScr;
      countFrames := 0;
      lastFrame := 0;
      posByFrame := if !rig.Early? && defaultSpeed != 0.0 then Some([]) else None;
      orisByImg := if !rig.Early? && defaultSpeed == 0.0 then Some([]) else None;
      xys := [];
      sizes := setup.sizes;
      oris := oriArrays[0];
      orimu := setup.orimu;
      kappa := setup.kappa;
      surp := None;
      cursor := setup.cursor;
    }

    // -------------------------------------------------------------------
    // Speeds

    /** `_speed[idx] = v`. */
    method WriteSpeeds(idx: seq<nat>, v: real)
      requires forall k :: 0 <= k < |idx| ==> idx[k] < speed.Length
      modifies speed
      ensures speed[..] == SetAt(old(speed[..]), idx, v)
    {
      var k := 0;
      while k < |idx|
        invariant 0 <= k <= |idx|
        invariant forall i :: 0 <= i < speed.Length ==> speed[i] == (if i in idx[..k] then v else old(speed[i]))
      {
        speed[idx[k]] := v;
        k := k + 1;
      }
      assert idx[..k] == idx;
    }

    /**
     * `_update_stim_speed`: at a flip start (signal 1 or a start frame) a
     * fresh selection among the unsuppressed elements turns back; at a flip
     * end (signal 0 or an end frame) the flipped elements get the default
     * speed again and the selection is forgotten. The earlier engine reads
     * the size of a missing selection at a flip end: AttributeError.
     */
    method UpdateStimSpeed(signal: Option<int>) returns (err: Option<Error>)
      requires Valid()
      modifies this`randel, this`cursor, speed
      ensures Valid()
      ensures StartsFlip(signal) ==>
                var sel := Select(n - suppress, flipFrac, u, old(cursor));
                && err.None?
                && speed[..] == SetAt(old(speed[..]), sel, -defaultSpeed)
                && randel == (if sel == [] then None else Some(sel))
                && cursor == old(cursor) + (n - suppress)
      ensures !StartsFlip(signal) && EndsFlip(signal) ==>
                && cursor == old(cursor) && randel.None?
                && (old(randel).Some? ==>
                      err.None? && speed[..] == SetAt(old(speed[..]), old(randel).value, defaultSpeed))
                && (old(randel).None? ==>
                      speed[..] == old(speed[..]) && err == (if rig.Early? then Some(AttributeError) else None))
      ensures !StartsFlip(signal) && !EndsFlip(signal) ==>
                err.None? && randel == old(randel) && cursor == old(cursor) && speed[..] == old(speed[..])
      ensures err.Some? ==> Err(err.value) == SpeedUpdate(StartsFlip(signal), EndsFlip(signal), old(Snapshot()), n - suppress)
      ensures err.None? ==> Ok(Snapshot()) == SpeedUpdate(StartsFlip(signal), EndsFlip(signal), old(Snapshot()), n - suppress)
    {
      err := None;
      if StartsFlip(signal) {
        StartFlip();
      } else if EndsFlip(signal) {
        err := EndFlip();
      }
    }

    /**
     * A flip start in `_update_stim_speed`: `flipfrac` of the unsuppressed
     * elements are drawn, one draw each, and reversed.
     */
    method StartFlip()
      requires Valid()
      modifies this`randel, this`cursor, speed
      ensures Valid()
      ensures var sel := Select(n - suppress, flipFrac, u, old(cursor));
              && speed[..] == SetAt(old(speed[..]), sel, -defaultSpeed)
              && randel == (if sel == [] then None else Some(sel))
              && cursor == old(cursor) + (n - suppress)
    {
      var sel := Select(n - suppress, flipFrac, u, cursor);
      SelectBelow(n - suppress, flipFrac, u, cursor);
      cursor := cursor + (n - suppress);
      ReverseSelected(sel);
    }

    /**
     * A flip start in `_update_stim_speed`, once the selection is drawn:
     * the selected elements are reversed and the selection is kept.
     */
    method ReverseSelected(sel: seq<nat>)
      requires Valid() && forall k :: 0 <= k < |sel| ==> sel[k] < n
      modifies this`randel, speed
      ensures Valid()
      ensures speed[..] == SetAt(old(speed[..]), sel, -defaultSpeed)
      ensures randel == (if sel == [] then None else Some(sel))
    {
      SetAtKeepsSpeeds(speed[..], sel, -defaultSpeed, defaultSpeed);
      WriteSpeeds(sel, -defaultSpeed);
      randel := if sel == [] then None else Some(sel);
    }

    /**
     * A flip end in `_update_stim_speed`: the selected elements get the
     * default speed back and the selection is forgotten; without one the
     * earlier engine raises AttributeError.
     */
    method EndFlip() returns (err: Option<Error>)
      requires Valid()
      modifies this`randel, speed
      ensures Valid()
      ensures randel.None?
      ensures old(randel).Some? ==> err.None? && speed[..] == SetAt(old(speed[..]), old(randel).value, defaultSpeed)
      ensures old(randel).None? ==>
                speed[..] == old(speed[..]) && err == (if rig.Early? then Some(AttributeError) else None)
    {
      err := None;
      if randel.Some? {
        SetAtKeepsSpeeds(speed[..], randel.value, defaultSpeed, defaultSpeed);
        WriteSpeeds(randel.value, defaultSpeed);
      } else if rig.Early? {
        err := Some(AttributeError);
      }
      randel := None;
    }

    /**
     * `setFlip` (ophys; the flip part of `setFlipDirecSize` likewise): only
     * a change of the flip value, 0 to 1 or 1 to 0, updates the speeds; any
     * other value changes nothing.
     */
    method SetFlip(value: int)
      requires Valid() && !rig.Early?
      modifies this`flip, this`randel, this`cursor, speed
      ensures Valid()
      ensures (old(flip) == 1 && value == 0) || (old(flip) == 0 && value == 1) ==>
                var sel := Select(n - suppress, flipFrac, u, old(cursor));
                && flip == value
                && (StartsFlip(Some(value)) ==>
                      speed[..] == SetAt(old(speed[..]), sel, -defaultSpeed)
                      && randel == (if sel == [] then None else Some(sel))
                      && cursor == old(cursor) + (n - suppress))
                && (!StartsFlip(Some(value)) ==>
                      randel.None? && cursor == old(cursor)
                      && speed[..] == (if old(randel).Some? then SetAt(old(speed[..]), old(randel).value, defaultSpeed)
                                       else old(speed[..])))
      ensures !((old(flip) == 1 && value == 0) || (old(flip) == 0 && value == 1)) ==>
                flip == old(flip) && randel == old(randel) && cursor == old(cursor) && speed[..] == old(speed[..])
    {
      if flip == 1 && value == 0 {
        flip := 0;
        var _ := UpdateStimSpeed(Some(0));
      } else if flip == 0 && value == 1 {
        flip := 1;
        var _ := UpdateStimSpeed(Some(1));
      }
    }

    /**
     * `_revive_flipped_stim`: flipped elements that left the field get the
     * default speed back and are taken off the dead list.
     */
    method ReviveFlippedStim(dead: seq<bool>) returns (alive: seq<bool>)
      requires randel.Some? && |dead| == speed.Length
      requires forall k :: 0 <= k < |randel.value| ==> randel.value[k] < speed.Length
      modifies speed
      ensures speed[..] == ReviveSpeeds(old(speed[..]), dead, randel.value, defaultSpeed)
      ensures alive == ClearAt(dead, randel.value)
    {
      var idx := randel.value;
      var k := 0;
      while k < |idx|
        invariant 0 <= k <= |idx|
        invariant forall i :: 0 <= i < speed.Length ==>
                    speed[i] == (if i in idx[..k] && dead[i] then defaultSpeed else old(speed[i]))
      {
        if dead[idx[k]] {
          speed[idx[k]] := defaultSpeed;
        }
        k := k + 1;
      }
      assert idx[..k] == idx;
      alive := ClearAt(dead, idx);
    }

    // -------------------------------------------------------------------
    // Positions

    /**
     * The advance of `_update_stim_mov`: each unsuppressed element moves by
     * its speed along the direction.
     */
    method AdvanceAll()
      requires coords.Length == n && speed.Length == n && suppress <= n
      modifies coords
      ensures coords[..] == Advance(old(coords[..]), speed[..], n - suppress, trig(direc).0, trig(direc).1)
    {
      var c := trig(direc).0;
      var s := trig(direc).1;
      ghost var target := Advance(coords[..], speed[..], n - suppress, c, s);
      var i := 0;
      while i < n - suppress
        invariant 0 <= i <= n - suppress
        invariant forall j :: 0 <= j < i ==> coords[j] == target[j]
        invariant forall j :: i <= j < n ==> coords[j] == old(coords[j])
      {
        coords[i] := Step(coords[i], speed[i], c, s);
        i := i + 1;
      }
      assert forall j :: n - suppress <= j < n ==> target[j] == old(coords[j]);
      assert coords[..] == target;
    }

    /** `_coords[dead, :] = spawned`: the k-th dead element takes the k-th new point. */
    method PlaceRespawned(dead: seq<bool>, spawned: seq<Point>)
      requires coords.Length == |dead| && |spawned| == CountTrue(dead)
      modifies coords
      ensures coords[..] == Respawn(old(coords[..]), dead, spawned)
    {
      var i := 0;
      var j := 0;
      while i < |dead|
        invariant 0 <= i <= |dead|
        invariant j == CountTrue(dead[..i])
        invariant forall t :: 0 <= t < i ==> coords[t] == Respawn(old(coords[..]), dead, spawned)[t]
        invariant forall t :: i <= t < |dead| ==> coords[t] == old(coords[t])
      {
        CountTruePrefix(dead, i);
        RespawnPlaces(old(coords[..]), dead, spawned, i);
        if dead[i] {
          coords[i] := spawned[j];
          j := j + 1;
        }
        i := i + 1;
      }
    }

    /** Overwrites every position. */
    method WriteCoords(ps: seq<Point>)
      requires coords.Length == |ps|
      modifies coords
      ensures coords[..] == ps
    {
      var i := 0;
      while i < |ps|
        invariant 0 <= i <= |ps|
        invariant forall j :: 0 <= j < i ==> coords[j] == ps[j]
      {
        coords[i] := ps[i];
        i := i + 1;
      }
    }

    /**
     * `_newStimsXY(k)`, reading the first element's speed (IndexError with
     * no elements).
     */
    method NewStims(k: nat) returns (r: Result<seq<Point>>)
      requires speed.Length == n && f.Nonneg()
      modifies this`initScr, this`cursor
      ensures n == 0 ==> r == Err(IndexError) && initScr == old(initScr) && cursor == old(cursor)
      ensures n > 0 ==>
                var s := NewStimsXY(f, old(initScr), speed[0], direc, buffSign, k, u, old(cursor), diag);
                && (s.Err? ==> r == Err(s.error) && initScr == old(initScr) && cursor == old(cursor))
                && (s.Ok? ==> r == Ok(s.value.points) && initScr == s.value.initScr && cursor == old(cursor) + 2 * k)
    {
      if n == 0 {
        return Err(IndexError);
      }
      var s := NewStimsXY(f, initScr, speed[0], direc, buffSign, k, u, cursor, diag);
      if s.Err? {
        return Err(s.error);
      }
      initScr := s.value.initScr;
      cursor := cursor + 2 * k;
      return Ok(s.value.points);
    }

    /** `_suppressExtraStims`: the trailing `suppress` elements go to the parking place. */
    method SuppressExtraStims()
      requires coords.Length == n && suppress <= n
      modifies coords
      ensures ParkedTail()
      ensures coords[..] == old(coords[..n - suppress]) + Repeat(Parked(f), suppress)
    {
      var i := n - suppress;
      while i < n
        invariant n - suppress <= i <= n
        invariant forall j :: 0 <= j < n ==> coords[j] == (if n - suppress <= j < i then Parked(f) else old(coords[j]))
      {
        coords[i] := Parked(f);
        i := i + 1;
      }
      assert coords[..] == old(coords[..n - suppress]) + Repeat(Parked(f), suppress);
    }

    /**
     * The first half of `_update_stim_mov`: the dead elements, after the
     * flip update (when flip intervals were given) and the revival of
     * flipped elements that left the field. Reading `_coords` before it is
     * set raises AttributeError.
     */
    method DeadAfterFlips() returns (err: Option<Error>, dead: seq<bool>)
      requires Valid()
      modifies this`randel, this`cursor, speed
      ensures Valid()
      ensures !hasCoords ==> err == Some(AttributeError) && Snapshot() == old(Snapshot())
      ensures hasCoords && err.Some? ==> Err(err.value) == FlipPhase(countFrames, old(Snapshot()), n - suppress)
      ensures hasCoords && err.None? ==> Ok(Snapshot()) == FlipPhase(countFrames, old(Snapshot()), n - suppress)
      ensures |dead| == n
      ensures err.None? ==> hasCoords && dead == Survivors(f, coords[..], randel)
    {
      ghost var s0 := Snapshot();
      dead := DeadMask(f, coords[..]);
      err := if hasCoords then None else Some(AttributeError);
      err := FlipSpeeds(err);
      ghost var s1 := Snapshot();
      dead := ReviveIfDead(err, dead);
      assert err.None? ==> Snapshot() == Revived(s1, DeadMask(f, s0.coords));
    }

    /**
     * The speed update of `_update_stim_mov`, when flip intervals were
     * given and nothing was raised before it (`raised`).
     */
    method FlipSpeeds(raised: Option<Error>) returns (err: Option<Error>)
      requires Valid()
      modifies this`randel, this`cursor, speed
      ensures Valid()
      ensures raised.Some? || !hasFlipDirec ==> err == raised && Snapshot() == old(Snapshot())
      ensures raised.None? && hasFlipDirec && err.Some? ==>
                Err(err.value) == SpeedUpdate(StartsAt(countFrames, None), EndsAt(countFrames, None), old(Snapshot()), n - suppress)
      ensures raised.None? && hasFlipDirec && err.None? ==>
                Ok(Snapshot()) == SpeedUpdate(StartsAt(countFrames, None), EndsAt(countFrames, None), old(Snapshot()), n - suppress)
    {
      if raised.Some? || !hasFlipDirec {
        return raised;
      }
      err := UpdateStimSpeed(None);
    }

    /**
     * The revival step of `_update_stim_mov`: only when some flipped
     * element is dead are the flipped dead elements revived; either way no
     * flipped element stays on the dead list. An exception raised before it
     * (`raised`) skips it.
     */
    method ReviveIfDead(raised: Option<Error>, dead: seq<bool>) returns (alive: seq<bool>)
      requires Valid() && |dead| == n
      modifies speed
      ensures Valid()
      ensures |alive| == |dead|
      ensures raised.Some? ==> Snapshot() == old(Snapshot())
      ensures raised.None? ==> Snapshot() == Revived(old(Snapshot()), dead)
      ensures raised.None? ==> alive == if randel.Some? then ClearAt(dead, randel.value) else dead
    {
      alive := dead;
      if raised.Some? {
        return;
      }
      if randel.Some? && AnyDeadAt(dead, randel.value) {
        ReviveKeepsSpeeds(speed[..], dead, randel.value, defaultSpeed);
        alive := ReviveFlippedStim(dead);
      } else if randel.Some? {
        assert dead == ClearAt(dead, randel.value);
      }
    }

    /**
     * The second half of `_update_stim_mov`: advance, respawn the given dead
     * elements and show the result. An exception raised in the first half
     * (`raised`) skips it.
     */
    method MoveAndRespawn(raised: Option<Error>, dead: seq<bool>) returns (err: Option<Error>)
      requires Valid() && |dead| == n
      modifies this`initScr, this`cursor, this`xys, coords
      ensures Valid()
      ensures raised.Some? ==> err == raised && Snapshot() == old(Snapshot())
      ensures raised.None? && err.Some? ==> Err(err.value) == MoveRespawn(old(Snapshot()), dead, n - suppress, direc, buffSign)
      ensures raised.None? && err.None? ==> Ok(Snapshot()) == MoveRespawn(old(Snapshot()), dead, n - suppress, direc, buffSign)
      ensures err.None? ==> xys == coords[..]
    {
      if raised.Some? {
        return raised;
      }
      AdvanceAll();
      if CountTrue(dead) > 0 {
        err := RespawnDead(dead);
        if err.Some? {
          return;
        }
      } else {
        RespawnNone(coords[..], dead);
      }
      xys := coords[..];
      err := None;
    }

    /**
     * `_coords[dead, :] = _newStimsXY(sum(dead))` for at least one dead
     * element: the k-th dead element takes the k-th new point. With
     * `initScr` set the new placement first replaces `_coords` wholesale,
     * so the boolean index fails unless every element was dead.
     */
    method RespawnDead(dead: seq<bool>) returns (err: Option<Error>)
      requires Valid() && |dead| == n && CountTrue(dead) > 0
      modifies this`initScr, this`cursor, coords
      ensures Valid()
      ensures n > 0
      ensures var p := NewStimsXY(f, old(initScr), speed[0], direc, buffSign, CountTrue(dead), u, old(cursor), diag);
              && (p.Err? ==> err == Some(p.error))
              && (p.Ok? && old(initScr) && CountTrue(dead) != n ==> err == Some(IndexError))
              && (p.Ok? && (!old(initScr) || CountTrue(dead) == n) ==>
                    && err.None?
                    && coords[..] == Respawn(old(coords[..]), dead, p.value.points)
                    && initScr == p.value.initScr && cursor == old(cursor) + 2 * CountTrue(dead))
    {
      var k := CountTrue(dead);
      var wasInit := initScr;
      var r := NewStims(k);
      if r.Err? {
        return Some(r.error);
      }
      if wasInit && k != n {
        return Some(IndexError);
      }
      PlaceRespawned(dead, r.value);
      err := None;
    }

    /**
     * `_update_stim_mov`: the earlier engine counts a frame first; without
     * `_coords` (a first placement that did not set it) the step raises
     * AttributeError; otherwise the dead elements that are not flipped are
     * respawned, flipped ones are revived instead, and the suppressed tail
     * stays parked.
     */
    method UpdateStimMov() returns (err: Option<Error>)
      requires Valid()
      modifies this`countFrames, this`randel, this`cursor, this`initScr, this`xys, speed, coords
      ensures Valid()
      ensures countFrames == old(countFrames) + (if rig.Early? then 1 else 0)
      ensures err.None? ==> xys == coords[..]
      ensures Outcome(err, Snapshot()) ==
                MoveStep(old(countFrames), old(Snapshot()), hasCoords, true, n - suppress, direc, buffSign)
    {
      countFrames := countFrames + (if rig.Early? then 1 else 0);
      err := FlipMoveRespawn();
    }

    /**
     * The body of `_update_stim_mov`: the flip bookkeeping, then every
     * element moved and the dead ones respawned (AttributeError while
     * `_coords` is unset).
     */
    method FlipMoveRespawn() returns (err: Option<Error>)
      requires Valid()
      modifies this`randel, this`cursor, this`initScr, this`xys, speed, coords
      ensures Valid()
      ensures !hasCoords ==> err == Some(AttributeError) && Snapshot() == old(Snapshot())
      ensures hasCoords && err.Some? ==> Err(err.value) == StimMov(countFrames, old(Snapshot()), n - suppress, direc, buffSign)
      ensures err.None? ==> hasCoords && Ok(Snapshot()) == StimMov(countFrames, old(Snapshot()), n - suppress, direc, buffSign)
      ensures err.None? ==> xys == coords[..]
    {
      ghost var s0 := Snapshot();
      var mask;
      err, mask := DeadAfterFlips();
      ghost var s1 := Snapshot();
      assert err.None? ==> Ok(s1) == FlipPhase(countFrames, s0, n - suppress);
      assert err.None? ==> mask == Survivors(f, s0.coords, s1.randel);
      err := MoveAndRespawn(err, mask);
    }

    /**
     * A motion step keeps the suppressed tail parked: parked elements are
     * never dead, so they are not respawned, and they do not advance.
     */
    lemma StimMovKeepsTail(count: int, s: MovState, live: nat, direc: real, sign: (int, int))
      requires f.Nonneg() && |s.speed| == |s.coords|
      requires forall i :: live <= i < |s.coords| ==> s.coords[i] == Parked(f)
      ensures var r := StimMov(count, s, live, direc, sign);
              r.Ok? ==> forall i :: live <= i < |s.coords| ==> r.value.coords[i] == Parked(f)
    {
      var p := FlipPhase(count, s, live);
      if p.Ok? {
        var dead := Survivors(f, s.coords, p.value.randel);
        forall i | live <= i < |s.coords| ensures !dead[i] {
          ParkedNotRespawned(f, s.coords, p.value.randel, i);
        }
        MoveRespawnKeepsTail(p.value, dead, live, direc, sign, Parked(f));
      }
    }

    /**
     * After a frame of motion past the first placement (`initScr` clear),
     * for an axis-aligned direction, every element that was respawned sits
     * alive in the buffer band on the edge the motion comes from, and every
     * other element holds its advanced position.
     */
    lemma StimMovRespawnsOnEdge(count: int, s: MovState, live: nat, direc: real, sign: (int, int), i: nat)
      requires f.Nonneg() && |s.speed| == |s.coords| && i < |s.coords|
      requires !s.initScr && Multiple(direc, 90.0)
      requires (sign.0 == 1 || sign.0 == -1) && (sign.1 == 1 || sign.1 == -1)
      ensures var r := StimMov(count, s, live, direc, sign);
              r.Ok? ==>
                var p := FlipPhase(count, s, live).value;
                var dead := Survivors(f, s.coords, p.randel);
                && (dead[i] ==> EdgePlaced(f, direc, sign, r.value.coords[i]))
                && (!dead[i] ==> r.value.coords[i] == Advance(s.coords, r.value.speed, live, trig(direc).0, trig(direc).1)[i])
    {
      var r := StimMov(count, s, live, direc, sign);
      if r.Ok? {
        var p := FlipPhase(count, s, live).value;
        var dead := Survivors(f, s.coords, p.randel);
        var moved := Advance(s.coords, p.speed, live, trig(direc).0, trig(direc).1);
        var k := CountTrue(dead);
        if k == 0 {
          RespawnPlaces(moved, dead, [], i);
        } else {
          var q := NewStimsXY(f, p.initScr, p.speed[0], direc, sign, k, u, p.cursor, diag).value;
          assert r.value.coords == Respawn(moved, dead, q.points);
          RespawnPlaces(moved, dead, q.points, i);
          if dead[i] {
            EdgeSpawnPlacement(f, direc, sign, k, u, p.cursor, diag, CountTrue(dead[..i]));
          }
        }
      }
    }

    /** A re-placement puts every element on the screen alive. */
    lemma ReplacedAlive(s: MovState, direc: real, sign: (int, int), i: nat)
      requires f.Nonneg() && |s.speed| == |s.coords| && i < |s.coords|
      ensures var r := Replaced(s, direc, sign); r.Ok? && !IsDead(f, r.value.coords[i])
    {
      NewStimsAlive(f, true, s.speed[0], direc, sign, |s.coords|, u, s.cursor, diag, i);
    }

    /** Parked elements past the first `live` that are not dead stay parked through a move. */
    lemma MoveRespawnKeepsTail(s: MovState, dead: seq<bool>, live: nat, direc: real, sign: (int, int), p: Point)
      requires f.Nonneg() && |s.speed| == |s.coords| == |dead|
      requires forall i :: live <= i < |s.coords| ==> s.coords[i] == p && !dead[i]
      ensures var r := MoveRespawn(s, dead, live, direc, sign);
              r.Ok? ==> forall i :: live <= i < |s.coords| ==> r.value.coords[i] == p
    {
      var c, sn := trig(direc).0, trig(direc).1;
      var k := CountTrue(dead);
      if k == 0 {
        RespawnNone(Advance(s.coords, s.speed, live, c, sn), dead);
        MoveKeepsTail(s.coords, s.speed, live, c, sn, dead, [], p);
      } else {
        var q := NewStimsXY(f, s.initScr, s.speed[0], direc, sign, k, u, s.cursor, diag);
        if q.Ok? {
          MoveKeepsTail(s.coords, s.speed, live, c, sn, dead, q.value.points, p);
        }
      }
    }

    /** `_update_stim_pos`: a fresh on-screen placement of every element. */
    method UpdateStimPos() returns (err: Option<Error>)
      requires Valid()
      modifies this`initScr, this`cursor, this`hasCoords, this`xys, coords
      ensures Valid()
      ensures err.None? ==> hasCoords && xys == coords[..]
      ensures err.Some? ==> Err(err.value) == Replaced(old(Snapshot()), direc, buffSign)
      ensures err.None? ==> Ok(Snapshot()) == Replaced(old(Snapshot()), direc, buffSign)
      ensures err.Some? ==> unchanged(coords) && xys == old(xys) && hasCoords == old(hasCoords)
    {
      initScr := true;
      var r := NewStims(n);
      if r.Err? {
        return Some(r.error);
      }
      WriteCoords(r.value);
      hasCoords := true;
      xys := coords[..];
      err := None;
    }

    /** Whether `draw` re-orients at the current frame. */
    predicate OriFrameNow()
      reads this`countFrames
    {
      |newOri| > 1 && countFrames as real in newOri[1..]
    }

    /** Whether `draw` re-places at the current frame. */
    predicate PosFrameNow()
      reads this`countFrames
    {
      PosAt(countFrames)
    }

    /**
     * The part of `draw` before the counter: re-place at a position frame,
     * re-orient at an orientation frame (the first matching array), record
     * the positions of moving day-11 elements (which need `_coords`).
     */
    method ShowFrame() returns (err: Option<Error>, shown: seq<Point>)
      requires Valid()
      modifies this`initScr, this`cursor, this`hasCoords, this`xys, this`oris, this`posByFrame, coords
      ensures Valid()
      ensures shown == coords[..]
      ensures OriFrameNow() && !(PosFrameNow() && n == 0) ==> oris == oriArrays[FirstIndex(newOri, countFrames as real)]
      ensures !OriFrameNow() || (PosFrameNow() && n == 0) ==> oris == old(oris)
      ensures err.None? && !rig.Early? && defaultSpeed != 0.0 ==>
                posByFrame == Some(old(posByFrame).value + [PosFrame(shown)])
      ensures Outcome(err, Snapshot()) == ShowStep(countFrames, old(Snapshot()), old(hasCoords), direc, buffSign)
      ensures err.None? ==> hasCoords == (old(hasCoords) || PosFrameNow())
    {
      if PosFrameNow() {
        err := UpdateStimPos();
        if err.Some? {
          return err, coords[..];
        }
      }
      if OriFrameNow() {
        oris := oriArrays[FirstIndex(newOri, countFrames as real)];
      }
      shown := coords[..];
      err := RecordPositions();
    }

    /**
     * The position record of `draw`: moving day-11 elements append the
     * shown positions, which need `_coords` (AttributeError without).
     */
    method RecordPositions() returns (err: Option<Error>)
      requires Valid()
      modifies this`posByFrame
      ensures Valid()
      ensures err.Some? <==> !rig.Early? && defaultSpeed != 0.0 && !hasCoords
      ensures err.Some? ==> err == Some(AttributeError)
      ensures err.None? && !rig.Early? && defaultSpeed != 0.0 ==>
                posByFrame == Some(old(posByFrame).value + [PosFrame(coords[..])])
      ensures rig.Early? || defaultSpeed == 0.0 ==> posByFrame == old(posByFrame)
    {
      err := None;
      if !rig.Early? && defaultSpeed != 0.0 {
        if !hasCoords {
          return Some(AttributeError);
        }
        posByFrame := Some(posByFrame.value + [PosFrame(coords[..])]);
      }
    }

    /**
     * `draw`: show the frame, count it (recording the count first in the
     * day-11 engines) and move the elements.
     */
    method Draw() returns (err: Option<Error>, ghost shown: seq<Point>)
      requires Valid()
      modifies this`countFrames, this`lastFrame, this`randel, this`cursor, this`initScr, this`xys,
               this`hasCoords, this`oris, this`posByFrame, speed, coords
      ensures Valid()
      ensures var shownOk := ShowStep(old(countFrames), old(Snapshot()), old(hasCoords), direc, buffSign).Ok?;
              && countFrames == old(countFrames) + (if shownOk then FrameStep(rig, old(Moving())) else 0)
              && (shownOk && !rig.Early? ==> lastFrame == old(countFrames))
      ensures old(OriFrameNow()) && !(old(PosFrameNow()) && n == 0) ==>
                oris == oriArrays[FirstIndex(newOri, old(countFrames) as real)]
      ensures !old(OriFrameNow()) || (old(PosFrameNow()) && n == 0) ==> oris == old(oris)
      ensures err.None? && !rig.Early? && defaultSpeed != 0.0 ==>
                posByFrame == Some(old(posByFrame).value + [PosFrame(shown)])
      ensures Outcome(err, Snapshot()) ==
                DrawStep(old(countFrames), old(Snapshot()), old(hasCoords), old(Moving()), n - suppress, direc, buffSign)
    {
      var now;
      err, now := ShowFrame();
      shown := now;
      ghost var placed := Snapshot();
      var moving := Moving();
      assert moving == old(Moving());
      ghost var showErr := err;
      assert showErr.None? <==> ShowStep(old(countFrames), old(Snapshot()), old(hasCoords), direc, buffSign).Ok?;
      err := CountAndMove(moving, err);
      assert Outcome(err, Snapshot()) ==
               if showErr.Some? then Err(showErr.value)
               else CountMoveStep(old(countFrames), placed, hasCoords, moving, n - suppress, direc, buffSign);
    }

    /**
     * The counter of `draw`: the day-11 engines record the count as
     * `last_frame` first, every engine advances it by one, and the earlier
     * engine then reads the first speed (IndexError without elements). An
     * exception already raised in the frame (`raised`) skips it.
     */
    method CountFrame(raised: Option<Error>) returns (err: Option<Error>)
      requires Valid()
      modifies this`countFrames, this`lastFrame
      ensures Valid() && Snapshot() == old(Snapshot())
      ensures raised.Some? ==> err == raised && countFrames == old(countFrames) && lastFrame == old(lastFrame)
      ensures raised.None? ==> (err.Some? <==> rig.Early? && n == 0) && (err.Some? ==> err == Some(IndexError))
      ensures raised.None? ==> countFrames == old(countFrames) + 1
      ensures raised.None? ==> lastFrame == if rig.Early? then old(lastFrame) else old(countFrames)
    {
      if raised.Some? {
        return raised;
      }
      if !rig.Early? {
        lastFrame := countFrames;
      }
      countFrames := countFrames + 1;
      err := if rig.Early? && n == 0 then Some(IndexError) else None;
    }

    /**
     * The second half of `draw`: count the frame, then move the elements
     * when they have a speed; an exception raised earlier in the frame
     * (`raised`) skips both.
     */
    method CountAndMove(moving: bool, raised: Option<Error>) returns (err: Option<Error>)
      requires Valid() && moving == Moving()
      modifies this`countFrames, this`lastFrame, this`randel, this`cursor, this`initScr, this`xys, speed, coords
      ensures Valid()
      ensures raised.Some? ==> err == raised
      ensures countFrames == old(countFrames) + (if raised.Some? then 0 else FrameStep(rig, moving))
      ensures raised.None? && !rig.Early? ==> lastFrame == old(countFrames)
      ensures raised.None? ==>
                Outcome(err, Snapshot()) == CountMoveStep(old(countFrames), old(Snapshot()), hasCoords, moving,
                                                          n - suppress, direc, buffSign)
    {
      err := CountFrame(raised);
      err := MoveFrame(moving, err);
    }

    /**
     * The motion of `draw`: `_update_stim_mov` when the elements have a
     * speed and nothing was raised earlier in the frame.
     */
    method MoveFrame(moving: bool, raised: Option<Error>) returns (err: Option<Error>)
      requires Valid() && moving == Moving()
      modifies this`countFrames, this`randel, this`cursor, this`initScr, this`xys, speed, coords
      ensures Valid()
      ensures raised.Some? || !moving ==> err == raised && Snapshot() == old(Snapshot()) && countFrames == old(countFrames)
      ensures raised.None? && moving ==> countFrames == old(countFrames) + (if rig.Early? then 1 else 0)
      ensures raised.None? ==>
                Outcome(err, Snapshot()) == MoveStep(old(countFrames), old(Snapshot()), hasCoords, moving,
                                                     n - suppress, direc, buffSign)
    {
      if raised.None? && moving {
        err := UpdateStimMov();
      } else {
        err := raised;
      }
    }

    /**
     * `_newStimsXY(nElements)` written to `_coords`, then `_suppressExtraStims`
     * when elements are suppressed, and the result shown: the unsuppressed
     * elements take the new placement and the tail is parked.
     */
    method PlaceAll() returns (err: Option<Error>)
      requires Valid() && initScr
      modifies this`initScr, this`cursor, this`hasCoords, this`xys, coords
      ensures Valid()
      ensures err.Some? <==> n == 0
      ensures err.Some? ==> err == Some(IndexError)
      ensures err.None? ==> hasCoords && xys == coords[..] && ParkedTail()
      ensures err.Some? ==> unchanged(coords) && hasCoords == old(hasCoords)
      ensures err.None? ==>
                n > 0 && var s := NewStimsXY(f, true, speed[0], direc, buffSign, n, u, old(cursor), diag);
                s.Ok? && coords[..n - suppress] == s.value.points[..n - suppress]
    {
      var r := NewStims(n);
      if r.Err? {
        return Some(r.error);
      }
      ghost var placed := NewStimsXY(f, old(initScr), speed[0], direc, buffSign, n, u, old(cursor), diag);
      var pts := r.value;
      assert pts == placed.value.points;
      WriteAndPark(pts);
      hasCoords := true;
      xys := coords[..];
      err := None;
    }

    /**
     * A full placement written to `_coords`, then `_suppressExtraStims` when
     * elements are suppressed: the unsuppressed prefix holds the placement
     * and the tail is parked.
     */
    method WriteAndPark(pts: seq<Point>)
      requires coords.Length == n == |pts| && suppress <= n
      modifies coords
      ensures ParkedTail()
      ensures coords[..n - suppress] == pts[..n - suppress]
    {
      WriteCoords(pts);
      if suppress != 0 {
        SuppressExtraStims();
        assert coords[..][..n - suppress] == pts[..n - suppress];
      }
    }

    /**
     * `_newStimsXY(nElements)` with `initScr` unset: edge positions are
     * returned (IndexError without elements, ValueError without a speed)
     * and `_coords` stays unset. The earlier engine shows them; a day-11
     * engine goes on to read `_coords` and raises AttributeError.
     */
    method PlaceUnset() returns (err: Option<Error>)
      requires Valid() && !initScr && !hasCoords
      modifies this`initScr, this`cursor, this`xys
      ensures Valid() && !initScr
      ensures n == 0 ==> err == Some(IndexError)
      ensures n > 0 ==> (err.None? <==> rig.Early? && speed[0] != 0.0)
      ensures n > 0 && speed[0] == 0.0 ==> err == Some(ValueError)
      ensures n > 0 && speed[0] != 0.0 && !rig.Early? ==> err == Some(AttributeError)
      ensures err.None? ==>
                n > 0 && xys == NewStimsXY(f, false, speed[0], direc, buffSign, n, u, old(cursor), diag).value.points
    {
      var r := NewStims(n);
      if r.Err? {
        return Some(r.error);
      }
      if !rig.Early? {
        return Some(AttributeError);
      }
      xys := r.value;
      err := None;
    }

    /**
     * The constructor's first placement. Without a bank (always in the
     * earlier engine) `_newStimsXY(nElements)`: with `initScr` set the
     * elements are drawn into `_coords`, the suppressed tail parked and the
     * result shown; with `initScr` unset, see `PlaceUnset`. With a bank its
     * first entry is shown (IndexError for an empty bank). Only the first
     * case sets `_coords`.
     */
    method PlaceFirst() returns (err: Option<Error>)
      requires Valid() && !hasCoords
      modifies this`initScr, this`cursor, this`hasCoords, this`xys, this`sizes, coords
      ensures Valid()
      ensures err == FirstPlacementError(rig, n, defaultSpeed, possizes, old(initScr))
      ensures err.None? ==> (hasCoords <==> (rig.Early? || possizes.None?) && old(initScr))
      ensures err.None? && hasCoords ==> ParkedTail() && xys == coords[..]
      ensures err.None? && hasCoords ==>
                n > 0 && var s := NewStimsXY(f, true, speed[0], direc, buffSign, n, u, old(cursor), diag);
                s.Ok? && coords[..n - suppress] == s.value.points[..n - suppress]
      ensures err.None? && rig.Early? && !old(initScr) ==>
                n > 0 && xys == NewStimsXY(f, false, speed[0], direc, buffSign, n, u, old(cursor), diag).value.points
      ensures err.None? && !(rig.Early? || possizes.None?) ==> (xys, sizes) == possizes.value[0]
    {
      if !(rig.Early? || possizes.None?) {
        if possizes.value == [] {
          return Some(IndexError);
        }
        xys, sizes := possizes.value[0].0, possizes.value[0].1;
        return None;
      }
      if n > 0 {
        assert speed[0] == defaultSpeed || speed[0] == -defaultSpeed;
      }
      if initScr {
        err := PlaceAll();
      } else {
        err := PlaceUnset();
      }
    }

    // -------------------------------------------------------------------
    // Sweeps

    /**
     * The size part of `setFlipDirecSize`: a new size sets the sizes and
     * the number of suppressed elements (fewer requested than present: the
     * difference; as many: none; more: unchanged).
     */
    method Resize(size: real, count: int) returns (changed: bool)
      requires Valid() && rig.Habituation? && 0 <= count
      modifies this`currSize, this`sizes, this`suppress
      ensures Valid()
      ensures changed == (old(currSize) != Some(size))
      ensures changed ==>
                && currSize == Some(size) && sizes == Repeat(size, n)
                && suppress == (if count < n then n - count else if count == n then 0 else old(suppress))
      ensures !changed ==> currSize == old(currSize) && sizes == old(sizes) && suppress == old(suppress)
    {
      changed := currSize != Some(size);
      if changed {
        currSize := Some(size);
        sizes := Repeat(size, n);
        if count < n {
          suppress := n - count;
        } else if count == n {
          suppress := 0;
        }
      }
    }

    /**
     * The direction part of `setFlipDirecSize`: a new direction is
     * normalised (TypeError for an unknown name) and gets its buffer signs.
     */
    method Redirect(d: Direction) returns (changed: bool, err: Option<Error>)
      requires Valid()
      modifies this`currDirec, this`direc, this`buffSign
      ensures Valid()
      ensures changed == (old(currDirec) != Some(d)) && currDirec == (if changed then Some(d) else old(currDirec))
      ensures err.Some? <==> changed && SetDirec(d).Err?
      ensures err.Some? ==> err == Some(TypeError)
      ensures changed && err.None? ==> Ok(direc) == SetDirec(d) && buffSign == BuffSign(direc)
      ensures !changed || err.Some? ==> direc == old(direc) && buffSign == old(buffSign)
    {
      changed := currDirec != Some(d);
      err := None;
      if changed {
        currDirec := Some(d);
        var a := SetDirec(d);
        if a.Err? {
          return changed, Some(a.error);
        }
        direc := a.value;
        buffSign := OriginVar(f, direc).value;
      }
    }

    /**
     * The re-initialisation of `setFlipDirecSize`: every element placed
     * afresh on the screen, the suppressed tail parked, the result shown.
     */
    method Reinit() returns (err: Option<Error>)
      requires Valid()
      modifies this`initScr, this`cursor, this`hasCoords, this`xys, coords
      ensures Valid()
      ensures err.Some? <==> n == 0
      ensures err.Some? ==> err == Some(IndexError)
      ensures err.None? ==> hasCoords && xys == coords[..] && ParkedTail()
      ensures err.Some? ==> unchanged(coords) && hasCoords == old(hasCoords)
      ensures err.None? ==>
                n > 0 && var s := NewStimsXY(f, true, speed[0], direc, buffSign, n, u, old(cursor), diag);
                s.Ok? && coords[..n - suppress] == s.value.points[..n - suppress]
    {
      initScr := true;
      err := PlaceAll();
    }

    /**
     * `setFlipDirecSize` (habituation): the flip, size and direction
     * parts in turn; a new size or direction re-places every element, and
     * with neither the positions are untouched.
     */
    method SetFlipDirecSize(e: Timelines.FlipEntry) returns (err: Option<Error>)
      requires Valid() && rig.Habituation? && 0 <= e.count
      modifies this`flip, this`randel, this`cursor, speed, this`currSize, this`sizes, this`suppress,
               this`currDirec, this`direc, this`buffSign, this`initScr, coords, this`hasCoords, this`xys
      ensures Valid()
      ensures flip == (if (old(flip) == 1 && e.flip == 0) || (old(flip) == 0 && e.flip == 1) then e.flip else old(flip))
      ensures old(currSize) != Some(e.size) ==>
                && currSize == Some(e.size) && sizes == Repeat(e.size, n)
                && suppress == (if e.count < n then n - e.count else if e.count == n then 0 else old(suppress))
      ensures old(currSize) == Some(e.size) ==> suppress == old(suppress) && sizes == old(sizes)
      ensures old(currDirec) != Some(e.direc) ==> currDirec == Some(e.direc)
      ensures old(currDirec) != Some(e.direc) && err.None? ==>
                SetDirec(e.direc) == Ok(direc) && buffSign == BuffSign(direc)
      ensures old(currSize) == Some(e.size) && old(currDirec) == Some(e.direc) ==>
                err.None? && unchanged(coords) && xys == old(xys)
      ensures (old(currSize) != Some(e.size) || old(currDirec) != Some(e.direc)) && err.None? ==>
                hasCoords && xys == coords[..] && ParkedTail()
      ensures err.Some? <==>
                (old(currDirec) != Some(e.direc) && SetDirec(e.direc).Err?)
                || ((old(currSize) != Some(e.size) || old(currDirec) != Some(e.direc)) && n == 0)
      ensures err.Some? ==>
                err == Some(if old(currDirec) != Some(e.direc) && SetDirec(e.direc).Err? then TypeError else IndexError)
      ensures err.Some? ==> unchanged(coords) && hasCoords == old(hasCoords)
    {
      SetFlip(e.flip);
      err := Reshape(e.size, e.count, e.direc);
    }

    /**
     * The size and direction parts of `setFlipDirecSize`: a new size or
     * direction re-places every element; with neither the positions are
     * untouched.
     */
    method Reshape(size: real, count: int, d: Direction) returns (err: Option<Error>)
      requires Valid() && rig.Habituation? && 0 <= count
      modifies this`currSize, this`sizes, this`suppress,
               this`currDirec, this`direc, this`buffSign, this`initScr, this`cursor, coords, this`hasCoords, this`xys
      ensures Valid()
      ensures old(currSize) != Some(size) ==>
                && currSize == Some(size) && sizes == Repeat(size, n)
                && suppress == (if count < n then n - count else if count == n then 0 else old(suppress))
      ensures old(currSize) == Some(size) ==> suppress == old(suppress) && sizes == old(sizes)
      ensures old(currDirec) != Some(d) ==> currDirec == Some(d)
      ensures old(currDirec) != Some(d) && err.None? ==>
                SetDirec(d) == Ok(direc) && buffSign == BuffSign(direc)
      ensures old(currSize) == Some(size) && old(currDirec) == Some(d) ==>
                err.None? && unchanged(coords) && xys == old(xys)
      ensures (old(currSize) != Some(size) || old(currDirec) != Some(d)) && err.None? ==>
                hasCoords && xys == coords[..] && ParkedTail()
      ensures err.Some? <==>
                (old(currDirec) != Some(d) && SetDirec(d).Err?)
                || ((old(currSize) != Some(size) || old(currDirec) != Some(d)) && n == 0)
      ensures err.Some? ==> err == Some(if old(currDirec) != Some(d) && SetDirec(d).Err? then TypeError else IndexError)
      ensures err.Some? ==> unchanged(coords) && hasCoords == old(hasCoords)
      ensures (old(currSize) != Some(size) || old(currDirec) != Some(d)) && err.None? ==>
                n > 0 && var s := NewStimsXY(f, true, speed[0], direc, buffSign, n, u, old(cursor), diag);
                s.Ok? && coords[..n - suppress] == s.value.points[..n - suppress]
    {
      var resized := Resize(size, count);
      var redirected;
      redirected, err := Redirect(d);
      if err.Some? {
        return;
      }
      if resized || redirected {
        err := Reinit();
      }
    }

    /**
     * `gabors._ctrl = c`: a session picks the rotating-control mode (on for
     * the rotating gabors, off for the main gabor run) after construction.
     */
    method SetCtrl(c: bool)
      modifies this`ctrl
      ensures ctrl == c
    {
      ctrl := c;
    }

    /**
     * `setPosSizesAll(combo)`: show the chosen bank entry and resample the
     * orientations about the (possibly turned) mean. The earlier engine
     * shows entry `combo` first and the surprise set over it.
     */
    method SetPosSizesAll(combo: int) returns (err: Option<Error>)
      modifies this`xys, this`sizes, this`orimu, this`oris, this`cursor
      ensures err.None? ==>
                var c := PosSizeChoice(rig, ctrl, old(surp), combo, old(orimu));
                && c.Ok? && possizes.Some?
                && PyIndex(|possizes.value|, c.value.bank).Some?
                && (xys, sizes) == possizes.value[PyIndex(|possizes.value|, c.value.bank).value]
                && orimu == c.value.mu
                && oris == OriParams(orimu, kappa, n, vonMises, old(cursor))
                && cursor == old(cursor) + OriDraws(kappa, n)
      ensures err.Some? ==> orimu == old(orimu) && oris == old(oris) && cursor == old(cursor)
      ensures err == PosSizesError(rig, ctrl, old(surp), combo, old(orimu), possizes)
    {
      if rig.Early? {
        if possizes.None? {
          return Some(TypeError);
        }
        var i := PyIndex(|possizes.value|, combo);
        if i.None? {
          return Some(IndexError);
        }
        xys, sizes := possizes.value[i.value].0, possizes.value[i.value].1;
      }
      var c := PosSizeChoice(rig, ctrl, surp, combo, orimu);
      if c.Err? {
        return Some(c.error);
      }
      if possizes.None? {
        return Some(TypeError);
      }
      var j := PyIndex(|possizes.value|, c.value.bank);
      if j.None? {
        return Some(IndexError);
      }
      xys, sizes := possizes.value[j.value].0, possizes.value[j.value].1;
      orimu := c.value.mu;
      oris := OriParams(orimu, kappa, n, vonMises, cursor);
      cursor := cursor + OriDraws(kappa, n);
      err := None;
    }

    /**
     * `setOriSurp` (ophys) and `setOriParSurp` (the others): a new mean,
     * dispersion (not ophys; zero means none in the earlier engine) and
     * surprise flag (the earlier engine keeps only 0 and 1), then resampled
     * orientations, which the day-11 engines record; moving day-11 elements
     * keep no record: AttributeError.
     */
    method SetOriParSurp(mu: real, k: Option<real>, code: int) returns (err: Option<Error>)
      modifies this`orimu, this`kappa, this`surp, this`oris, this`orisByImg, this`cursor
      ensures orimu == mu
      ensures kappa == (if rig.Ophys? then old(kappa) else Dispersion(rig, k))
      ensures surp == (if rig.Early? && code != 0 && code != 1 then old(surp) else Some(code))
      ensures oris == OriParams(mu, kappa, n, vonMises, old(cursor)) && cursor == old(cursor) + OriDraws(kappa, n)
      ensures err.Some? <==> !rig.Early? && old(orisByImg).None?
      ensures err.None? && !rig.Early? ==> orisByImg == Some(old(orisByImg).value + [OriFrame(oris)])
    {
      orimu := mu;
      if !rig.Ophys? {
        kappa := Dispersion(rig, k);
      }
      if !rig.Early? || code == 0 || code == 1 {
        surp := Some(code);
      }
      oris := OriParams(orimu, kappa, n, vonMises, cursor);
      cursor := cursor + OriDraws(kappa, n);
      err := None;
      if !rig.Early? {
        if orisByImg.None? {
          return Some(AttributeError);
        }
        orisByImg := Some(orisByImg.value + [OriFrame(oris)]);
      }
    }
  }

  // ---------------------------------------------------------------------
  // Construction

  /**
   * Every frame time given in seconds, in frames. A definition: its ensures
   * is the pointwise reading Create relies on.
   */
  function Frames(xs: seq<real>, fps: real): (r: seq<real>)
    ensures |r| == |xs| && forall i :: 0 <= i < |xs| ==> r[i] == xs[i] * fps
  {
    seq(|xs|, i requires 0 <= i < |xs| => xs[i] * fps)
  }

  /**
   * Every flip interval given in seconds, in frames. A definition, read
   * pointwise by FlipSchedule and Create.
   */
  function IntervalFrames(ivs: seq<seq<real>>, fps: real): (r: seq<seq<real>>)
    ensures |r| == |ivs| && forall i :: 0 <= i < |ivs| ==> r[i] == Frames(ivs[i], fps)
  {
    seq(|ivs|, i requires 0 <= i < |ivs| => Frames(ivs[i], fps))
  }

  /** The start and end frames `_initFlipDirec` derives from the intervals. */
  predicate FlipSchedule(ivs: seq<seq<real>>, starts: seq<real>, ends: seq<real>)
  {
    |starts| == |ivs| && |ends| == |ivs| &&
    forall i :: 0 <= i < |ivs| ==> WellFormed(ivs, i) && starts[i] == ivs[i][0] && ends[i] == EndOf(ivs, i).value
  }

  /** The settings the constructor derives before the engine exists. */
  datatype Setup = Setup(direc: real, buffSign: (int, int), flip: int, suppress: nat,
                         currSize: Option<real>, currDirec: Option<Direction>, sizes: seq<real>,
                         initScr: bool, orimu: real, kappa: Option<real>, cursor: nat,
                         starts: seq<real>, ends: seq<real>, oriArrays: seq<seq<real>>)

  /** The direction the constructor starts from: `currval`'s in the habituation engine. */
  function StartDirection(rig: Rig, direc: Direction, currval: Option<Timelines.FlipEntry>): Direction
  {
    if rig.Habituation? && currval.Some? then currval.value.direc else direc
  }

  /**
   * The first exception `OurStims.__init__` raises before the first
   * placement, in the order the checks are met: an unknown direction name
   * (TypeError), a zero width (ZeroDivisionError), a malformed flip
   * interval, no orientation mean (IndexError) and as many means as
   * change frames (ValueError otherwise).
   */
  function PrepareError(rig: Rig, field: Field, direc: Direction, newOri: seq<real>, orimus: seq<real>,
                        flipDirec: seq<seq<real>>, currval: Option<Timelines.FlipEntry>): (e: Option<Error>)
    ensures e.None? <==>
              && SetDirec(StartDirection(rig, direc, currval)).Ok? && field.initWid != 0.0
              && (forall i :: 0 <= i < |flipDirec| ==> WellFormed(flipDirec, i))
              && orimus != [] && |newOri| == |orimus|
  {
    var angle := SetDirec(StartDirection(rig, direc, currval));
    if angle.Err? then Some(angle.error)
    else if field.initWid == 0.0 then Some(ZeroDivisionError)
    else if ScheduleError(flipDirec, 0).Some? then ScheduleError(flipDirec, 0)
    else if orimus == [] then Some(IndexError)
    else if |newOri| != |orimus| then Some(ValueError)
    else None
  }

  /**
   * The exception the constructor's first placement raises, if any.
   * Without a bank (always in the earlier engine): no element (IndexError),
   * no speed with `initScr` unset (ValueError), or in a day-11 engine
   * `_coords` read after `initScr` unset left it unset (AttributeError).
   * With a bank: an empty bank (IndexError).
   */
  function FirstPlacementError(rig: Rig, n: nat, speed: real, possizes: Option<seq<(seq<Point>, seq<real>)>>,
                               initScr: bool): (e: Option<Error>)
    ensures e.None? <==>
              if rig.Early? || possizes.None? then n > 0 && (initScr || (rig.Early? && speed != 0.0))
              else possizes.value != []
  {
    if !(rig.Early? || possizes.None?) then (if possizes.value == [] then Some(IndexError) else None)
    else if n == 0 then Some(IndexError)
    else if initScr then None
    else if speed == 0.0 then Some(ValueError)
    else if !rig.Early? then Some(AttributeError)
    else None
  }

  /**
   * The checks and derived settings of `OurStims.__init__`, in the order
   * the constructor meets them: the direction (TypeError for an unknown
   * name), its buffer signs (ZeroDivisionError for a zero width), the flip
   * schedule, the first mean (IndexError without one) and the orientation
   * arrays (ValueError for a length mismatch).
   */
  method Prepare(rig: Rig, n: nat, field: Field, direc: Direction, newOri: seq<real>, orimus: seq<real>,
                 kappa: Option<real>, flipDirec: seq<seq<real>>, currval: Option<Timelines.FlipEntry>,
                 initScr: bool, vonMises: (real, real, nat) -> real, cursor: nat)
    returns (r: Result<Setup>)
    requires rig.Habituation? && currval.Some? ==> 0 <= currval.value.count <= n
    ensures SetDirec(StartDirection(rig, direc, currval)).Err? ==> r == Err(TypeError)
    ensures SetDirec(StartDirection(rig, direc, currval)).Ok? && field.initWid == 0.0 ==> r == Err(ZeroDivisionError)
    ensures r.Ok? <==> PrepareError(rig, field, direc, newOri, orimus, flipDirec, currval).None?
    ensures r.Err? ==> Some(r.error) == PrepareError(rig, field, direc, newOri, orimus, flipDirec, currval)
    ensures r.Ok? ==>
              && r.value.direc == SetDirec(StartDirection(rig, direc, currval)).value
              && field.initWid != 0.0 && r.value.buffSign == BuffSign(r.value.direc)
              && FlipSchedule(flipDirec, r.value.starts, r.value.ends)
              && orimus != [] && r.value.orimu == orimus[0] && |r.value.oriArrays| == |orimus| == |newOri|
              && r.value.flip == (if rig.Ophys? && currval.Some? then currval.value.flip else 0)
              && r.value.suppress == (if rig.Habituation? && currval.Some? then n - currval.value.count else 0)
              && r.value.kappa == Dispersion(rig, kappa) && r.value.initScr == initScr
  {
    var suppress: nat := 0;
    var currSize: Option<real> := None;
    var currDirec: Option<Direction> := None;
    var sizes: seq<real> := [];
    if rig.Habituation? && currval.Some? {
      sizes := Repeat(currval.value.size, n);
      currSize := Some(currval.value.size);
      suppress := n - currval.value.count;
      currDirec := Some(currval.value.direc);
    }
    var angle := SetDirec(StartDirection(rig, direc, currval));
    if angle.Err? {
      return Err(angle.error);
    }
    var sign := OriginVar(field, angle.value);
    if sign.Err? {
      return Err(sign.error);
    }
    var flip := if rig.Ophys? && currval.Some? then currval.value.flip else 0;
    var starts: seq<real> := [];
    var ends: seq<real> := [];
    if flipDirec != [] {
      var fl := InitFlipDirec(flipDirec);
      if fl.Err? {
        return Err(fl.error);
      }
      starts, ends := fl.value.0, fl.value.1;
    }
    if orimus == [] {
      return Err(IndexError);
    }
    var arrays, next := InitOriArrays(newOri, orimus, Dispersion(rig, kappa), n, vonMises, cursor);
    if arrays.Err? {
      return Err(arrays.error);
    }
    return Ok(Setup(angle.value, sign.value, flip, suppress, currSize, currDirec, sizes, initScr,
                    orimus[0], Dispersion(rig, kappa), next, starts, ends, arrays.value));
  }

  /**
   * `OurStims.__init__`: the prepared settings, then the first placement:
   * drawn on the screen with the suppressed tail parked, or the bank's
   * first entry when a day-11 engine is given a bank. Times in seconds
   * become frames at `fps`.
   */
  method Create(rig: Rig, n: nat, fieldW: real, fieldH: real, direc: Direction, defaultSpeed: real,
                possizes: Option<seq<(seq<Point>, seq<real>)>>, newPos: seq<real>, newOri: seq<real>,
                orimus: seq<real>, kappa: Option<real>, flipDirec: seq<seq<real>>, flipFrac: real,
                currval: Option<Timelines.FlipEntry>, initScr: bool, fps: real,
                u: nat -> real, diag: nat -> Point, trig: real -> (real, real),
                vonMises: (real, real, nat) -> real, cursor: nat)
    returns (r: Result<ElementField>)
    requires 0.0 <= fieldW && 0.0 <= fieldH
    requires rig.Habituation? && currval.Some? ==> 0 <= currval.value.count <= n
    ensures SetDirec(StartDirection(rig, direc, currval)).Err? ==> r == Err(TypeError)
    ensures var pe := PrepareError(rig, if rig.Early? then EarlyField(fieldW, fieldH) else Day11Field(fieldW, fieldH),
                                   direc, Frames(newOri, fps), orimus, IntervalFrames(flipDirec, fps), currval);
            var fe := FirstPlacementError(rig, n, defaultSpeed, possizes, initScr);
            && (r.Ok? <==> pe.None? && fe.None?)
            && (r.Err? ==> Some(r.error) == if pe.Some? then pe else fe)
    ensures r.Ok? ==> fresh(r.value) && r.value.Valid()
    ensures r.Ok? ==> (r.value.hasCoords <==> (rig.Early? || possizes.None?) && initScr)
    ensures r.Ok? && r.value.hasCoords ==> r.value.ParkedTail() && r.value.xys == r.value.coords[..]
    ensures r.Ok? ==> r.value.countFrames == 0 && r.value.randel.None? && r.value.speed[..] == Repeat(defaultSpeed, n)
    ensures r.Ok? ==> r.value.f == (if rig.Early? then EarlyField(fieldW, fieldH) else Day11Field(fieldW, fieldH))
    ensures r.Ok? ==> r.value.direc == SetDirec(StartDirection(rig, direc, currval)).value
    ensures r.Ok? ==> FlipSchedule(IntervalFrames(flipDirec, fps), r.value.flipStart, r.value.flipEnd)
    ensures r.Ok? ==> r.value.newPos == Frames(newPos, fps) && r.value.newOri == Frames(newOri, fps)
    ensures r.Ok? ==> orimus != [] && r.value.orimu == orimus[0] && r.value.oriArrays != [] && r.value.oris == r.value.oriArrays[0]
    ensures r.Ok? ==> r.value.flip == (if rig.Ophys? && currval.Some? then currval.value.flip else 0)
    ensures r.Ok? ==> r.value.suppress == (if rig.Habituation? && currval.Some? then n - currval.value.count else 0)
  {
    var field := if rig.Early? then EarlyField(fieldW, fieldH) else Day11Field(fieldW, fieldH);
    FieldsNonneg(fieldW, fieldH);
    var setup := Prepare(rig, n, field, direc, Frames(newOri, fps), orimus, kappa, IntervalFrames(flipDirec, fps),
                         currval, initScr, vonMises, cursor);
    if setup.Err? {
      return Err(setup.error);
    }
    r := Build(rig, n, field, defaultSpeed, flipFrac, flipDirec != [], Frames(newPos, fps), Frames(newOri, fps),
               possizes, u, diag, trig, vonMises, setup.value);
  }

  /**
   * The second half of `OurStims.__init__`: the engine built from the
   * prepared settings, then its first placement.
   */
  method Build(rig: Rig, n: nat, field: Field, defaultSpeed: real, flipFrac: real, hasFlipDirec: bool,
               newPos: seq<real>, newOri: seq<real>, possizes: Option<seq<(seq<Point>, seq<real>)>>,
               u: nat -> real, diag: nat -> Point, trig: real -> (real, real),
               vonMises: (real, real, nat) -> real, s: Setup)
    returns (r: Result<ElementField>)
    requires field.Nonneg() && field.initWid != 0.0
    requires s.suppress <= n && (!rig.Habituation? ==> s.suppress == 0)
    requires 0.0 <= s.direc < 360.0 && |s.oriArrays| == |newOri| && |s.oriArrays| > 0
    ensures r.Err? <==> FirstPlacementError(rig, n, defaultSpeed, possizes, s.initScr).Some?
    ensures r.Err? ==> Some(r.error) == FirstPlacementError(rig, n, defaultSpeed, possizes, s.initScr)
    ensures r.Ok? ==> fresh(r.value) && r.value.Valid()
    ensures r.Ok? ==> (r.value.hasCoords <==> (rig.Early? || possizes.None?) && s.initScr)
    ensures r.Ok? && r.value.hasCoords ==> r.value.ParkedTail() && r.value.xys == r.value.coords[..]
    ensures r.Ok? ==> r.value.countFrames == 0 && r.value.randel.None? && r.value.speed[..] == Repeat(defaultSpeed, n)
    ensures r.Ok? ==> r.value.f == field && r.value.direc == s.direc
    ensures r.Ok? ==> r.value.flipStart == s.starts && r.value.flipEnd == s.ends
    ensures r.Ok? ==> r.value.newPos == newPos && r.value.newOri == newOri
    ensures r.Ok? ==> r.value.orimu == s.orimu && r.value.oriArrays == s.oriArrays && r.value.oris == s.oriArrays[0]
    ensures r.Ok? ==> r.value.flip == s.flip && r.value.suppress == s.suppress
  {
    var e := new ElementField(rig, n, field, defaultSpeed, flipFrac, hasFlipDirec, s.starts, s.ends,
                              newPos, newOri, s.oriArrays, possizes, u, diag, trig, vonMises, s);
    var err := e.PlaceFirst();
    if err.Some? {
      return Err(err.value);
    }
    return Ok(e);
  }
}
