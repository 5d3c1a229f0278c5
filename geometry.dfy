/**
 * The geometry of the moving-element engines (`OurStims`): direction
 * normalisation (`setDirec`), the buffer signs of `_stimOriginVar`, the
 * initialization field and its buffer band, the dead-element test of
 * `_update_stim_mov`, the parking place of suppressed elements, and the
 * placements `_newStimsXY` draws for new elements.
 *
 * Uniform draws come from the oracle `u` at positions after a cursor; the
 * caller's trigonometry is not needed here.
 */
module Geometry {
  import opened Common

  // ---------------------------------------------------------------------
  // Direction

  /** The angle of a direction name, if it is one. */
  function NamedAngle(name: string): Option<real>
  {
    if name == "left" then Some(180.0)
    else if name == "right" then Some(0.0)
    else if name == "up" then Some(90.0)
    else if name == "down" then Some(270.0)
    else None
  }

  /**
   * `setDirec`: names become their angles, and the angle is reduced modulo
   * 360 into [0, 360), a whole number of turns away from the given angle.
   * Any other name cannot be reduced (`str % float`): TypeError.
   */
  function SetDirec(d: Direction): (r: Result<real>)
    ensures r.Ok? ==> 0.0 <= r.value < 360.0
    ensures r.Err? <==> d.Named? && NamedAngle(d.name).None?
    ensures r.Err? ==> r.error == TypeError
    ensures d == Named("left") ==> r == Ok(180.0)
    ensures d == Named("right") ==> r == Ok(0.0)
    ensures d == Named("up") ==> r == Ok(90.0)
    ensures d == Named("down") ==> r == Ok(270.0)
    ensures d.Degrees? ==> r.Ok? && IsWhole((d.deg - r.value) / 360.0)
  {
    match d
    case Degrees(x) => Ok(Mod360(x))
    case Named(n) =>
      match NamedAngle(n)
      case None => Err(TypeError)
      case Some(a) =>
        Mod360Identity(a);
        Ok(Mod360(a))
  }

  /** A normalised direction is kept as it is. */
  lemma SetDirecIdempotent(d: Direction)
    requires SetDirec(d).Ok?
    ensures SetDirec(Degrees(SetDirec(d).value)) == SetDirec(d)
  {
    Mod360Identity(SetDirec(d).value);
  }

  predicate IsWhole(x: real)
  {
    x.Floor as real == x
  }

  /** `int(direc / 90.0) % 4`. */
  function Quadrant(direc: real): (q: int)
    ensures 0 <= q < 4
  {
    Trunc(direc / 90.0) % 4
  }

  /** `_stimOriginVar`'s `buffsign`, chosen by quadrant. */
  function BuffSign(direc: real): (int, int)
  {
    match Quadrant(direc)
    case 0 => (1, 1)
    case 1 => (-1, 1)
    case 2 => (-1, -1)
    case _ => (1, -1)
  }

  /**
   * For a normalised direction the signs point against the motion: the
   * first is -1 exactly when the motion has a leftward part (from 90 up to
   * but not including 270 degrees), the second -1 exactly when it has a
   * downward part (from 180 degrees on).
   */
  lemma BuffSignHalfPlanes(direc: real)
    requires 0.0 <= direc < 360.0
    ensures BuffSign(direc).0 == (if 90.0 <= direc < 270.0 then -1 else 1)
    ensures BuffSign(direc).1 == (if direc < 180.0 then 1 else -1)
  {
    var t := direc / 90.0;
    assert 0.0 <= t < 4.0;
    var k := t.Floor;
    assert Trunc(t) == k;
    assert k as real <= t < k as real + 1.0;
    assert 0 <= k < 4;
    assert k == 0 <==> direc < 90.0;
    assert k == 1 <==> 90.0 <= direc < 180.0;
    assert k == 2 <==> 180.0 <= direc < 270.0;
  }

  // ---------------------------------------------------------------------
  // Field

  /** The initialization field `init_wid` x `init_hei` and its buffer `_buff`. */
  datatype Field = Field(initWid: real, initHei: real, buff: real)
  {
    predicate Nonneg() { 0.0 <= initWid && 0.0 <= initHei && 0.0 <= buff }
  }

  /** The day-11 engines: 1.1 times the field, buffer a tenth of the sum. */
  function Day11Field(fieldW: real, fieldH: real): Field
  {
    var w, h := fieldW * 1.1, fieldH * 1.1;
    Field(w, h, (w + h) / 10.0)
  }

  /** The earlier engine: the field itself, buffer a twentieth of the sum. */
  function EarlyField(fieldW: real, fieldH: real): Field
  {
    Field(fieldW, fieldH, (fieldW + fieldH) / 20.0)
  }

  lemma FieldsNonneg(fieldW: real, fieldH: real)
    requires 0.0 <= fieldW && 0.0 <= fieldH
    ensures Day11Field(fieldW, fieldH).Nonneg() && EarlyField(fieldW, fieldH).Nonneg()
  {
  }

  /**
   * `_stimOriginVar`: the buffer signs of the direction; computing the base
   * angle divides by `init_wid`, so a zero-width field raises.
   */
  function OriginVar(f: Field, direc: real): (r: Result<(int, int)>)
    ensures r.Err? <==> f.initWid == 0.0
    ensures r.Ok? ==> r.value == BuffSign(direc)
  {
    if f.initWid == 0.0 then Err(ZeroDivisionError) else Ok(BuffSign(direc))
  }

  /**
   * An element is dead when it lies strictly beyond the field plus buffer
   * on either axis.
   */
  predicate IsDead(f: Field, p: Point)
  {
    Abs(p.x) > f.initWid / 2.0 + f.buff || Abs(p.y) > f.initHei / 2.0 + f.buff
  }

  /** The dead mask of `_update_stim_mov`. */
  function DeadMask(f: Field, coords: seq<Point>): (dead: seq<bool>)
    ensures |dead| == |coords|
    ensures forall i :: 0 <= i < |coords| ==> (dead[i] <==> IsDead(f, coords[i]))
  {
    seq(|coords|, i requires 0 <= i < |coords| => IsDead(f, coords[i]))
  }

  /** Where `_suppressExtraStims` parks suppressed elements: below left, half a buffer out. */
  function Parked(f: Field): Point
  {
    Point(-f.initWid / 2.0 - f.buff / 2.0, -f.initHei / 2.0 - f.buff / 2.0)
  }

  /** A parked element is never classified dead. */
  lemma ParkedAlive(f: Field)
    requires f.Nonneg()
    ensures !IsDead(f, Parked(f))
  {
  }

  // ---------------------------------------------------------------------
  // New element positions (`_newStimsXY`)

  /** `direc % step == 0.0` for a positive step. */
  predicate Multiple(direc: real, step: real)
    requires step > 0.0
  {
    IsWhole(direc / step)
  }

  /** A uniform draw on [-half - extra, half + extra]. */
  function Spread(half: real, extra: real, d: real): (r: real)
    requires 0.0 <= half && 0.0 <= extra
    ensures Abs(r) <= half + extra
  {
    Uniform(-half - extra, half + extra, d)
  }

  /** A uniform draw of the buffer band, on [-buff, 0]. */
  function BandDraw(buff: real, d: real): (b: real)
    requires 0.0 <= buff
    ensures -buff <= b <= 0.0
  {
    Uniform(-buff, 0.0, d)
  }

  /**
   * First placement with no speed: k points on the field, widths drawn
   * before heights.
   */
  function ScreenInit(f: Field, k: nat, u: nat -> real, cur: nat): (ps: seq<Point>)
    requires f.Nonneg()
    ensures |ps| == k
  {
    seq(k, i requires 0 <= i < k =>
      Point(Spread(f.initWid / 2.0, 0.0, u(cur + i)), Spread(f.initHei / 2.0, 0.0, u(cur + k + i))))
  }

  /** Every point of the first static placement lies on the screen. */
  lemma ScreenInitBounds(f: Field, k: nat, u: nat -> real, cur: nat, i: nat)
    requires f.Nonneg() && i < k
    ensures var p := ScreenInit(f, k, u, cur)[i];
            Abs(p.x) <= f.initWid / 2.0 && Abs(p.y) <= f.initHei / 2.0
  {
    var p := ScreenInit(f, k, u, cur)[i];
    assert p == Point(Spread(f.initWid / 2.0, 0.0, u(cur + i)), Spread(f.initHei / 2.0, 0.0, u(cur + k + i)));
  }

  /** The buffer added along x and along y for the first placement of moving elements. */
  function BoxExtra(f: Field, direc: real): (e: (real, real))
    ensures e.0 == 0.0 || e.0 == f.buff
    ensures e.1 == 0.0 || e.1 == f.buff
  {
    (if Multiple(direc, 180.0) || !Multiple(direc, 90.0) then f.buff else 0.0,
     if Multiple(direc, 180.0) then 0.0 else f.buff)
  }

  /**
   * First placement of moving elements: the field widened by the buffer
   * along the axis of motion (both axes for a diagonal direction).
   */
  function BoxInit(f: Field, direc: real, k: nat, u: nat -> real, cur: nat): (ps: seq<Point>)
    requires f.Nonneg()
    ensures |ps| == k
  {
    var e := BoxExtra(f, direc);
    seq(k, i requires 0 <= i < k =>
      Point(Spread(f.initWid / 2.0, e.0, u(cur + i)), Spread(f.initHei / 2.0, e.1, u(cur + k + i))))
  }

  /**
   * Every point of the first moving placement is alive; a horizontal
   * direction keeps it on the screen vertically, a vertical one
   * horizontally.
   */
  lemma BoxInitBounds(f: Field, direc: real, k: nat, u: nat -> real, cur: nat, i: nat)
    requires f.Nonneg() && i < k
    ensures var p := BoxInit(f, direc, k, u, cur)[i];
            && !IsDead(f, p)
            && (Multiple(direc, 180.0) ==> Abs(p.y) <= f.initHei / 2.0)
            && (!Multiple(direc, 180.0) && Multiple(direc, 90.0) ==> Abs(p.x) <= f.initWid / 2.0)
  {
    var e := BoxExtra(f, direc);
    var p := BoxInit(f, direc, k, u, cur)[i];
    assert p == Point(Spread(f.initWid / 2.0, e.0, u(cur + i)), Spread(f.initHei / 2.0, e.1, u(cur + k + i)));
  }

  /** One element respawned on the edge the motion comes from. */
  function EdgePoint(f: Field, direc: real, sign: (int, int), b: real, d: real): Point
    requires f.Nonneg()
    requires Multiple(direc, 90.0)
  {
    if Multiple(direc, 180.0) then
      Point(sign.0 as real * (b - f.initWid / 2.0), Spread(f.initHei / 2.0, 0.0, d))
    else
      Point(Spread(f.initWid / 2.0, 0.0, d), sign.1 as real * (b - f.initHei / 2.0))
  }

  /**
   * Respawn of k elements for an axis-aligned direction: the buffer draws
   * come first, then the draws along the edge. For a diagonal direction the
   * points come from `diag` (the diagonal placement is not modelled).
   */
  function EdgeSpawn(f: Field, direc: real, sign: (int, int), k: nat, u: nat -> real, cur: nat,
                     diag: nat -> Point): (ps: seq<Point>)
    requires f.Nonneg()
    ensures |ps| == k
  {
    if Multiple(direc, 90.0) then
      seq(k, i requires 0 <= i < k => EdgePoint(f, direc, sign, BandDraw(f.buff, u(cur + i)), u(cur + k + i)))
    else
      seq(k, i requires 0 <= i < k => diag(cur + i))
  }

  /**
   * Where a respawned element belongs: alive, and in the buffer band on the
   * upstream side (`sign.0` horizontally, `sign.1` vertically).
   */
  predicate EdgePlaced(f: Field, direc: real, sign: (int, int), p: Point)
    requires Multiple(direc, 90.0)
  {
    && !IsDead(f, p)
    && (Multiple(direc, 180.0) ==>
          -f.initWid / 2.0 - f.buff <= sign.0 as real * p.x <= -f.initWid / 2.0)
    && (!Multiple(direc, 180.0) ==>
          -f.initHei / 2.0 - f.buff <= sign.1 as real * p.y <= -f.initHei / 2.0)
  }

  /**
   * A respawned element, for a horizontal direction, sits in the buffer
   * band on the side given by `sign.0` (the left edge when it moves right),
   * and for a vertical direction likewise on the side given by `sign.1`;
   * it is never dead.
   */
  lemma EdgeSpawnPlacement(f: Field, direc: real, sign: (int, int), k: nat, u: nat -> real, cur: nat,
                           diag: nat -> Point, i: nat)
    requires f.Nonneg() && Multiple(direc, 90.0) && i < k
    requires sign.0 == 1 || sign.0 == -1
    requires sign.1 == 1 || sign.1 == -1
    ensures EdgePlaced(f, direc, sign, EdgeSpawn(f, direc, sign, k, u, cur, diag)[i])
  {
    var b := BandDraw(f.buff, u(cur + i));
    assert EdgeSpawn(f, direc, sign, k, u, cur, diag)[i] == EdgePoint(f, direc, sign, b, u(cur + k + i));
    EdgePointPlacement(f, direc, sign, b, u(cur + k + i));
  }

  /** One edge point, for a buffer draw b in [-buff, 0]. */
  lemma EdgePointPlacement(f: Field, direc: real, sign: (int, int), b: real, d: real)
    requires f.Nonneg() && Multiple(direc, 90.0) && -f.buff <= b <= 0.0
    requires sign.0 == 1 || sign.0 == -1
    requires sign.1 == 1 || sign.1 == -1
    ensures EdgePlaced(f, direc, sign, EdgePoint(f, direc, sign, b, d))
  {
    var p := EdgePoint(f, direc, sign, b, d);
    if Multiple(direc, 180.0) {
      if sign.0 == 1 {
        assert p.x == b - f.initWid / 2.0;
      } else {
        assert p.x == -(b - f.initWid / 2.0);
      }
    } else {
      if sign.1 == 1 {
        assert p.y == b - f.initHei / 2.0;
      } else {
        assert p.y == -(b - f.initHei / 2.0);
      }
    }
  }


  /** The points `_newStimsXY` returns and the new value of `initScr`. */
  datatype Spawn = Spawn(points: seq<Point>, initScr: bool)

  /**
   * `_newStimsXY(k)`: on the screen when `initScr` is set and the first
   * speed is zero (initScr stays set); in the widened field when it is set
   * and the elements move (initScr is cleared); otherwise on the edge the
   * motion comes from. Elements with no speed and no on-screen request
   * raise ValueError. Every branch takes 2k draws.
   */
  function NewStimsXY(f: Field, initScr: bool, speed0: real, direc: real, sign: (int, int), k: nat,
                      u: nat -> real, cur: nat, diag: nat -> Point): (r: Result<Spawn>)
    requires f.Nonneg()
    ensures r.Err? <==> !initScr && speed0 == 0.0
    ensures r.Err? ==> r.error.ValueError?
    ensures r.Ok? ==> |r.value.points| == k && r.value.initScr == (initScr && speed0 == 0.0)
  {
    if initScr then
      if speed0 == 0.0 then Ok(Spawn(ScreenInit(f, k, u, cur), true))
      else Ok(Spawn(BoxInit(f, direc, k, u, cur), false))
    else if speed0 != 0.0 then Ok(Spawn(EdgeSpawn(f, direc, sign, k, u, cur, diag), false))
    else Err(ValueError)
  }

  /**
   * A first placement (`initScr` set) never produces a dead element, so
   * nothing placed on the screen is respawned on the next frame.
   */
  lemma NewStimsAlive(f: Field, initScr: bool, speed0: real, direc: real, sign: (int, int), k: nat,
                      u: nat -> real, cur: nat, diag: nat -> Point, i: nat)
    requires f.Nonneg() && initScr && i < k
    ensures var r := NewStimsXY(f, initScr, speed0, direc, sign, k, u, cur, diag);
            r.Ok? && !IsDead(f, r.value.points[i])
  {
    if speed0 == 0.0 {
      ScreenInitBounds(f, k, u, cur, i);
    } else {
      BoxInitBounds(f, direc, k, u, cur, i);
    }
  }
}
