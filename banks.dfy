/**
 * The position and size banks `posarray`, `sizearray` and `possizearrays`,
 * which draw, once per session, the element positions and sizes of every
 * image of the sequence (A, B, C, D and the surprise image).
 *
 * numpy fills an [n_im, n_elem] array of uniform draws in row-major order:
 * the widths of all images first, then the heights, then the sizes. Each
 * draw comes from the oracle `u` at its position after `cur`.
 */
module Banks {
  import opened Common

  /**
   * One side of `fieldsize`: whole pixels (`'pix'` units take the window
   * size) or a fractional extent (`'deg'` units).
   */
  datatype Extent = Whole(pixels: int) | Fractional(size: real)

  /** The extent as a number. */
  function Width(e: Extent): real
  {
    match e
    case Whole(w) => w as real
    case Fractional(w) => w
  }

  predicate Between(x: real, a: real, b: real)
  {
    (a <= x <= b) || (b <= x <= a)
  }

  /**
   * `-fieldsize/2` and `fieldsize/2`: exact halves of a fractional extent;
   * of whole pixels, Python 2's integer `/`, which rounds both halves down.
   */
  function Halves(e: Extent): (r: (real, real))
    ensures e.Fractional? ==> r == (-e.size / 2.0, e.size / 2.0)
    ensures e.Whole? ==> r.0 <= -Width(e) / 2.0 < r.0 + 1.0 && r.1 <= Width(e) / 2.0 < r.1 + 1.0
    ensures e.Whole? ==> IsWhole(r.0) && IsWhole(r.1)
  {
    match e
    case Whole(w) => HalfFloor(-w); HalfFloor(w); (((-w) / 2) as real, (w / 2) as real)
    case Fractional(w) => (-w / 2.0, w / 2.0)
  }

  lemma HalfFloor(w: int)
    ensures (w / 2) as real <= w as real / 2.0 < (w / 2) as real + 1.0
  {
    assert w == 2 * (w / 2) + w % 2;
  }

  /**
   * An even pixel width gives the exact field; an odd one a field shifted
   * half a pixel down: [-961, 960) for a width of 1921.
   */
  lemma {:induction false} WholeHalves(w: int)
    ensures w % 2 == 0 ==> Halves(Whole(w)) == (-(w as real) / 2.0, w as real / 2.0)
    ensures w % 2 == 1 ==> Halves(Whole(w)) == (-(w as real) / 2.0 - 0.5, w as real / 2.0 - 0.5)
  {
    var k := w / 2;
    assert w == 2 * k + w % 2;
    if w % 2 == 1 {
      assert -w == 2 * (-k - 1) + 1;
      assert (-w) / 2 == -k - 1;
    } else {
      assert -w == 2 * (-k);
      assert (-w) / 2 == -k;
    }
  }

  /** A uniform draw over one side of the field, from `-size/2` to `size/2`. */
  function Centered(w: Extent, d: real): (r: real)
    ensures Between(r, Halves(w).0, Halves(w).1)
    ensures w.Fractional? ==> Abs(r) <= Abs(w.size) / 2.0
    ensures w.Whole? ==> Abs(r) <= (Abs(Width(w)) + 1.0) / 2.0
  {
    Uniform(Halves(w).0, Halves(w).1, d)
  }

  /** A point drawn inside the field, per side as `Centered`. */
  predicate InField(p: Point, w: Extent, h: Extent)
  {
    Between(p.x, Halves(w).0, Halves(w).1) && Between(p.y, Halves(h).0, Halves(h).1)
  }

  /**
   * `posarray`: per image, per element, a point inside the field of size
   * `fieldW` x `fieldH` centred on the screen.
   */
  function PosArray(fieldW: Extent, fieldH: Extent, nElem: nat, nIm: nat, u: nat -> real, cur: nat)
    : (pos: seq<seq<Point>>)
    ensures |pos| == nIm
    ensures forall i :: 0 <= i < nIm ==> |pos[i]| == nElem
    ensures forall i, j :: 0 <= i < nIm && 0 <= j < nElem ==> InField(pos[i][j], fieldW, fieldH)
  {
    var pos := seq(nIm, i requires 0 <= i < nIm => PosRow(fieldW, fieldH, nElem, u, cur + i * nElem, cur + nIm * nElem + i * nElem));
    assert forall i :: 0 <= i < nIm ==> pos[i] == PosRow(fieldW, fieldH, nElem, u, cur + i * nElem, cur + nIm * nElem + i * nElem);
    pos
  }

  /** One image's row: widths read from `curW` on, heights from `curH` on. */
  function PosRow(fieldW: Extent, fieldH: Extent, nElem: nat, u: nat -> real, curW: nat, curH: nat): (row: seq<Point>)
    ensures |row| == nElem
    ensures forall j :: 0 <= j < nElem ==> InField(row[j], fieldW, fieldH)
  {
    var row := seq(nElem, j requires 0 <= j < nElem => Point(Centered(fieldW, u(curW + j)), Centered(fieldH, u(curH + j))));
    assert forall j :: 0 <= j < nElem ==> row[j] == Point(Centered(fieldW, u(curW + j)), Centered(fieldH, u(curH + j)));
    row
  }

  predicate IsWhole(x: real)
  {
    x.Floor as real == x
  }

  /**
   * What a size drawn from [a, b] may be: without rounding, a value between
   * the bounds; with rounding, a whole number, which stays between the
   * bounds when they are themselves whole.
   */
  predicate SizeOk(s: real, a: real, b: real, rounded: bool)
  {
    if rounded then IsWhole(s) && (IsWhole(a) && IsWhole(b) ==> Between(s, a, b))
    else Between(s, a, b)
  }

  /** The lower and upper ends of `size_ran`, a one-value range duplicated. */
  function Low(sizeRan: seq<real>): real
    requires sizeRan != []
  {
    sizeRan[0]
  }

  function High(sizeRan: seq<real>): real
    requires sizeRan != []
  {
    if |sizeRan| == 1 then sizeRan[0] else sizeRan[1]
  }

  /** Rounding keeps a value between whole bounds. */
  lemma RoundWithin(x: real, a: int, b: int)
    requires a as real <= x <= b as real
    ensures a <= RoundHalfEven(x) <= b
  {
    var r := RoundHalfEven(x);
    assert a as real - 0.5 <= r as real <= b as real + 0.5;
  }

  /** A rounded draw is a whole number, between whole bounds. */
  lemma RoundedSize(x: real, a: real, b: real)
    requires Between(x, a, b)
    ensures SizeOk(RoundHalfEven(x) as real, a, b, true)
  {
    if IsWhole(a) && IsWhole(b) {
      if a <= b {
        RoundWithin(x, a.Floor, b.Floor);
      } else {
        RoundWithin(x, b.Floor, a.Floor);
      }
    }
  }

  /** One size: the draw, rounded with numpy's `around` where the copy rounds. */
  function Size(a: real, b: real, rounded: bool, d: real): (s: real)
    ensures SizeOk(s, a, b, rounded)
  {
    var x := Uniform(a, b, d);
    if rounded then
      RoundedSize(x, a, b);
      RoundHalfEven(x) as real
    else x
  }

  /**
   * `sizearray`: per image, per element, a size drawn from `size_ran`; an
   * empty range raises IndexError and a one-value range gives that value
   * (rounded where the copy rounds).
   */
  function SizeArray(sizeRan: seq<real>, rounded: bool, nElem: nat, nIm: nat, u: nat -> real, cur: nat)
    : (r: Result<seq<seq<real>>>)
    ensures r.Err? <==> sizeRan == []
    ensures r.Err? ==> r.error == IndexError
    ensures r.Ok? ==> |r.value| == nIm && forall i :: 0 <= i < nIm ==> |r.value[i]| == nElem
    ensures r.Ok? ==> forall i, j :: 0 <= i < nIm && 0 <= j < nElem ==>
              SizeOk(r.value[i][j], Low(sizeRan), High(sizeRan), rounded)
  {
    if sizeRan == [] then Err(IndexError)
    else
      var a, b := Low(sizeRan), High(sizeRan);
      var sizes := seq(nIm, i requires 0 <= i < nIm => SizeRow(a, b, rounded, nElem, u, cur + i * nElem));
      assert forall i :: 0 <= i < nIm ==> sizes[i] == SizeRow(a, b, rounded, nElem, u, cur + i * nElem);
      Ok(sizes)
  }

  function SizeRow(a: real, b: real, rounded: bool, nElem: nat, u: nat -> real, cur: nat): (row: seq<real>)
    ensures |row| == nElem && forall j :: 0 <= j < nElem ==> SizeOk(row[j], a, b, rounded)
  {
    var row := seq(nElem, j requires 0 <= j < nElem => Size(a, b, rounded, u(cur + j)));
    assert forall j :: 0 <= j < nElem ==> row[j] == Size(a, b, rounded, u(cur + j));
    row
  }

  /** A one-value range without rounding gives that value everywhere. */
  lemma SingleSize(s: real, nElem: nat, nIm: nat, u: nat -> real, cur: nat)
    ensures var r := SizeArray([s], false, nElem, nIm, u, cur);
            r.Ok? && forall i, j :: 0 <= i < nIm && 0 <= j < nElem ==> r.value[i][j] == s
  {
  }

  /**
   * `possizearrays`: `n_im + 1` (positions, sizes) pairs, one per image and
   * one for the surprise image; the positions are drawn before the sizes.
   */
  function PosSizeArrays(sizeRan: seq<real>, rounded: bool, fieldW: Extent, fieldH: Extent,
                         nElem: nat, nIm: nat, u: nat -> real, cur: nat)
    : (r: Result<seq<(seq<Point>, seq<real>)>>)
    ensures r.Err? <==> sizeRan == []
    ensures r.Ok? ==> |r.value| == nIm + 1
    ensures r.Ok? ==> forall i :: 0 <= i <= nIm ==>
              && |r.value[i].0| == nElem && |r.value[i].1| == nElem
              && (forall j :: 0 <= j < nElem ==>
                    && InField(r.value[i].0[j], fieldW, fieldH)
                    && SizeOk(r.value[i].1[j], Low(sizeRan), High(sizeRan), rounded))
  {
    var pos := PosArray(fieldW, fieldH, nElem, nIm + 1, u, cur);
    var sizes := SizeArray(sizeRan, rounded, nElem, nIm + 1, u, cur + 2 * (nIm + 1) * nElem);
    if sizes.Err? then Err(sizes.error)
    else Ok(seq(nIm + 1, i requires 0 <= i <= nIm => (pos[i], sizes.value[i])))
  }
}
