/**
 * Box arithmetic of the detection augmentations (detection_augmentations.py):
 * flips, quarter-turn rotations, the brightness change (which leaves boxes
 * alone) and the clamp that makes a box fit its image. Pixel work is not
 * modelled; only the boxes and the image size are.
 */
module DetectionAugmentations {
  import opened Numbers

  /** A box dictionary: the four bbox keys plus whatever other keys it carries. */
  datatype BBox = BBox(x: int, y: int, w: int, h: int, extra: map<string, string>)

  /** The list [x, y, w, h] that fix_bbox returns. */
  datatype Quad = Quad(x: int, y: int, w: int, h: int)

  /** The three rotation codes the source accepts (cv2.ROTATE_90_CLOCKWISE, ROTATE_180, ROTATE_90_COUNTERCLOCKWISE). */
  datatype Rotation = Clockwise90 | Half | CounterClockwise90

  predicate FlipsX(code: int) { code == 1 || code == -1 }
  predicate FlipsY(code: int) { code == 0 || code == -1 }

  /** The box is inside a W x H image. */
  predicate Inside(b: BBox, width: int, height: int) {
    0 <= b.x && 0 <= b.w && b.x + b.w <= width && 0 <= b.y && 0 <= b.h && b.y + b.h <= height
  }

  /** scale: every coordinate multiplied by the drawn factor and truncated; every other key is kept. */
  function ScaleBox(b: BBox, factor: real): (r: BBox)
    ensures r.extra == b.extra
  {
    b.(x := Scaled(b.x, factor), y := Scaled(b.y, factor), w := Scaled(b.w, factor), h := Scaled(b.h, factor))
  }

  function Scale(bboxes: seq<BBox>, factor: real): (r: seq<BBox>)
    ensures |r| == |bboxes|
    ensures forall i :: 0 <= i < |r| ==> r[i] == ScaleBox(bboxes[i], factor)
  {
    seq(|bboxes|, i requires 0 <= i < |bboxes| => ScaleBox(bboxes[i], factor))
  }

  /** One coordinate or side multiplied by the factor and truncated. */
  function Scaled(n: int, factor: real): int {
    Trunc(n as real * factor)
  }

  /** The size of the scaled image: each side multiplied by the factor and truncated. */
  function ScaledSize(width: int, height: int, factor: real): (int, int) {
    (Scaled(width, factor), Scaled(height, factor))
  }

  /** Truncating two non-negative parts never exceeds truncating a bound on their sum. */
  lemma TruncSum(a: real, b: real, c: real)
    requires 0.0 <= a && 0.0 <= b && a + b <= c
    ensures Trunc(a) + Trunc(b) <= Trunc(c)
  {
    var s := Trunc(a) + Trunc(b);
    assert s as real <= c;
    assert c < Trunc(c) as real + 1.0;
  }

  /** A box inside the image is inside the scaled image after scaling, for any non-negative factor. */
  lemma ScaleStaysInside(b: BBox, factor: real, width: int, height: int)
    requires Inside(b, width, height) && factor >= 0.0
    ensures Inside(ScaleBox(b, factor), ScaledSize(width, height, factor).0, ScaledSize(width, height, factor).1)
  {
    ScaleAxis(b.x, b.w, width, factor);
    ScaleAxis(b.y, b.h, height, factor);
  }

  lemma ScaleAxis(x: int, w: int, size: int, f: real)
    requires 0 <= x && 0 <= w && x + w <= size && f >= 0.0
    ensures 0 <= Scaled(x, f) && 0 <= Scaled(w, f) && Scaled(x, f) + Scaled(w, f) <= Scaled(size, f)
  {
    var xf := x as real * f;
    var wf := w as real * f;
    var sf := size as real * f;
    assert 0.0 <= xf by { MulMono(0, x, f); }
    assert 0.0 <= wf by { MulMono(0, w, f); }
    assert xf + wf <= sf by {
      MulMono(x + w, size, f);
      MulDistrib(x, w, f);
    }
    TruncSum(xf, wf, sf);
  }

  lemma MulDistrib(x: int, w: int, f: real)
    ensures (x + w) as real * f == x as real * f + w as real * f
  {
  }

  lemma MulMono(a: int, c: int, f: real)
    requires a <= c && f >= 0.0
    ensures a as real * f <= c as real * f
  {
    var d := (c - a) as real;
    assert d >= 0.0;
    assert d * f >= 0.0;
    assert c as real * f == a as real * f + d * f;
  }

  /** Mirror one box: codes 1 and -1 mirror x, codes 0 and -1 mirror y; every other key is kept. */
  function FlipBox(b: BBox, code: int, width: int, height: int): (r: BBox)
    ensures r.w == b.w && r.h == b.h && r.extra == b.extra
    ensures FlipsX(code) ==> r.x + r.w == width - b.x
    ensures !FlipsX(code) ==> r.x == b.x
    ensures FlipsY(code) ==> r.y + r.h == height - b.y
    ensures !FlipsY(code) ==> r.y == b.y
  {
    var x := if FlipsX(code) then width - b.x - b.w else b.x;
    var y := if FlipsY(code) then height - b.y - b.h else b.y;
    b.(x := x, y := y)
  }

  function Flip(bboxes: seq<BBox>, code: int, width: int, height: int): (r: seq<BBox>)
    ensures |r| == |bboxes|
    ensures forall i :: 0 <= i < |r| ==> r[i] == FlipBox(bboxes[i], code, width, height)
  {
    if bboxes == [] then [] else [FlipBox(bboxes[0], code, width, height)] + Flip(bboxes[1..], code, width, height)
  }

  /** A flip keeps every box that lies inside the image inside it. */
  lemma FlipStaysInside(b: BBox, code: int, width: int, height: int)
    requires Inside(b, width, height)
    ensures Inside(FlipBox(b, code, width, height), width, height)
  {
  }

  /** Flipping twice with the same code and image size gives back every box. */
  lemma {:induction false} FlipTwice(bboxes: seq<BBox>, code: int, width: int, height: int)
    ensures Flip(Flip(bboxes, code, width, height), code, width, height) == bboxes
  {
    var once := Flip(bboxes, code, width, height);
    var twice := Flip(once, code, width, height);
    forall i | 0 <= i < |bboxes| ensures twice[i] == bboxes[i] {
      var b := bboxes[i];
      assert FlipBox(FlipBox(b, code, width, height), code, width, height) == b;
    }
  }

  /** The size of the rotated image: quarter turns swap width and height. */
  function RotatedSize(angle: Rotation, width: int, height: int): (int, int) {
    if angle == Half then (width, height) else (height, width)
  }

  /** The box of lines 57-62 for a box on a W x H image; only the four bbox keys survive. */
  function RotateBox(b: BBox, angle: Rotation, width: int, height: int): (r: BBox)
    ensures r.extra == map[]
    ensures angle == Clockwise90 ==> r.x == b.y && r.y == width - b.x - b.w && r.w == b.h && r.h == b.w
    ensures angle == Half ==> r.x == width - b.x - b.w && r.y == height - b.y - b.h && r.w == b.w && r.h == b.h
    ensures angle == CounterClockwise90 ==> r.x == height - b.y - b.h && r.y == b.x && r.w == b.h && r.h == b.w
  {
    match angle
    case Clockwise90 => BBox(b.y, width - b.x - b.w, b.h, b.w, map[])
    case Half => BBox(width - b.x - b.w, height - b.y - b.h, b.w, b.h, map[])
    case CounterClockwise90 => BBox(height - b.y - b.h, b.x, b.h, b.w, map[])
  }

  function Rotate(bboxes: seq<BBox>, angle: Rotation, width: int, height: int): (r: seq<BBox>)
    ensures |r| == |bboxes|
    ensures forall i :: 0 <= i < |r| ==> r[i] == RotateBox(bboxes[i], angle, width, height)
  {
    if bboxes == [] then [] else [RotateBox(bboxes[0], angle, width, height)] + Rotate(bboxes[1..], angle, width, height)
  }

  /** A rotated box that was inside the W x H image is inside the rotated image. */
  lemma RotateStaysInside(b: BBox, angle: Rotation, width: int, height: int)
    requires Inside(b, width, height)
    ensures Inside(RotateBox(b, angle, width, height), RotatedSize(angle, width, height).0, RotatedSize(angle, width, height).1)
  {
  }

  /** A half turn is the flip with code -1, apart from the keys a rotation drops. */
  lemma HalfTurnIsDoubleFlip(b: BBox, width: int, height: int)
    ensures RotateBox(b, Half, width, height) == FlipBox(b.(extra := map[]), -1, width, height)
  {
  }

  /** A quarter turn clockwise on W x H, then counter-clockwise on the H x W result, restores the box's keys. */
  lemma {:induction false} QuarterTurnsCancel(bboxes: seq<BBox>, width: int, height: int)
    requires forall i :: 0 <= i < |bboxes| ==> bboxes[i].extra == map[]
    ensures Rotate(Rotate(bboxes, Clockwise90, width, height), CounterClockwise90, height, width) == bboxes
    ensures Rotate(Rotate(bboxes, CounterClockwise90, width, height), Clockwise90, height, width) == bboxes
  {
    var cw := Rotate(bboxes, Clockwise90, width, height);
    var ccw := Rotate(bboxes, CounterClockwise90, width, height);
    forall i | 0 <= i < |bboxes|
      ensures Rotate(cw, CounterClockwise90, height, width)[i] == bboxes[i]
      ensures Rotate(ccw, Clockwise90, height, width)[i] == bboxes[i]
    {
      var b := bboxes[i];
      assert RotateBox(RotateBox(b, Clockwise90, width, height), CounterClockwise90, height, width) == b;
      assert RotateBox(RotateBox(b, CounterClockwise90, width, height), Clockwise90, height, width) == b;
    }
  }

  /** adjust_brightness changes only pixels: the box list it returns is a copy of the input. */
  function AdjustBrightness(bboxes: seq<BBox>): (r: seq<BBox>)
    ensures r == bboxes
  {
    bboxes
  }


  /** fix_bbox: clamp the corner into the image, then the size to what is left, never below 1. */
  function FixBbox(x: int, y: int, w: int, h: int, width: int, height: int): (q: Quad)
    ensures q.x >= 0 && q.y >= 0 && q.w >= 1 && q.h >= 1
    ensures width >= 1 ==> q.x <= width - 1 && q.x + q.w <= width
    ensures height >= 1 ==> q.y <= height - 1 && q.y + q.h <= height
    ensures 0 <= x < width && 1 <= w && x + w <= width ==> q.x == x && q.w == w
    ensures 0 <= y < height && 1 <= h && y + h <= height ==> q.y == y && q.h == h
  {
    var fx := Max(0, Min(x, width - 1));
    var fy := Max(0, Min(y, height - 1));
    var fw := Max(1, Min(w, width - fx));
    var fh := Max(1, Min(h, height - fy));
    Quad(fx, fy, fw, fh)
  }

  /** Fixing an already fixed box changes nothing. */
  lemma FixBboxIdempotent(x: int, y: int, w: int, h: int, width: int, height: int)
    ensures var q := FixBbox(x, y, w, h, width, height);
      FixBbox(q.x, q.y, q.w, q.h, width, height) == q
  {
  }
}
