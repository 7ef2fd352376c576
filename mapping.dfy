/**
  The pointer-to-value mapping of `update_position`: a pointer position on the pad canvas is
  clamped to the canvas, scaled linearly to the 7-bit range 0..127 on each axis (the Y axis
  inverted so that the top edge is 127) and clamped to 0..127 again.

  Python computes `int((c / size) * 127)` in floating point; here it is the exact integer
  quotient `(c * 127) / size`, which is its intended value.
 */
module Mapping {
  /** The largest 7-bit MIDI data value. */
  const MidiMax := 127

  function Min(a: int, b: int): int {
    if a <= b then a else b
  }

  function Max(a: int, b: int): int {
    if a >= b then a else b
  }

  /** `max(lo, min(hi, v))`: pulls `v` to the nearest end of `lo..hi`. */
  function Clamp(v: int, lo: int, hi: int): (r: int)
    requires lo <= hi
    ensures lo <= r <= hi
    ensures lo <= v <= hi ==> r == v
    ensures v <= lo ==> r == lo
    ensures hi <= v ==> r == hi
  {
    Max(lo, Min(hi, v))
  }

  /** `int((c / size) * 127)` for a position `c` already clamped to `0..size`. */
  function Scale(c: int, size: int): int
    requires 0 < size && 0 <= c <= size
  {
    (c * MidiMax) / size
  }

  /** The X value of a pointer at canvas column `x` on a canvas `width` pixels wide. */
  function AxisX(x: int, width: int): (v: int)
    requires width > 0
    ensures 0 <= v <= MidiMax
  {
    Clamp(Scale(Clamp(x, 0, width), width), 0, MidiMax)
  }

  /** The Y value of a pointer at canvas row `y`; row 0 is the top of the pad and gives 127. */
  function AxisY(y: int, height: int): (v: int)
    requires height > 0
    ensures 0 <= v <= MidiMax
  {
    var cy := Clamp(y, 0, height);
    Clamp(Scale(height - cy, height), 0, MidiMax)
  }

  // Arithmetic facts about the quotient, kept small so that each is cheap to check.

  lemma MulLeft(a: int, b: int, n: int)
    ensures 0 <= n && a <= b ==> a * n <= b * n
  {
  }

  /** `q` is the quotient of `a` by `n` when `a` lies in `q*n .. q*n + n - 1`. */
  lemma QuotientUnique(a: int, n: int, q: int)
    requires n > 0 && q * n <= a < q * n + n
    ensures a / n == q
  {
    var d := a / n;
    assert d * n <= a < d * n + n;
    MulLeft(d + 1, q, n);
    MulLeft(q + 1, d, n);
  }

  lemma QuotientMonotone(a: int, b: int, n: int)
    requires a <= b && n > 0
    ensures a / n <= b / n
  {
    var qa, qb := a / n, b / n;
    assert qa * n <= a && b < qb * n + n;
    MulLeft(qb + 1, qa, n);
  }

  /** Scaling keeps a clamped position inside 0..127. */
  lemma ScaleInRange(c: int, size: int)
    requires 0 < size && 0 <= c <= size
    ensures 0 <= Scale(c, size) <= MidiMax
  {
    QuotientMonotone(0, c * MidiMax, size);
    QuotientMonotone(c * MidiMax, size * MidiMax, size);
    QuotientUnique(size * MidiMax, size, MidiMax);
  }

  /**
    In exact arithmetic the second clamp of `update_position` never changes a value: it only
    guards against floating-point results just outside 0..127.
   */
  lemma ReclampIsOnlyAGuard(x: int, y: int, width: int, height: int)
    requires width > 0 && height > 0
    ensures AxisX(x, width) == Scale(Clamp(x, 0, width), width)
    ensures AxisY(y, height) == Scale(height - Clamp(y, 0, height), height)
  {
    ScaleInRange(Clamp(x, 0, width), width);
    ScaleInRange(height - Clamp(y, 0, height), height);
  }

  /** The corners of the pad: top-left is (0, 127) and bottom-right is (127, 0). */
  lemma Corners(width: int, height: int)
    requires width > 0 && height > 0
    ensures AxisX(0, width) == 0 && AxisY(0, height) == MidiMax
    ensures AxisX(width, width) == MidiMax && AxisY(height, height) == 0
  {
    QuotientUnique(width * MidiMax, width, MidiMax);
    QuotientUnique(height * MidiMax, height, MidiMax);
  }

  /** A pointer dragged past an edge gives the value of that edge. */
  lemma OutsideSaturates(x: int, y: int, width: int, height: int)
    requires width > 0 && height > 0
    ensures x <= 0 ==> AxisX(x, width) == 0
    ensures x >= width ==> AxisX(x, width) == MidiMax
    ensures y <= 0 ==> AxisY(y, height) == MidiMax
    ensures y >= height ==> AxisY(y, height) == 0
  {
    Corners(width, height);
  }

  /** Moving right never lowers X. */
  lemma AxisXMonotone(x1: int, x2: int, width: int)
    requires width > 0 && x1 <= x2
    ensures AxisX(x1, width) <= AxisX(x2, width)
  {
    var c1, c2 := Clamp(x1, 0, width), Clamp(x2, 0, width);
    assert c1 <= c2;
    QuotientMonotone(c1 * MidiMax, c2 * MidiMax, width);
  }

  /** Moving down never raises Y: the Y axis is inverted. */
  lemma AxisYAntitone(y1: int, y2: int, height: int)
    requires height > 0 && y1 <= y2
    ensures AxisY(y2, height) <= AxisY(y1, height)
  {
    var c1, c2 := Clamp(y1, 0, height), Clamp(y2, 0, height);
    assert c1 <= c2;
    QuotientMonotone((height - c2) * MidiMax, (height - c1) * MidiMax, height);
  }

  /** The Y axis is the X mapping read from the bottom edge up. */
  lemma AxisYMirrorsAxisX(y: int, height: int)
    requires height > 0
    ensures AxisY(y, height) == AxisX(height - y, height)
  {
    assert height - Clamp(y, 0, height) == Clamp(height - y, 0, height);
  }

  /** The centre of a 400 x 250 canvas, the size the pad canvas is created with, maps to (63, 63). */
  lemma DefaultPadCentre()
    ensures AxisX(200, 400) == 63 && AxisY(125, 250) == 63
  {
  }

  /** The centre of any canvas of even width and height maps to (63, 63): 127 / 2 rounded down. */
  lemma EvenCanvasCentre(width: int, height: int)
    requires width > 0 && height > 0 && width % 2 == 0 && height % 2 == 0
    ensures AxisX(width / 2, width) == 63 && AxisY(height / 2, height) == 63
  {
    var i, j := width / 2, height / 2;
    assert i * MidiMax == 63 * width + i;
    assert j * MidiMax == 63 * height + j;
    QuotientUnique(i * MidiMax, width, 63);
    QuotientUnique(j * MidiMax, height, 63);
    assert height - Clamp(j, 0, height) == j;
  }

  /** The left-most column of a canvas `width` wide that maps to `v`. */
  function FirstColumnFor(v: int, width: int): int
    requires width > 0 && 0 <= v <= MidiMax
  {
    (v * width + MidiMax - 1) / MidiMax
  }

  /**
    On a canvas at least 127 pixels wide no value is skipped: every value 0..127 is produced by
    some column of the canvas.
   */
  lemma EveryValueReachable(v: int, width: int)
    requires width >= MidiMax && 0 <= v <= MidiMax
    ensures 0 <= FirstColumnFor(v, width) <= width
    ensures AxisX(FirstColumnFor(v, width), width) == v
  {
    var x := FirstColumnFor(v, width);
    var a := v * width + MidiMax - 1;
    assert x * MidiMax <= a < x * MidiMax + MidiMax;
    MulLeft(v, MidiMax, width);
    QuotientMonotone(0, a, MidiMax);
    QuotientMonotone(a, MidiMax * width + MidiMax - 1, MidiMax);
    QuotientUnique(MidiMax * width + MidiMax - 1, MidiMax, width);
    // v * width <= x * 127 < v * width + 127 <= (v + 1) * width
    MulLeft(MidiMax, width, v + 1);
    QuotientUnique(x * MidiMax, width, v);
    ScaleInRange(x, width);
  }
}
