/** An abstract 2D drawing surface. Each drawing call that reaches the
    canvas is recorded as one operation, carrying the stroke or fill style
    in effect when it was issued; pixel coordinates, fonts and line widths
    are not part of the record. */
module Canvas {

  datatype Align = Left | Center | Right

  /** Straight strokes of the trend chart's frame. */
  datatype Mark =
    | YAxisLine
    | XAxisLine
    | YTickMark(tick: int)
    | XTickMark(index: nat)

  datatype Op =
    | ClearRect
      /** An arc stroked between two angles, measured in units of pi radians. */
    | StrokeArc(fromAngle: real, toAngle: real, style: string)
    | StrokeMark(mark: Mark, style: string)
    | FillText(text: string, style: string, align: Align)
      /** The area between the curve through the values and the X axis. */
    | FillArea(values: seq<int>, style: string)
    | StrokePolyline(values: seq<int>, style: string)
      /** The marker dot of sample `index`, whose value is `value`. */
    | FillDot(index: nat, value: int, style: string)

  /** The largest value a canvas's width or height attribute keeps; an
      assignment outside 0 .. MaxDimension sets the default instead. */
  const MaxDimension: nat := 0x7FFF_FFFF
  const DefaultWidth: nat := 300
  const DefaultHeight: nat := 150

  /** The integer part of x, as the conversion to an unsigned long takes it. */
  function TruncateTowardZero(x: real): (t: int)
    ensures x >= 0.0 ==> 0 <= t && t as real <= x < t as real + 1.0
    ensures x < 0.0 ==> t <= 0 && t as real - 1.0 < x <= t as real
  {
    if x >= 0.0 then x.Floor else -((-x).Floor)
  }

  /** The dimension a canvas keeps when x is assigned to its width or
      height: the integer part of x taken modulo 2^32, or the default when
      that is beyond MaxDimension. */
  function AssignedDimension(x: real, default: nat): (d: nat)
    requires default <= MaxDimension
    ensures d <= MaxDimension
    ensures 0.0 <= x < MaxDimension as real + 1.0 ==> d as real <= x < d as real + 1.0
    ensures -(MaxDimension as real) - 1.0 <= x <= -1.0 ==> d == default
  {
    var t := TruncateTowardZero(x) % 0x1_0000_0000;
    if t <= MaxDimension then t else default
  }

  class Surface {
    var width: nat
    var height: nat
    var ops: seq<Op>

    /** A fresh canvas of the size its element attributes give, blank. */
    constructor (w: nat, h: nat)
      ensures width == w && height == h && ops == []
    {
      width, height, ops := w, h, [];
    }

    /** Assigning a canvas's width and height stores their converted
        values and discards what was drawn on it. */
    method Resize(w: real, h: real)
      modifies this
      ensures width == AssignedDimension(w, DefaultWidth)
      ensures height == AssignedDimension(h, DefaultHeight)
      ensures ops == []
    {
      width := AssignedDimension(w, DefaultWidth);
      height := AssignedDimension(h, DefaultHeight);
      ops := [];
    }

    method Draw(op: Op)
      modifies this`ops
      ensures ops == old(ops) + [op]
    {
      ops := ops + [op];
    }
  }

  /** A zoomed-out page: a 220-pixel canvas at a pixel ratio of 0.67 keeps
      a width of 147, not 147.4. */
  lemma ZoomedOutWidth()
    ensures AssignedDimension(220.0 * 0.67, DefaultWidth) == 147
  {
    assert TruncateTowardZero(220.0 * 0.67) == 147;
  }

  lemma AppendAssoc(a: seq<Op>, b: seq<Op>, c: seq<Op>)
    ensures a + (b + c) == a + b + c
  {
  }

  /** Appending a batch of operations in parts gives the same record as
      appending it whole. */
  lemma AppendInParts(prefix: seq<Op>, a: seq<Op>, b: seq<Op>, c: seq<Op>, d: seq<Op>)
    ensures prefix + (a + b + c + d) == prefix + a + b + c + d
  {
  }

  /** The record ends with the operations c. */
  predicate EndsWith(ops: seq<Op>, c: seq<Op>) {
    |c| <= |ops| && ops[|ops| - |c|..] == c
  }

  /** A record extended by c ends with c. */
  lemma EndsWithLastPart(a: seq<Op>, c: seq<Op>)
    ensures EndsWith(a + c, c)
  {
    assert (a + c)[|a + c| - |c|..] == c;
  }

  /** Operations drawn before others do not change how the record ends. */
  lemma EndsWithAppend(a: seq<Op>, b: seq<Op>, c: seq<Op>)
    requires EndsWith(b, c)
    ensures EndsWith(a + b, c)
  {
    assert (a + b)[|a + b| - |c|..] == b[|b| - |c|..];
  }

  /** An operation in none of the parts is not in their concatenation. */
  lemma NotInParts(op: Op, a: seq<Op>, b: seq<Op>, c: seq<Op>, d: seq<Op>)
    requires op !in a && op !in b && op !in c && op !in d
    ensures op !in a + b + c + d
  {
  }
}
