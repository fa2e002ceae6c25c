/** The two p5 sketches of the collapsible header: the solid outline sketch and
    the ASCII glyph sketch. Each keeps its own collapse value, eases it toward a
    target every frame, and lays out five mirrored pairs of ellipses. Numbers are
    mathematical reals; the p5 drawing calls are replaced by the returned specs
    of the ellipses that would be drawn. */
module EllipseSketch {

  /** Padding between the canvas edge and the ellipses, in canvas units. */
  const Padding: real := 10.0
  /** Largest collapse value: the ellipses lose at most 30% of their height. */
  const MaxCollapse: real := 0.3
  /** Interpolation factor of the per-frame ease. */
  const Ease: real := 0.1
  /** Number of mirrored ellipse pairs per frame. */
  const PairCount: nat := 5
  /** Base of the per-index growth of the ellipse sizes. */
  const Growth: real := 1.7

  /** `base` raised to the natural power `n`. */
  function Pow(base: real, n: nat): (r: real)
    ensures base >= 1.0 ==> r >= 1.0
    ensures base > 0.0 ==> r > 0.0
  {
    if n == 0 then 1.0 else base * Pow(base, n - 1)
  }

  lemma {:induction false} PowMonotone(base: real, m: nat, n: nat)
    requires base >= 1.0 && m <= n
    ensures Pow(base, m) <= Pow(base, n)
  {
    if m < n {
      PowMonotone(base, m, n - 1);
      assert Pow(base, n) == base * Pow(base, n - 1);
      var p := Pow(base, n - 1);
      assert p >= 1.0;
      assert base * p == p + (base - 1.0) * p;
      assert (base - 1.0) * p >= 0.0;
    }
  }

  /** p5's `lerp(a, b, t)`. */
  function Lerp(a: real, b: real, t: real): (r: real) { a + (b - a) * t }

  /** The collapse value a frame eases toward: the maximum while the collapse
      signal is on, zero otherwise. */
  function Target(toCollapse: bool): (r: real)
    ensures 0.0 <= r <= MaxCollapse
    ensures r == MaxCollapse <==> toCollapse
    ensures r == 0.0 <==> !toCollapse
  {
    if toCollapse then MaxCollapse else 0.0
  }

  /** The collapse value after one drawn frame. It closes 10% of the distance
      to the target, never overshoots it, and stays in [0, MaxCollapse]. */
  function NextCollapse(current: real, toCollapse: bool): (r: real)
    ensures r - Target(toCollapse) == 0.9 * (current - Target(toCollapse))
    ensures current <= Target(toCollapse) ==> current <= r <= Target(toCollapse)
    ensures Target(toCollapse) <= current ==> Target(toCollapse) <= r <= current
    ensures 0.0 <= current <= MaxCollapse ==> 0.0 <= r <= MaxCollapse
  {
    Lerp(current, Target(toCollapse), Ease)
  }

  /** Size of the ellipse pair with index `i` in one frame. */
  datatype Dims = Dims(w: real, h: real, offset: real)

  /** One ellipse handed to the renderer: centre and full width and height. */
  datatype Ellipse = Ellipse(cx: real, cy: real, w: real, h: real)

  /** What one call of a sketch's draw routine produces: nothing when the host
      element is missing, otherwise the colour alpha and the ellipses in the
      order they are drawn. */
  datatype Frame = Skipped | Drawn(alpha: int, ellipses: seq<Ellipse>)

  /** Widest an ellipse may be on a canvas of width `canvasW`. */
  function MaxWidth(canvasW: real): (maxW: real) { canvasW / 2.0 - Padding }

  /** Layout of the pair with index `i`: width and offset grow by 1.7 per
      index, the width is clamped to the maximum (always so for the last
      index), the offset stays half the width, and the height is the padded
      canvas height shrunk by the collapse value. */
  function Layout(i: nat, canvasW: real, canvasH: real, collapse: real): (d: Dims)
    requires i < PairCount
    ensures d.w <= MaxWidth(canvasW)
    ensures i == PairCount - 1 ==> d.w == MaxWidth(canvasW)
    ensures i < PairCount - 1 && 100.0 * Pow(Growth, i) <= MaxWidth(canvasW) ==> d.w == 100.0 * Pow(Growth, i)
    ensures d.w == 100.0 * Pow(Growth, i) || d.w == MaxWidth(canvasW)
    ensures d.offset == d.w / 2.0
    ensures d.h == (canvasH - Padding) * (1.0 - collapse)
  {
    var sizeFactor := Pow(Growth, i);
    var maxWidth := MaxWidth(canvasW);
    var h := (canvasH - Padding) * (1.0 - collapse);
    if 100.0 * sizeFactor > maxWidth || i == PairCount - 1 then
      Dims(maxWidth, h, 50.0 * (maxWidth / 100.0))
    else
      Dims(100.0 * sizeFactor, h, 50.0 * sizeFactor)
  }

  /** After the clamp the width still never decreases with the index. */
  lemma WidthsNondecreasing(i: nat, j: nat, canvasW: real, canvasH: real, collapse: real)
    requires i <= j < PairCount
    ensures Layout(i, canvasW, canvasH, collapse).w <= Layout(j, canvasW, canvasH, collapse).w
  {
    var di, dj := Layout(i, canvasW, canvasH, collapse), Layout(j, canvasW, canvasH, collapse);
    if dj.w != MaxWidth(canvasW) {
      PowMonotone(Growth, i, j);
    }
  }

  /** The two mirrored ellipses of pair `i`: right of centre, then left. */
  function Pair(i: nat, canvasW: real, canvasH: real, collapse: real): (es: seq<Ellipse>)
    requires i < PairCount
  {
    var d := Layout(i, canvasW, canvasH, collapse);
    [Ellipse(canvasW / 2.0 + d.offset, canvasH / 2.0, d.w, d.h),
     Ellipse(canvasW / 2.0 - d.offset, canvasH / 2.0, d.w, d.h)]
  }

  /** The ellipses of the first `n` pairs, in drawing order. */
  function Pairs(n: nat, canvasW: real, canvasH: real, collapse: real): (es: seq<Ellipse>)
    requires n <= PairCount
    ensures |es| == 2 * n
  {
    if n == 0 then [] else Pairs(n - 1, canvasW, canvasH, collapse) + Pair(n - 1, canvasW, canvasH, collapse)
  }

  /** All ellipses of one frame. */
  function FrameEllipses(canvasW: real, canvasH: real, collapse: real): (es: seq<Ellipse>)
    ensures |es| == 2 * PairCount
  {
    Pairs(PairCount, canvasW, canvasH, collapse)
  }

  lemma {:induction false} PairsAt(n: nat, canvasW: real, canvasH: real, collapse: real, k: nat)
    requires n <= PairCount && k < 2 * n
    ensures |Pairs(n, canvasW, canvasH, collapse)| == 2 * n
    ensures Pairs(n, canvasW, canvasH, collapse)[k] == Pair(k / 2, canvasW, canvasH, collapse)[k % 2]
  {
    if k < 2 * (n - 1) {
      PairsAt(n - 1, canvasW, canvasH, collapse, k);
    }
  }

  /** Every frame has ten ellipses in five mirrored pairs about the canvas
      centre; all share the centre line and the collapsed height; every width
      respects the clamp, the last pair is exactly at it, and each offset is
      half the width. */
  lemma FrameShape(canvasW: real, canvasH: real, collapse: real)
    ensures var es := FrameEllipses(canvasW, canvasH, collapse);
      |es| == 2 * PairCount &&
      (forall k :: 0 <= k < |es| ==>
        es[k].cy == canvasH / 2.0 &&
        es[k].h == (canvasH - Padding) * (1.0 - collapse) &&
        es[k].w <= MaxWidth(canvasW)) &&
      (forall j :: 0 <= j < PairCount ==>
        es[2 * j].w == es[2 * j + 1].w &&
        es[2 * j].cx - canvasW / 2.0 == es[2 * j].w / 2.0 &&
        canvasW / 2.0 - es[2 * j + 1].cx == es[2 * j].w / 2.0) &&
      es[2 * PairCount - 2].w == MaxWidth(canvasW)
  {
    var es := FrameEllipses(canvasW, canvasH, collapse);
    forall k | 0 <= k < |es|
      ensures es[k].cy == canvasH / 2.0
      ensures es[k].h == (canvasH - Padding) * (1.0 - collapse)
      ensures es[k].w <= MaxWidth(canvasW)
    {
      PairsAt(PairCount, canvasW, canvasH, collapse, k);
    }
    forall j | 0 <= j < PairCount
      ensures es[2 * j].w == es[2 * j + 1].w
      ensures es[2 * j].cx - canvasW / 2.0 == es[2 * j].w / 2.0
      ensures canvasW / 2.0 - es[2 * j + 1].cx == es[2 * j].w / 2.0
    {
      PairsAt(PairCount, canvasW, canvasH, collapse, 2 * j);
      PairsAt(PairCount, canvasW, canvasH, collapse, 2 * j + 1);
    }
    PairsAt(PairCount, canvasW, canvasH, collapse, 2 * PairCount - 2);
  }

  /** The collapse value after drawing one frame per signal in `signals`. */
  function Settle(current: real, signals: seq<bool>): (c: real)
    decreases |signals|
  {
    if signals == [] then current else Settle(NextCollapse(current, signals[0]), signals[1..])
  }

  /** Starting anywhere in [0, MaxCollapse], in particular from the initial 0,
      the collapse value stays in that range whatever the signals are. */
  lemma {:induction false} SettleInRange(current: real, signals: seq<bool>)
    requires 0.0 <= current <= MaxCollapse
    ensures 0.0 <= Settle(current, signals) <= MaxCollapse
    decreases |signals|
  {
    if signals != [] {
      SettleInRange(NextCollapse(current, signals[0]), signals[1..]);
    }
  }

  /** While the signal holds still, the signed distance to the target shrinks
      by the factor 0.9 per frame: exponential smoothing, never crossing the
      target. */
  lemma {:induction false} SettleConverges(current: real, b: bool, signals: seq<bool>)
    requires forall k :: 0 <= k < |signals| ==> signals[k] == b
    ensures Settle(current, signals) - Target(b) == Pow(0.9, |signals|) * (current - Target(b))
    decreases |signals|
  {
    if signals != [] {
      var t, next, rest := Target(b), NextCollapse(current, b), signals[1..];
      assert signals[0] == b;
      SettleConverges(next, b, rest);
      ConvergeStep(Settle(current, signals), Settle(next, rest), t, Pow(0.9, |rest|), Pow(0.9, |signals|), current, next);
    }
  }

  /** One inductive step of `SettleConverges`, as plain algebra. */
  lemma ConvergeStep(s0: real, s1: real, t: real, p: real, pn: real, c: real, nx: real)
    requires s0 == s1 && s1 - t == p * (nx - t)
    requires nx - t == 0.9 * (c - t) && pn == 0.9 * p
    ensures s0 - t == pn * (c - t)
  {
  }

  /** From rest, after `n` frames of collapsing the value is exactly
      0.3 * (1 - 0.9^n), and approaches 0.3 from below. */
  lemma CollapseFromRest(signals: seq<bool>)
    requires forall k :: 0 <= k < |signals| ==> signals[k]
    ensures Settle(0.0, signals) == MaxCollapse * (1.0 - Pow(0.9, |signals|))
    ensures Settle(0.0, signals) < MaxCollapse
  {
    SettleConverges(0.0, true, signals);
  }

  /** Stroke alpha of the outline sketch: faint while collapsing. */
  function StrokeAlpha(toCollapse: bool): (alpha: int)
    ensures 0 <= alpha <= 255
    ensures alpha < 255 <==> toCollapse
  {
    if toCollapse then 80 else 255
  }

  /** Fill alpha of the glyph sketch: faint while collapsing. */
  function FillAlpha(toCollapse: bool): (alpha: int)
    ensures 0 <= alpha <= 255
    ensures alpha < 255 <==> toCollapse
  {
    if toCollapse then 100 else 255
  }

  /** The outline sketch (`createEllipsesSketch`). */
  class EllipsesSketch {
    var currentCollapse: real

    ghost predicate Valid()
      reads this
    {
      0.0 <= currentCollapse <= MaxCollapse
    }

    constructor ()
      ensures Valid() && currentCollapse == 0.0
    {
      currentCollapse := 0.0;
    }

    /** One animation frame. Without a host element nothing happens; otherwise
        the collapse value eases toward its target and the five pairs of
        outlined ellipses are drawn. */
    method Draw(hostPresent: bool, toCollapse: bool, canvasW: real, canvasH: real) returns (frame: Frame)
      modifies this
      ensures old(Valid()) ==> Valid()
      ensures !hostPresent ==> frame == Skipped && currentCollapse == old(currentCollapse)
      ensures hostPresent ==> currentCollapse == NextCollapse(old(currentCollapse), toCollapse)
      ensures hostPresent ==> frame == Drawn(StrokeAlpha(toCollapse), FrameEllipses(canvasW, canvasH, currentCollapse))
    {
      if !hostPresent {
        return Skipped;
      }
      var targetCollapse := if toCollapse then MaxCollapse else 0.0;
      currentCollapse := Lerp(currentCollapse, targetCollapse, Ease);

      var cx := canvasW / 2.0;
      var cy := canvasH / 2.0;
      var baseH := canvasH - Padding;
      var alpha := if toCollapse then 80 else 255;

      var ellipses: seq<Ellipse> := [];
      for i := 0 to PairCount
        invariant ellipses == Pairs(i, canvasW, canvasH, currentCollapse)
      {
        var sizeFactor := Pow(Growth, i);
        var w := 100.0 * sizeFactor;
        var offset := 50.0 * sizeFactor;
        var h := baseH * (1.0 - currentCollapse);
        var maxWidth := canvasW / 2.0 - Padding;
        if w > maxWidth || i == 4 {
          w := maxWidth;
          offset := 50.0 * (w / 100.0);
        }
        assert Layout(i, canvasW, canvasH, currentCollapse) == Dims(w, h, offset);
        assert Pairs(i + 1, canvasW, canvasH, currentCollapse)
          == Pairs(i, canvasW, canvasH, currentCollapse) + Pair(i, canvasW, canvasH, currentCollapse);
        ellipses := ellipses + [Ellipse(cx + offset, cy, w, h), Ellipse(cx - offset, cy, w, h)];
      }
      frame := Drawn(alpha, ellipses);
    }
  }

  /** The glyph sketch (`createAsciiEllipsesSketch`): the same geometry, but
      each ellipse is handed to the glyph stamper instead of being stroked. */
  class AsciiEllipsesSketch {
    var currentCollapse: real

    ghost predicate Valid()
      reads this
    {
      0.0 <= currentCollapse <= MaxCollapse
    }

    constructor ()
      ensures Valid() && currentCollapse == 0.0
    {
      currentCollapse := 0.0;
    }

    /** One animation frame; the ellipses are the (centre, width, height)
        arguments of the glyph stamper, in call order. */
    method Draw(hostPresent: bool, toCollapse: bool, canvasW: real, canvasH: real) returns (frame: Frame)
      modifies this
      ensures old(Valid()) ==> Valid()
      ensures !hostPresent ==> frame == Skipped && currentCollapse == old(currentCollapse)
      ensures hostPresent ==> currentCollapse == NextCollapse(old(currentCollapse), toCollapse)
      ensures hostPresent ==> frame == Drawn(FillAlpha(toCollapse), FrameEllipses(canvasW, canvasH, currentCollapse))
    {
      if !hostPresent {
        return Skipped;
      }
      var targetCollapse := if toCollapse then MaxCollapse else 0.0;
      currentCollapse := Lerp(currentCollapse, targetCollapse, Ease);

      var cx := canvasW / 2.0;
      var cy := canvasH / 2.0;
      var baseH := canvasH - Padding;
      var alpha := if toCollapse then 100 else 255;

      var ellipses: seq<Ellipse> := [];
      for i := 0 to PairCount
        invariant ellipses == Pairs(i, canvasW, canvasH, currentCollapse)
      {
        var sizeFactor := Pow(Growth, i);
        var w := 100.0 * sizeFactor;
        var offset := 50.0 * sizeFactor;
        var h := baseH * (1.0 - currentCollapse);
        var maxWidth := canvasW / 2.0 - Padding;
        if w > maxWidth || i == 4 {
          w := maxWidth;
          offset := 50.0 * (w / 100.0);
        }
        assert Layout(i, canvasW, canvasH, currentCollapse) == Dims(w, h, offset);
        assert Pairs(i + 1, canvasW, canvasH, currentCollapse)
          == Pairs(i, canvasW, canvasH, currentCollapse) + Pair(i, canvasW, canvasH, currentCollapse);
        ellipses := ellipses + [Ellipse(cx + offset, cy, w, h), Ellipse(cx - offset, cy, w, h)];
      }
      frame := Drawn(alpha, ellipses);
    }
  }
}
