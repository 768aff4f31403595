/** The cross-section geometry: how the bias point and the channel-length
    selector move the drain, scale the gate stack and shape the inversion
    channel polygon. Shapes are given by their bounding boxes; the output is
    coordinates and scale factors rather than SVG attribute strings. */
module Geometry {
  import opened Device

  /** Height in pixels of the fully inverted channel. */
  const CH_MAX_HEIGHT: real := 200.0
  /** Largest pinch-off shift, as a fraction of the long channel's width. */
  const CH_PINCHOFF_SHIFT_MAX: real := 0.5
  /** A channel no taller than this is drawn as an empty path. */
  const EMPTY_HEIGHT: real := 0.1
  /** Pixels the drain-side corners reach past the gate edge in the ohmic region. */
  const OHMIC_EXTRA: real := 5.0
  /** Floor of the overshoot denominator VDS_MAX - Vdsat. */
  const MIN_HEADROOM: real := 0.000001
  /** Channel length values the selector gives: Short and Long. */
  const LEN_SHORT: real := 0.2
  const LEN_LONG: real := 0.9

  datatype Option<T> = None | Some(value: T)

  /** A bounding box in SVG user units (y grows downwards). */
  datatype Box = Box(x: real, y: real, width: real, height: real)

  datatype Point = Point(x: real, y: real)

  /** A horizontal scale about a fixed left edge: x maps to leftX + scaleX*(x - leftX). */
  datatype WidthScale = WidthScale(leftX: real, scaleX: real)

  /** The channel path after an update. Untouched: the channel shape or its box
      is missing, so the path is left as it was. Cleared: the path is set empty.
      Quad: the polygon source-top, drain-top, drain-bottom, source-bottom. */
  datatype ChannelShape =
    | Untouched
    | Cleared
    | Quad(srcTop: Point, drainTop: Point, drainBottom: Point, srcBottom: Point)

  /** The shapes found in the cross-section drawing. A box is present only when
      its shape is; the drain is moved whether or not it has a box. */
  datatype Scene = Scene(channel: Option<Box>, hasDrain: bool, oxide: Option<Box>, poly: Option<Box>)

  /** Everything one geometry update sets: the region label, the drain's
      horizontal translation (None when there is no drain shape), the scales
      of oxide and poly (None when the shape is missing) and the channel. */
  datatype CrossSection = CrossSection(
    mode: Region,
    drainTranslateX: Option<real>,
    oxide: Option<WidthScale>,
    poly: Option<WidthScale>,
    channel: ChannelShape)

  /** Math.max(0, Math.min(1, v)). */
  function Clamp01(v: real): (c: real)
    ensures 0.0 <= c <= 1.0
    ensures 0.0 <= v <= 1.0 ==> c == v
    ensures v < 0.0 ==> c == 0.0
    ensures v > 1.0 ==> c == 1.0
  {
    if 1.0 < v then 1.0 else if v < 0.0 then 0.0 else v
  }

  /** Clamp01 is monotone. */
  lemma Clamp01Monotone(u: real, v: real)
    requires u <= v
    ensures Clamp01(u) <= Clamp01(v)
  {
  }

  /** The channel length the selector gives: 0.2 when Short is checked, else 0.9. */
  function ChannelLength(shortSelected: bool): (len: real)
    ensures shortSelected ==> len == LEN_SHORT
    ensures !shortSelected ==> len == LEN_LONG
  {
    if shortSelected then LEN_SHORT else LEN_LONG
  }

  /** The length readout says Long exactly when len > 0.6. */
  predicate ShowsLong(len: real)
  {
    len > 0.6
  }

  lemma LengthLabelMatchesSelector(shortSelected: bool)
    ensures ShowsLong(ChannelLength(shortSelected)) <==> !shortSelected
  {
  }

  /** Fraction of the long channel's width removed by shortening. */
  function Shorten(len: real): (s: real)
    ensures 0.0 <= len <= 1.0 ==> 0.0 <= s <= 0.6
    ensures len == 1.0 ==> s == 0.0
    ensures s == 0.6 * (1.0 - len)
  {
    (1.0 - len) * 0.6
  }

  /** The two selector positions: Short removes 48% of the width, Long 6%. */
  lemma ShortenOfSelector()
    ensures Shorten(LEN_SHORT) == 0.48 && Shorten(LEN_LONG) == 0.06
  {
  }

  /** The width scale of the oxide or poly shape, keeping its left edge. */
  function ScaleKeepLeft(b: Box, shorten: real): (t: WidthScale)
    ensures t.leftX == b.x
    ensures 0.0 <= shorten <= 0.6 ==> 0.4 <= t.scaleX <= 1.0
  {
    WidthScale(b.x, 1.0 - shorten)
  }

  function Apply(t: WidthScale, x: real): real
  {
    t.leftX + t.scaleX * (x - t.leftX)
  }

  /** The scale keeps the left edge and moves the right edge to
      x + width*(1 - shorten), shrinking the shape by shorten*width. */
  lemma ScaleKeepsLeftEdge(b: Box, shorten: real)
    ensures Apply(ScaleKeepLeft(b, shorten), b.x) == b.x
    ensures Apply(ScaleKeepLeft(b, shorten), b.x + b.width) == b.x + b.width * (1.0 - shorten)
    ensures Apply(ScaleKeepLeft(b, shorten), b.x + b.width) - b.x == b.width - b.width * shorten
  {
  }

  /** Height of the channel at the source, proportional to the clamped
      overdrive fraction (Vgs - VTH)/(VGS_MAX - VTH). */
  function BaseHeight(vgs: real): (h: real)
    ensures 0.0 <= h <= CH_MAX_HEIGHT
    ensures vgs <= VTH ==> h == 0.0
    ensures vgs >= VGS_MAX ==> h == CH_MAX_HEIGHT
    ensures VTH <= vgs <= VGS_MAX ==> h == CH_MAX_HEIGHT * (vgs - VTH) / (VGS_MAX - VTH)
  {
    CH_MAX_HEIGHT * Clamp01((vgs - VTH) / (VGS_MAX - VTH))
  }

  /** The channel is drawn exactly when Vgs exceeds VTH by more than 1.25 mV:
      the empty-height cut-off sits just above the threshold. */
  lemma ChannelVisibleIff(vgs: real)
    ensures BaseHeight(vgs) > EMPTY_HEIGHT <==> vgs > 0.50125
  {
    if vgs > VTH && vgs < VGS_MAX {
      assert BaseHeight(vgs) == 80.0 * (vgs - VTH);
    }
  }

  /** The channel-length modulation factor, 1 for len = 1 and growing as the
      channel shortens. */
  function ClmBoost(len: real): (b: real)
    ensures 0.0 <= len <= 1.0 ==> 1.0 <= b <= 2.8
    ensures b == 1.0 + 1.8 * (1.0 - len)
  {
    1.0 + (1.0 - len) * 1.8
  }

  /** The two selector positions: Short gives 2.44, Long 1.18. */
  lemma ClmBoostOfSelector()
    ensures ClmBoost(LEN_SHORT) == 2.44 && ClmBoost(LEN_LONG) == 1.18
  {
  }

  /** How far past pinch-off Vds is, relative to the remaining headroom
      VDS_MAX - Vdsat (floored at 1e-6). */
  function Overshoot(vds: real, vdsat: real): (o: real)
    ensures vds >= vdsat ==> o >= 0.0
  {
    var headroom := if MIN_HEADROOM < VDS_MAX - vdsat then VDS_MAX - vdsat else MIN_HEADROOM;
    assert headroom > 0.0;
    (vds - vdsat) / headroom
  }

  /** The pinch-off point's leftward shift in saturation: the clamped
      overshoot times the boost, times half the long width, reduced by the
      overdrive fraction (a stronger gate pulls the pinch-off back). */
  function PinchoffShift(vgs: real, vds: real, len: real, widthLong: real): (s: real)
    ensures widthLong >= 0.0 ==> 0.0 <= s <= CH_PINCHOFF_SHIFT_MAX * widthLong
    ensures vgs >= VGS_MAX ==> s == 0.0
  {
    var raw := Clamp01(Overshoot(vds, Overdrive(vgs)) * ClmBoost(len)) * CH_PINCHOFF_SHIFT_MAX * widthLong;
    var pullback := Clamp01((vgs - VTH) / (VGS_MAX - VTH));
    ShiftBounds(Clamp01(Overshoot(vds, Overdrive(vgs)) * ClmBoost(len)), widthLong, pullback);
    raw * (1.0 - pullback)
  }

  lemma ShiftBounds(c: real, w: real, p: real)
    requires 0.0 <= c <= 1.0 && 0.0 <= p <= 1.0
    ensures w >= 0.0 ==> 0.0 <= c * CH_PINCHOFF_SHIFT_MAX * w * (1.0 - p) <= CH_PINCHOFF_SHIFT_MAX * w
  {
    if w >= 0.0 {
      UnitProduct(c, 1.0 - p);
      assert c * CH_PINCHOFF_SHIFT_MAX * w * (1.0 - p) == (c * (1.0 - p)) * (CH_PINCHOFF_SHIFT_MAX * w);
      FractionOf(c * (1.0 - p), CH_PINCHOFF_SHIFT_MAX * w);
    }
  }

  /** Deep in saturation (overshoot times boost at least 1) the shift is the
      full half width, scaled only by the gate pull-back. */
  lemma PinchoffShiftSaturates(vgs: real, vds: real, len: real, widthLong: real)
    requires Overshoot(vds, Overdrive(vgs)) * ClmBoost(len) >= 1.0
    ensures PinchoffShift(vgs, vds, len, widthLong)
         == CH_PINCHOFF_SHIFT_MAX * widthLong * (1.0 - Clamp01((vgs - VTH) / (VGS_MAX - VTH)))
  {
  }

  /** The drain's translation: the channel box width times shorten, leftwards;
      0 when there is no channel box. The drain thus moves with the right end
      of the shortened gate. */
  function DrainTranslate(s: Scene, shorten: real): (d: real)
    ensures s.channel.None? ==> d == 0.0
    ensures s.channel.Some? ==>
      s.channel.value.x + s.channel.value.width + d == GateRight(s.channel.value, shorten)
    ensures s.channel.Some? && s.channel.value.width >= 0.0 && shorten >= 0.0 ==> d <= 0.0
  {
    if s.channel.Some? then -(s.channel.value.width * shorten) else 0.0
  }

  function ScaleOf(b: Option<Box>, shorten: real): Option<WidthScale>
  {
    if b.Some? then Some(ScaleKeepLeft(b.value, shorten)) else None
  }

  /** The branch-assigned part of the channel update: how far the drain-side
      bottom corner rises and how far the pinch-off point shifts left.
      Ohmic (Vds <= Vdsat): the rise follows Vds/Vdsat clamped to [0,1] (so no
      rise for Vds <= 0) and there is no shift.
      Saturation: the corner rises all the way and the pinch-off shifts. */
  method RiseAndShift(baseH: real, vgs: real, vds: real, len: real, widthLong: real)
    returns (rise: real, shift: real)
    requires baseH >= 0.0
    ensures 0.0 <= rise <= baseH
    ensures vds <= 0.0 ==> rise == 0.0
    ensures vds <= Overdrive(vgs) ==> shift == 0.0
    ensures Overdrive(vgs) > 0.0 && 0.0 <= vds <= Overdrive(vgs) ==> rise == baseH * (vds / Overdrive(vgs))
    ensures vds > Overdrive(vgs) ==> rise == baseH && shift == PinchoffShift(vgs, vds, len, widthLong)
  {
    var vdsSat := Overdrive(vgs);
    rise, shift := 0.0, 0.0;
    var clmBoost := ClmBoost(len);
    if vds <= vdsSat {
      var frac := if vdsSat > 0.0 then Clamp01(vds / vdsSat) else 0.0;
      rise := baseH * frac;
      FractionOf(frac, baseH);
      if vdsSat > 0.0 && 0.0 <= vds {
        RatioIsFraction(vds, vdsSat);
      }
      if vds <= 0.0 {
        assert frac == 0.0;
      }
    } else {
      rise := baseH;
      var overshoot := Overshoot(vds, vdsSat);
      shift := Clamp01(overshoot * clmBoost) * CH_PINCHOFF_SHIFT_MAX * widthLong;
      var pullback := Clamp01((vgs - VTH) / (VGS_MAX - VTH));
      shift := shift * (1.0 - pullback);
    }
  }

  /** The right end of the shortened gate over the channel box. */
  function GateRight(b: Box, shorten: real): real
  {
    b.x + b.width * (1.0 - shorten)
  }

  /** The gate end is the left edge plus the shortened width. */
  lemma GateRightOfWidth(b: Box, shorten: real, widthEff: real)
    requires widthEff == b.width * (1.0 - shorten)
    ensures b.x + widthEff == GateRight(b, shorten)
  {
  }

  /** What the drawn polygon promises for a visible channel over box b: the
      source edge spans the base height; the drain-top corner sits on the top
      edge at the gate end (5 px further in the ohmic region); the drain-bottom
      corner stays on the bottom edge for Vds <= 0, rises linearly with
      Vds/Vdsat in the ohmic region, lies straight
      below the drain-top corner there, and in saturation reaches the top edge
      and is pulled left by the pinch-off shift. */
  predicate PolygonFits(c: ChannelShape, b: Box, vgs: real, vds: real, len: real)
  {
    && c.Quad?
    && c.srcTop == Point(b.x, b.y) && c.srcBottom == Point(b.x, b.y + BaseHeight(vgs))
    && c.drainTop.y == b.y
    && (vds <= Overdrive(vgs) ==> c.drainTop.x == GateRight(b, Shorten(len)) + OHMIC_EXTRA)
    && (vds > Overdrive(vgs) ==> c.drainTop.x == GateRight(b, Shorten(len)))
    && b.y <= c.drainBottom.y <= b.y + BaseHeight(vgs)
    && (vds <= 0.0 ==> c.drainBottom.y == b.y + BaseHeight(vgs))
    && (vds <= Overdrive(vgs) ==> c.drainBottom.x == c.drainTop.x)
    && (Overdrive(vgs) > 0.0 && 0.0 <= vds <= Overdrive(vgs) ==>
          c.drainBottom.y == b.y + BaseHeight(vgs) - BaseHeight(vgs) * (vds / Overdrive(vgs)))
    && (vds > Overdrive(vgs) ==> c.drainBottom.y == b.y)
    && (vds > Overdrive(vgs) ==> c.drainBottom.x == GateRight(b, Shorten(len)) - PinchoffShift(vgs, vds, len, b.width))
  }

  /** The channel polygon for a visible channel (base height above the
      empty cut-off). */
  method ChannelPolygon(b: Box, vgs: real, vds: real, len: real) returns (c: ChannelShape)
    requires BaseHeight(vgs) > EMPTY_HEIGHT
    ensures PolygonFits(c, b, vgs, vds, len)
  {
    var shorten := Shorten(len);
    var baseH := BaseHeight(vgs);
    var left, top := b.x, b.y;
    var widthLong := b.width;
    var widthEff := widthLong * (1.0 - shorten);
    var vdsSat := Overdrive(vgs);
    var rise, shift := RiseAndShift(baseH, vgs, vds, len, widthLong);

    var extraPx := 0.0;
    if vds <= vdsSat {
      extraPx := OHMIC_EXTRA;
    }

    var drainRightX := left + widthEff - shift + extraPx;
    var drainBotY := top + baseH - rise;
    c := Quad(Point(left, top), Point(left + widthEff + extraPx, top),
              Point(drainRightX, drainBotY), Point(left, top + baseH));
    GateRightOfWidth(b, shorten, widthEff);
    assert b.y <= c.drainBottom.y <= b.y + baseH;
    assert Overdrive(vgs) > 0.0 && 0.0 <= vds <= Overdrive(vgs) ==>
      c.drainBottom.y == b.y + baseH - baseH * (vds / Overdrive(vgs));
  }

  /** At Vds == Vdsat the region label already reads Saturation while the
      polygon is still drawn by the ohmic branch, but that branch has then risen
      all the way: the drain-bottom corner is on the top edge, as it is in
      saturation, so the picture is continuous across the boundary. */
  lemma PolygonPinchesAtVdsat(c: ChannelShape, b: Box, vgs: real, len: real)
    requires Overdrive(vgs) > 0.0 && PolygonFits(c, b, vgs, Overdrive(vgs), len)
    ensures c.drainBottom.y == b.y
    ensures RegionOf(vgs, Overdrive(vgs)) == Saturation
  {
    assert Overdrive(vgs) / Overdrive(vgs) == 1.0;
  }

  /** One cross-section update for bias (vgs, vds) and channel length len. */
  method UpdateGeometry(s: Scene, vgs: real, vds: real, len: real) returns (g: CrossSection)
    ensures g.mode == RegionOf(vgs, vds)
    ensures g.drainTranslateX == (if s.hasDrain then Some(DrainTranslate(s, Shorten(len))) else None)
    ensures g.oxide == ScaleOf(s.oxide, Shorten(len)) && g.poly == ScaleOf(s.poly, Shorten(len))
    ensures s.channel.None? <==> g.channel.Untouched?
    ensures g.channel.Cleared? <==> s.channel.Some? && BaseHeight(vgs) <= EMPTY_HEIGHT
    ensures g.channel.Quad? <==> s.channel.Some? && BaseHeight(vgs) > EMPTY_HEIGHT
    ensures g.channel.Quad? ==> PolygonFits(g.channel, s.channel.value, vgs, vds, len)
  {
    var shorten := Shorten(len);
    var mode := RegionOf(vgs, vds);

    var deltaX := 0.0;
    if s.channel.Some? {
      deltaX := s.channel.value.width * shorten;
    }
    assert -deltaX == DrainTranslate(s, shorten);
    var drain: Option<real> := None;
    if s.hasDrain {
      drain := Some(-deltaX);
    }
    var oxide := ScaleOf(s.oxide, shorten);
    var poly := ScaleOf(s.poly, shorten);

    if s.channel.None? {
      return CrossSection(mode, drain, oxide, poly, Untouched);
    }
    var baseH := BaseHeight(vgs);
    if baseH <= EMPTY_HEIGHT {
      return CrossSection(mode, drain, oxide, poly, Cleared);
    }
    var channel := ChannelPolygon(s.channel.value, vgs, vds, len);
    g := CrossSection(mode, drain, oxide, poly, channel);
  }

  lemma UnitProduct(c: real, q: real)
    requires 0.0 <= c <= 1.0 && 0.0 <= q <= 1.0
    ensures 0.0 <= c * q <= 1.0
  {
    FractionOf(c, q);
  }

  /** A fraction in [0,1] of a non-negative amount lies between 0 and the amount. */
  lemma FractionOf(frac: real, amount: real)
    requires amount >= 0.0 && 0.0 <= frac <= 1.0
    ensures 0.0 <= frac * amount <= amount
  {
    assert frac * amount <= 1.0 * amount;
  }

  /** A ratio of a value in [0, d] to d > 0 is a fraction in [0,1]. */
  lemma RatioIsFraction(v: real, d: real)
    requires d > 0.0 && 0.0 <= v <= d
    ensures 0.0 <= v / d <= 1.0
  {
    assert v / d * d == v;
  }

  /** Below threshold the channel is never drawn (it is cleared when present). */
  lemma CutoffClearsChannel(vgs: real)
    requires vgs <= VTH
    ensures BaseHeight(vgs) <= EMPTY_HEIGHT
  {
  }
}
