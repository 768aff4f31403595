/** The two plots: the saturation envelope Id,sat(Vgs) on the left and, on the
    right, the saturation boundary and the Id(Vds) curve for the present Vgs,
    each with a marker at the present bias point. Currents are plotted in mA. */
module Plots {
  import opened Device
  import Parameters

  /** Number of samples of each sweep. */
  const SWEEP_POINTS: nat := 301
  /** Quantisation step of the Vgs marker. */
  const QUANT_STEP: real := 3.0 / 300.0

  /** The i-th sweep value i*0.01*3, shared by the Vgs and Vds sweeps. */
  function SweepValue(i: int): real
  {
    i as real * 0.01 * 3.0
  }

  /** The fixed sweep axes. */
  const VGS: seq<real> := seq(SWEEP_POINTS, i => SweepValue(i))
  const VDS: seq<real> := seq(SWEEP_POINTS, i => SweepValue(i))

  /** The sweeps start at 0, step by 0.03 and end at 9 V. */
  lemma SweepGrid()
    ensures |VGS| == SWEEP_POINTS && |VDS| == SWEEP_POINTS && VGS == VDS
    ensures VGS[0] == 0.0 && VGS[SWEEP_POINTS - 1] == 9.0
    ensures forall i :: 0 <= i < SWEEP_POINTS - 1 ==> VGS[i + 1] - VGS[i] == 0.03
    ensures forall i :: 0 <= i < SWEEP_POINTS ==> 0.0 <= VGS[i] <= 9.0
  {
  }

  /** A chart data point. */
  datatype Sample = Sample(x: real, y: real)

  /** Math.round: the nearest integer, halves rounded up. */
  function Round(x: real): (n: int)
    ensures x - 0.5 < n as real <= x + 0.5
  {
    (x + 0.5).Floor
  }

  /** Math.round(v/step)*step with step 3/300: a multiple of the step within
      half a step of v (ties go up). */
  function Quantize(v: real): (q: real)
    ensures v - QUANT_STEP / 2.0 < q <= v + QUANT_STEP / 2.0
    ensures (q / QUANT_STEP).Floor as real == q / QUANT_STEP
  {
    var n := Round(v / QUANT_STEP);
    assert v / QUANT_STEP - 0.5 < n as real <= v / QUANT_STEP + 0.5;
    assert n as real * QUANT_STEP / QUANT_STEP == n as real;
    n as real * QUANT_STEP
  }

  /** Off the step grid the marker moves: 0.004 V snaps to 0 and 0.005 V, a
      tie, goes up to 0.01 V. */
  lemma QuantizeSnapsToGrid()
    ensures Quantize(0.004) == 0.0
    ensures Quantize(0.005) == 0.01
  {
    assert 0.004 / QUANT_STEP == 0.4;
    assert 0.005 / QUANT_STEP == 0.5;
  }

  /** Multiples of the step are left alone. */
  lemma QuantizeOfStep(n: int)
    ensures Quantize(n as real * QUANT_STEP) == n as real * QUANT_STEP
  {
    assert n as real * QUANT_STEP / QUANT_STEP == n as real;
    assert Round(n as real) == n;
  }

  /** Quantising twice is quantising once. */
  lemma QuantizeIdempotent(v: real)
    ensures Quantize(Quantize(v)) == Quantize(v)
  {
    QuantizeOfStep(Round(v / QUANT_STEP));
  }

  /** The points of the sweep grid are fixed points of the quantisation. */
  lemma QuantizeKeepsSweepPoints(i: nat)
    requires i < SWEEP_POINTS
    ensures Quantize(VGS[i]) == VGS[i]
  {
    assert VGS[i] == (3 * i) as real * QUANT_STEP;
    QuantizeOfStep(3 * i);
  }

  /** The envelope value 0.5*K*max(Vgs - VTH, 0)^2 in mA. */
  function EnvelopeCurrent(k: real, vgs: real): (i: real)
    ensures vgs <= VTH ==> i == 0.0
    ensures k >= 0.0 ==> i >= 0.0
  {
    OnsetCurrent(k, Overdrive(vgs)) * 1000.0
  }

  /** The saturation-boundary value 0.5*K*Vds^2 in mA. */
  function BoundaryCurrent(k: real, vds: real): (i: real)
    ensures vds >= 0.0 ==> i == EnvelopeCurrent(k, VTH + vds)
    ensures k >= 0.0 ==> i >= 0.0
  {
    OnsetCurrent(k, vds) * 1000.0
  }

  /** The envelope is the drain current at the onset of saturation, Vds = Vdsat
      (and 0 in cutoff). */
  lemma EnvelopeIsOnsetCurrent(e: Electrical, vgs: real)
    ensures EnvelopeCurrent(e.k, vgs) == DrainCurrent(e, vgs, Overdrive(vgs)) * 1000.0
  {
    if vgs > VTH {
      BranchesMeetAtVdsat(e, vgs - VTH);
    }
  }

  /** A boundary point at Vds = v >= 0 is the drain current on the edge of
      saturation, at Vgs = VTH + v and Vds = v. */
  lemma BoundaryIsEdgeCurrent(e: Electrical, v: real)
    requires v >= 0.0
    ensures BoundaryCurrent(e.k, v) == DrainCurrent(e, VTH + v, v) * 1000.0
  {
    if v > 0.0 {
      BranchesMeetAtVdsat(e, v);
    }
  }

  /** For K >= 0 the envelope grows with Vgs. */
  lemma EnvelopeMonotone(k: real, u: real, v: real)
    requires k >= 0.0 && u <= v
    ensures EnvelopeCurrent(k, u) <= EnvelopeCurrent(k, v)
  {
    OnsetMonotone(k, Overdrive(u), Overdrive(v));
  }

  /** The chart state: the plot globals that the parameter update overwrites,
      the curve buffers of both charts and the two markers. */
  class PlotState {
    var wL: real
    var lambda: real
    var k: real
    var idMax: real
    var ratioText: string
    /** Left chart: the Id,sat(Vgs) envelope and the Vgs marker. */
    const envelope: array<Sample>
    var vgsMarker: Sample
    /** Right chart: the saturation boundary, the Id(Vds) curve and the Vds marker. */
    const boundary: array<Sample>
    const idVds: array<Sample>
    var vdsMarker: Sample

    /** The device parameters the current equation reads. */
    function DeviceParams(): Electrical
      reads this
    {
      Electrical(k, lambda)
    }

    /** The buffers have one sample per sweep point at the sweep's x values. */
    predicate Valid()
      reads this, envelope, boundary, idVds
    {
      && envelope.Length == SWEEP_POINTS && boundary.Length == SWEEP_POINTS && idVds.Length == SWEEP_POINTS
      && envelope != boundary && envelope != idVds && boundary != idVds
      && (forall i :: 0 <= i < SWEEP_POINTS ==> envelope[i].x == VGS[i])
      && (forall i :: 0 <= i < SWEEP_POINTS ==> boundary[i].x == VDS[i])
      && (forall i :: 0 <= i < SWEEP_POINTS ==> idVds[i].x == VDS[i])
    }

    predicate ParametersAre(length: int, width: int)
      reads this
    {
      var p := Parameters.PlotParameters(length, width);
      wL == p.wL && lambda == p.lambda && k == p.k && ratioText == p.ratioText
      && idMax == Parameters.PLOT_IDMAX
    }

    /** The envelope and boundary curves agree with the present K. */
    predicate CurvesMatch()
      reads this, envelope, boundary
    {
      && (forall i :: 0 <= i < envelope.Length && i < |VGS| ==> envelope[i].y == EnvelopeCurrent(k, VGS[i]))
      && (forall i :: 0 <= i < boundary.Length && i < |VDS| ==> boundary[i].y == BoundaryCurrent(k, VDS[i]))
    }

    /** The Id(Vds) curve is the current equation at this Vgs, in mA. */
    predicate IdCurveAt(vgs: real)
      reads this, idVds
    {
      forall i :: 0 <= i < idVds.Length && i < |VDS| ==>
        idVds[i].y == DrainCurrent(DeviceParams(), vgs, VDS[i]) * 1000.0
    }

    /** Both markers sit at the bias point: the Vgs marker at the quantised
        Vgs on the envelope, the Vds marker on the Id(Vds) curve. */
    predicate MarkersAt(vgs: real, vds: real)
      reads this
    {
      && vgsMarker == Sample(Quantize(vgs), EnvelopeCurrent(k, Quantize(vgs)))
      && vdsMarker == Sample(vds, DrainCurrent(DeviceParams(), vgs, vds) * 1000.0)
    }

    /** Everything on screen agrees with the bias point (vgs, vds). */
    predicate Consistent(vgs: real, vds: real)
      reads this, envelope, boundary, idVds
    {
      Valid() && CurvesMatch() && IdCurveAt(vgs) && MarkersAt(vgs, vds)
    }

    /** Page load up to the charts: the parameter update for the selectors,
        then the charts built from the sweeps for the initial bias point.
        The initial Vgs marker is not quantised. */
    constructor (length: int, width: int, vgs0: real, vds0: real)
      ensures fresh(envelope) && fresh(boundary) && fresh(idVds)
      ensures ParametersAre(length, width)
      ensures Valid() && CurvesMatch() && IdCurveAt(vgs0)
      ensures vgsMarker == Sample(vgs0, EnvelopeCurrent(k, vgs0))
      ensures vdsMarker == Sample(vds0, DrainCurrent(DeviceParams(), vgs0, vds0) * 1000.0)
    {
      var p := Parameters.PlotParameters(length, width);
      wL, lambda, k, ratioText, idMax := p.wL, p.lambda, p.k, p.ratioText, Parameters.PLOT_IDMAX;
      var e := Electrical(p.k, p.lambda);
      envelope := new Sample[SWEEP_POINTS](i requires 0 <= i < SWEEP_POINTS => Sample(VGS[i], EnvelopeCurrent(p.k, VGS[i])));
      vgsMarker := Sample(vgs0, EnvelopeCurrent(p.k, vgs0));
      boundary := new Sample[SWEEP_POINTS](i requires 0 <= i < SWEEP_POINTS => Sample(VDS[i], BoundaryCurrent(p.k, VDS[i])));
      idVds := new Sample[SWEEP_POINTS](i requires 0 <= i < SWEEP_POINTS => Sample(VDS[i], DrainCurrent(e, vgs0, VDS[i]) * 1000.0));
      vdsMarker := Sample(vds0, DrainCurrent(e, vgs0, vds0) * 1000.0);
    }

    /** The parameter update: W/L, lambda, K, the ratio text and the y-axis
        maximum are overwritten; the buffers and markers are not touched. */
    method UpdatePlotParameters(length: int, width: int)
      requires Valid()
      modifies this
      ensures Valid()
      ensures ParametersAre(length, width)
      ensures vgsMarker == old(vgsMarker) && vdsMarker == old(vdsMarker)
    {
      var p := Parameters.PlotParameters(length, width);
      wL := p.wL;
      ratioText := p.ratioText;
      lambda := p.lambda;
      k := p.k;
      idMax := Parameters.PLOT_IDMAX;
    }

    /** Redraw every curve for the present K and lambda and glue both markers'
        y values to the curves; the markers' x values stay where they were. */
    method RefreshAllPlots(vgs: real, vds: real)
      requires Valid()
      modifies envelope, boundary, idVds, this
      ensures Valid() && CurvesMatch() && IdCurveAt(vgs)
      ensures wL == old(wL) && lambda == old(lambda) && k == old(k)
      ensures ratioText == old(ratioText) && idMax == old(idMax)
      ensures vgsMarker == Sample(old(vgsMarker.x), EnvelopeCurrent(k, vgs))
      ensures vdsMarker == Sample(old(vdsMarker.x), DrainCurrent(DeviceParams(), vgs, vds) * 1000.0)
    {
      RedrawEnvelope();
      RedrawBoundary();
      RedrawIdCurve(vgs);

      vgsMarker := Sample(vgsMarker.x, EnvelopeCurrent(k, vgs));
      vdsMarker := Sample(vdsMarker.x, DrainCurrent(DeviceParams(), vgs, vds) * 1000.0);
    }

    /** Recompute the envelope for the present K. */
    method RedrawEnvelope()
      requires Valid()
      modifies envelope
      ensures Valid()
      ensures forall i :: 0 <= i < SWEEP_POINTS ==> envelope[i].y == EnvelopeCurrent(k, VGS[i])
    {
      for i := 0 to SWEEP_POINTS
        invariant Valid()
        invariant forall j :: 0 <= j < i ==> envelope[j].y == EnvelopeCurrent(k, VGS[j])
      {
        envelope[i] := Sample(envelope[i].x, EnvelopeCurrent(k, VGS[i]));
      }
    }

    /** Recompute the saturation boundary for the present K. */
    method RedrawBoundary()
      requires Valid()
      modifies boundary
      ensures Valid()
      ensures forall i :: 0 <= i < SWEEP_POINTS ==> boundary[i].y == BoundaryCurrent(k, VDS[i])
    {
      for i := 0 to SWEEP_POINTS
        invariant Valid()
        invariant forall j :: 0 <= j < i ==> boundary[j].y == BoundaryCurrent(k, VDS[j])
      {
        boundary[i] := Sample(boundary[i].x, BoundaryCurrent(k, VDS[i]));
      }
    }

    /** Recompute the Id(Vds) curve for this Vgs at the boundary curve's x values. */
    method RedrawIdCurve(vgs: real)
      requires Valid()
      modifies idVds
      ensures Valid() && IdCurveAt(vgs)
    {
      for i := 0 to SWEEP_POINTS
        invariant Valid()
        invariant forall j :: 0 <= j < i ==> idVds[j].y == DrainCurrent(DeviceParams(), vgs, VDS[j]) * 1000.0
      {
        idVds[i] := Sample(idVds[i].x, DrainCurrent(DeviceParams(), vgs, boundary[i].x) * 1000.0);
      }
    }

    /** The slider update. The Vgs marker moves to the quantised Vgs on the
        envelope. When only Vds moved, only the Vds marker moves; otherwise the
        Id(Vds) curve is redrawn for the new Vgs first. */
    method UpdateCharts(vgs: real, vds: real, vdsOnly: bool)
      requires Valid()
      modifies idVds, this
      ensures Valid() && MarkersAt(vgs, vds)
      ensures wL == old(wL) && lambda == old(lambda) && k == old(k)
      ensures ratioText == old(ratioText) && idMax == old(idMax)
      ensures vdsOnly ==> idVds[..] == old(idVds[..])
      ensures !vdsOnly ==> IdCurveAt(vgs)
    {
      var vgsRounded := Quantize(vgs);
      var idValue := EnvelopeCurrent(k, vgsRounded);
      vgsMarker := Sample(vgsRounded, vgsMarker.y);
      vgsMarker := Sample(vgsMarker.x, idValue);

      if vdsOnly {
        var idMarker := DrainCurrent(DeviceParams(), vgs, vds) * 1000.0;
        vdsMarker := Sample(vds, vdsMarker.y);
        vdsMarker := Sample(vdsMarker.x, idMarker);
        return;
      }

      RedrawIdCurve(vgs);
      var idMarker := DrainCurrent(DeviceParams(), vgs, vds) * 1000.0;
      vdsMarker := Sample(vds, vdsMarker.y);
      vdsMarker := Sample(vdsMarker.x, idMarker);
    }

    /** The cheap path is sound: if the picture agreed with (vgs, vds) and only
        Vds moves, it agrees with the new bias point afterwards. */
    method VdsSliderMoved(vgs: real, vds: real, newVds: real)
      requires Consistent(vgs, vds)
      modifies idVds, this
      ensures Consistent(vgs, newVds)
      ensures idVds[..] == old(idVds[..])
      ensures wL == old(wL) && lambda == old(lambda) && k == old(k)
      ensures ratioText == old(ratioText) && idMax == old(idMax)
    {
      UpdateCharts(vgs, newVds, true);
    }

    /** The Vgs slider path: if the picture agreed with (vgs, vds) and Vgs
        moves, redrawing the Id(Vds) curve and the markers makes it agree with
        the new bias point; the envelope, the boundary and the parameters stay. */
    method VgsSliderMoved(vgs: real, vds: real, newVgs: real)
      requires Consistent(vgs, vds)
      modifies idVds, this
      ensures Consistent(newVgs, vds)
      ensures wL == old(wL) && lambda == old(lambda) && k == old(k)
      ensures ratioText == old(ratioText) && idMax == old(idMax)
    {
      UpdateCharts(newVgs, vds, false);
    }

    /** The remaining load steps after the charts exist: refresh the curves,
        then place the markers. */
    method FinishLoad(vgs: real, vds: real)
      requires Valid()
      modifies envelope, boundary, idVds, this
      ensures Consistent(vgs, vds)
      ensures wL == old(wL) && lambda == old(lambda) && k == old(k)
      ensures ratioText == old(ratioText) && idMax == old(idMax)
    {
      RefreshAllPlots(vgs, vds);
      UpdateCharts(vgs, vds, false);
    }

    /** A selector change: new parameters, all curves refreshed, markers placed. */
    method SelectorChanged(length: int, width: int, vgs: real, vds: real)
      requires Valid()
      modifies envelope, boundary, idVds, this
      ensures Consistent(vgs, vds)
      ensures ParametersAre(length, width)
    {
      UpdatePlotParameters(length, width);
      RefreshAllPlots(vgs, vds);
      UpdateCharts(vgs, vds, false);
    }
  }

  /** The page's load sequence for the selectors' initial positions and the
      sliders' initial bias: the parameter update and the charts (the
      constructor), then refreshing the curves and placing the markers. */
  method LoadPage(length: int, width: int, vgs: real, vds: real) returns (s: PlotState)
    ensures fresh(s) && fresh(s.envelope) && fresh(s.boundary) && fresh(s.idVds)
    ensures s.Consistent(vgs, vds) && s.ParametersAre(length, width)
  {
    s := new PlotState(length, width, vgs, vds);
    s.FinishLoad(vgs, vds);
  }
}
