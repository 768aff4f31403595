/** The closed-form long-channel MOSFET model: operating region and drain current.
    Voltages are in volts and currents in amperes; the plots scale by 1000 later. */
module Device {

  /** Threshold voltage. The region label uses VTH and the current equation
      uses Plot_Vth, which is initialised to VTH and never reassigned. */
  const VTH: real := 0.5
  const VGS_MAX: real := 3.0
  const VDS_MAX: real := 3.0

  datatype Region = Cutoff | Linear | Saturation

  /** The two globals the current equation reads: the gain factor K and the
      channel-length modulation coefficient lambda. */
  datatype Electrical = Electrical(k: real, lambda: real)

  /** Overdrive voltage Vov = max(0, Vgs - VTH), which is also Vdsat. */
  function Overdrive(vgs: real): (vov: real)
    ensures vov >= 0.0
    ensures vov == 0.0 <==> vgs <= VTH
    ensures vgs > VTH ==> vov == vgs - VTH
  {
    if vgs - VTH > 0.0 then vgs - VTH else 0.0
  }

  /** The operating-region label shown beside the cross-section.
      Note the strict comparison: at Vds == Vgs - VTH the label says Saturation. */
  function RegionOf(vgs: real, vds: real): (r: Region)
    ensures r == Cutoff <==> vgs <= VTH
    ensures r == Linear <==> vgs > VTH && vds < vgs - VTH
    ensures r == Saturation <==> vgs > VTH && vds >= vgs - VTH
  {
    if vgs <= VTH then Cutoff
    else if vds < vgs - VTH then Linear
    else Saturation
  }

  /** Current of the triode (linear) branch for overdrive vov: a parabola in
      Vds with its vertex, the onset current, at Vds = vov. */
  function LinearCurrent(k: real, vov: real, vds: real): (lc: real)
    ensures lc == OnsetCurrent(k, vov) - 0.5 * k * ((vov - vds) * (vov - vds))
    ensures vds == 0.0 ==> lc == 0.0
  {
    k * (vov * vds - 0.5 * vds * vds)
  }

  /** Current at the onset of saturation, 0.5*K*Vov^2; it is also the
      saturation envelope of the left plot. */
  function OnsetCurrent(k: real, vov: real): (oc: real)
    ensures vov == 0.0 ==> oc == 0.0
    ensures k >= 0.0 ==> oc >= 0.0
  {
    assert vov * vov >= 0.0;
    0.5 * k * vov * vov
  }

  /** Current of the saturation branch: the onset current scaled by the
      channel-length modulation factor 1 + lambda*(Vds - Vdsat). */
  function SaturationCurrent(e: Electrical, vov: real, vds: real): (sc: real)
    ensures vds == vov ==> sc == OnsetCurrent(e.k, vov)
    ensures e.lambda == 0.0 ==> sc == OnsetCurrent(e.k, vov)
  {
    OnsetCurrent(e.k, vov) * (1.0 + e.lambda * (vds - vov))
  }

  /** Drain current Id(Vgs, Vds). The branch test is Vds <= Vdsat (non-strict). */
  function DrainCurrent(e: Electrical, vgs: real, vds: real): (id: real)
    ensures vgs <= VTH ==> id == 0.0
    ensures vgs > VTH && vds <= vgs - VTH ==> id == LinearCurrent(e.k, vgs - VTH, vds)
    ensures vgs > VTH && vds > vgs - VTH ==> id == SaturationCurrent(e, vgs - VTH, vds)
  {
    if vgs <= VTH then 0.0
    else
      var vdsat := vgs - VTH;
      if vds <= vdsat then LinearCurrent(e.k, vgs - VTH, vds)
      else SaturationCurrent(e, vgs - VTH, vds)
  }

  /** At Vds == Vdsat both branches give the onset current 0.5*K*Vov^2. */
  lemma BranchesMeetAtVdsat(e: Electrical, vov: real)
    ensures LinearCurrent(e.k, vov, vov) == OnsetCurrent(e.k, vov)
    ensures SaturationCurrent(e, vov, vov) == OnsetCurrent(e.k, vov)
  {
  }

  /** The label and the current equation disagree on which branch owns the
      boundary Vds == Vdsat (label: Saturation, Id: linear formula), but there
      the two formulas give the same value, so the label always names a branch
      whose formula yields Id. */
  lemma RegionAgreesWithCurrent(e: Electrical, vgs: real, vds: real)
    ensures RegionOf(vgs, vds) == Cutoff ==> DrainCurrent(e, vgs, vds) == 0.0
    ensures RegionOf(vgs, vds) == Linear ==>
      DrainCurrent(e, vgs, vds) == LinearCurrent(e.k, vgs - VTH, vds)
    ensures RegionOf(vgs, vds) == Saturation ==>
      DrainCurrent(e, vgs, vds) == SaturationCurrent(e, vgs - VTH, vds)
  {
    if RegionOf(vgs, vds) == Saturation && vds == vgs - VTH {
      BranchesMeetAtVdsat(e, vgs - VTH);
    }
  }

  /** A product of two reals, kept as a function so that the solver treats
      each product it is applied to as one opaque term. */
  function Mul(x: real, y: real): real
  {
    x * y
  }

  lemma MulPositive(x: real, y: real)
    requires x > 0.0 && y > 0.0
    ensures Mul(x, y) > 0.0
  {
  }

  lemma MulNonNegative(x: real, y: real)
    requires x >= 0.0 && y >= 0.0
    ensures Mul(x, y) >= 0.0
  {
  }

  /** The onset current is positive for K > 0 and Vov > 0. */
  lemma OnsetPositive(k: real, vov: real)
    requires k > 0.0 && vov > 0.0
    ensures OnsetCurrent(k, vov) > 0.0
  {
    MulPositive(vov, vov);
    MulPositive(0.5 * k, Mul(vov, vov));
    assert OnsetCurrent(k, vov) == Mul(0.5 * k, Mul(vov, vov));
  }

  /** The onset current grows with the overdrive for K >= 0. */
  lemma OnsetMonotone(k: real, a: real, b: real)
    requires k >= 0.0 && 0.0 <= a <= b
    ensures OnsetCurrent(k, a) <= OnsetCurrent(k, b)
  {
    assert OnsetCurrent(k, b) - OnsetCurrent(k, a) == 0.5 * k * ((b - a) * (b + a));
    assert (b - a) * (b + a) >= 0.0;
  }

  /** In the linear branch the current never exceeds its value at Vdsat. */
  lemma LinearBelowOnset(k: real, vov: real, vds: real)
    requires k >= 0.0
    ensures LinearCurrent(k, vov, vds) <= OnsetCurrent(k, vov)
  {
    assert OnsetCurrent(k, vov) - LinearCurrent(k, vov, vds) == 0.5 * k * ((vov - vds) * (vov - vds));
    assert (vov - vds) * (vov - vds) >= 0.0;
  }

  /** The linear branch is non-negative between 0 and Vdsat. */
  lemma LinearNonNegative(k: real, vov: real, vds: real)
    requires k >= 0.0 && 0.0 <= vds <= vov
    ensures LinearCurrent(k, vov, vds) >= 0.0
  {
    assert LinearCurrent(k, vov, vds) == k * (vds * (vov - 0.5 * vds));
    assert vds * (vov - 0.5 * vds) >= 0.0;
  }

  /** The sign of the linear branch's increment from a to b. */
  lemma LinearIncrementPositive(k: real, vov: real, a: real, b: real)
    requires k > 0.0 && a < b <= vov
    ensures k * ((b - a) * (vov - 0.5 * (a + b))) > 0.0
  {
    assert vov - 0.5 * (a + b) > 0.0;
    assert (b - a) * (vov - 0.5 * (a + b)) > 0.0;
  }

  /** The linear branch is strictly increasing up to its vertex at Vdsat. */
  lemma LinearIncreasing(k: real, vov: real, a: real, b: real)
    requires k > 0.0 && a < b <= vov
    ensures LinearCurrent(k, vov, a) < LinearCurrent(k, vov, b)
  {
    assert LinearCurrent(k, vov, b) - LinearCurrent(k, vov, a)
        == k * ((b - a) * (vov - 0.5 * (a + b)));
    LinearIncrementPositive(k, vov, a, b);
  }

  /** The saturation branch rises by the onset current times lambda*(b - a). */
  lemma SaturationIncrement(e: Electrical, vov: real, a: real, b: real)
    ensures SaturationCurrent(e, vov, b) - SaturationCurrent(e, vov, a)
         == Mul(OnsetCurrent(e.k, vov), e.lambda * (b - a))
  {
  }

  /** The saturation branch is non-decreasing in Vds when lambda >= 0. */
  lemma SaturationNonDecreasing(e: Electrical, vov: real, a: real, b: real)
    requires e.k >= 0.0 && e.lambda >= 0.0 && a <= b
    ensures SaturationCurrent(e, vov, a) <= SaturationCurrent(e, vov, b)
  {
    SaturationIncrement(e, vov, a, b);
    MulNonNegative(OnsetCurrent(e.k, vov), e.lambda * (b - a));
  }

  /** The saturation branch is strictly increasing in Vds when lambda > 0. */
  lemma SaturationIncreasing(e: Electrical, vov: real, a: real, b: real)
    requires e.k > 0.0 && e.lambda > 0.0 && vov > 0.0 && a < b
    ensures SaturationCurrent(e, vov, a) < SaturationCurrent(e, vov, b)
  {
    SaturationIncrement(e, vov, a, b);
    OnsetPositive(e.k, vov);
    MulPositive(OnsetCurrent(e.k, vov), e.lambda * (b - a));
  }

  /** The current is never negative for K > 0, lambda >= 0 and Vds >= 0. */
  lemma DrainCurrentNonNegative(e: Electrical, vgs: real, vds: real)
    requires e.k > 0.0 && e.lambda >= 0.0 && vds >= 0.0
    ensures DrainCurrent(e, vgs, vds) >= 0.0
  {
    if vgs > VTH {
      if vds <= vgs - VTH {
        LinearNonNegative(e.k, vgs - VTH, vds);
      } else {
        SaturationNonDecreasing(e, vgs - VTH, vgs - VTH, vds);
        BranchesMeetAtVdsat(e, vgs - VTH);
      }
    }
  }

  /** Strictly increasing in Vds in the linear branch, up to and including Vdsat. */
  lemma LinearStrictlyIncreasing(e: Electrical, vgs: real, a: real, b: real)
    requires e.k > 0.0 && vgs > VTH
    requires a < b <= vgs - VTH
    ensures DrainCurrent(e, vgs, a) < DrainCurrent(e, vgs, b)
  {
    LinearIncreasing(e.k, vgs - VTH, a, b);
  }

  /** Strictly increasing in Vds beyond Vdsat when lambda > 0. */
  lemma SaturationStrictlyIncreasing(e: Electrical, vgs: real, a: real, b: real)
    requires e.k > 0.0 && e.lambda > 0.0 && vgs > VTH
    requires vgs - VTH < a < b
    ensures DrainCurrent(e, vgs, a) < DrainCurrent(e, vgs, b)
  {
    SaturationIncreasing(e, vgs - VTH, a, b);
  }

  /** For fixed Vgs the current is non-decreasing in Vds over the whole axis
      when lambda >= 0 (within both branches and across the boundary). */
  lemma DrainCurrentMonotone(e: Electrical, vgs: real, a: real, b: real)
    requires e.k > 0.0 && e.lambda >= 0.0
    requires a <= b
    ensures DrainCurrent(e, vgs, a) <= DrainCurrent(e, vgs, b)
  {
    if vgs > VTH && a < b {
      if b <= vgs - VTH {
        LinearIncreasing(e.k, vgs - VTH, a, b);
      } else if a > vgs - VTH {
        SaturationNonDecreasing(e, vgs - VTH, a, b);
      } else {
        LinearBelowOnset(e.k, vgs - VTH, a);
        SaturationNonDecreasing(e, vgs - VTH, vgs - VTH, b);
        BranchesMeetAtVdsat(e, vgs - VTH);
      }
    }
  }

  /** Scenario: Vgs at threshold is cut off whatever Vds is. */
  lemma ScenarioCutoff(e: Electrical)
    ensures RegionOf(0.5, 1.0) == Cutoff && DrainCurrent(e, 0.5, 1.0) == 0.0
  {
  }

  /** Scenario: Vgs = 1.5, Vds = 0.3 is linear with Id = K*(1.0*0.3 - 0.5*0.09). */
  lemma ScenarioLinear(e: Electrical)
    ensures RegionOf(1.5, 0.3) == Linear
    ensures DrainCurrent(e, 1.5, 0.3) == e.k * (1.0 * 0.3 - 0.5 * 0.09)
  {
    assert Overdrive(1.5) == 1.0;
    assert DrainCurrent(e, 1.5, 0.3) == LinearCurrent(e.k, 1.0, 0.3);
  }

  /** Scenario: Vgs = 1.5, Vds = 2.0 is saturated with Id = 0.5*K*1.0^2*(1 + lambda*1.0). */
  lemma ScenarioSaturation(e: Electrical)
    ensures RegionOf(1.5, 2.0) == Saturation
    ensures DrainCurrent(e, 1.5, 2.0) == 0.5 * e.k * 1.0 * (1.0 + e.lambda * 1.0)
  {
  }
}
