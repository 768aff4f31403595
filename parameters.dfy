/** The plot parameter table: two binary selectors pick the channel length and
    width, which fix W/L, lambda, the gain factor K and the W/L readout text. */
module Parameters {

  /** Electron mobility [m^2/Vs] and oxide capacitance [F/m^2] of the plots. */
  const MU_N: real := 0.005
  const COX: real := 0.008
  /** The y-axis maximum [mA] of both plots; always reset to this value. */
  const PLOT_IDMAX: real := 0.6

  /** What one call of the parameter update leaves in the plot globals. */
  datatype PlotParams = PlotParams(wL: real, lambda: real, k: real, ratioText: string)

  /** Channel length in units of Lmin: selector 1 is Long (2), anything else Short (1). */
  function LengthUnits(length: int): (l: nat)
    ensures l == 1 || l == 2
    ensures l == 2 <==> length == 1
  {
    if length == 1 then 2 else 1
  }

  /** Channel width in units of Wmin: selector 1 is Wide (2), anything else Narrow (1). */
  function WidthUnits(width: int): (w: nat)
    ensures w == 1 || w == 2
    ensures w == 2 <==> width == 1
  {
    if width == 1 then 2 else 1
  }

  function DigitChar(d: nat): (c: char)
    requires d < 10
    ensures '0' <= c <= '9'
    ensures c as int - '0' as int == d
  {
    (d + '0' as int) as char
  }

  predicate IsDigits(s: string)
  {
    forall i :: 0 <= i < |s| ==> '0' <= s[i] <= '9'
  }

  /** Decimal notation of a natural number, as JavaScript prints an integral Number. */
  function NatToString(n: nat): (s: string)
    ensures |s| >= 1 && IsDigits(s)
    ensures n < 10 <==> |s| == 1
    decreases n
  {
    if n < 10 then [DigitChar(n)] else NatToString(n / 10) + [DigitChar(n % 10)]
  }

  /** The value a string of decimal digits denotes. */
  function DigitsValue(s: string): nat
    requires IsDigits(s)
    decreases |s|
  {
    if |s| == 0 then 0
    else DigitsValue(s[..|s| - 1]) * 10 + (s[|s| - 1] as int - '0' as int)
  }

  /** Reading the decimal notation back gives the number: the notation is exact. */
  lemma {:induction false} NatToStringDenotes(n: nat)
    ensures DigitsValue(NatToString(n)) == n
    decreases n
  {
    var s := NatToString(n);
    if n >= 10 {
      NatToStringDenotes(n / 10);
      assert s[..|s| - 1] == NatToString(n / 10);
    }
  }

  /** Different numbers get different notations. */
  lemma NatToStringInjective(m: nat, n: nat)
    requires NatToString(m) == NatToString(n)
    ensures m == n
  {
    NatToStringDenotes(m);
    NatToStringDenotes(n);
  }

  /** Number.prototype.toFixed(0) for a non-negative value: round half up,
      then print the integer. */
  function Fixed0(x: real): (s: string)
    requires x >= 0.0
    ensures IsDigits(s) && |s| >= 1
  {
    NatToString((x + 0.5).Floor as nat)
  }

  /** toFixed(0) prints the integer nearest to x, halves rounded up. */
  lemma Fixed0Nearest(x: real)
    requires x >= 0.0
    ensures x - 0.5 < DigitsValue(Fixed0(x)) as real <= x + 0.5
  {
    NatToStringDenotes((x + 0.5).Floor as nat);
  }

  /** toFixed(0) prints an integral value exactly. */
  lemma Fixed0OfInteger(n: nat)
    ensures Fixed0(n as real) == NatToString(n)
  {
    assert (n as real + 0.5).Floor == n;
  }

  /** The W/L readout for width w and length l (in units of the minimum size):
      the case table on the ratio w/l. */
  function RatioText(w: nat, l: nat): (r: string)
    requires w > 0 && l > 0
    ensures |r| >= 1
  {
    var ratio := w as real / l as real;
    if ratio == 1.0 then "1"
    else if ratio == 0.5 then "\U{BD}"
    else if ratio == 0.25 then "\U{BC}"
    else if ratio < 1.0 then "1/" + Fixed0(l as real / w as real)
    else Fixed0(ratio)
  }

  /** w/l as a real when l is q times w. */
  lemma RatioOfMultiple(w: nat, l: nat, q: nat)
    requires w > 0 && q > 0 && l == q * w
    ensures w as real / l as real == 1.0 / q as real
  {
    assert l as real == q as real * w as real;
  }

  /** Equal width and length read "1". */
  lemma RatioTextUnit(w: nat, l: nat)
    requires w > 0 && l == w
    ensures RatioText(w, l) == "1"
  {
  }

  /** Half as wide as long reads as the glyph for one half. */
  lemma RatioTextHalf(w: nat, l: nat)
    requires w > 0 && l == 2 * w
    ensures RatioText(w, l) == "\U{BD}"
  {
    RatioOfMultiple(w, l, 2);
  }

  /** A quarter as wide as long reads as the glyph for one quarter. */
  lemma RatioTextQuarter(w: nat, l: nat)
    requires w > 0 && l == 4 * w
    ensures RatioText(w, l) == "\U{BC}"
  {
    RatioOfMultiple(w, l, 4);
  }

  /** An integral ratio q >= 2 reads as the decimal notation of q. */
  lemma RatioTextWhole(w: nat, l: nat, q: nat)
    requires l > 0 && q >= 2 && w == q * l
    ensures RatioText(w, l) == NatToString(q)
  {
    assert w as real == q as real * l as real;
    assert w as real / l as real == q as real;
    Fixed0OfInteger(q);
  }

  /** A reciprocal ratio 1/q with q = 3 or q >= 5 reads "1/q". */
  lemma RatioTextReciprocal(w: nat, l: nat, q: nat)
    requires w > 0 && q >= 3 && q != 4 && l == q * w
    ensures RatioText(w, l) == "1/" + NatToString(q)
  {
    RatioOfMultiple(w, l, q);
    assert 1.0 / q as real < 1.0;
    assert 1.0 / q as real != 0.5 && 1.0 / q as real != 0.25;
    assert l as real == q as real * w as real;
    assert l as real / w as real == q as real;
    Fixed0OfInteger(q);
  }

  /** One parameter update for the Length and Width selectors. */
  function PlotParameters(length: int, width: int): (p: PlotParams)
    ensures p.wL == 10.0 * WidthUnits(width) as real / LengthUnits(length) as real
    ensures p.wL == 5.0 || p.wL == 10.0 || p.wL == 20.0
    ensures p.lambda == 0.01 <==> length == 1
    ensures p.lambda == 0.1 <==> length != 1
    ensures p.k == 0.5 * MU_N * COX * p.wL
    ensures p.k > 0.0
    ensures p.ratioText == RatioText(WidthUnits(width), LengthUnits(length))
  {
    var l := LengthUnits(length);
    var w := WidthUnits(width);
    var wL := 10.0 * (w as real / l as real);
    PlotParams(wL, if length == 1 then 0.01 else 0.1, 0.5 * MU_N * COX * wL, RatioText(w, l))
  }

  /** The readout is "1/2", "1" or "2" exactly when W/L is 0.5, 1 or 2,
      and these are the only readouts the selectors produce. */
  lemma RatioTextMatchesWL(length: int, width: int)
    ensures PlotParameters(length, width).ratioText == "\U{BD}" <==> PlotParameters(length, width).wL == 5.0
    ensures PlotParameters(length, width).ratioText == "1" <==> PlotParameters(length, width).wL == 10.0
    ensures PlotParameters(length, width).ratioText == "2" <==> PlotParameters(length, width).wL == 20.0
  {
    var w, l := WidthUnits(width), LengthUnits(length);
    if w == l {
      RatioTextUnit(w, l);
    } else if l == 2 {
      RatioTextHalf(w, l);
    } else {
      RatioTextWhole(w, l, 2);
      assert NatToString(2) == "2";
    }
  }

  /** The whole table for the four selector combinations. */
  lemma ParameterTable()
    ensures PlotParameters(1, 0) == PlotParams(5.0, 0.01, 0.0001, "\U{BD}")
    ensures PlotParameters(1, 1) == PlotParams(10.0, 0.01, 0.0002, "1")
    ensures PlotParameters(0, 0) == PlotParams(10.0, 0.1, 0.0002, "1")
    ensures PlotParameters(0, 1) == PlotParams(20.0, 0.1, 0.0004, "2")
  {
    RatioTextHalf(1, 2);
    RatioTextWhole(2, 1, 2);
    assert NatToString(2) == "2";
  }

  /** Making the channel long halves K and reduces lambda tenfold. */
  lemma LongChannelHalvesK(width: int)
    ensures PlotParameters(1, width).k * 2.0 == PlotParameters(0, width).k
    ensures PlotParameters(1, width).lambda * 10.0 == PlotParameters(0, width).lambda
  {
  }

  /** Making the channel wide doubles K and leaves lambda unchanged. */
  lemma WideChannelDoublesK(length: int)
    ensures PlotParameters(length, 1).k == 2.0 * PlotParameters(length, 0).k
    ensures PlotParameters(length, 1).lambda == PlotParameters(length, 0).lambda
  {
  }
}
