/**
 * The display rules of app/components/ConfidenceIndicator.tsx: the label of
 * each confidence level and the consensus-strength bar (clamp to [0, 100],
 * then a colour band).
 */
module ConfidenceDisplay {
  import opened Types
  import opened Text

  datatype Colour = Green | Amber | Red

  /** The label shown for each level. */
  function LevelLabel(c: ConfidenceLevel): string {
    match c
    case High => "HIGH"
    case Medium => "MEDIUM"
    case Low => "LOW"
  }

  /** The colour shown for each level, from the same three bands as the strength bar. */
  function LevelColour(c: ConfidenceLevel): Colour {
    match c
    case High => Green
    case Medium => Amber
    case Low => Red
  }

  /**
   * Distinct levels show distinct colours; a level's colour is the bar's
   * colour at any strength in the band that level names.
   */
  lemma LevelColourBands(c: ConfidenceLevel, strength: real)
    ensures forall d: ConfidenceLevel :: LevelColour(d) == LevelColour(c) ==> d == c
    ensures LevelColour(c) == BarColour(strength) <==>
      match c
      case High => strength >= 80.0
      case Medium => 50.0 <= strength < 80.0
      case Low => strength < 50.0
  {
    BarColourBands(strength);
  }

  /** Each label is its level's name in capitals, so distinct levels show distinct labels. */
  lemma LevelLabelIsUpperName(c: ConfidenceLevel)
    ensures LevelLabel(c) == ToUpper(ConfidenceName(c))
    ensures forall d: ConfidenceLevel :: LevelLabel(d) == LevelLabel(c) ==> d == c
  {
    var name := ConfidenceName(c);
    var upper := ToUpper(name);
    assert |upper| == |name|;
    match c
    case High => assert upper == ['H', 'I', 'G', 'H'];
    case Medium => assert upper == ['M', 'E', 'D', 'I', 'U', 'M'];
    case Low => assert upper == ['L', 'O', 'W'];
  }

  /** `Math.max(0, Math.min(100, strength))`. */
  function ClampStrength(strength: real): (r: real)
    ensures 0.0 <= r <= 100.0
    ensures 0.0 <= strength <= 100.0 ==> r == strength
    ensures strength < 0.0 ==> r == 0.0
    ensures strength > 100.0 ==> r == 100.0
  {
    var upperBounded := if strength < 100.0 then strength else 100.0;
    if 0.0 > upperBounded then 0.0 else upperBounded
  }

  lemma ClampIdempotent(strength: real)
    ensures ClampStrength(ClampStrength(strength)) == ClampStrength(strength)
  {
  }

  /** Clamping never reorders two strengths. */
  lemma ClampMonotone(a: real, b: real)
    requires a <= b
    ensures ClampStrength(a) <= ClampStrength(b)
  {
  }

  /** `getBarColor` on an already clamped strength. */
  function BandColour(clamped: real): Colour {
    if clamped >= 80.0 then Green
    else if clamped >= 50.0 then Amber
    else Red
  }

  /** The bar's colour for a raw strength. */
  function BarColour(strength: real): Colour {
    BandColour(ClampStrength(strength))
  }

  /** Green from 80 up (above 100 too), amber from 50 below 80, red below 50 (negatives too). */
  lemma BarColourBands(strength: real)
    ensures BarColour(strength) == Green <==> strength >= 80.0
    ensures BarColour(strength) == Amber <==> 50.0 <= strength < 80.0
    ensures BarColour(strength) == Red <==> strength < 50.0
  {
  }
}
