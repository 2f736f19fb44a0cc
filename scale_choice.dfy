/**
 * The scale choice made by `TemperatureDecorator.display`: the scale name
 * is compared with "Celsius", "Fahrenheit" and "Kelvin" ignoring case, in
 * that order, and anything else falls back to Celsius with a notice.
 */
module ScaleChoice {
  import opened Units

  /**
   * Case folding as `String.equalsIgnoreCase` applies it to one character
   * (upper-case, then lower-case). Exact for ASCII and for the four other
   * characters that fold onto an ASCII letter: dotted capital I, dotless
   * small i, long s and the Kelvin sign; every other character is left as
   * it is.
   */
  function FoldCase(c: char): char
  {
    if 'A' <= c <= 'Z' then (c as int + 32) as char
    else if c == '\U{0130}' || c == '\U{0131}' then 'i'
    else if c == '\U{017F}' then 's'
    else if c == '\U{212A}' then 'k'
    else c
  }

  /** `a.equalsIgnoreCase(b)`: same length and the same characters after folding. */
  predicate EqualsIgnoreCase(a: string, b: string)
    ensures a == b ==> EqualsIgnoreCase(a, b)
    ensures EqualsIgnoreCase(a, b) ==> |a| == |b|
  {
    |a| == |b| && forall i :: 0 <= i < |a| ==> FoldCase(a[i]) == FoldCase(b[i])
  }

  /** Matching ignoring case is symmetric. */
  lemma EqualsIgnoreCaseSymmetric(a: string, b: string)
    ensures EqualsIgnoreCase(a, b) == EqualsIgnoreCase(b, a)
  {
  }

  /** What the decorator prints with: the scale read, its unit label and whether the name was recognised. */
  datatype Selection = Selection(scale: Scale, unit: string, recognised: bool)

  /** The unit label printed after a reading on each scale. */
  function Unit(s: Scale): string
  {
    match s
    case Celsius => "\U{B0}C"
    case Fahrenheit => "\U{B0}F"
    case Kelvin => "K"
  }

  /**
   * A name matching one of the three scales ignoring case selects that
   * scale; any other name selects Celsius and is reported as invalid.
   */
  function SelectScale(name: string): (sel: Selection)
    ensures sel.unit == Unit(sel.scale)
    ensures sel.recognised ==> EqualsIgnoreCase(name, Name(sel.scale))
    ensures !sel.recognised <==> forall s :: !EqualsIgnoreCase(name, Name(s))
    ensures !sel.recognised ==> sel.scale == Celsius
  {
    if EqualsIgnoreCase(name, "Celsius") then Selection(Celsius, "\U{B0}C", true)
    else if EqualsIgnoreCase(name, "Fahrenheit") then Selection(Fahrenheit, "\U{B0}F", true)
    else if EqualsIgnoreCase(name, "Kelvin") then Selection(Kelvin, "K", true)
    else Selection(Celsius, "\U{B0}C", false)
  }

  /** Two names that are equal ignoring case select the same scale. */
  lemma SelectScaleIgnoresCase(a: string, b: string)
    requires EqualsIgnoreCase(a, b)
    ensures SelectScale(a) == SelectScale(b)
  {
  }

  /** Every scale's own name, in any letter case, selects that scale. */
  lemma SelectScaleOfName(s: Scale, name: string)
    requires EqualsIgnoreCase(name, Name(s))
    ensures SelectScale(name) == Selection(s, Unit(s), true)
  {
  }

  /** The scale choice is not the converter's: "fahrenheit" selects Fahrenheit here. */
  lemma LowerCaseNameSelects()
    ensures SelectScale("fahrenheit") == Selection(Fahrenheit, Unit(Fahrenheit), true)
  {
  }
}
