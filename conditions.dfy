/**
 * The weather condition derived from a Celsius temperature: the decision
 * table in `WeatherData.setMeasurements` (strict `>` on 25, 15 and 0) and
 * the one-line rendering of each condition state.
 */
module Conditions {

  datatype Condition = Sunny | Cloudy | Rainy | Snowy

  /** The four tiers; a boundary value (25, 15 or 0) falls into the lower tier. */
  function Classify(t: real): (c: Condition)
    ensures c == Sunny <==> t > 25.0
    ensures c == Cloudy <==> 15.0 < t <= 25.0
    ensures c == Rainy <==> 0.0 < t <= 15.0
    ensures c == Snowy <==> t <= 0.0
  {
    if t > 25.0 then Sunny
    else if t > 15.0 then Cloudy
    else if t > 0.0 then Rainy
    else Snowy
  }

  /** Conditions ordered from coldest to warmest. */
  function Warmth(c: Condition): nat
  {
    match c
    case Snowy => 0
    case Rainy => 1
    case Cloudy => 2
    case Sunny => 3
  }

  /** A warmer temperature never gives a colder condition. */
  lemma ClassifyMonotone(t1: real, t2: real)
    requires t1 <= t2
    ensures Warmth(Classify(t1)) <= Warmth(Classify(t2))
  {
  }

  /** One row of a top-down decision table: `result` applies above `above` (exclusive). */
  datatype Tier = Tier(above: real, result: Condition)

  /** The same decision written as an ordered table, with Snowy as the fallback. */
  const Tiers: seq<Tier> := [Tier(25.0, Sunny), Tier(15.0, Cloudy), Tier(0.0, Rainy)]

  /** The first tier whose bound `t` exceeds, or `fallback` when none does. */
  function Lookup(tiers: seq<Tier>, fallback: Condition, t: real): (c: Condition)
    ensures c == fallback || exists i :: 0 <= i < |tiers| && tiers[i].result == c && t > tiers[i].above
  {
    if tiers == [] then fallback
    else if t > tiers[0].above then tiers[0].result
    else Lookup(tiers[1..], fallback, t)
  }

  /** The if-chain and the table agree on every temperature. */
  lemma ClassifyIsTableLookup(t: real)
    ensures Classify(t) == Lookup(Tiers, Snowy, t)
  {
    var rest1, rest2 := [Tier(15.0, Cloudy), Tier(0.0, Rainy)], [Tier(0.0, Rainy)];
    assert Tiers[1..] == rest1 && rest1[1..] == rest2 && rest2[1..] == [];
    assert Lookup(rest2, Snowy, t) == if t > 0.0 then Rainy else Snowy;
    assert Lookup(rest1, Snowy, t) == if t > 15.0 then Cloudy else Lookup(rest2, Snowy, t);
  }

  /** The line each condition state prints. */
  function Render(c: Condition): (line: string)
    ensures |line| > 9 && line[..9] == "Weather: "
  {
    match c
    case Sunny => "Weather: Sunny"
    case Cloudy => "Weather: Cloudy"
    case Rainy => "Weather: Rainy"
    case Snowy => "Weather: Snowy"
  }

  /** Distinct conditions print distinct lines. */
  lemma RenderInjective(c1: Condition, c2: Condition)
    requires Render(c1) == Render(c2)
    ensures c1 == c2
  {
  }
}
