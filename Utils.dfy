/**
 * The display helpers shared by the metric components: printing a value
 * with its unit, and the colour class and sign shown next to a change.
 */
module Utils {
  import opened Wrappers
  import opened JsValues
  import opened Strings

  /** The units printed after the value. */
  const SuffixUnits: set<string> := {"%", "M", "K"}

  /**
   * `formatNumber`. `show` is the template-literal printing of a number
   * and `showLocale` its `toLocaleString()`; neither is modelled. The
   * suffix units follow the plain print, `$` precedes the locale print,
   * and any other unit, or none, gives the locale print alone.
   */
  function FormatNumber(value: Number, unit: Option<string>, show: Number -> string, showLocale: Number -> string): (r: string)
    ensures unit.Some? && unit.value in SuffixUnits ==>
      EndsWith(r, unit.value) && r[..|r| - |unit.value|] == show(value)
    ensures unit == Some("$") ==> StartsWith(r, "$") && r[1..] == showLocale(value)
    ensures (unit.None? || (unit.value !in SuffixUnits && unit.value != "$")) ==> r == showLocale(value)
  {
    if unit == Some("%") then show(value) + "%"
    else if unit == Some("$") then "$" + showLocale(value)
    else if unit == Some("M") then show(value) + "M"
    else if unit == Some("K") then show(value) + "K"
    else showLocale(value)
  }

  /** The printed value is recovered from the formatted text by removing the unit. */
  lemma FormatNumberUnitRoundTrip(value: Number, u: string, show: Number -> string, showLocale: Number -> string)
    requires u in SuffixUnits
    ensures var r := FormatNumber(value, Some(u), show, showLocale);
      r == show(value) + u && r[..|r| - 1] == show(value)
  {
    var r := FormatNumber(value, Some(u), show, showLocale);
    assert |u| == 1;
    assert r == r[..|r| - 1] + r[|r| - 1..];
  }

  /** A change that `!change` treats as absent: `undefined`, zero or `NaN`. */
  predicate NoChange(change: Option<Number>) {
    change.None? || change.value == Finite(0.0) || change.value.NaN?
  }

  /** `getChangeColor`: green for a rise, red for a fall, muted otherwise. */
  function GetChangeColor(change: Option<Number>): (r: string)
    ensures r == "text-accent-green" <==> change.Some? && IsPositive(change.value)
    ensures r == "text-accent-red" <==> change.Some? && IsNegative(change.value)
    ensures r == "text-muted" <==> NoChange(change)
  {
    if change.None? || !Truthy(Num(change.value)) then "text-muted"
    else if IsPositive(change.value) then "text-accent-green"
    else if IsNegative(change.value) then "text-accent-red"
    else "text-muted"
  }

  /** `getChangeSymbol`: a plus sign for a rise, nothing otherwise (a fall carries its own minus). */
  function GetChangeSymbol(change: Option<Number>): (r: string)
    ensures r == "+" <==> change.Some? && IsPositive(change.value)
    ensures r != "+" ==> r == ""
  {
    if change.None? || !Truthy(Num(change.value)) then ""
    else if IsPositive(change.value) then "+"
    else ""
  }

  /** The sign and the colour agree: a plus sign exactly on green, no sign on red or muted. */
  lemma ChangeSymbolMatchesColor(change: Option<Number>)
    ensures GetChangeSymbol(change) == "+" <==> GetChangeColor(change) == "text-accent-green"
    ensures GetChangeColor(change) != "text-accent-green" ==> GetChangeSymbol(change) == ""
  {
  }

  /** Exactly one of the three colours is chosen for every change. */
  lemma ChangeColorTrichotomy(change: Option<Number>)
    ensures GetChangeColor(change) in {"text-accent-green", "text-accent-red", "text-muted"}
    ensures NoChange(change) || (change.Some? && (IsPositive(change.value) != IsNegative(change.value)))
  {
  }
}
