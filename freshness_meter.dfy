/** The freshness meter: a progress bar and a label whose value, colour and wording follow from
    how current a term is. */
module FreshnessMeter {
  import opened Text
  import opened SlangTypes

  /** What the meter shows for one freshness level. */
  datatype MeterConfig = MeterConfig(value: nat, color: string, caption: string, tooltip: string)

  /** The meter reading of each level, out of 100. */
  function Value(f: Freshness): (v: nat)
    ensures 0 <= v <= 100
  {
    match f
    case Fresh => 100
    case Established => 75
    case Waning => 50
    case Cringe => 25
    case Dead => 10
  }

  /** The background class of each level. */
  function Color(f: Freshness): string {
    match f
    case Fresh => "bg-green-500"
    case Established => "bg-blue-500"
    case Waning => "bg-yellow-500"
    case Cringe => "bg-orange-500"
    case Dead => "bg-red-500"
  }

  /** The label of each level. */
  function Caption(f: Freshness): string {
    match f
    case Fresh => "\U{1F525} Fresh"
    case Established => "\U{2705} Established"
    case Waning => "\U{1F4C9} Waning"
    case Cringe => "\U{1F62C} Cringe"
    case Dead => "\U{1F480} Dead"
  }

  /** The tooltip of each level. */
  function Tooltip(f: Freshness): string {
    match f
    case Fresh => "Hot off the press! Currently trending."
    case Established => "Widely known and used."
    case Waning => "Losing popularity, use with caution."
    case Cringe => "Generally considered outdated or embarrassing."
    case Dead => "Avoid using this term unless ironically."
  }

  /** The configuration table, one row per freshness level, read column by column. */
  function Config(f: Freshness): (c: MeterConfig)
    ensures 0 <= c.value <= 100
  {
    MeterConfig(Value(f), Color(f), Caption(f), Tooltip(f))
  }

  /** How far a level is from fresh: the order in which the levels are declared. */
  function Age(f: Freshness): (a: nat)
    ensures a < 5
  {
    match f
    case Fresh => 0
    case Established => 1
    case Waning => 2
    case Cringe => 3
    case Dead => 4
  }

  /** The meter falls strictly as a term ages, and two levels never share a value. */
  lemma ValueFallsWithAge(f: Freshness, g: Freshness)
    ensures Age(f) < Age(g) <==> Value(f) > Value(g)
  {
  }

  /** The colour name inside a background class: the first `bg-` and then the first `-500`
      removed. */
  function Hue(color: string): (h: string)
    ensures |h| <= |color|
  {
    ReplaceFirst(ReplaceFirst(color, "bg-", ""), "-500", "")
  }

  /** The label's classes: the hue at shade 600, and at shade 400 in dark mode. */
  function TextClasses(color: string): (r: string)
    ensures StartsWith(r, "text-")
  {
    "text-" + Hue(color) + "-600 dark:text-" + Hue(color) + "-400"
  }

  /** Removing the first `bg-` from `bg-<rest>` leaves `rest`. */
  lemma DropBackgroundPrefix(rest: string)
    ensures ReplaceFirst("bg-" + rest, "bg-", "") == rest
  {
    var color := "bg-" + rest;
    IncludesAt(color, "bg-", 0);
    assert color[3..] == rest;
  }

  /** Removing the first `-500` from `<hue>-500` leaves `hue` when the hue has no dash. */
  lemma DropShadeSuffix(hue: string)
    requires forall i :: 0 <= i < |hue| ==> hue[i] != '-'
    ensures ReplaceFirst(hue + "-500", "-500", "") == hue
  {
    var rest := hue + "-500";
    IncludesAt(rest, "-500", |hue|);
    var k := IndexOf(rest, "-500").value;
    assert rest[k] == rest[k..k + 4][0] == '-';
    assert forall j :: 0 <= j < |hue| ==> rest[j] == hue[j];
    assert k == |hue|;
    var h := ReplaceFirst(rest, "-500", "");
    assert h[..k] == rest[..k] == hue;
  }

  /** For a background class `bg-<hue>-500` whose hue has no dash, the hue comes back out. */
  lemma HueOfBackground(hue: string)
    requires forall i :: 0 <= i < |hue| ==> hue[i] != '-'
    ensures Hue("bg-" + hue + "-500") == hue
  {
    assert "bg-" + hue + "-500" == "bg-" + (hue + "-500");
    DropBackgroundPrefix(hue + "-500");
    DropShadeSuffix(hue);
  }

  /** The label classes for a background class `bg-<hue>-500`: `text-<hue>-600` and
      `dark:text-<hue>-400`. */
  lemma TextClassesOfBackground(hue: string)
    requires forall i :: 0 <= i < |hue| ==> hue[i] != '-'
    ensures TextClasses("bg-" + hue + "-500") == "text-" + hue + "-600 dark:text-" + hue + "-400"
  {
    HueOfBackground(hue);
  }

  /** The hue each level is drawn in. */
  function ConfigHue(f: Freshness): string {
    match f
    case Fresh => "green"
    case Established => "blue"
    case Waning => "yellow"
    case Cringe => "orange"
    case Dead => "red"
  }

  /** Every row's colour is a shade-500 background class, so its label classes are the shade-600
      and dark-mode shade-400 text classes of the same hue. */
  lemma ConfigTextClasses(f: Freshness)
    ensures Color(f) == "bg-" + ConfigHue(f) + "-500"
    ensures TextClasses(Color(f)) ==
      "text-" + ConfigHue(f) + "-600 dark:text-" + ConfigHue(f) + "-400"
  {
    match f {
      case Fresh => assert "bg-green-500" == "bg-" + "green" + "-500";
      case Established => assert "bg-blue-500" == "bg-" + "blue" + "-500";
      case Waning => assert "bg-yellow-500" == "bg-" + "yellow" + "-500";
      case Cringe => assert "bg-orange-500" == "bg-" + "orange" + "-500";
      case Dead => assert "bg-red-500" == "bg-" + "red" + "-500";
    }
    TextClassesOfBackground(ConfigHue(f));
  }
}
