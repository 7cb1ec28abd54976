/**
 * The validators behind `MapBase.beforeLoad`: each turns the value of one
 * startup query parameter into an override, or into `None` when the value is
 * absent or malformed (which leaves the corresponding field untouched).
 *
 * `getParameterByName` is modelled as a lookup in a map from parameter name to
 * its (already decoded) value; a missing key is JavaScript's `null`.
 * `Number.parseInt` and the truthiness of `Number(s)` are JavaScript built-ins
 * whose internals are not modelled: they are passed in as functions.
 */
module QueryParams {
  import opened Wrappers
  import opened JsBuiltins

  type Query = map<string, string>

  /** `getParameterByName(name)`: the value of the parameter, or `None` for `null`. */
  function GetParameterByName(query: Query, name: string): Option<string>
  {
    if name in query then Some(query[name]) else None
  }

  /** The themes that the `theme` parameter may select. */
  const AllowedThemes: seq<string> := ["default"]

  /** The marker colours that the `c` parameter may select. */
  const Palette: seq<string> := [
    "aquagreen", "beige", "black", "blue", "brown", "cadetblue", "darkblue", "darkgreen", "darkorange", "darkpurple",
    "darkred", "gray", "green", "lightblue", "lightdarkred", "lightgray", "lightgreen", "lightorange", "lightred",
    "orange", "pink", "purple", "red", "white", "yellow"
  ]

  /** The theme override that `theme` requests: its value namespaced under `map.layers.`. */
  function ThemeOverride(theme: Option<string>): (r: Option<string>)
    ensures r.Some? <==> theme == Some("default")
    ensures r.Some? ==> r.value == "map.layers.default"
  {
    if Truthy(theme) && theme.value in AllowedThemes then Some("map.layers." + theme.value) else None
  }

  /**
   * The zoom that `z` requests: `Number.parseInt(z)` when it is a number within
   * `[minZoom, maxZoom]`. An absent `z` is `parseInt(null)`, which is `NaN`.
   */
  function ZoomOverride(z: Option<string>, parseInt: string -> Option<int>, minZoom: int, maxZoom: int): (r: Option<int>)
    ensures r.Some? <==> z.Some? && parseInt(z.value).Some? && minZoom <= parseInt(z.value).value <= maxZoom
    ensures r.Some? ==> minZoom <= r.value <= maxZoom && r == parseInt(z.value)
  {
    var zoom := if z.Some? then parseInt(z.value) else None;
    if zoom.Some? && minZoom <= zoom.value && zoom.value <= maxZoom then zoom else None
  }

  /**
   * The centre that `ft` requests: when the comma-separated parts of `ft`
   * contain exactly two truthy numbers, the first two parts, as raw strings.
   */
  function CenterOverride(ft: Option<string>, isTruthyNumber: string -> bool): (r: Option<(string, string)>)
    ensures r.Some? <==> Truthy(ft) && |Filter(Split(ft.value, ','), isTruthyNumber)| == 2
    ensures r.Some? ==> |Split(ft.value, ',')| >= 2
    ensures r.Some? ==> r.value == (Split(ft.value, ',')[0], Split(ft.value, ',')[1])
    ensures r.Some? ==> ',' !in r.value.0 && ',' !in r.value.1
  {
    if Truthy(ft) then
      var latLng := Split(ft.value, ',');
      if |Filter(latLng, isTruthyNumber)| == 2 then Some((latLng[0], latLng[1])) else None
    else None
  }

  /** The colour override that `c` requests: `c` itself when it is a palette name. */
  function ColorOverride(c: Option<string>): (r: Option<string>)
    ensures r.Some? <==> c.Some? && c.value in Palette
    ensures r.Some? ==> r == c && c.value != ""
  {
    if Truthy(c) && c.value in Palette then c else None
  }

  /** The palette has 25 distinct names, none of them empty. */
  lemma PaletteIsWellFormed()
    ensures |Palette| == 25
    ensures forall i, j :: 0 <= i < j < |Palette| ==> Palette[i] != Palette[j]
    ensures "" !in Palette
  {
  }

  /** A zoom within `[4, 7]` that parses is taken as is; any other value is ignored. */
  lemma ZoomExamples(parseInt: string -> Option<int>, s: string)
    ensures parseInt(s).Some? && 4 <= parseInt(s).value <= 7 ==> ZoomOverride(Some(s), parseInt, 4, 7) == parseInt(s)
    ensures parseInt(s).None? ==> ZoomOverride(Some(s), parseInt, 4, 7).None?
    ensures parseInt(s).Some? && (parseInt(s).value < 4 || 7 < parseInt(s).value) ==> ZoomOverride(Some(s), parseInt, 4, 7).None?
    ensures ZoomOverride(None, parseInt, 4, 7).None?
  {
  }

  /** `ft=10,20` moves the centre to ("10", "20"). */
  lemma CenterAcceptsPair(isTruthyNumber: string -> bool)
    requires isTruthyNumber("10") && isTruthyNumber("20")
    ensures CenterOverride(Some("10,20"), isTruthyNumber) == Some(("10", "20"))
  {
    SplitJoin(["10", "20"], ',');
    assert Join(["10", "20"], ',') == "10,20";
    assert Filter(["10", "20"], isTruthyNumber) == ["10", "20"];
  }

  /** `ft=10` has one part only, so the centre is kept. */
  lemma CenterRejectsSingle(isTruthyNumber: string -> bool)
    ensures CenterOverride(Some("10"), isTruthyNumber).None?
  {
  }

  /** `ft=a,b` and `ft=0,5` have fewer than two truthy numbers, so the centre is kept. */
  lemma CenterRejectsNonNumbers(isTruthyNumber: string -> bool)
    requires !isTruthyNumber("a") && !isTruthyNumber("0")
    ensures CenterOverride(Some("a,b"), isTruthyNumber).None?
    ensures CenterOverride(Some("0,5"), isTruthyNumber).None?
  {
    SplitJoin(["a", "b"], ',');
    assert Join(["a", "b"], ',') == "a,b";
    SplitJoin(["0", "5"], ',');
    assert Join(["0", "5"], ',') == "0,5";
  }

  /**
   * Two truthy numbers among three parts are enough, and the centre then takes
   * the first two RAW parts: `ft=a,5,6` gives ("a", "5").
   */
  lemma CenterTakesFirstTwoRawParts(isTruthyNumber: string -> bool)
    requires !isTruthyNumber("a") && isTruthyNumber("5") && isTruthyNumber("6")
    ensures CenterOverride(Some("a,5,6"), isTruthyNumber) == Some(("a", "5"))
  {
    SplitJoin(["a", "5", "6"], ',');
    assert Join(["a", "5", "6"], ',') == "a,5,6";
    assert Filter(["a", "5", "6"], isTruthyNumber) == ["5", "6"];
  }

  /** `c=blue` is accepted; `c=neonpink` and `c=` are not. */
  lemma ColorExamples()
    ensures ColorOverride(Some("blue")) == Some("blue")
    ensures ColorOverride(Some("neonpink")).None?
    ensures ColorOverride(Some("")).None?
    ensures ColorOverride(None).None?
  {
    assert Palette[3] == "blue";
    assert forall k :: 0 <= k < |Palette| ==> Palette[k][0] != 'n';
  }
}
