/** The chart container's helpers: the `<style>` text that declares one CSS
    colour variable per configured series for the light and the dark
    theme, the container's `data-chart` id, and the guards and key lookup
    of the tooltip and the legend. */
module Chart {
  import opened Optional
  import opened Text
  import opened Values

  datatype Theme = Light | Dark

  /** `THEMES`, in the order `Object.entries` lists them. */
  const Themes: seq<Theme> := [Light, Dark]

  /** The selector prefix of a theme. */
  function Prefix(t: Theme): (p: string)
    ensures t == Light <==> p == []
  {
    match t
    case Light => ""
    case Dark => ".dark"
  }

  /** A series' colours: one for both themes, or one per theme. An absent
      colour is the empty string, which is falsy as `undefined` is. */
  datatype ThemeColors = ThemeColors(light: string, dark: string)
  datatype SeriesConfig = SeriesConfig(color: string, theme: Option<ThemeColors>)

  /** The config's entries, in the order `Object.entries` lists them. */
  type ChartConfig = seq<(string, SeriesConfig)>

  /** `v.theme || v.color` */
  predicate Colored(v: SeriesConfig) {
    v.theme.Some? || v.color != []
  }

  /** The entries with a theme or a colour, in order. */
  function ColoredEntries(config: ChartConfig): ChartConfig {
    if config == [] then []
    else (if Colored(config[0].1) then [config[0]] else []) + ColoredEntries(config[1..])
  }

  /** The filter keeps exactly the entries with a theme or a colour, and
      is empty only when no entry has one. */
  lemma {:induction false} ColoredEntriesMembers(config: ChartConfig)
    ensures forall e :: e in ColoredEntries(config) <==> e in config && Colored(e.1)
    ensures ColoredEntries(config) == [] <==> forall i :: 0 <= i < |config| ==> !Colored(config[i].1)
  {
    if config != [] {
      ColoredEntriesMembers(config[1..]);
      assert forall e :: e in config <==> e == config[0] || e in config[1..];
      assert forall i :: 0 < i < |config| ==> config[i] == config[1..][i - 1];
    }
  }

  /** The filter keeps the order of the entries: those of `a + b` are the
      kept entries of `a` followed by those of `b`. */
  lemma {:induction false} ColoredEntriesAppend(a: ChartConfig, b: ChartConfig)
    ensures ColoredEntries(a + b) == ColoredEntries(a) + ColoredEntries(b)
  {
    if a == [] {
      assert a + b == b;
    } else {
      var head := if Colored(a[0].1) then [a[0]] else [];
      assert (a + b)[0] == a[0] && (a + b)[1..] == a[1..] + b;
      assert ColoredEntries(a + b) == head + ColoredEntries(a[1..] + b);
      assert ColoredEntries(a) == head + ColoredEntries(a[1..]);
      ColoredEntriesAppend(a[1..], b);
      assert head + (ColoredEntries(a[1..]) + ColoredEntries(b)) == (head + ColoredEntries(a[1..])) + ColoredEntries(b);
    }
  }

  /** A single entry is kept exactly when it has a theme or a colour. */
  lemma ColoredEntriesOne(key: string, v: SeriesConfig)
    ensures ColoredEntries([(key, v)]) == if Colored(v) then [(key, v)] else []
  {
    assert [(key, v)][1..] == [];
  }

  /** `v.theme?.[theme] || v.color` */
  function ColorFor(v: SeriesConfig, t: Theme): (c: string)
    ensures v.theme.Some? && (if t == Light then v.theme.value.light else v.theme.value.dark) != [] ==>
              c == (if t == Light then v.theme.value.light else v.theme.value.dark)
    ensures v.theme.None? || (if t == Light then v.theme.value.light else v.theme.value.dark) == [] ==> c == v.color
  {
    var themed := if v.theme.None? then "" else if t == Light then v.theme.value.light else v.theme.value.dark;
    if themed != [] then themed else v.color
  }

  /** One series' line: its declaration, or an empty line when it has no
      colour for the theme. */
  function Declaration(key: string, v: SeriesConfig, t: Theme): (line: string)
    ensures ColorFor(v, t) == [] <==> line == []
  {
    var c := ColorFor(v, t);
    if c != [] then "  --color-" + key + ": " + c + ";" else ""
  }

  function Declarations(colored: ChartConfig, t: Theme): (lines: seq<string>)
    ensures |lines| == |colored|
    ensures forall i :: 0 <= i < |colored| ==> lines[i] == Declaration(colored[i].0, colored[i].1, t)
  {
    if colored == [] then []
    else [Declaration(colored[0].0, colored[0].1, t)] + Declarations(colored[1..], t)
  }

  /** The header of a theme's rule. */
  function Header(t: Theme, id: string): string {
    "\n" + Prefix(t) + " [data-chart=" + id + "] {\n"
  }

  /** A theme's block: the header, the lines joined by newlines, and the
      closing brace only when the joined lines are not empty. */
  function Block(t: Theme, id: string, colored: ChartConfig): (css: string)
    ensures StartsWith(css, Header(t, id))
    ensures Join(Declarations(colored, t), "\n") != [] <==> EndsWith(css, "}\n")
  {
    var vars := Join(Declarations(colored, t), "\n");
    var css := Header(t, id) + vars + "\n" + (if vars != [] then "}\n" else "");
    assert css[..|Header(t, id)|] == Header(t, id);
    assert vars == [] ==> css[|css| - 2..] == "\n\n";
    css
  }

  predicate EndsWith(s: string, suffix: string) {
    |suffix| <= |s| && s[|s| - |suffix|..] == suffix
  }

  /** `<ChartStyle id config />`: nothing without a coloured series,
      otherwise the light block, a newline, and the dark block; each block
      opens with its theme's header and is closed exactly when its own
      joined lines are not empty. */
  function ChartStyle(id: string, config: ChartConfig): (css: Option<string>)
    ensures css.None? <==> forall i :: 0 <= i < |config| ==> !Colored(config[i].1)
    ensures css.Some? ==>
      var colored := ColoredEntries(config);
      var light := Block(Light, id, colored);
      var dark := Block(Dark, id, colored);
      css.value == light + "\n" + dark
      && StartsWith(light, Header(Light, id)) && StartsWith(dark, Header(Dark, id))
      && (EndsWith(light, "}\n") <==> Join(Declarations(colored, Light), "\n") != [])
      && (EndsWith(dark, "}\n") <==> Join(Declarations(colored, Dark), "\n") != [])
    ensures css.Some? ==> StartsWith(css.value, Header(Light, id))
    ensures css.Some? ==>
      (EndsWith(css.value, "}\n") <==> Join(Declarations(ColoredEntries(config), Dark), "\n") != [])
  {
    ColoredEntriesMembers(config);
    var colored := ColoredEntries(config);
    if colored == [] then None
    else
      var light := Block(Light, id, colored);
      var dark := Block(Dark, id, colored);
      var css := light + "\n" + dark;
      PrefixOfConcat(light, "\n" + dark, Header(Light, id));
      SuffixOfConcat(light + "\n", dark, "}\n");
      Some(css)
  }

  /** A prefix of `a` is a prefix of `a + b`. */
  lemma PrefixOfConcat(a: string, b: string, p: string)
    requires StartsWith(a, p)
    ensures StartsWith(a + b, p)
  {
    assert (a + b)[..|p|] == a[..|p|];
  }

  /** A suffix no longer than `b` ends `a + b` exactly when it ends `b`. */
  lemma SuffixOfConcat(a: string, b: string, suffix: string)
    requires |suffix| <= |b|
    ensures EndsWith(a + b, suffix) <==> EndsWith(b, suffix)
  {
    assert (a + b)[|a + b| - |suffix|..] == b[|b| - |suffix|..];
  }

  /** With one coloured series, a theme it has no colour for gets a rule
      that is never closed. */
  lemma SingleUncolouredSeriesUnclosed(id: string, key: string, v: SeriesConfig, t: Theme)
    requires Colored(v) && ColorFor(v, t) == []
    ensures !EndsWith(Block(t, id, [(key, v)]), "}\n")
  {
    assert Declarations([(key, v)], t) == [""];
  }

  /** With two or more coloured series the joined lines hold a newline, so
      every rule is closed, even when no series has a colour for it. */
  lemma SeveralSeriesClosed(id: string, colored: ChartConfig, t: Theme)
    requires |colored| >= 2
    ensures EndsWith(Block(t, id, colored), "}\n")
  {
    var lines := Declarations(colored, t);
    assert Join(lines, "\n") == lines[0] + "\n" + Join(lines[1..], "\n");
  }

  /** A series with a colour for the theme declares it on a line of its
      own, naming the series' key. */
  lemma DeclarationShape(key: string, v: SeriesConfig, t: Theme)
    requires ColorFor(v, t) != []
    ensures Declaration(key, v, t) == "  --color-" + key + ": " + ColorFor(v, t) + ";"
    ensures v.theme.Some? && v.theme.value.dark != [] ==> ColorFor(v, Dark) == v.theme.value.dark
  {
  }

  // ---------------------------------------------------------------------
  // The container's id.

  /** `chart-${id || uid.replace(/:/g, '')}` */
  function ChartId(id: Option<string>, uid: string): (r: string)
    ensures StartsWith(r, "chart-")
    ensures id.Some? && id.value != [] ==> r == "chart-" + id.value
    ensures !(id.Some? && id.value != []) ==> r == "chart-" + RemoveAll(uid, ':') && ':' !in r[6..]
  {
    var suffix := if id.Some? && id.value != [] then id.value else RemoveAll(uid, ':');
    var r := "chart-" + suffix;
    assert r[..6] == "chart-" && r[6..] == suffix;
    r
  }

  // ---------------------------------------------------------------------
  // Tooltip and legend.

  /** `ChartTooltipContent` renders only while active with a non-empty
      array of entries. */
  predicate TooltipShown(active: Value, payload: Value) {
    Truthy(active) && payload.Arr? && |payload.items| > 0
  }

  /** `ChartLegendContent` renders only with a non-empty array of entries. */
  predicate LegendShown(payload: Value) {
    payload.Arr? && |payload.items| > 0
  }

  /** The config key of a legend entry:
      `nameKey || item?.dataKey || item?.name || 'value'`. */
  function LegendKey(nameKey: Value, item: Value): (key: Value)
    ensures Truthy(key)
    ensures Truthy(nameKey) ==> key == nameKey
    ensures !Truthy(nameKey) && Truthy(Get(item, "dataKey")) ==> key == Get(item, "dataKey")
    ensures !Truthy(nameKey) && !Truthy(Get(item, "dataKey")) && Truthy(Get(item, "name")) ==> key == Get(item, "name")
    ensures !Truthy(nameKey) && !Truthy(Get(item, "dataKey")) && !Truthy(Get(item, "name")) ==> key == Str("value")
  {
    Or(nameKey, Or(Get(item, "dataKey"), Or(Get(item, "name"), Str("value"))))
  }

  /** A missing entry still gets a key: "value". */
  lemma MissingItemKey()
    ensures LegendKey(Undefined, Null) == Str("value")
  {
  }
}
