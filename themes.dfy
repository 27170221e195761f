/** themes.py: the default layout table, the theme registry and `get_config`,
    which merges the chosen theme over a copy of the default layout. */
module Themes {

  /** A value of a configuration table: a number, a text, or a nested
      colour table (`colors`, `gradients`, `type_colors`). */
  datatype Value = Num(n: int) | Text(s: string) | Table(entries: map<string, string>)

  type Config = map<string, Value>

  /** Theme name to theme table (THEMES). */
  type Registry = map<string, Config>

  /** The theme used when the requested name is not registered. */
  const PaperName: string := "paper"

  /** Keys that `get_config` sets from the theme whatever the default layout holds. */
  const ThemeKeys: set<string> := {"colors", "font", "type_colors"}

  const DefaultGradients: map<string, string> := map[
    "grad_bb_start" := "#FFFFFF", "grad_bb_end" := "#FFFFFF",
    "grad_neck_start" := "#FFFFFF", "grad_neck_end" := "#FFFFFF",
    "grad_head_start" := "#FFFFFF", "grad_head_end" := "#FFFFFF",
    "grad_concat_start" := "#FFFFFF", "grad_concat_end" := "#FFFFFF",
    "grad_node_start" := "#FFFFFF", "grad_node_end" := "#FFFFFF"
  ]

  /** DEFAULT_LAYOUT: lane widths, node size, corner radius, steps, gap and flat gradients. */
  const DefaultLayout: Config := map[
    "lane_width_bb" := Num(220),
    "lane_width_neck_col" := Num(220),
    "lane_width_head" := Num(220),
    "node_w" := Num(150),
    "node_h" := Num(44),
    "radius" := Num(0),
    "bb_step" := Num(80),
    "neck_step" := Num(120),
    "col_gap" := Num(80),
    "gradients" := Table(DefaultGradients)
  ]

  /** What `get_config` needs of the registry to run without a KeyError or a
      TypeError: a paper theme with per-type colours, and every theme giving
      `colors` and `font` and, if it has gradients, a gradient table. */
  ghost predicate WellFormed(themes: Registry) {
    && PaperName in themes
    && "type_colors" in themes[PaperName]
    && forall name :: name in themes ==>
         && "colors" in themes[name]
         && "font" in themes[name]
         && ("gradients" in themes[name] ==> themes[name]["gradients"].Table?)
  }

  /** `THEMES.get(theme_name, THEME_PAPER)`. */
  function Selected(themes: Registry, name: string): Config
    requires PaperName in themes
  {
    if name in themes then themes[name] else themes[PaperName]
  }

  /** The configuration `get_config` yields for `theme`, written key by key:
      layout keys come from the theme when it defines them and from the default
      otherwise; `colors`, `font` and `type_colors` come from the theme, with the
      fallback per-type table when the theme has none. */
  function Merged(theme: Config, fallbackTypeColors: Value): (c: Config)
    requires "colors" in theme && "font" in theme
    ensures c.Keys == DefaultLayout.Keys + ThemeKeys
  {
    MergedOver(DefaultLayout, theme, fallbackTypeColors)
  }

  /** `Merged` over any default table `d`. */
  function MergedOver(d: Config, theme: Config, fallbackTypeColors: Value): (c: Config)
    requires "colors" in theme && "font" in theme
    ensures c.Keys == d.Keys + ThemeKeys
  {
    map k | k in d.Keys + ThemeKeys ::
      if k == "type_colors" then
        (if k in theme then theme[k] else fallbackTypeColors)
      else if k in ThemeKeys || k in theme then theme[k]
      else d[k]
  }

  /** `get_config(theme_name)`: copy DEFAULT_LAYOUT, overwrite every key the
      theme also defines, then set colours, font, merged gradients, radius and
      per-type colours on the copy. */
  method GetConfig(themes: Registry, name: string) returns (config: Config)
    requires WellFormed(themes)
    ensures config == Merged(Selected(themes, name), themes[PaperName]["type_colors"])
    ensures name !in themes ==> config == Merged(themes[PaperName], themes[PaperName]["type_colors"])
  {
    var base := DefaultLayout;
    var theme := if name in themes then themes[name] else themes[PaperName];
    var pending := theme.Keys;
    while pending != {}
      invariant pending <= theme.Keys
      invariant base.Keys == DefaultLayout.Keys
      invariant forall k :: k in base ==>
                  base[k] == if k in theme && k !in pending then theme[k] else DefaultLayout[k]
      decreases pending
    {
      var k :| k in pending;
      if k in base {
        base := base[k := theme[k]];
      }
      pending := pending - {k};
    }
    config := base;
    config := config["colors" := theme["colors"]];
    config := config["font" := theme["font"]];
    var themeGrads := if "gradients" in theme then theme["gradients"].entries else map[];
    var defaultGrads := base["gradients"].entries;
    config := config["gradients" := Table(defaultGrads + themeGrads)];
    if "radius" in theme {
      config := config["radius" := theme["radius"]];
    }
    config := config["type_colors" := if "type_colors" in theme then theme["type_colors"] else themes[PaperName]["type_colors"]];
    OverlayThenMerge(theme, base, themes[PaperName]["type_colors"], config);
  }

  /** The assignments after the overlay loop of `get_config` produce `Merged`. */
  lemma OverlayThenMerge(theme: Config, base: Config, fallback: Value, config: Config)
    requires "colors" in theme && "font" in theme
    requires "gradients" in theme ==> theme["gradients"].Table?
    requires base.Keys == DefaultLayout.Keys
    requires forall k :: k in base ==> base[k] == if k in theme then theme[k] else DefaultLayout[k]
    requires base["gradients"].Table?
    requires config == base["colors" := theme["colors"]]["font" := theme["font"]]
      ["gradients" := Table(base["gradients"].entries + if "gradients" in theme then theme["gradients"].entries else map[])]
      ["radius" := if "radius" in theme then theme["radius"] else base["radius"]]
      ["type_colors" := if "type_colors" in theme then theme["type_colors"] else fallback]
    ensures config == Merged(theme, fallback)
  {
    DefaultLayoutKeys();
    OverlayOver(DefaultLayout, theme, base, fallback, config);
  }

  /** `OverlayThenMerge` for any default table whose gradients are a table and
      which shares no key with the theme-only keys. */
  lemma OverlayOver(d: Config, theme: Config, base: Config, fallback: Value, config: Config)
    requires d.Keys !! ThemeKeys && "gradients" in d && "radius" in d
    requires "colors" in theme && "font" in theme
    requires "gradients" in theme ==> theme["gradients"].Table?
    requires base.Keys == d.Keys
    requires forall k :: k in base ==> base[k] == if k in theme then theme[k] else d[k]
    requires base["gradients"].Table?
    requires config == base["colors" := theme["colors"]]["font" := theme["font"]]
      ["gradients" := Table(base["gradients"].entries + if "gradients" in theme then theme["gradients"].entries else map[])]
      ["radius" := if "radius" in theme then theme["radius"] else base["radius"]]
      ["type_colors" := if "type_colors" in theme then theme["type_colors"] else fallback]
    ensures config == MergedOver(d, theme, fallback)
  {
    var themeGrads := if "gradients" in theme then theme["gradients"].entries else map[];
    var grads := Table(base["gradients"].entries + themeGrads);
    var radius := if "radius" in theme then theme["radius"] else base["radius"];
    var types := if "type_colors" in theme then theme["type_colors"] else fallback;
    if "gradients" in theme {
      assert base["gradients"].entries + themeGrads == themeGrads;
      assert grads == theme["gradients"];
    } else {
      assert base["gradients"].entries + themeGrads == base["gradients"].entries;
      assert grads == d["gradients"];
    }
    assert radius == if "radius" in theme then theme["radius"] else d["radius"];
    var expected := MergedOver(d, theme, fallback);
    assert config.Keys == expected.Keys;
    forall k | k in config ensures config[k] == expected[k] {
      OverlayKey(d, theme, base, fallback, grads, radius, types, k);
    }
  }

  /** One key of `OverlayOver`. */
  lemma OverlayKey(d: Config, theme: Config, base: Config, fallback: Value, grads: Value, radius: Value, types: Value, k: string)
    requires d.Keys !! ThemeKeys && "gradients" in d && "radius" in d
    requires "colors" in theme && "font" in theme
    requires base.Keys == d.Keys
    requires k in base ==> base[k] == if k in theme then theme[k] else d[k]
    requires grads == if "gradients" in theme then theme["gradients"] else d["gradients"]
    requires radius == if "radius" in theme then theme["radius"] else d["radius"]
    requires types == if "type_colors" in theme then theme["type_colors"] else fallback
    requires k in d.Keys + ThemeKeys
    ensures base["colors" := theme["colors"]]["font" := theme["font"]]["gradients" := grads]["radius" := radius]["type_colors" := types][k]
            == MergedOver(d, theme, fallback)[k]
  {
    Updated(base, theme["colors"], theme["font"], grads, radius, types, k);
  }

  /** A lookup in the configuration after the five assignments of `get_config`. */
  lemma Updated(base: Config, colors: Value, font: Value, grads: Value, radius: Value, types: Value, k: string)
    ensures var c := base["colors" := colors]["font" := font]["gradients" := grads]["radius" := radius]["type_colors" := types];
            k in c <==> k in base || k in ThemeKeys || k == "gradients" || k == "radius"
    ensures var c := base["colors" := colors]["font" := font]["gradients" := grads]["radius" := radius]["type_colors" := types];
            k in c ==> c[k] == if k == "type_colors" then types else if k == "radius" then radius
                               else if k == "gradients" then grads else if k == "font" then font
                               else if k == "colors" then colors else base[k]
  {
  }

  lemma DefaultLayoutKeys()
    ensures DefaultLayout.Keys !! ThemeKeys
    ensures "gradients" in DefaultLayout && "radius" in DefaultLayout
    ensures DefaultLayout["gradients"] == Table(DefaultGradients)
  {
  }

  /** A layout key the theme leaves out keeps its default value. */
  lemma DefaultKept(theme: Config, fallback: Value, k: string)
    requires "colors" in theme && "font" in theme
    requires k in DefaultLayout && k !in theme
    ensures Merged(theme, fallback)[k] == DefaultLayout[k]
  {
  }

  /** A layout key the theme defines overrides the default. */
  lemma ThemeOverrides(theme: Config, fallback: Value, k: string)
    requires "colors" in theme && "font" in theme
    requires k in DefaultLayout && k in theme
    ensures Merged(theme, fallback)[k] == theme[k]
  {
  }

  /** Colours and font come from the selected theme; per-type colours come
      from the theme when it has them and from the fallback (paper's) otherwise. */
  lemma ThemeStyleKeys(themes: Registry, name: string)
    requires WellFormed(themes)
    ensures var theme := Selected(themes, name);
            var c := Merged(theme, themes[PaperName]["type_colors"]);
            && c["colors"] == theme["colors"]
            && c["font"] == theme["font"]
            && c["type_colors"] == if "type_colors" in theme then theme["type_colors"] else themes[PaperName]["type_colors"]
  {
  }

  /** The radius is the theme's when it has one and 0 otherwise. */
  lemma RadiusChoice(theme: Config, fallback: Value)
    requires "colors" in theme && "font" in theme
    ensures Merged(theme, fallback)["radius"] == if "radius" in theme then theme["radius"] else Num(0)
  {
  }

  /** A theme with its own gradient table gets exactly that table: default
      gradient keys do not fill the gaps of a partial table. */
  lemma PartialGradientsNotFilled(theme: Config, fallback: Value, k: string)
    requires "colors" in theme && "font" in theme
    requires "gradients" in theme && theme["gradients"].Table?
    requires k in DefaultGradients && k !in theme["gradients"].entries
    ensures Merged(theme, fallback)["gradients"].Table?
    ensures k !in Merged(theme, fallback)["gradients"].entries
  {
  }
}
