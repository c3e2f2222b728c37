/** `src/components/Advanced3DCustomizer.tsx`: the configuration record, its
    partial update and reset, the style coach's suggestion rules, and the
    category selection driven by the tabs and by the hotspots on the model. */
module Advanced3DCustomizer {
  import opened Common

  datatype Config = Config(
    color: string, wheels: string, lights: bool, spoiler: bool, underglow: bool, performance: int)

  /** The initial configuration, also restored by `resetView`. */
  const Default := Config("#ff0040", "standard", true, false, false, 50)

  /** A `Partial<CustomizationConfig>`: the fields the caller sets. */
  datatype Updates = Updates(
    color: Option<string>, wheels: Option<string>, lights: Option<bool>,
    spoiler: Option<bool>, underglow: Option<bool>, performance: Option<int>)

  const NoUpdates := Updates(None, None, None, None, None, None)

  /** `{ ...config, ...updates }`. */
  function Merge(c: Config, u: Updates): (r: Config)
    ensures r.color == (if u.color.Some? then u.color.value else c.color)
    ensures r.wheels == (if u.wheels.Some? then u.wheels.value else c.wheels)
    ensures r.lights == (if u.lights.Some? then u.lights.value else c.lights)
    ensures r.spoiler == (if u.spoiler.Some? then u.spoiler.value else c.spoiler)
    ensures r.underglow == (if u.underglow.Some? then u.underglow.value else c.underglow)
    ensures r.performance == (if u.performance.Some? then u.performance.value else c.performance)
  {
    Config(
      match u.color case Some(v) => v case None => c.color,
      match u.wheels case Some(v) => v case None => c.wheels,
      match u.lights case Some(v) => v case None => c.lights,
      match u.spoiler case Some(v) => v case None => c.spoiler,
      match u.underglow case Some(v) => v case None => c.underglow,
      match u.performance case Some(v) => v case None => c.performance)
  }

  /** An empty update changes nothing, and applying the same update twice is
      applying it once. */
  lemma MergeLaws(c: Config, u: Updates)
    ensures Merge(c, NoUpdates) == c
    ensures Merge(Merge(c, u), u) == Merge(c, u)
  {
  }

  // ---------------------------------------------------------------------------
  // The style coach

  const UnderglowTip := "Red karts look amazing with underglow lighting!"
  const SpoilerTip := "High performance setup needs a spoiler for stability."
  const TiresTip := "Performance tires would complement your speed setup."

  predicate RedWithoutUnderglow(c: Config) { c.color == "#ff0040" && !c.underglow }
  predicate FastWithoutSpoiler(c: Config) { c.performance > 80 && !c.spoiler }
  predicate StandardWheelsAtSpeed(c: Config) { c.wheels == "standard" && c.performance > 60 }

  /** Every rule that fires, in the order the rules are checked. */
  function RuleMessages(c: Config): seq<string> {
    (if RedWithoutUnderglow(c) then [UnderglowTip] else [])
    + (if FastWithoutSpoiler(c) then [SpoilerTip] else [])
    + (if StandardWheelsAtSpeed(c) then [TiresTip] else [])
  }

  /** The first two messages, as `slice(0, 2)` keeps them. */
  function Suggestions(c: Config): (r: seq<string>)
    ensures |r| <= 2
  {
    var all := RuleMessages(c);
    if |all| <= 2 then all else all[..2]
  }

  /** `generateSuggestions`: push each firing rule's message, then keep two. */
  method GenerateSuggestions(c: Config) returns (r: seq<string>)
    ensures r == Suggestions(c)
    ensures |r| <= 2
  {
    var suggestions: seq<string> := [];
    if c.color == "#ff0040" && !c.underglow {
      suggestions := suggestions + [UnderglowTip];
    }
    if c.performance > 80 && !c.spoiler {
      suggestions := suggestions + [SpoilerTip];
    }
    if c.wheels == "standard" && c.performance > 60 {
      suggestions := suggestions + [TiresTip];
    }
    r := if |suggestions| <= 2 then suggestions else suggestions[..2];
  }

  /** Each tip is shown exactly when its rule fires, except that the tyre tip
      is dropped when both earlier rules fire. */
  lemma SuggestionRules(c: Config)
    ensures UnderglowTip in Suggestions(c) <==> RedWithoutUnderglow(c)
    ensures SpoilerTip in Suggestions(c) <==> FastWithoutSpoiler(c)
    ensures TiresTip in Suggestions(c) <==>
      StandardWheelsAtSpeed(c) && !(RedWithoutUnderglow(c) && FastWithoutSpoiler(c))
  {
    assert UnderglowTip != SpoilerTip && UnderglowTip != TiresTip && SpoilerTip != TiresTip;
  }

  /** The default configuration draws exactly the underglow tip. */
  lemma DefaultSuggestion()
    ensures Suggestions(Default) == [UnderglowTip]
  {
  }

  // ---------------------------------------------------------------------------
  // Categories

  /** The tab ids, which are also the only categories with a content panel. */
  const Tabs: seq<string> := ["color", "wheels", "lights", "performance", "accessories"]

  /** The categories the five hotspots on the model report. */
  const HotspotCategories: seq<string> := ["color", "wheels", "lights", "spoiler", "performance"]

  datatype Panel = ColorPanel | WheelsPanel | LightsPanel | PerformancePanel | AccessoriesPanel

  /** The `activeCategory === ...` content branches. */
  function PanelFor(category: string): (p: Option<Panel>)
    ensures p.None? <==> category !in Tabs
  {
    if category == "color" then Some(ColorPanel)
    else if category == "wheels" then Some(WheelsPanel)
    else if category == "lights" then Some(LightsPanel)
    else if category == "performance" then Some(PerformancePanel)
    else if category == "accessories" then Some(AccessoriesPanel)
    else None
  }

  /** Every hotspot but the spoiler one opens a panel; the spoiler hotspot
      selects a category that no tab shows and no panel renders. */
  lemma HotspotPanels()
    ensures forall i :: 0 <= i < |HotspotCategories| ==>
      (PanelFor(HotspotCategories[i]).None? <==> HotspotCategories[i] == "spoiler")
    ensures "spoiler" !in Tabs
  {
  }

  class Customizer {
    var config: Config
    var activeCategory: string
    /** Every configuration passed to `onConfigChange`, in order. */
    var reported: seq<Config>

    constructor ()
      ensures config == Default && activeCategory == "color" && reported == []
    {
      config := Default;
      activeCategory := "color";
      reported := [];
    }

    /** `updateConfig`: merge, store and report the merged configuration. */
    method UpdateConfig(u: Updates)
      modifies this`config, this`reported
      ensures config == Merge(old(config), u)
      ensures reported == old(reported) + [config]
    {
      var newConfig := Merge(config, u);
      config := newConfig;
      reported := reported + [newConfig];
    }

    /** `resetView`: restore the default without reporting it. */
    method ResetView()
      modifies this`config
      ensures config == Default && reported == old(reported)
    {
      config := Default;
    }

    /** `handleHotspotClick`, and a tab click, which does the same. */
    method SelectCategory(category: string)
      modifies this`activeCategory
      ensures activeCategory == category
    {
      activeCategory := category;
    }
  }
}
