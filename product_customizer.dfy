/** `src/components/ProductCustomizer.tsx`: the option, colour and tyre
    catalogs, the price the effect computes from the selection, the option
    toggle, the strike-through and savings figures, and the customisation
    reported to the parent. */
module ProductCustomizer {
  import opened Common

  datatype CustomizationOption = CustomizationOption(id: string, name: string, price: int, category: string)

  /** `price` is present on the premium colours only. */
  datatype ColorOption = ColorOption(name: string, value: string, premium: bool, price: Option<int>)

  datatype TireOption = TireOption(name: string, price: int)

  const Options: seq<CustomizationOption> := [
    CustomizationOption("led-underglow", "LED Underglow Kit", 79, "lighting"),
    CustomizationOption("carbon-accents", "Carbon Fiber Accents", 149, "aesthetics"),
    CustomizationOption("performance-tires", "Performance Tires", 89, "performance"),
    CustomizationOption("sound-system", "Bluetooth Sound System", 129, "tech"),
    CustomizationOption("phone-mount", "Smartphone Mount", 39, "tech"),
    CustomizationOption("racing-harness", "5-Point Racing Harness", 99, "safety"),
    CustomizationOption("custom-wrap", "Custom Vinyl Wrap", 199, "aesthetics"),
    CustomizationOption("extended-battery", "Extended Battery Pack", 179, "performance")
  ]

  const Colors: seq<ColorOption> := [
    ColorOption("Stealth Black", "#1a1a1a", false, None),
    ColorOption("Inferno Red", "#ff0040", false, None),
    ColorOption("Ghost White", "#f8f8f8", false, None),
    ColorOption("Cobalt Blue", "#0066cc", true, Some(49)),
    ColorOption("Carbon Fiber", "#2a2a2a", true, Some(99)),
    ColorOption("Chrome Silver", "#c0c0c0", true, Some(149))
  ]

  const Tires: seq<TireOption> := [
    TireOption("Standard Grip", 0),
    TireOption("Performance Pro", 59),
    TireOption("Off-Road Beast", 79),
    TireOption("Street Racer", 89)
  ]

  /** `customizationOptions.find(opt => opt.id === id)` over a catalog. */
  function Find(catalog: seq<CustomizationOption>, id: string): (r: Option<CustomizationOption>)
    ensures r.Some? ==> r.value in catalog && r.value.id == id
    ensures r.None? ==> forall i :: 0 <= i < |catalog| ==> catalog[i].id != id
  {
    if catalog == [] then None
    else if catalog[0].id == id then Some(catalog[0])
    else Find(catalog[1..], id)
  }

  /** `option?.price || 0`. */
  function PriceOf(id: string): int {
    match Find(Options, id)
    case None => 0
    case Some(o) => o.price
  }

  /** `selectedColor.premium ? selectedColor.price || 0 : 0`. */
  function ColorPrice(c: ColorOption): int {
    if !c.premium then 0
    else match c.price
      case None => 0
      case Some(p) => p
  }

  /** The `reduce` over the selected ids. */
  function OptionsPrice(selected: seq<string>): int {
    if selected == [] then 0 else PriceOf(selected[0]) + OptionsPrice(selected[1..])
  }

  /** `newTotal` in the effect. */
  function ComputeTotal(basePrice: int, color: ColorOption, tires: TireOption, selected: seq<string>): int {
    basePrice + ColorPrice(color) + tires.price + OptionsPrice(selected)
  }

  /** Every catalog surcharge is non-negative. */
  lemma CatalogPricesNonNegative()
    ensures forall i :: 0 <= i < |Options| ==> Options[i].price >= 0
    ensures forall i :: 0 <= i < |Colors| ==> ColorPrice(Colors[i]) >= 0
    ensures forall i :: 0 <= i < |Tires| ==> Tires[i].price >= 0
  {
  }

  lemma {:induction false} OptionsPriceNonNegative(selected: seq<string>)
    ensures OptionsPrice(selected) >= 0
  {
    if selected != [] {
      CatalogPricesNonNegative();
      OptionsPriceNonNegative(selected[1..]);
    }
  }

  /** With the catalog colours and tyres, the total never drops below the
      base price, whatever ids are selected. */
  lemma TotalAtLeastBase(basePrice: int, color: ColorOption, tires: TireOption, selected: seq<string>)
    requires color in Colors && tires in Tires
    ensures ComputeTotal(basePrice, color, tires, selected) >= basePrice
  {
    CatalogPricesNonNegative();
    OptionsPriceNonNegative(selected);
  }

  lemma {:induction false} OptionsPriceAppend(s: seq<string>, id: string)
    ensures OptionsPrice(s + [id]) == OptionsPrice(s) + PriceOf(id)
  {
    if s == [] {
      assert [id][1..] == [];
    } else {
      assert (s + [id])[1..] == s[1..] + [id];
      OptionsPriceAppend(s[1..], id);
    }
  }

  lemma {:induction false} OptionsPriceWithout(s: seq<string>, id: string)
    requires Distinct(s) && id in s
    ensures OptionsPrice(Without(s, id)) == OptionsPrice(s) - PriceOf(id)
  {
    if s[0] == id {
      assert id !in s[1..];
      WithoutAbsent(s[1..], id);
    } else {
      assert Distinct(s[1..]);
      OptionsPriceWithout(s[1..], id);
      var t := Without(s[1..], id);
      assert ([s[0]] + t)[1..] == t;
    }
  }

  /** Toggling an id moves the total by exactly that option's price: up when
      it was not selected, down when it was. Ids not in the catalog never
      move it. */
  lemma ToggleMovesTotal(basePrice: int, color: ColorOption, tires: TireOption, selected: seq<string>, id: string)
    requires Distinct(selected)
    ensures ComputeTotal(basePrice, color, tires, Toggle(selected, id))
      == ComputeTotal(basePrice, color, tires, selected) + (if id in selected then -PriceOf(id) else PriceOf(id))
    ensures Find(Options, id).None? ==>
      ComputeTotal(basePrice, color, tires, Toggle(selected, id)) == ComputeTotal(basePrice, color, tires, selected)
  {
    if id in selected {
      OptionsPriceWithout(selected, id);
    } else {
      OptionsPriceAppend(selected, id);
    }
  }

  /** The strike-through price shown beside the total. */
  function StrikePrice(originalPrice: int, totalPrice: int, basePrice: int): int {
    originalPrice + (totalPrice - basePrice)
  }

  /** "You save": the strike-through price minus the total. */
  function Savings(originalPrice: int, totalPrice: int, basePrice: int): int {
    StrikePrice(originalPrice, totalPrice, basePrice) - totalPrice
  }

  /** The saving shown does not depend on the selection. */
  lemma SavingsIgnoreSelection(originalPrice: int, basePrice: int, t1: int, t2: int)
    ensures Savings(originalPrice, t1, basePrice) == Savings(originalPrice, t2, basePrice) == originalPrice - basePrice
  {
  }

  /** `selectedOptions.map(id => find(id)).filter(Boolean)`. */
  function ReportedOptions(selected: seq<string>): (r: seq<CustomizationOption>)
    ensures |r| <= |selected|
    ensures forall i :: 0 <= i < |r| ==> r[i] in Options
  {
    if selected == [] then []
    else
      match Find(Options, selected[0])
      case None => ReportedOptions(selected[1..])
      case Some(o) => [o] + ReportedOptions(selected[1..])
  }

  /** The selected ids that name a catalog option, in selection order. */
  function KnownIds(selected: seq<string>): seq<string> {
    if selected == [] then []
    else if Find(Options, selected[0]).Some? then [selected[0]] + KnownIds(selected[1..])
    else KnownIds(selected[1..])
  }

  function Ids(options: seq<CustomizationOption>): seq<string> {
    if options == [] then [] else [options[0].id] + Ids(options[1..])
  }

  /** The reported options are the known selected ids, in order: unknown ids
      are dropped and nothing is reordered. */
  lemma {:induction false} ReportedAreKnown(selected: seq<string>)
    ensures Ids(ReportedOptions(selected)) == KnownIds(selected)
  {
    if selected != [] {
      ReportedAreKnown(selected[1..]);
      var rest := ReportedOptions(selected[1..]);
      match Find(Options, selected[0])
      case None =>
      case Some(o) =>
        assert ([o] + rest)[1..] == rest;
    }
  }

  /** What `onCustomizationChange` receives. */
  datatype Customization = Customization(color: ColorOption, tires: TireOption, options: seq<CustomizationOption>)

  class Customizer {
    const basePrice: int
    var selectedColor: ColorOption
    var selectedTires: TireOption
    var selectedOptions: seq<string>
    var totalPrice: int
    /** Every value passed to `onPriceChange`, in order. */
    var priceChanges: seq<int>
    /** Every value passed to `onCustomizationChange`, in order. */
    var customizations: seq<Customization>

    /** The selection comes from the catalogs and holds no duplicate id. */
    predicate Valid()
      reads this
    {
      selectedColor in Colors && selectedTires in Tires && Distinct(selectedOptions)
    }

    constructor (basePrice: int)
      ensures Valid()
      ensures this.basePrice == basePrice && totalPrice == basePrice
      ensures selectedColor == Colors[0] && selectedTires == Tires[0] && selectedOptions == []
      ensures priceChanges == [] && customizations == []
    {
      this.basePrice := basePrice;
      selectedColor := Colors[0];
      selectedTires := Tires[0];
      selectedOptions := [];
      totalPrice := basePrice;
      priceChanges := [];
      customizations := [];
    }

    /** `toggleOption`. */
    method ToggleOption(id: string)
      requires Valid()
      modifies this`selectedOptions
      ensures Valid()
      ensures selectedOptions == Toggle(old(selectedOptions), id)
    {
      selectedOptions := Toggle(selectedOptions, id);
    }

    /** Clicking the i-th colour swatch. */
    method SelectColor(i: nat)
      requires Valid() && i < |Colors|
      modifies this`selectedColor
      ensures Valid() && selectedColor == Colors[i]
    {
      selectedColor := Colors[i];
    }

    /** Clicking the i-th tyre card. */
    method SelectTires(i: nat)
      requires Valid() && i < |Tires|
      modifies this`selectedTires
      ensures Valid() && selectedTires == Tires[i]
    {
      selectedTires := Tires[i];
    }

    /** The price effect, with its delayed update taken as part of the same
        step: the total and `onPriceChange` move only when the computed
        total differs; the customisation is reported every time. */
    method Effect()
      requires Valid()
      modifies this`totalPrice, this`priceChanges, this`customizations
      ensures Valid()
      ensures totalPrice == ComputeTotal(basePrice, selectedColor, selectedTires, selectedOptions)
      ensures totalPrice >= basePrice
      ensures priceChanges == old(priceChanges) + (if totalPrice != old(totalPrice) then [totalPrice] else [])
      ensures customizations == old(customizations)
        + [Customization(selectedColor, selectedTires, ReportedOptions(selectedOptions))]
    {
      var newTotal := basePrice + ColorPrice(selectedColor) + selectedTires.price + OptionsPrice(selectedOptions);
      if newTotal != totalPrice {
        totalPrice := newTotal;
        priceChanges := priceChanges + [newTotal];
      }
      customizations := customizations + [Customization(selectedColor, selectedTires, ReportedOptions(selectedOptions))];
      TotalAtLeastBase(basePrice, selectedColor, selectedTires, selectedOptions);
    }
  }
}
