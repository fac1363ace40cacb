/**
 The clothing-recommendation engine. Four rules are evaluated in a fixed
 order (base layer, main clothing or outerwear, accessories, comfort note);
 each contributes zero or one categorised recommendation. The rules are first
 given as specification functions, one per rule, and then the engine itself,
 which builds its answer step by step, is proved to produce exactly their
 concatenation.
 */
module Recommendations {
  import opened Text
  import opened Weather

  datatype Gender = Male | Female | Other
  datatype AgeGroup = Teen | Adult | Senior
  datatype Style = Basic | Sporty | Casual | Professional

  datatype UserPreferences = UserPreferences(gender: Gender, ageGroup: AgeGroup, style: Style)

  datatype ClothingRecommendation = ClothingRecommendation(
    category: string,
    items: seq<string>,
    reasoning: string
  )

  datatype Option<T> = None | Some(value: T) {
    /** The value as a list of zero or one elements. */
    function AsSeq(): seq<T> {
      if Some? then [value] else []
    }
  }

  predicate IsRaining(w: WeatherData) { w.precipitation > 0.0 }
  predicate IsWindy(w: WeatherData) { w.windSpeed > 20 }
  predicate IsHumid(w: WeatherData) { w.humidity > 70 }

  // ---------------------------------------------------------------------
  // Temperature bands

  /** The five temperature bands of the main-clothing rule. */
  datatype Band = Freezing | Cold | Mild | Warm | Hot

  /** The interval each band covers: (-inf, 0], (0, 10], (10, 20], (20, 30], (30, inf). */
  predicate InBand(b: Band, temp: int) {
    match b
    case Freezing => temp <= 0
    case Cold => 0 < temp <= 10
    case Mild => 10 < temp <= 20
    case Warm => 20 < temp <= 30
    case Hot => 30 < temp
  }

  /** The band a temperature falls in, by the engine's chain of `<=` tests. */
  function BandOf(temp: int): (b: Band)
    ensures InBand(b, temp)
  {
    if temp <= 0 then Freezing
    else if temp <= 10 then Cold
    else if temp <= 20 then Mild
    else if temp <= 30 then Warm
    else Hot
  }

  // ---------------------------------------------------------------------
  // Rule 1: base layer

  const FreezingBaseLayer := ClothingRecommendation(
    "Base Layer",
    ["Thermal underwear", "Wool base layer", "Warm socks"],
    "Freezing temperatures require insulating base layers")

  const ColdBaseLayer := ClothingRecommendation(
    "Base Layer",
    ["Long-sleeve shirt", "Warm undergarments"],
    "Cold weather needs warm base layers")

  /** The base-layer entry: freezing items at or below 0, cold items up to 10, none above. */
  function BaseLayer(temp: int): Option<ClothingRecommendation> {
    if temp <= 0 then Some(FreezingBaseLayer)
    else if temp <= 10 then Some(ColdBaseLayer)
    else None
  }

  // ---------------------------------------------------------------------
  // Rule 2: main clothing or outerwear

  function MainCategory(b: Band): string {
    if b == Freezing then "Outerwear" else "Main Clothing"
  }

  const SportyWinterItems := ["Insulated jacket", "Thermal leggings/pants", "Winter boots"]
  const WinterItems := ["Heavy winter coat", "Warm pants", "Insulated boots"]
  const SportyColdItems := ["Fleece jacket", "Track pants", "Running shoes"]
  const ColdItems := ["Warm jacket", "Jeans or warm pants", "Closed shoes"]
  const SportyMildItems := ["Light hoodie", "Athletic pants", "Sneakers"]
  const ProfessionalMildItems := ["Blazer", "Dress pants/skirt", "Dress shoes"]
  const MildItems := ["Light sweater", "Jeans", "Comfortable shoes"]
  const SportyWarmItems := ["T-shirt", "Shorts", "Athletic shoes"]
  const ProfessionalWarmItems := ["Light shirt", "Lightweight pants", "Breathable shoes"]
  const WarmItems := ["T-shirt", "Shorts or light pants", "Sandals or sneakers"]
  const HotItems := ["Light, loose clothing", "Shorts", "Sandals", "Hat for sun protection"]

  /** The items of a band for a style: sporty has its own list in every band but
      the hottest, professional in the mild and warm bands only. */
  function MainItems(b: Band, style: Style): seq<string> {
    match b
    case Freezing => if style == Sporty then SportyWinterItems else WinterItems
    case Cold => if style == Sporty then SportyColdItems else ColdItems
    case Mild =>
      if style == Sporty then SportyMildItems
      else if style == Professional then ProfessionalMildItems
      else MildItems
    case Warm =>
      if style == Sporty then SportyWarmItems
      else if style == Professional then ProfessionalWarmItems
      else WarmItems
    case Hot => HotItems
  }

  function MainReasoning(b: Band): string {
    match b
    case Freezing => "Freezing temperatures require heavy insulation"
    case Cold => "Cold weather needs warm, layered clothing"
    case Mild => "Mild temperatures are perfect for light layers"
    case Warm => "Warm weather calls for light, breathable clothing"
    case Hot => "Hot weather requires minimal, breathable clothing"
  }

  /** The one entry of the main-clothing rule, chosen by band and then by style. */
  function MainClothing(temp: int, style: Style): ClothingRecommendation {
    var b := BandOf(temp);
    ClothingRecommendation(MainCategory(b), MainItems(b, style), MainReasoning(b))
  }

  // ---------------------------------------------------------------------
  // Rule 3: accessories

  /** The four accessory groups, each with its items and its reasoning sentence. */
  datatype AccessoryGroup = RainProtection | WindProtection | SunProtection | ColdProtection {
    function Items(): seq<string> {
      match this
      case RainProtection => ["Umbrella", "Waterproof jacket", "Water-resistant shoes"]
      case WindProtection => ["Windbreaker", "Secure hat or avoid loose items"]
      case SunProtection => ["Sunglasses", "Sunscreen", "Hat"]
      case ColdProtection => ["Warm hat", "Gloves", "Scarf"]
    }

    function Reason(): string {
      match this
      case RainProtection => "Rain protection is essential."
      case WindProtection => "Windy conditions require secure clothing."
      case SunProtection => "Sun protection recommended."
      case ColdProtection => "Extremities need extra protection in cold."
    }

    /** The fragment appended to the accumulated reasoning: the sentence and one space. */
    function Fragment(): string {
      Reason() + " "
    }
  }

  /** The order in which the groups are considered. */
  const AccessoryOrder: seq<AccessoryGroup> :=
    [RainProtection, WindProtection, SunProtection, ColdProtection]

  /** The condition under which a group is added. */
  predicate Fires(g: AccessoryGroup, w: WeatherData) {
    match g
    case RainProtection => IsRaining(w)
    case WindProtection => IsWindy(w)
    case SunProtection => Contains(w.description, "sun") || w.temperature > 25
    case ColdProtection => w.temperature <= 5
  }

  /** The groups of `gs` that fire, in their order in `gs`. */
  function Firing(gs: seq<AccessoryGroup>, w: WeatherData): seq<AccessoryGroup> {
    if gs == [] then []
    else (if Fires(gs[0], w) then [gs[0]] else []) + Firing(gs[1..], w)
  }

  /** The groups that fire for `w`, in the fixed order. */
  function FiredGroups(w: WeatherData): seq<AccessoryGroup> {
    Firing(AccessoryOrder, w)
  }

  /** The items of all `gs`, group after group, duplicates kept. */
  function ItemsOf(gs: seq<AccessoryGroup>): seq<string> {
    if gs == [] then [] else gs[0].Items() + ItemsOf(gs[1..])
  }

  /** The reasoning sentences of all `gs`, in order. */
  function ReasonsOf(gs: seq<AccessoryGroup>): seq<string> {
    if gs == [] then [] else [gs[0].Reason()] + ReasonsOf(gs[1..])
  }

  /**
   The merged accessories entry: every firing group's items, and its
   sentences each followed by a space with the whole trimmed; no entry when
   no item was collected.
   */
  function AccessoriesRule(w: WeatherData): Option<ClothingRecommendation> {
    var gs := FiredGroups(w);
    var items := ItemsOf(gs);
    if |items| > 0 then
      Some(ClothingRecommendation("Accessories", items, Trim(Terminated(ReasonsOf(gs), " "))))
    else
      None
  }

  // ---------------------------------------------------------------------
  // Rule 4: comfort note

  function Abs(x: int): nat {
    if x < 0 then -x else x
  }

  /** The cause named by the comfort note: humidity when humid, wind chill otherwise. */
  function ComfortCause(w: WeatherData): string {
    if IsHumid(w) then "humidity" else "wind chill"
  }

  const ComfortReasoning := "Consider how the weather actually feels, not just the temperature"

  /** The single item of the comfort note. */
  function FeelsLikeItem(feelsLike: int, cause: string): string {
    "Feels like " + IntToDecimal(feelsLike) + "°C due to " + cause
  }

  /** The comfort note, given when feels-like and actual differ by more than 3 degrees. */
  function ComfortNote(w: WeatherData): Option<ClothingRecommendation> {
    if Abs(w.temperature - w.feelsLike) > 3 then
      Some(ClothingRecommendation(
        "Comfort Note", [FeelsLikeItem(w.feelsLike, ComfortCause(w))], ComfortReasoning))
    else
      None
  }

  // ---------------------------------------------------------------------
  // The whole engine

  /** The four rules applied in order, absent entries dropped. */
  function Recommended(w: WeatherData, p: UserPreferences): seq<ClothingRecommendation> {
    BaseLayer(w.temperature).AsSeq()
    + [MainClothing(w.temperature, p.style)]
    + AccessoriesRule(w).AsSeq()
    + ComfortNote(w).AsSeq()
  }

  // ---------------------------------------------------------------------
  // The engine, block by block

  /** The base-layer block: pushes the entry of the temperature's band, if any. */
  method PushBaseLayer(recommendations: seq<ClothingRecommendation>, temp: int)
    returns (r: seq<ClothingRecommendation>)
    ensures r == recommendations + BaseLayer(temp).AsSeq()
  {
    r := recommendations;
    if temp <= 0 {
      r := r + [FreezingBaseLayer];
    } else if temp <= 10 {
      r := r + [ColdBaseLayer];
    }
  }

  /** The main-clothing block: pushes exactly one entry, by band and then by style. */
  method PushMainClothing(recommendations: seq<ClothingRecommendation>, temp: int, style: Style)
    returns (r: seq<ClothingRecommendation>)
    ensures r == recommendations + [MainClothing(temp, style)]
  {
    r := recommendations;
    if temp <= 0 {
      r := r + [ClothingRecommendation("Outerwear", MainItems(Freezing, style), MainReasoning(Freezing))];
    } else if temp <= 10 {
      r := r + [ClothingRecommendation("Main Clothing", MainItems(Cold, style), MainReasoning(Cold))];
    } else if temp <= 20 {
      r := r + [ClothingRecommendation("Main Clothing", MainItems(Mild, style), MainReasoning(Mild))];
    } else if temp <= 30 {
      r := r + [ClothingRecommendation("Main Clothing", MainItems(Warm, style), MainReasoning(Warm))];
    } else {
      r := r + [ClothingRecommendation("Main Clothing", MainItems(Hot, style), MainReasoning(Hot))];
    }
  }

  /** The two accumulators of the accessories block. */
  datatype Accumulated = Accumulated(items: seq<string>, reasoning: string)

  /** One condition of the accessories block: when `g` fires, push its items
      and append its fragment; otherwise leave the accumulators alone. */
  function Step(acc: Accumulated, g: AccessoryGroup, w: WeatherData): Accumulated {
    if Fires(g, w) then Accumulated(acc.items + g.Items(), acc.reasoning + g.Fragment()) else acc
  }

  /** The conditions of `gs` applied one after the other. */
  function StepAll(acc: Accumulated, gs: seq<AccessoryGroup>, w: WeatherData): Accumulated
    decreases |gs|
  {
    if gs == [] then acc else StepAll(Step(acc, gs[0], w), gs[1..], w)
  }

  /** A group's items come first in the items of a list it heads. */
  lemma ItemsOfCons(g: AccessoryGroup, rest: seq<AccessoryGroup>)
    ensures ItemsOf([g] + rest) == g.Items() + ItemsOf(rest)
  {
    assert ([g] + rest)[1..] == rest;
  }

  /** A group's fragment comes first in the reasoning of a list it heads. */
  lemma TerminatedCons(g: AccessoryGroup, rest: seq<AccessoryGroup>)
    ensures Terminated(ReasonsOf([g] + rest), " ") == g.Fragment() + Terminated(ReasonsOf(rest), " ")
  {
    assert ([g] + rest)[1..] == rest;
    assert ReasonsOf([g] + rest) == [g.Reason()] + ReasonsOf(rest);
    assert ([g.Reason()] + ReasonsOf(rest))[1..] == ReasonsOf(rest);
  }

  /** Running the conditions adds exactly the items and fragments of the groups that fire, in order. */
  lemma {:induction false} StepAllCollects(acc: Accumulated, gs: seq<AccessoryGroup>, w: WeatherData)
    ensures StepAll(acc, gs, w) == Accumulated(
      acc.items + ItemsOf(Firing(gs, w)),
      acc.reasoning + Terminated(ReasonsOf(Firing(gs, w)), " "))
    decreases |gs|
  {
    if gs == [] {
      assert acc.items + [] == acc.items;
      assert acc.reasoning + "" == acc.reasoning;
    } else {
      var g, rest := gs[0], Firing(gs[1..], w);
      StepAllCollects(Step(acc, g, w), gs[1..], w);
      if Fires(g, w) {
        assert Firing(gs, w) == [g] + rest;
        ItemsOfCons(g, rest);
        TerminatedCons(g, rest);
        AppendAssoc(acc.items, g.Items(), ItemsOf(rest));
        AppendAssoc(acc.reasoning, g.Fragment(), Terminated(ReasonsOf(rest), " "));
      } else {
        assert Firing(gs, w) == rest;
      }
    }
  }

  /** The accessories block runs the conditions in the fixed order. */
  lemma StepAllInOrder(acc: Accumulated, w: WeatherData)
    ensures StepAll(acc, AccessoryOrder, w) ==
      Step(Step(Step(Step(acc, RainProtection, w), WindProtection, w), SunProtection, w), ColdProtection, w)
  {
    var o := AccessoryOrder;
    assert o[1..] == [WindProtection, SunProtection, ColdProtection];
    assert o[1..][1..] == [SunProtection, ColdProtection];
    assert o[1..][1..][1..] == [ColdProtection];
    assert o[1..][1..][1..][1..] == [];
    var a1 := Step(acc, RainProtection, w);
    var a2 := Step(a1, WindProtection, w);
    var a3 := Step(a2, SunProtection, w);
    var a4 := Step(a3, ColdProtection, w);
    assert StepAll(a4, o[1..][1..][1..][1..], w) == a4;
    assert StepAll(a3, o[1..][1..][1..], w) == a4;
    assert StepAll(a2, o[1..][1..], w) == a4;
    assert StepAll(a1, o[1..], w) == a4;
  }

  /** Starting from empty accumulators, the four conditions in order collect
      the items and the space-terminated sentences of the firing groups. */
  lemma CollectFromEmpty(w: WeatherData)
    ensures Step(Step(Step(Step(Accumulated([], ""), RainProtection, w), WindProtection, w), SunProtection, w), ColdProtection, w)
      == Accumulated(ItemsOf(FiredGroups(w)), Terminated(ReasonsOf(FiredGroups(w)), " "))
  {
    var empty := Accumulated([], "");
    StepAllInOrder(empty, w);
    StepAllCollects(empty, AccessoryOrder, w);
    assert [] + ItemsOf(FiredGroups(w)) == ItemsOf(FiredGroups(w));
    assert "" + Terminated(ReasonsOf(FiredGroups(w)), " ") == Terminated(ReasonsOf(FiredGroups(w)), " ");
  }

  /**
   The accumulation part of the accessories block: each of the four
   conditions, in order, pushes its items onto `accessories` and appends its
   fragment to `accessoryReasoning`. The result is every firing group's items,
   and its sentences each followed by a space, in the fixed order. (`acc`
   mirrors the accumulators for the proof only.)
   */
  method CollectAccessories(weather: WeatherData)
    returns (accessories: seq<string>, accessoryReasoning: string)
    ensures accessories == ItemsOf(FiredGroups(weather))
    ensures accessoryReasoning == Terminated(ReasonsOf(FiredGroups(weather)), " ")
  {
    accessories, accessoryReasoning := [], "";
    ghost var acc := Accumulated([], "");

    if weather.precipitation > 0.0 {
      accessories := accessories + RainProtection.Items();
      accessoryReasoning := accessoryReasoning + RainProtection.Fragment();
    }
    acc := Step(acc, RainProtection, weather);
    assert acc == Accumulated(accessories, accessoryReasoning);

    if weather.windSpeed > 20 {
      accessories := accessories + WindProtection.Items();
      accessoryReasoning := accessoryReasoning + WindProtection.Fragment();
    }
    acc := Step(acc, WindProtection, weather);
    assert acc == Accumulated(accessories, accessoryReasoning);

    if Contains(weather.description, "sun") || weather.temperature > 25 {
      accessories := accessories + SunProtection.Items();
      accessoryReasoning := accessoryReasoning + SunProtection.Fragment();
    }
    acc := Step(acc, SunProtection, weather);
    assert acc == Accumulated(accessories, accessoryReasoning);

    if weather.temperature <= 5 {
      accessories := accessories + ColdProtection.Items();
      accessoryReasoning := accessoryReasoning + ColdProtection.Fragment();
    }
    acc := Step(acc, ColdProtection, weather);
    assert acc == Accumulated(accessories, accessoryReasoning);

    CollectFromEmpty(weather);
  }

  /** The accessories block: pushes the merged entry, its reasoning trimmed, when any item was collected. */
  method PushAccessories(recommendations: seq<ClothingRecommendation>, weather: WeatherData)
    returns (r: seq<ClothingRecommendation>)
    ensures r == recommendations + AccessoriesRule(weather).AsSeq()
  {
    r := recommendations;
    var accessories, accessoryReasoning := CollectAccessories(weather);
    if |accessories| > 0 {
      r := r + [ClothingRecommendation("Accessories", accessories, Trim(accessoryReasoning))];
    }
  }

  /** The comfort block: pushes the note when feels-like and actual differ by more than 3 degrees. */
  method PushComfortNote(recommendations: seq<ClothingRecommendation>, weather: WeatherData)
    returns (r: seq<ClothingRecommendation>)
    ensures r == recommendations + ComfortNote(weather).AsSeq()
  {
    r := recommendations;
    var isHumid := weather.humidity > 70;
    if Abs(weather.temperature - weather.feelsLike) > 3 {
      r := r + [ClothingRecommendation(
        "Comfort Note",
        [FeelsLikeItem(weather.feelsLike, if isHumid then "humidity" else "wind chill")],
        ComfortReasoning)];
    }
  }

  /**
   The engine as the source writes it: starting from an empty list, each
   block in turn pushes its entries. Its result is the rule-by-rule
   specification above.
   */
  method GenerateClothingRecommendations(weather: WeatherData, preferences: UserPreferences)
    returns (recommendations: seq<ClothingRecommendation>)
    ensures recommendations == Recommended(weather, preferences)
  {
    recommendations := [];
    var temp := weather.temperature;
    recommendations := PushBaseLayer(recommendations, temp);
    assert recommendations == BaseLayer(temp).AsSeq();
    recommendations := PushMainClothing(recommendations, temp, preferences.style);
    recommendations := PushAccessories(recommendations, weather);
    recommendations := PushComfortNote(recommendations, weather);
  }
}
