# Clothing recommendation engine — a Dafny model

This project models the recommendation engine of a weather-based outfit
advisor. Given one normalised weather reading (temperature, feels-like
temperature, humidity, wind speed, condition description and precipitation)
and the user's preferences (gender, age group, style), the engine
`generateClothingRecommendations` builds a list of categorised
recommendations. It applies four rules in a fixed order, and each rule pushes
zero or one entry:

1. **Base Layer**: freezing items at or below 0 °C, cold items up to 10 °C.
2. **Outerwear / Main Clothing**: exactly one entry. The temperature band
   chooses the entry, and the style then chooses among its item lists.
3. **Accessories**: one merged entry for the rain, wind, sun and cold
   groups that fire. Items keep the group order and duplicates are kept. The
   sentences are each followed by a space, and the whole reasoning is trimmed.
4. **Comfort Note**: present when actual and feels-like temperatures differ
   by more than 3 degrees. It names the feels-like temperature and its
   cause, which is humidity above 70 % and wind chill otherwise.

Files:

- `text.dfy` (module `Text`): the JavaScript string behaviour the engine
  relies on. This covers `includes` as a substring test and `trim` over
  ECMAScript white space. It also covers space-terminated and space-joined
  sentence lists, and the decimal rendering of an integer inside a template
  literal, together with a parser that reads the rendering back.
- `weather.dfy` (module `Weather`): the weather reading record.
- `recommendations.dfy` (module `Recommendations`):
  - the preference and recommendation types;
  - one specification function per rule, and `Recommended`, their
    concatenation;
  - the engine as imperative code that starts from an empty list and
    pushes entry by entry. It is proved to return exactly `Recommended`.
- `properties.dfy` (module `RecommendationProperties`): what the engine
  promises, stated over `Recommended`. This covers:
  - the order and number of entries;
  - which inputs make each entry appear and what it then holds;
  - which preferences matter;
  - worked examples.

The engine is one function body in the source. Here each of its blocks is a
method of its own, and `GenerateClothingRecommendations` calls them in the
source's order:

- `PushBaseLayer`;
- `PushMainClothing`;
- `CollectAccessories` and `PushAccessories`;
- `PushComfortNote`.

Each block is proved against its rule's function. This keeps every proof
small; the blocks share no state except the growing list.

22 °C lies in the warm band (20, 30]: the code's `temp <= 20` test fails
before `temp <= 30` holds. `ClearWarmDayExample` proves the warm-band entry
for such a reading.

## Model

| member | source | states |
|---|---|---|
| Text.ContainsIffOccurs | lib/recommendations.ts:112 | `description.includes("sun")` holds exactly when "sun" occurs at some index of the description; the test is case-sensitive |
| Text.TrimStart | lib/recommendations.ts:126 | the result is a suffix of the input; every character removed is white space, and the result does not start with white space |
| Text.TrimEnd | lib/recommendations.ts:126 | the result is a prefix of the input; every character removed is white space, and the result does not end with white space |
| Text.Trim | lib/recommendations.ts:126 | `trim()` returns the slice of its input that starts right after the leading white space and is followed by white space only (`SliceBetweenWhiteSpace`); neither end of the result is white space, and an all-white-space string becomes "" |
| Text.SuffixThenPrefix | lib/recommendations.ts:126 | dropping leading and then trailing white space leaves a slice of the original string with white space only on either side |
| Text.TerminatedIsJoinPlusTerm | lib/recommendations.ts:100-120 | appending each sentence followed by a space gives the space-joined sentences plus one trailing space |
| Text.JoinEnds | lib/recommendations.ts:126 | a join of non-empty parts starts with the first part's first character and ends with the last part's last character |
| Text.TrimTerminatedIsJoin | lib/recommendations.ts:100-126 | trimming space-terminated sentences that have no white space at their ends gives exactly those sentences joined by single spaces |
| Text.NatToDecimal | lib/recommendations.ts:134 | a natural number renders as a non-empty digit string without leading zeros |
| Text.IntToDecimal | lib/recommendations.ts:134 | `${feelsLike}` is non-empty and starts with '-' exactly when the value is negative |
| Text.NatToDecimalRoundTrip | lib/recommendations.ts:134 | reading the digits back gives the number |
| Text.IntToDecimalRoundTrip | lib/recommendations.ts:134 | the rendering is well-formed, and parsing it back gives the integer |
| Text.IntToDecimalInjective | lib/recommendations.ts:134 | different feels-like temperatures are rendered differently |
| Recommendations.BandOf | lib/recommendations.ts:42-96 | the `<=` chain picks a band whose interval (-inf,0], (0,10], (10,20], (20,30] or (30,inf) contains the temperature |
| Recommendations.PushBaseLayer | lib/recommendations.ts:26-39 | the list grows by the freezing base layer at or below 0, by the cold one from 1 to 10, and by nothing above 10 |
| Recommendations.PushMainClothing | lib/recommendations.ts:41-96 | the list grows by exactly one entry: the band's category, its style-chosen items and its reasoning |
| Recommendations.StepAllCollects | lib/recommendations.ts:99-120 | running the accessory conditions over groups adds exactly the firing groups' items and space-terminated sentences, in order |
| Recommendations.StepAllInOrder | lib/recommendations.ts:102-120 | the accessories block evaluates the rain, wind, sun and cold conditions once each, in that order |
| Recommendations.CollectFromEmpty | lib/recommendations.ts:99-120 | from empty accumulators the four conditions collect the firing groups' items and space-terminated sentences |
| Recommendations.CollectAccessories | lib/recommendations.ts:99-120 | the accumulated items are the firing groups' items, and the accumulated reasoning is their sentences, each followed by a space |
| Recommendations.PushAccessories | lib/recommendations.ts:122-128 | the list grows by the merged "Accessories" entry with its trimmed reasoning exactly when some item was collected |
| Recommendations.PushComfortNote | lib/recommendations.ts:130-137 | the list grows by the comfort note exactly when the temperatures differ by more than 3 degrees |
| Recommendations.GenerateClothingRecommendations | lib/recommendations.ts:15-140 | the engine's list is the base-layer, main, accessories and comfort rules' entries concatenated in that order |
| RecommendationProperties.ShapeOfRules | lib/recommendations.ts:19-139 | an optional base entry, one main entry and optional accessories and comfort entries, pushed in that order, give one to four entries of strictly increasing rank, and a rank is present exactly when its part is |
| RecommendationProperties.BaseLayerCategory | lib/recommendations.ts:29-35 | the base-layer entry is categorised "Base Layer" |
| RecommendationProperties.MainClothingCategory | lib/recommendations.ts:49-92 | the main entry is "Outerwear" at or below 0 and "Main Clothing" otherwise |
| RecommendationProperties.AccessoriesCategory | lib/recommendations.ts:124 | the accessories entry is categorised "Accessories" |
| RecommendationProperties.ComfortNoteCategory | lib/recommendations.ts:133 | the comfort entry is categorised "Comfort Note" |
| RecommendationProperties.RecommendedShape | lib/recommendations.ts:15-140 | where each rule's entry sits, and that a base layer, accessories or comfort category appears exactly when its rule fires |
| RecommendationProperties.CategoriesInRuleOrder | lib/recommendations.ts:15-140 | one to four entries, in the order base layer < main < accessories < comfort note, none repeated, each in one of the five categories |
| RecommendationProperties.ExactlyOneMainEntry | lib/recommendations.ts:41-96 | exactly one entry is "Outerwear" or "Main Clothing", right after the optional base layer, and it is "Outerwear" exactly when the temperature is at most 0 |
| RecommendationProperties.BandsExclusive | lib/recommendations.ts:42-96 | the five bands do not overlap |
| RecommendationProperties.BaseLayerPresence | lib/recommendations.ts:26-39 | a base layer appears exactly when the temperature is at most 10; it comes first, holding the three freezing items at or below 0 and the two cold items above |
| RecommendationProperties.ZeroIsFreezing | lib/recommendations.ts:27-52 | at exactly 0 °C both the base layer and the outerwear come from the freezing band |
| RecommendationProperties.StyleOnlyChangesMainItems | lib/recommendations.ts:41-96 | for any two preference sets the lists have the same length, categories and reasoning everywhere, and the same items outside the main entry |
| RecommendationProperties.SameMainSameResult | lib/recommendations.ts:15-140 | preferences reach the result only through the main entry |
| RecommendationProperties.GenderAndAgeAreInert | lib/recommendations.ts:9-13 | gender and age group never change the result |
| RecommendationProperties.MainItemsByStyleClass | lib/recommendations.ts:43-95 | two styles get the same main items in a band exactly when the band does not distinguish them. The hottest band ignores style, the cold bands single out sporty, and the mild and warm bands single out sporty and professional |
| RecommendationProperties.BasicAndCasualAgree | lib/recommendations.ts:65-83 | "basic" and "casual" always give identical output |
| RecommendationProperties.HotIgnoresStyle | lib/recommendations.ts:90-95 | above 30 °C every style gets the same output |
| RecommendationProperties.FiringMembers | lib/recommendations.ts:102-120 | a group is among the firing ones exactly when its condition holds |
| RecommendationProperties.ItemsOfEmpty | lib/recommendations.ts:122 | no items were collected exactly when no group fired |
| RecommendationProperties.SomeGroupFires | lib/recommendations.ts:102-120 | some group fires exactly when it rains, the wind exceeds 20, the description contains "sun", or the temperature is above 25 or at most 5 |
| RecommendationProperties.AccessoriesPresence | lib/recommendations.ts:98-128 | an "Accessories" entry appears exactly when it rains, the wind exceeds 20, the description contains "sun", or the temperature is above 25 or at most 5 |
| RecommendationProperties.AccessoryItemsInOrder | lib/recommendations.ts:99-120 | the accessory items are the rain, wind, sun and cold items of the groups that fire, in that order, without deduplication |
| RecommendationProperties.ReasonIsTrimmed | lib/recommendations.ts:104-119 | each group's sentence is non-empty and starts and ends with a visible character |
| RecommendationProperties.SentencesAreTrimmed | lib/recommendations.ts:104-119 | every collected sentence is non-empty and starts and ends with a visible character |
| RecommendationProperties.AccessoryReasoningIsJoinedSentences | lib/recommendations.ts:100-126 | the trimmed reasoning is the firing groups' sentences joined by single spaces, with no trailing space |
| RecommendationProperties.ComfortNotePresence | lib/recommendations.ts:130-137 | a comfort note appears exactly when the temperatures differ by more than 3. It is then last, with the single item "Feels like {feelsLike}°C due to humidity" when humidity is above 70, and "… wind chill" otherwise |
| RecommendationProperties.ComfortNoteIgnoresWind | lib/recommendations.ts:131-134 | the wind speed never changes the comfort note, even when the note says "wind chill" |
| RecommendationProperties.ComfortNoteNamesFeelsLike | lib/recommendations.ts:134 | the note's item starts with "Feels like ", followed by digits that read back as the feels-like temperature |
| RecommendationProperties.AccessoriesNonEmpty | lib/recommendations.ts:122-127 | the accessories entry has items and a non-empty reasoning |
| RecommendationProperties.FixedEntriesNonEmpty | lib/recommendations.ts:26-137 | the base-layer, main and comfort entries have items and reasoning |
| RecommendationProperties.MainClothingNonEmpty | lib/recommendations.ts:41-96 | every band's main entry has items and reasoning for every style |
| RecommendationProperties.NonEmptyParts | lib/recommendations.ts:19-139 | non-empty parts concatenate to a list whose every entry is non-empty |
| RecommendationProperties.EntriesAreNonEmpty | lib/recommendations.ts:15-140 | every entry of the result has at least one item and a non-empty reasoning |
| RecommendationProperties.RainWindHeatGroups | lib/recommendations.ts:102-120 | rain, a 25 km/h wind and 28 °C under "clear sky" fire the rain, wind and sun groups only |
| RecommendationProperties.ThreeGroups | lib/recommendations.ts:99-120 | the items and sentences of three firing groups, spelled out in order |
| RecommendationProperties.RainWindSunEntry | lib/recommendations.ts:102-127 | when exactly rain, wind and sun fire, the entry holds their 8 items in that order, with reasoning "Rain protection is essential. Windy conditions require secure clothing. Sun protection recommended." |
| RecommendationProperties.RainWindHeatExample | lib/recommendations.ts:98-128 | the example above for the concrete 28 °C rainy, windy reading |
| RecommendationProperties.HumidComfortExample | lib/recommendations.ts:130-137 | 10 °C that feels like 4 °C at 80 % humidity gives "Feels like 4°C due to humidity" |
| RecommendationProperties.SmallDifferenceExample | lib/recommendations.ts:131 | 15 °C that feels like 17 °C gives no comfort note |
| RecommendationProperties.QuietWarmDay | lib/recommendations.ts:77-137 | a dry, calm, sun-free reading from 21 to 25 °C within 3 degrees of its feels-like temperature gets the warm-band main entry and nothing else |
| RecommendationProperties.ClearWarmDayExample | lib/recommendations.ts:77-137 | 22 °C "clear sky" at 11 km/h with no rain gives only the warm-band main entry |
| RecommendationProperties.ClearSkyHasNoSun | lib/recommendations.ts:112 | "clear sky" does not contain "sun" |

## Left out

- Weather lookup (`getWeatherData` in lib/weather.ts) is left out. It does network I/O and reads `process.env`. The model takes its normalised reading as input.
- The lookup's normalisation is left out. Rounding to whole degrees and km/h and the m/s to km/h conversion involve floating point. Temperature, feels-like, humidity and wind speed are modelled as integers, and precipitation as a real of which only `> 0` is read.
- JavaScript number details are left out: fractional or non-finite values, and `-0`, which prints as "0".
- Text.IntToDecimal: matches the template literal only below 10^21 in magnitude. From 10^21 on, JavaScript prints exponent notation ("1e+21"). The model's unbounded integers also do not capture the loss of integer precision above 2^53, which affects `Math.abs(temp - feelsLike)` at lib/recommendations.ts:131.
- Callers and the user interface are not part of this model: app/actions.ts, app/page.tsx and the components.
- The `icon` and `location` fields are carried in `WeatherData` but never read by the engine.
- Recommendations.GenerateClothingRecommendations is split into one method per source block instead of one body. The result and the order of pushes are the same.
- There is no determinism lemma. Dafny functions are deterministic, and the method is proved equal to a function.
