/**
 Properties of the recommendation engine, stated over the rule-by-rule
 specification `Recommended` (which the engine method is proved to
 compute): which entries appear, in what order, what each holds, and which
 inputs and preferences can change them.
 */
module RecommendationProperties {
  import opened Text
  import opened Weather
  import opened Recommendations

  /** The two categories the main-clothing rule can emit. */
  predicate IsMainCategory(c: string) {
    c == "Outerwear" || c == "Main Clothing"
  }

  /** The position of a category in the fixed rule order; 4 for any other string. */
  function Rank(c: string): nat {
    if c == "Base Layer" then 0
    else if IsMainCategory(c) then 1
    else if c == "Accessories" then 2
    else if c == "Comfort Note" then 3
    else 4
  }

  /** True when some entry of `r` has category `c`. */
  predicate HasCategory(r: seq<ClothingRecommendation>, c: string) {
    exists i :: 0 <= i < |r| && r[i].category == c
  }

  /** True when some entry of `r` has a category of rank `k`. */
  predicate HasRank(r: seq<ClothingRecommendation>, k: nat) {
    exists i :: 0 <= i < |r| && Rank(r[i].category) == k
  }

  /** Each of the five category names has its own rank. */
  lemma RankOfNames()
    ensures forall c :: Rank(c) == 0 <==> c == "Base Layer"
    ensures forall c :: Rank(c) == 1 <==> IsMainCategory(c)
    ensures forall c :: Rank(c) == 2 <==> c == "Accessories"
    ensures forall c :: Rank(c) == 3 <==> c == "Comfort Note"
  {
    assert Rank("Accessories") == 2 by {
      assert |"Accessories"| == 11;
    }
    assert Rank("Comfort Note") == 3 by {
      assert |"Comfort Note"| == 12;
    }
  }

  // ---------------------------------------------------------------------
  // Shape of the result

  /**
   Any result assembled like the engine's (an optional rank-0 entry, one
   rank-1 entry, optional rank-2 and rank-3 entries) has one to four entries
   in strictly increasing rank, each coming from one of the four parts, and
   has an entry of rank 0, 2 or 3 exactly when that part is present.
   */
  lemma ShapeOfRules(b: Option<ClothingRecommendation>, m: ClothingRecommendation,
                     a: Option<ClothingRecommendation>, c: Option<ClothingRecommendation>)
    requires b.Some? ==> Rank(b.value.category) == 0
    requires Rank(m.category) == 1
    requires a.Some? ==> Rank(a.value.category) == 2
    requires c.Some? ==> Rank(c.value.category) == 3
    ensures var r := b.AsSeq() + [m] + a.AsSeq() + c.AsSeq();
      && 1 <= |r| <= 4
      && r[|b.AsSeq()|] == m
      && (b.Some? ==> r[0] == b.value)
      && (a.Some? ==> r[|b.AsSeq()| + 1] == a.value)
      && (c.Some? ==> r[|r| - 1] == c.value)
      && (forall i :: 0 <= i < |r| ==> Rank(r[i].category) < 4)
      && (forall i, j :: 0 <= i < j < |r| ==> Rank(r[i].category) < Rank(r[j].category))
      && (HasRank(r, 0) <==> b.Some?)
      && (HasRank(r, 2) <==> a.Some?)
      && (HasRank(r, 3) <==> c.Some?)
  {
    var r := b.AsSeq() + [m] + a.AsSeq() + c.AsSeq();
    var nb := |b.AsSeq()|;
    PartPositions(b, m, a, c);
    if HasRank(r, 0) {
      var i :| 0 <= i < |r| && Rank(r[i].category) == 0;
      assert i < nb;
    }
    if HasRank(r, 2) {
      var i :| 0 <= i < |r| && Rank(r[i].category) == 2;
      assert i == nb + 1 && a.Some?;
    }
    if HasRank(r, 3) {
      var i :| 0 <= i < |r| && Rank(r[i].category) == 3;
      assert c.Some?;
    }
    if b.Some? {
      assert Rank(r[0].category) == 0;
    }
    if a.Some? {
      assert Rank(r[nb + 1].category) == 2;
    }
    if c.Some? {
      assert Rank(r[|r| - 1].category) == 3;
    }
  }

  /** Where each part lands in the concatenation of the four rules' outputs. */
  lemma PartPositions(b: Option<ClothingRecommendation>, m: ClothingRecommendation,
                      a: Option<ClothingRecommendation>, c: Option<ClothingRecommendation>)
    ensures var r := b.AsSeq() + [m] + a.AsSeq() + c.AsSeq();
      var nb := |b.AsSeq()|;
      && |r| == nb + 1 + |a.AsSeq()| + |c.AsSeq()|
      && forall i :: 0 <= i < |r| ==>
           r[i] == (if i < nb then b.value else if i == nb then m
                    else if i == nb + 1 && a.Some? then a.value else c.value)
  {
  }

  /** The base-layer rule's entry is categorised "Base Layer". */
  lemma BaseLayerCategory(temp: int)
    ensures BaseLayer(temp).Some? ==> BaseLayer(temp).value.category == "Base Layer"
  {
  }

  /** The main-clothing rule's entry is "Outerwear" at or below 0 and "Main Clothing" above. */
  lemma MainClothingCategory(temp: int, style: Style)
    ensures MainClothing(temp, style).category == if temp <= 0 then "Outerwear" else "Main Clothing"
  {
  }

  /** The accessories rule's entry is categorised "Accessories". */
  lemma AccessoriesCategory(w: WeatherData)
    ensures AccessoriesRule(w).Some? ==> AccessoriesRule(w).value.category == "Accessories"
  {
  }

  /** The comfort rule's entry is categorised "Comfort Note". */
  lemma ComfortNoteCategory(w: WeatherData)
    ensures ComfortNote(w).Some? ==> ComfortNote(w).value.category == "Comfort Note"
  {
  }

  /** The engine's result has the shape of `ShapeOfRules`. */
  lemma RecommendedShape(w: WeatherData, p: UserPreferences)
    ensures var b, m := BaseLayer(w.temperature), MainClothing(w.temperature, p.style);
      var a, c := AccessoriesRule(w), ComfortNote(w);
      var r := Recommended(w, p);
      && r == b.AsSeq() + [m] + a.AsSeq() + c.AsSeq()
      && 1 <= |r| <= 4
      && r[|b.AsSeq()|] == m
      && (b.Some? ==> r[0] == b.value)
      && (a.Some? ==> r[|b.AsSeq()| + 1] == a.value)
      && (c.Some? ==> r[|r| - 1] == c.value)
      && (forall i :: 0 <= i < |r| ==> Rank(r[i].category) < 4)
      && (forall i, j :: 0 <= i < j < |r| ==> Rank(r[i].category) < Rank(r[j].category))
      && (HasCategory(r, "Base Layer") <==> b.Some?)
      && (HasCategory(r, "Accessories") <==> a.Some?)
      && (HasCategory(r, "Comfort Note") <==> c.Some?)
  {
    var b, m := BaseLayer(w.temperature), MainClothing(w.temperature, p.style);
    var a, c := AccessoriesRule(w), ComfortNote(w);
    var r := Recommended(w, p);
    RankOfNames();
    BaseLayerCategory(w.temperature);
    MainClothingCategory(w.temperature, p.style);
    AccessoriesCategory(w);
    ComfortNoteCategory(w);
    ShapeOfRules(b, m, a, c);
    HasCategoryIffRank(r, "Base Layer", 0);
    HasCategoryIffRank(r, "Accessories", 2);
    HasCategoryIffRank(r, "Comfort Note", 3);
  }

  /** For a name that is the only one of its rank, having that category is having that rank. */
  lemma HasCategoryIffRank(r: seq<ClothingRecommendation>, name: string, k: nat)
    requires forall c :: Rank(c) == k <==> c == name
    ensures HasCategory(r, name) <==> HasRank(r, k)
  {
    if HasCategory(r, name) {
      var i :| 0 <= i < |r| && r[i].category == name;
      assert Rank(r[i].category) == k;
    }
    if HasRank(r, k) {
      var i :| 0 <= i < |r| && Rank(r[i].category) == k;
      assert r[i].category == name;
    }
  }

  /**
   Entries appear in the order base layer, main clothing or outerwear,
   accessories, comfort note, each at most once, so there are one to four of
   them, and every category is one of the five the rules use.
   */
  lemma CategoriesInRuleOrder(w: WeatherData, p: UserPreferences)
    ensures var r := Recommended(w, p);
      && 1 <= |r| <= 4
      && (forall i :: 0 <= i < |r| ==> Rank(r[i].category) < 4)
      && (forall i, j :: 0 <= i < j < |r| ==> Rank(r[i].category) < Rank(r[j].category))
  {
    RecommendedShape(w, p);
  }

  /**
   Exactly one entry comes from the main-clothing rule: it sits right after
   the optional base layer, it is "Outerwear" exactly when the temperature is
   at most 0, and no other entry has either main category.
   */
  lemma ExactlyOneMainEntry(w: WeatherData, p: UserPreferences)
    ensures var r := Recommended(w, p);
      var k := |BaseLayer(w.temperature).AsSeq()|;
      && k < |r|
      && r[k] == MainClothing(w.temperature, p.style)
      && IsMainCategory(r[k].category)
      && (r[k].category == "Outerwear" <==> w.temperature <= 0)
      && (forall i :: 0 <= i < |r| && i != k ==> !IsMainCategory(r[i].category))
  {
    var r := Recommended(w, p);
    var k := |BaseLayer(w.temperature).AsSeq()|;
    RecommendedShape(w, p);
    RankOfNames();
    MainClothingCategory(w.temperature, p.style);
    forall i | 0 <= i < |r| && i != k
      ensures !IsMainCategory(r[i].category)
    {
      if i < k {
        assert Rank(r[i].category) < Rank(r[k].category);
      } else {
        assert Rank(r[k].category) < Rank(r[i].category);
      }
    }
  }

  /** The bands are mutually exclusive: a temperature lies in no band other than its own. */
  lemma BandsExclusive(b: Band, temp: int)
    requires InBand(b, temp)
    ensures b == BandOf(temp)
  {
  }

  // ---------------------------------------------------------------------
  // Base layer

  /**
   A base layer is recommended exactly when the temperature is at most 10. It
   comes first; at or below 0 (0 included) it holds the three freezing items,
   above 0 the two cold items.
   */
  lemma BaseLayerPresence(w: WeatherData, p: UserPreferences)
    ensures var r := Recommended(w, p);
      && (HasCategory(r, "Base Layer") <==> w.temperature <= 10)
      && (w.temperature <= 0 ==>
            r[0].category == "Base Layer"
            && r[0].items == ["Thermal underwear", "Wool base layer", "Warm socks"])
      && (0 < w.temperature <= 10 ==>
            r[0].category == "Base Layer"
            && r[0].items == ["Long-sleeve shirt", "Warm undergarments"])
  {
    RecommendedShape(w, p);
  }

  /** At exactly 0 degrees both temperature rules choose their freezing band. */
  lemma ZeroIsFreezing(w: WeatherData, p: UserPreferences)
    requires w.temperature == 0
    ensures var r := Recommended(w, p);
      && r[0] == FreezingBaseLayer
      && r[1].category == "Outerwear"
      && r[1].items == MainItems(Freezing, p.style)
  {
    RecommendedShape(w, p);
  }

  // ---------------------------------------------------------------------
  // Which preferences matter

  /**
   Two preference sets give results of the same length, with the same
   categories and reasoning everywhere, and with the same items everywhere
   except in the main-clothing entry: style changes nothing else.
   */
  lemma StyleOnlyChangesMainItems(w: WeatherData, p1: UserPreferences, p2: UserPreferences)
    ensures var r1, r2 := Recommended(w, p1), Recommended(w, p2);
      && |r1| == |r2|
      && (forall i :: 0 <= i < |r1| ==>
            r1[i].category == r2[i].category && r1[i].reasoning == r2[i].reasoning
            && (!IsMainCategory(r1[i].category) ==> r1[i].items == r2[i].items))
  {
    var front, a, c := BaseLayer(w.temperature).AsSeq(), AccessoriesRule(w).AsSeq(), ComfortNote(w).AsSeq();
    var m1, m2 := MainClothing(w.temperature, p1.style), MainClothing(w.temperature, p2.style);
    MainClothingCategory(w.temperature, p1.style);
    SwapMiddle(front, m1, m2, a, c);
  }

  /** Replacing the element after `front` in `front + [x] + a + c` changes no other position. */
  lemma SwapMiddle<T>(front: seq<T>, x: T, y: T, a: seq<T>, c: seq<T>)
    ensures |front + [x] + a + c| == |front + [y] + a + c|
    ensures forall i :: 0 <= i < |front + [x] + a + c| && i != |front| ==>
      (front + [x] + a + c)[i] == (front + [y] + a + c)[i]
    ensures (front + [x] + a + c)[|front|] == x && (front + [y] + a + c)[|front|] == y
  {
  }

  /** The result depends on the preferences only through the main-clothing entry. */
  lemma SameMainSameResult(w: WeatherData, p1: UserPreferences, p2: UserPreferences)
    requires MainClothing(w.temperature, p1.style) == MainClothing(w.temperature, p2.style)
    ensures Recommended(w, p1) == Recommended(w, p2)
  {
  }

  /** Gender and age group never affect the result. */
  lemma GenderAndAgeAreInert(w: WeatherData, p1: UserPreferences, p2: UserPreferences)
    requires p1.style == p2.style
    ensures Recommended(w, p1) == Recommended(w, p2)
  {
    SameMainSameResult(w, p1, p2);
  }

  /** The styles a band tells apart: 0 for the default list, 1 for sporty, 2 for professional. */
  function StyleClass(b: Band, s: Style): nat {
    if b == Hot then 0
    else if s == Sporty then 1
    else if s == Professional && (b == Mild || b == Warm) then 2
    else 0
  }

  /**
   Two styles get the same main items in a band exactly when the band does
   not tell them apart: the hottest band ignores style, the two cold bands
   single out sporty only, and the mild and warm bands single out sporty and
   professional, so "basic" and "casual" always agree.
   */
  lemma MainItemsByStyleClass(b: Band, s1: Style, s2: Style)
    ensures MainItems(b, s1) == MainItems(b, s2) <==> StyleClass(b, s1) == StyleClass(b, s2)
  {
    if StyleClass(b, s1) != StyleClass(b, s2) {
      var i1, i2 := MainItems(b, s1), MainItems(b, s2);
      assert |i1[0]| != |i2[0]| || |i1[1]| != |i2[1]|;
    }
  }

  /** "basic" and "casual" always produce identical output. */
  lemma BasicAndCasualAgree(w: WeatherData, p1: UserPreferences, p2: UserPreferences)
    requires p1.style == Basic && p2.style == Casual
    ensures Recommended(w, p1) == Recommended(w, p2)
  {
    MainItemsByStyleClass(BandOf(w.temperature), Basic, Casual);
    SameMainSameResult(w, p1, p2);
  }

  /** Above 30 degrees every style gets the same result. */
  lemma HotIgnoresStyle(w: WeatherData, p1: UserPreferences, p2: UserPreferences)
    requires w.temperature > 30
    ensures Recommended(w, p1) == Recommended(w, p2)
  {
    SameMainSameResult(w, p1, p2);
  }

  // ---------------------------------------------------------------------
  // Accessories

  /** A group is among the firing ones of `gs` exactly when it is in `gs` and fires. */
  lemma {:induction false} FiringMembers(gs: seq<AccessoryGroup>, w: WeatherData, g: AccessoryGroup)
    ensures g in Firing(gs, w) <==> g in gs && Fires(g, w)
  {
    if gs != [] {
      FiringMembers(gs[1..], w, g);
      assert gs == [gs[0]] + gs[1..];
    }
  }

  /** The items of a list of groups are empty exactly when the list is. */
  lemma {:induction false} ItemsOfEmpty(gs: seq<AccessoryGroup>)
    ensures ItemsOf(gs) == [] <==> gs == []
  {
    if gs != [] {
      assert |gs[0].Items()| > 0;
    }
  }

  /** Some group fires exactly when one of the five accessory conditions holds. */
  lemma SomeGroupFires(w: WeatherData)
    ensures FiredGroups(w) != [] <==>
      (IsRaining(w) || IsWindy(w) || Contains(w.description, "sun")
       || w.temperature > 25 || w.temperature <= 5)
  {
    var gs := FiredGroups(w);
    if gs != [] {
      FiringMembers(AccessoryOrder, w, gs[0]);
    }
    FiringMembers(AccessoryOrder, w, RainProtection);
    FiringMembers(AccessoryOrder, w, WindProtection);
    FiringMembers(AccessoryOrder, w, SunProtection);
    FiringMembers(AccessoryOrder, w, ColdProtection);
  }

  /**
   An accessories entry is recommended exactly when it rains, the wind is
   above 20 km/h, the description contains "sun", the temperature is above 25
   or it is at most 5.
   */
  lemma AccessoriesPresence(w: WeatherData, p: UserPreferences)
    ensures HasCategory(Recommended(w, p), "Accessories") <==>
      (IsRaining(w) || IsWindy(w) || Contains(w.description, "sun")
       || w.temperature > 25 || w.temperature <= 5)
  {
    RecommendedShape(w, p);
    ItemsOfEmpty(FiredGroups(w));
    SomeGroupFires(w);
  }

  /**
   The accessories items are the rain, wind, sun and cold groups' items, in
   that order, for the groups whose condition holds, without deduplication.
   */
  lemma AccessoryItemsInOrder(w: WeatherData)
    ensures ItemsOf(FiredGroups(w)) ==
      (if IsRaining(w) then RainProtection.Items() else [])
      + (if IsWindy(w) then WindProtection.Items() else [])
      + (if Contains(w.description, "sun") || w.temperature > 25 then SunProtection.Items() else [])
      + (if w.temperature <= 5 then ColdProtection.Items() else [])
  {
    CollectFromEmpty(w);
    var a0 := Accumulated([], "");
    var a1 := Step(a0, RainProtection, w);
    var a2 := Step(a1, WindProtection, w);
    var a3 := Step(a2, SunProtection, w);
    var a4 := Step(a3, ColdProtection, w);
    var x1 := if IsRaining(w) then RainProtection.Items() else [];
    var x2 := if IsWindy(w) then WindProtection.Items() else [];
    var x3 := if Fires(SunProtection, w) then SunProtection.Items() else [];
    var x4 := if Fires(ColdProtection, w) then ColdProtection.Items() else [];
    assert a1.items == x1;
    assert a2.items == x1 + x2;
    assert a3.items == x1 + x2 + x3;
    assert a4.items == x1 + x2 + x3 + x4;
  }

  /** A reasoning sentence is non-empty and starts and ends with a visible character. */
  lemma ReasonIsTrimmed(g: AccessoryGroup)
    ensures var s := g.Reason();
      s != "" && !IsWhiteSpace(s[0]) && !IsWhiteSpace(s[|s| - 1])
  {
    var s := g.Reason();
    match g
    case RainProtection => assert s[0] == 'R' && s[|s| - 1] == '.';
    case WindProtection => assert s[0] == 'W' && s[|s| - 1] == '.';
    case SunProtection => assert s[0] == 'S' && s[|s| - 1] == '.';
    case ColdProtection => assert s[0] == 'E' && s[|s| - 1] == '.';
  }

  /** No reasoning sentence is empty or starts or ends in white space. */
  lemma {:induction false} SentencesAreTrimmed(gs: seq<AccessoryGroup>)
    ensures var rs := ReasonsOf(gs);
      forall k :: 0 <= k < |rs| ==>
        rs[k] != "" && !IsWhiteSpace(rs[k][0]) && !IsWhiteSpace(rs[k][|rs[k]| - 1])
  {
    if gs != [] {
      SentencesAreTrimmed(gs[1..]);
      ReasonIsTrimmed(gs[0]);
      var rs := ReasonsOf(gs);
      assert rs == [gs[0].Reason()] + ReasonsOf(gs[1..]);
      forall k | 0 <= k < |rs|
        ensures rs[k] != "" && !IsWhiteSpace(rs[k][0]) && !IsWhiteSpace(rs[k][|rs[k]| - 1])
      {
        if k > 0 {
          assert rs[k] == ReasonsOf(gs[1..])[k - 1];
        }
      }
    }
  }

  /**
   The accessories reasoning is the firing groups' sentences joined by single
   spaces: the trailing space of the last fragment is exactly what the trim
   removes.
   */
  lemma AccessoryReasoningIsJoinedSentences(w: WeatherData)
    ensures AccessoriesRule(w).Some? ==>
      AccessoriesRule(w).value.reasoning == Join(ReasonsOf(FiredGroups(w)), " ")
  {
    var rs := ReasonsOf(FiredGroups(w));
    SentencesAreTrimmed(FiredGroups(w));
    TrimTerminatedIsJoin(rs);
  }

  // ---------------------------------------------------------------------
  // Comfort note

  /**
   A comfort note is recommended exactly when actual and feels-like
   temperature differ by more than 3 degrees; it is then the last entry and
   holds one item naming the feels-like temperature and humidity as the cause
   when humidity is above 70, wind chill otherwise.
   */
  lemma ComfortNotePresence(w: WeatherData, p: UserPreferences)
    ensures var r := Recommended(w, p);
      && (HasCategory(r, "Comfort Note") <==> Abs(w.temperature - w.feelsLike) > 3)
      && (Abs(w.temperature - w.feelsLike) > 3 ==>
            r[|r| - 1].category == "Comfort Note"
            && r[|r| - 1].items == ["Feels like " + IntToDecimal(w.feelsLike) + "°C due to "
                                    + (if w.humidity > 70 then "humidity" else "wind chill")])
  {
    RecommendedShape(w, p);
  }

  /** The comfort note does not look at the wind: changing only the wind speed leaves it unchanged. */
  lemma ComfortNoteIgnoresWind(w: WeatherData, windSpeed: int)
    ensures ComfortNote(w.(windSpeed := windSpeed)) == ComfortNote(w)
  {
  }

  /** The temperature in the comfort note reads back as the feels-like temperature. */
  lemma ComfortNoteNamesFeelsLike(w: WeatherData)
    requires ComfortNote(w).Some?
    ensures var item := ComfortNote(w).value.items[0];
      var digits := IntToDecimal(w.feelsLike);
      && item[..11] == "Feels like "
      && item[11..11 + |digits|] == digits
      && ParseDecimal(digits) == w.feelsLike
  {
    var digits := IntToDecimal(w.feelsLike);
    var item := ComfortNote(w).value.items[0];
    var prefix, tail := "Feels like ", "°C due to " + ComfortCause(w);
    assert item == prefix + digits + tail;
    assert |prefix| == 11;
    ConcatSlices(prefix, digits, tail);
    IntToDecimalRoundTrip(w.feelsLike);
  }

  /** The pieces of a three-part concatenation can be sliced back out. */
  lemma ConcatSlices(a: string, b: string, c: string)
    ensures (a + b + c)[..|a|] == a && (a + b + c)[|a|..|a| + |b|] == b
  {
  }

  // ---------------------------------------------------------------------
  // Every entry

  /** The accessories entry, when given, has items and a non-empty reasoning. */
  lemma AccessoriesNonEmpty(w: WeatherData)
    ensures AccessoriesRule(w).Some? ==>
      |AccessoriesRule(w).value.items| > 0 && |AccessoriesRule(w).value.reasoning| > 0
  {
    var gs := FiredGroups(w);
    if AccessoriesRule(w).Some? {
      AccessoryReasoningIsJoinedSentences(w);
      ItemsOfEmpty(gs);
      SentencesAreTrimmed(gs);
      JoinEnds(ReasonsOf(gs), " ");
    }
  }

  /** Every entry has at least one item and a non-empty reasoning. */
  lemma EntriesAreNonEmpty(w: WeatherData, p: UserPreferences)
    ensures var r := Recommended(w, p);
      forall i :: 0 <= i < |r| ==> |r[i].items| > 0 && |r[i].reasoning| > 0
  {
    AccessoriesNonEmpty(w);
    FixedEntriesNonEmpty(w, p.style);
    NonEmptyParts(BaseLayer(w.temperature), MainClothing(w.temperature, p.style),
                  AccessoriesRule(w), ComfortNote(w));
  }

  /** The base-layer, main-clothing and comfort entries all have items and reasoning. */
  lemma FixedEntriesNonEmpty(w: WeatherData, style: Style)
    ensures var b, m, c := BaseLayer(w.temperature), MainClothing(w.temperature, style), ComfortNote(w);
      && (b.Some? ==> |b.value.items| > 0 && |b.value.reasoning| > 0)
      && |m.items| > 0 && |m.reasoning| > 0
      && (c.Some? ==> |c.value.items| > 0 && |c.value.reasoning| > 0)
  {
    MainClothingNonEmpty(BandOf(w.temperature), style);
  }

  /** Every band's main entry, for every style, has items and reasoning. */
  lemma MainClothingNonEmpty(b: Band, style: Style)
    ensures |MainItems(b, style)| > 0 && |MainReasoning(b)| > 0
  {
    match b
    case Freezing =>
    case Cold =>
    case Mild =>
    case Warm =>
    case Hot =>
  }

  /** When every part has items and reasoning, so does every entry of their concatenation. */
  lemma NonEmptyParts(b: Option<ClothingRecommendation>, m: ClothingRecommendation,
                      a: Option<ClothingRecommendation>, c: Option<ClothingRecommendation>)
    requires b.Some? ==> |b.value.items| > 0 && |b.value.reasoning| > 0
    requires |m.items| > 0 && |m.reasoning| > 0
    requires a.Some? ==> |a.value.items| > 0 && |a.value.reasoning| > 0
    requires c.Some? ==> |c.value.items| > 0 && |c.value.reasoning| > 0
    ensures var r := b.AsSeq() + [m] + a.AsSeq() + c.AsSeq();
      forall i :: 0 <= i < |r| ==> |r[i].items| > 0 && |r[i].reasoning| > 0
  {
  }

  // ---------------------------------------------------------------------
  // Worked examples

  /** Rain, a 25 km/h wind and 28 degrees under a "clear sky" fire the rain, wind and sun groups. */
  lemma RainWindHeatGroups()
    ensures FiredGroups(WeatherData(28, 28, 50, 25, "clear sky", "01d", 2.0, "Somewhere, XX"))
      == [RainProtection, WindProtection, SunProtection]
  {
    var w := WeatherData(28, 28, 50, 25, "clear sky", "01d", 2.0, "Somewhere, XX");
    var o := AccessoryOrder;
    assert Fires(RainProtection, w) && Fires(WindProtection, w) && Fires(SunProtection, w);
    assert !Fires(ColdProtection, w);
    assert o[1..] == [WindProtection, SunProtection, ColdProtection];
    assert o[1..][1..] == [SunProtection, ColdProtection];
    assert o[1..][1..][1..] == [ColdProtection];
    assert o[1..][1..][1..][1..] == [];
  }

  /**
   Whenever exactly the rain, wind and sun groups fire, the accessories entry
   holds their items in that order, and its reasoning is their three
   sentences joined by single spaces with no trailing space.
   */
  lemma RainWindSunEntry(w: WeatherData)
    requires FiredGroups(w) == [RainProtection, WindProtection, SunProtection]
    ensures AccessoriesRule(w) == Some(ClothingRecommendation(
        "Accessories",
        RainProtection.Items() + WindProtection.Items() + SunProtection.Items(),
        RainProtection.Reason() + " " + WindProtection.Reason() + " " + SunProtection.Reason()))
  {
    var gs := FiredGroups(w);
    var r, wi, su := RainProtection, WindProtection, SunProtection;
    AccessoryReasoningIsJoinedSentences(w);
    ThreeGroups(r, wi, su);
    JoinThree(r.Reason(), wi.Reason(), su.Reason(), " ");
  }

  /** The items and sentences of a three-group list, spelled out. */
  lemma ThreeGroups(g1: AccessoryGroup, g2: AccessoryGroup, g3: AccessoryGroup)
    ensures ItemsOf([g1, g2, g3]) == g1.Items() + g2.Items() + g3.Items()
    ensures ReasonsOf([g1, g2, g3]) == [g1.Reason(), g2.Reason(), g3.Reason()]
  {
    assert [g1, g2, g3] == [g1] + [g2, g3];
    assert [g2, g3] == [g2] + [g3];
    assert [g3] == [g3] + [];
    ItemsOfCons(g1, [g2, g3]);
    ItemsOfCons(g2, [g3]);
    ItemsOfCons(g3, []);
    AppendAssoc(g1.Items(), g2.Items(), g3.Items());
    assert ReasonsOf([g3]) == [g3.Reason()];
    assert ReasonsOf([g2, g3]) == [g2.Reason(), g3.Reason()];
  }

  /** Joining three parts puts the separator between the first two and between the last two. */
  lemma JoinThree(a: string, b: string, c: string, sep: string)
    ensures Join([a, b, c], sep) == a + sep + b + sep + c
  {
    assert [a, b, c][1..] == [b, c];
    assert [b, c][1..] == [c];
    assert Join([b, c], sep) == b + sep + c;
    assert Join([a, b, c], sep) == a + sep + (b + sep + c);
    AppendAssoc(a + sep, b + sep, c);
    AppendAssoc(a + sep, b, sep);
  }

  /** 2 mm of rain, a 25 km/h wind and 28 degrees under a "clear sky": rain, wind and sun protection. */
  lemma RainWindHeatExample()
    ensures var w := WeatherData(28, 28, 50, 25, "clear sky", "01d", 2.0, "Somewhere, XX");
      AccessoriesRule(w) == Some(ClothingRecommendation(
        "Accessories",
        RainProtection.Items() + WindProtection.Items() + SunProtection.Items(),
        RainProtection.Reason() + " " + WindProtection.Reason() + " " + SunProtection.Reason()))
  {
    RainWindHeatGroups();
    RainWindSunEntry(WeatherData(28, 28, 50, 25, "clear sky", "01d", 2.0, "Somewhere, XX"));
  }

  /** 10 degrees feeling like 4 at 80% humidity: the note gives 4 and blames humidity. */
  lemma HumidComfortExample()
    ensures var w := WeatherData(10, 4, 80, 5, "mist", "50d", 0.0, "Somewhere, XX");
      ComfortNote(w) == Some(ClothingRecommendation(
        "Comfort Note", ["Feels like " + "4" + "°C due to " + "humidity"], ComfortReasoning))
  {
    assert IntToDecimal(4) == "4";
  }

  /** 15 degrees feeling like 17: no comfort note. */
  lemma SmallDifferenceExample(p: UserPreferences)
    ensures var w := WeatherData(15, 17, 50, 5, "few clouds", "02d", 0.0, "Somewhere, XX");
      !HasCategory(Recommended(w, p), "Comfort Note")
  {
    var w := WeatherData(15, 17, 50, 5, "few clouds", "02d", 0.0, "Somewhere, XX");
    RecommendedShape(w, p);
  }

  /**
   A day in the warm band up to 25 degrees, dry, calm, without "sun" in its
   description and feeling within 3 degrees of the actual temperature gets
   the warm-band main clothing and nothing else.
   */
  lemma QuietWarmDay(w: WeatherData, p: UserPreferences)
    requires 20 < w.temperature <= 25 && !IsRaining(w) && !IsWindy(w)
    requires !Contains(w.description, "sun") && Abs(w.temperature - w.feelsLike) <= 3
    ensures Recommended(w, p) == [ClothingRecommendation("Main Clothing", MainItems(Warm, p.style), MainReasoning(Warm))]
  {
    SomeGroupFires(w);
    ItemsOfEmpty(FiredGroups(w));
  }

  /**
   22 degrees feeling like 21, 60% humidity, 11 km/h, "clear sky", no rain:
   22 lies in the warm band, so the only entry is the warm-band main clothing.
   */
  lemma ClearWarmDayExample(p: UserPreferences)
    ensures var w := WeatherData(22, 21, 60, 11, "clear sky", "01d", 0.0, "Paris, FR");
      Recommended(w, p) == [ClothingRecommendation("Main Clothing", MainItems(Warm, p.style), MainReasoning(Warm))]
  {
    ClearSkyHasNoSun();
    QuietWarmDay(WeatherData(22, 21, 60, 11, "clear sky", "01d", 0.0, "Paris, FR"), p);
  }

  /** Where the letters 's' and 'k' sit in "clear sky". */
  lemma ClearSkyLetters()
    ensures var s: string := "clear sky";
      |s| == 9 && s[7] == 'k' && forall i :: 0 <= i < 9 && s[i] == 's' ==> i == 6
  {
  }

  /** An occurrence of `sub` at `i` puts its first two characters at `i` and `i + 1`. */
  lemma OccursAtStarts(s: string, sub: string, i: int)
    requires OccursAt(s, sub, i) && |sub| >= 2
    ensures s[i] == sub[0] && s[i + 1] == sub[1]
  {
    assert s[i..i + |sub|][0] == s[i] && s[i..i + |sub|][1] == s[i + 1];
  }

  /** "clear sky" does not contain "sun". */
  lemma ClearSkyHasNoSun()
    ensures !Contains("clear sky", "sun")
  {
    var s: string := "clear sky";
    ContainsIffOccurs(s, "sun");
    if i :| OccursAt(s, "sun", i) {
      ClearSkyLetters();
      OccursAtStarts(s, "sun", i);
      assert false;
    }
  }
}
