// The Sales Lab reference tables: customer personas, difficulty levels,
// trait definitions, the product catalog, size-upsell triggers and the
// per-trait product-family weights the recommendation rules consume.
module SalesLabData {
  import opened Wrappers
  import opened Assoc
  import JsText

  datatype Persona = Persona(
    id: string,
    name: string,
    ageGroup: string,
    gender: string,
    surfaceTraits: seq<string>)

  datatype DifficultyLevel = DifficultyLevel(level: int, caption: string)

  datatype TraitDefinition = TraitDefinition(caption: string)

  /** One catalog model; `tier` is the source's `type` field. */
  datatype ProductModel = ProductModel(
    id: string,
    name: string,
    sizes: seq<int>,
    basePrice: int,
    tier: string)

  datatype UpsellTrigger = UpsellTrigger(recommendedSizes: seq<int>)

  /** A row of `TRAIT_WEIGHTS`: points added to each product family. */
  datatype Weights = Weights(oled: int, mrgb: int, qned: int, uhd: int)

  const Personas: seq<Persona> := [
    Persona("budget_seeker", "Budget Seeker", "20s", "Male", ["Price-sensitive", "Quick-decider"]),
    Persona("tech_expert", "Tech Expert Pro", "30s", "Male", ["Tech-oriented", "Deliberate", "Gamer-oriented"]),
    Persona("brand_loyalist", "Brand Loyalist", "40s", "Female", ["Brand-focused", "Design-focused"]),
    Persona("premium_lifestyle", "Premium Lifestyle", "50s", "Male", ["Brand-focused", "Quick-decider"]),
    Persona("family_user", "Family User", "40s", "Female", ["Family-oriented", "Durability-focused"]),
    Persona("hardcore_gamer", "Hardcore Gamer", "20s", "Male", ["Gamer-oriented", "Tech-oriented"]),
    Persona("senior_simple", "Senior Simple User", "60s+", "Male", ["UI-simplicity", "Brand-focused"]),
    Persona("bright_room", "Bright Room Consumer", "30s", "Female", ["Environment-sensitive", "Design-focused"]),
    Persona("design_first", "Design-First Shopper", "30s", "Female", ["Design-focused", "Brand-focused"]),
    Persona("durability_first", "Durability First", "50s", "Male", ["Durability-focused", "Price-sensitive"]),
    Persona("second_room", "2nd Room Buyer", "40s", "Male", ["Price-sensitive", "UI-simplicity"]),
    Persona("review_skeptic", "Review-Driven Skeptic", "30s", "Male", ["Tech-oriented", "Deliberate"]),
    Persona("movie_lover", "Movie Lover", "30s", "Female", ["Movie-lover", "Design-focused"]),
    Persona("sports_fan", "Sports Mania", "40s", "Male", ["Sports-fan", "Social-host"])
  ]

  const DifficultyLevels: seq<DifficultyLevel> := [
    DifficultyLevel(1, "Lv1 Friendly"),
    DifficultyLevel(2, "Lv2 Balanced"),
    DifficultyLevel(3, "Lv3 Challenging"),
    DifficultyLevel(4, "Lv4 Hard"),
    DifficultyLevel(5, "Lv5 Expert")
  ]

  const TraitDefinitions: seq<(string, TraitDefinition)> := [
    ("Price-sensitive", TraitDefinition("Price-sensitive")),
    ("Quick-decider", TraitDefinition("Quick-decider")),
    ("Tech-oriented", TraitDefinition("Tech-oriented")),
    ("Deliberate", TraitDefinition("Deliberate")),
    ("Gamer-oriented", TraitDefinition("Gamer-oriented")),
    ("Brand-focused", TraitDefinition("Brand-focused")),
    ("Design-focused", TraitDefinition("Design-focused")),
    ("Family-oriented", TraitDefinition("Family-oriented")),
    ("Durability-focused", TraitDefinition("Durability-focused")),
    ("UI-simplicity", TraitDefinition("UI-simplicity")),
    ("Environment-sensitive", TraitDefinition("Environment-sensitive")),
    ("Movie-lover", TraitDefinition("Movie-lover")),
    ("Sports-fan", TraitDefinition("Sports-fan")),
    ("Social-host", TraitDefinition("Social-host"))
  ]

  /** `ALL_TRAITS = Object.keys(TRAIT_DEFINITIONS)`. */
  function AllTraits(): seq<string>
  {
    Keys(TraitDefinitions)
  }

  const ProductTypes: seq<string> := ["TV", "Soundbar", "Monitor", "Projector"]

  const ProductCategories: seq<(string, seq<string>)> := [
    ("TV", ["OLED", "QNED", "UHD", "Micro LED"])
  ]

  const ProductModels: seq<(string, seq<ProductModel>)> := [
    ("OLED", [
      ProductModel("oled_g5", "LG OLED evo G5", [55, 65, 77, 83, 97], 2800, "Premium"),
      ProductModel("oled_c5", "LG OLED evo C5", [42, 48, 55, 65, 77, 83], 1800, "Mainstream"),
      ProductModel("oled_b5", "LG OLED B5", [55, 65, 77], 1500, "Entry")]),
    ("QNED", [
      ProductModel("qned_99", "LG QNED 99 (8K)", [75, 86], 3500, "Premium"),
      ProductModel("qned_90", "LG QNED 90", [65, 75, 86], 1600, "Mainstream"),
      ProductModel("qned_85", "LG QNED 85", [55, 65, 75, 86], 1300, "Entry")]),
    ("UHD", [
      ProductModel("uhd_80", "LG UHD 80", [43, 50, 55, 65, 75, 86], 600, "Entry"),
      ProductModel("uhd_75", "LG UHD 75", [43, 50, 55, 65, 75], 500, "Budget")]),
    ("Micro LED", [
      ProductModel("magnit", "LG MAGNIT", [136], 20000, "Luxury")])
  ]

  const UpsellTriggers: seq<(string, UpsellTrigger)> := [
    ("budget_seeker", UpsellTrigger([65, 75])),
    ("tech_expert", UpsellTrigger([77, 83, 86])),
    ("brand_loyalist", UpsellTrigger([77, 83, 97])),
    ("premium_lifestyle", UpsellTrigger([83, 97, 136])),
    ("family_user", UpsellTrigger([75, 86])),
    ("hardcore_gamer", UpsellTrigger([65, 77, 83])),
    ("senior_simple", UpsellTrigger([65, 75])),
    ("bright_room", UpsellTrigger([75, 86])),
    ("design_first", UpsellTrigger([77, 83, 97])),
    ("durability_first", UpsellTrigger([65, 75])),
    ("second_room", UpsellTrigger([48, 55])),
    ("review_skeptic", UpsellTrigger([77, 83, 86])),
    ("movie_lover", UpsellTrigger([77, 83, 97])),
    ("sports_fan", UpsellTrigger([75, 86])),
    ("social_host", UpsellTrigger([75, 86, 97]))
  ]

  const TraitWeights: seq<(string, Weights)> := [
    ("price_sensitive", Weights(-2, -1, 1, 3)),
    ("tech_oriented", Weights(2, 2, 1, 0)),
    ("design_focused", Weights(3, 2, 1, 0)),
    ("family_oriented", Weights(1, 2, 2, 1)),
    ("quick_decider", Weights(0, 1, 1, 2)),
    ("deliberate", Weights(1, 1, 1, 0)),
    ("gamer_oriented", Weights(3, 2, 1, 0)),
    ("ui_simplicity", Weights(0, 0, 0, 0)),
    ("environment_sensitive", Weights(0, 3, 2, 1)),
    ("durability_focused", Weights(0, 2, 2, 1)),
    ("movie_lover", Weights(3, 1, 0, 0)),
    ("sports_fan", Weights(1, 3, 3, 1)),
    ("social_host", Weights(2, 2, 3, 1))
  ]

  const Ages: seq<string> := ["20s", "30s", "40s", "50s", "60s+"]

  const Genders: seq<string> := ["Male", "Female", "Other"]

  /** `key.toLowerCase().replace(/-/g, '_')`: the recommendation id of a
    * trait definition key. */
  function SnakeKey(key: string): (r: string)
    ensures |r| == |key|
    ensures forall i :: 0 <= i < |r| ==> r[i] != '-' && !('A' <= r[i] <= 'Z')
  {
    JsText.ReplaceChar(JsText.Lower(key), '-', '_')
  }

  predicate StrictlyAscending(s: seq<int>)
  {
    forall i, j :: 0 <= i < j < |s| ==> s[i] < s[j]
  }

  /** `ALL_TRAITS` is exactly the fourteen definition keys, in declaration order. */
  lemma AllTraitsInOrder()
    ensures AllTraits() == [
      "Price-sensitive", "Quick-decider", "Tech-oriented", "Deliberate",
      "Gamer-oriented", "Brand-focused", "Design-focused", "Family-oriented",
      "Durability-focused", "UI-simplicity", "Environment-sensitive",
      "Movie-lover", "Sports-fan", "Social-host"]
    ensures |AllTraits()| == 14
  {
  }

  /** Every persona's surface traits are trait definition keys. */
  lemma PersonaTraitsDefined()
    ensures forall i, k :: 0 <= i < |Personas| && 0 <= k < |Personas[i].surfaceTraits| ==>
      Personas[i].surfaceTraits[k] in AllTraits()
  {
    AllTraitsInOrder();
  }

  /** Every persona has two surface traits except tech_expert, which has three. */
  lemma PersonaTraitCounts()
    ensures forall i :: 0 <= i < |Personas| ==>
      |Personas[i].surfaceTraits| == (if Personas[i].id == "tech_expert" then 3 else 2)
  {
  }

  /** The persona ids, in `PERSONAS` order. */
  function PersonaIds(): (r: seq<string>)
    ensures |r| == |Personas|
    ensures forall i :: 0 <= i < |Personas| ==> r[i] == Personas[i].id
  {
    seq(|Personas|, i requires 0 <= i < |Personas| => Personas[i].id)
  }

  /** The upsell table lists every persona id, in persona order, and then
    * one extra key, social_host, which is no persona's id. So every persona
    * has an upsell trigger. */
  lemma UpsellTriggerKeys()
    ensures |UpsellTriggers| == |Personas| + 1
    ensures forall i :: 0 <= i < |Personas| ==> UpsellTriggers[i].0 == Personas[i].id
    ensures UpsellTriggers[|Personas|].0 == "social_host"
    ensures forall i :: 0 <= i < |Personas| ==> Personas[i].id != "social_host"
  {
  }

  /** Difficulty levels are exactly 1 to 5, in increasing order. */
  lemma DifficultyLevelsOneToFive()
    ensures |DifficultyLevels| == 5
    ensures forall i :: 0 <= i < |DifficultyLevels| ==> DifficultyLevels[i].level == i + 1
  {
  }

  /** Each size is smaller than the next one. */
  predicate AdjacentAscending(s: seq<int>)
  {
    forall k :: 0 <= k < |s| - 1 ==> s[k] < s[k + 1]
  }

  /** Checking neighbours is enough: a list whose neighbours ascend is
    * strictly ascending throughout. */
  lemma {:induction false} AdjacentAscendingIsStrict(s: seq<int>)
    requires AdjacentAscending(s)
    ensures StrictlyAscending(s)
  {
    forall i, j | 0 <= i < j < |s| ensures s[i] < s[j] {
      AscendingBetween(s, i, j);
    }
  }

  lemma {:induction false} AscendingBetween(s: seq<int>, i: int, j: int)
    requires AdjacentAscending(s) && 0 <= i < j < |s|
    ensures s[i] < s[j]
    decreases j - i
  {
    if i + 1 < j {
      AscendingBetween(s, i + 1, j);
    }
  }

  predicate ModelWellFormed(m: ProductModel)
  {
    |m.sizes| > 0 && AdjacentAscending(m.sizes) && m.basePrice > 0
  }

  /** Every catalog model offers at least one size, its sizes strictly
    * ascend, and its base price is positive. */
  lemma CatalogModelsWellFormed()
    ensures forall i, j :: 0 <= i < |ProductModels| && 0 <= j < |ProductModels[i].1| ==>
      var m := ProductModels[i].1[j];
      |m.sizes| > 0 && StrictlyAscending(m.sizes) && m.basePrice > 0
  {
    forall i, j | 0 <= i < |ProductModels| && 0 <= j < |ProductModels[i].1|
      ensures ModelWellFormed(ProductModels[i].1[j])
    {
    }
    forall i, j | 0 <= i < |ProductModels| && 0 <= j < |ProductModels[i].1|
      ensures StrictlyAscending(ProductModels[i].1[j].sizes)
    {
      AdjacentAscendingIsStrict(ProductModels[i].1[j].sizes);
    }
  }

  /** Only the TV type has a category list; the lookup for the other types
    * is undefined. */
  lemma CategoriesOnlyForTv()
    ensures Lookup(ProductCategories, "TV") == Some(["OLED", "QNED", "UHD", "Micro LED"])
    ensures forall t :: t in ProductTypes && t != "TV" ==> Lookup(ProductCategories, t).None?
  {
  }

  lemma SnakeKeysPriceQuick()
    ensures SnakeKey("Price-sensitive") == "price_sensitive"
    ensures SnakeKey("Quick-decider") == "quick_decider"
  {
  }

  lemma SnakeKeysTechDeliberate()
    ensures SnakeKey("Tech-oriented") == "tech_oriented"
    ensures SnakeKey("Deliberate") == "deliberate"
  {
  }

  lemma SnakeKeysGamerBrand()
    ensures SnakeKey("Gamer-oriented") == "gamer_oriented"
    ensures SnakeKey("Brand-focused") == "brand_focused"
  {
  }

  lemma SnakeKeysDesignFamily()
    ensures SnakeKey("Design-focused") == "design_focused"
    ensures SnakeKey("Family-oriented") == "family_oriented"
  {
  }

  lemma SnakeKeysDurabilityUi()
    ensures SnakeKey("Durability-focused") == "durability_focused"
    ensures SnakeKey("UI-simplicity") == "ui_simplicity"
  {
  }

  lemma SnakeKeysEnvironmentMovie()
    ensures SnakeKey("Environment-sensitive") == "environment_sensitive"
    ensures SnakeKey("Movie-lover") == "movie_lover"
  {
  }

  lemma SnakeKeysSportsSocial()
    ensures SnakeKey("Sports-fan") == "sports_fan"
    ensures SnakeKey("Social-host") == "social_host"
  {
  }

  /** The weight table has a row for the snake-cased id of every trait key
    * except Brand-focused, which has none; there are thirteen rows. */
  lemma WeightsForEveryTraitButBrand()
    ensures forall i :: 0 <= i < |AllTraits()| ==>
      (SnakeKey(AllTraits()[i]) in Keys(TraitWeights) <==> AllTraits()[i] != "Brand-focused")
    ensures |TraitWeights| == |AllTraits()| - 1
  {
    AllTraitsInOrder();
    SnakeKeysPriceQuick();
    SnakeKeysTechDeliberate();
    SnakeKeysGamerBrand();
    SnakeKeysDesignFamily();
    SnakeKeysDurabilityUi();
    SnakeKeysEnvironmentMovie();
    SnakeKeysSportsSocial();
    // Row index of each trait key, -1 for Brand-focused.
    var row := [0, 4, 1, 5, 6, -1, 2, 3, 9, 7, 8, 10, 11, 12];
    forall i | 0 <= i < |AllTraits()|
      ensures SnakeKey(AllTraits()[i]) in Keys(TraitWeights) <==> AllTraits()[i] != "Brand-focused"
    {
      if i == 5 {
        assert "brand_focused" !in Keys(TraitWeights);
      } else {
        assert Keys(TraitWeights)[row[i]] == SnakeKey(AllTraits()[i]);
      }
    }
  }
}
