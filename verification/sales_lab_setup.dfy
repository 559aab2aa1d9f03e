// The Sales Lab setup screen: the trainee picks up to two customer traits
// (or a persona preset), a product and a size. The screen derives the
// persona those traits match, the trait ids the recommendation rules use,
// the product-family and upsell recommendations, and which sizes to
// highlight; starting hands a configuration to the page.
module SalesLabSetup {
  import opened Wrappers
  import opened Assoc
  import opened SeqFilter
  import JsText
  import opened SalesLabData
  import opened RecommendationEngine

  /** Every surface trait of the persona is among the selected traits. */
  predicate Covers(p: Persona, selected: seq<string>)
  {
    forall k :: 0 <= k < |p.surfaceTraits| ==> p.surfaceTraits[k] in selected
  }

  function CoveredBy(selected: seq<string>): Persona -> bool
  {
    (p: Persona) => Covers(p, selected)
  }

  /** `matchedPersona`: the first persona whose surface traits are all
    * selected, or null. */
  function MatchedPersona(selected: seq<string>): (r: Option<Persona>)
    ensures r.Some? ==> r.value in Personas && Covers(r.value, selected)
  {
    var k := FindIndex(CoveredBy(selected), Personas);
    if k == -1 then None else Some(Personas[k])
  }

  /** No persona matches exactly when no persona is covered. */
  lemma MatchedPersonaNone(selected: seq<string>)
    ensures MatchedPersona(selected).None? <==>
      forall i :: 0 <= i < |Personas| ==> !Covers(Personas[i], selected)
  {
    FindIndexMissing(CoveredBy(selected), Personas);
  }

  /** The first covered persona, in table order, is the one matched. */
  lemma MatchedPersonaIsFirst(selected: seq<string>, i: nat)
    requires i < |Personas| && Covers(Personas[i], selected)
    requires forall j :: 0 <= j < i ==> !Covers(Personas[j], selected)
    ensures MatchedPersona(selected) == Some(Personas[i])
  {
    FindIndexIs(CoveredBy(selected), Personas, i);
  }

  /** The recommendation id of a selected trait (`mappedTraits`): a
    * definition key is lower-cased with hyphens turned into underscores;
    * any other text also has its spaces turned into underscores. */
  function MappedTraitId(t: string): (id: string)
    ensures |id| == |t|
  {
    if t in AllTraits() then JsText.ReplaceChar(JsText.Lower(t), '-', '_')
    else JsText.ReplaceChar(JsText.ReplaceChar(JsText.Lower(t), ' ', '_'), '-', '_')
  }

  /** The trait id `handleStart` sends: lower-cased, with spaces and
    * hyphens turned into underscores, whatever the text. */
  function StartTraitId(t: string): (id: string)
    ensures |id| == |t|
    ensures forall i :: 0 <= i < |id| ==> id[i] != ' ' && id[i] != '-' && !('A' <= id[i] <= 'Z')
  {
    JsText.ReplaceChar(JsText.ReplaceChar(JsText.Lower(t), ' ', '_'), '-', '_')
  }

  function MappedTraits(selected: seq<string>): (r: seq<Trait>)
    ensures |r| == |selected|
  {
    seq(|selected|, i requires 0 <= i < |selected| => Trait(MappedTraitId(selected[i])))
  }

  lemma NoSpaceInKeys1(t: string)
    requires t in ["Price-sensitive", "Quick-decider", "Tech-oriented", "Deliberate", "Gamer-oriented"]
    ensures ' ' !in t
  {
  }

  lemma NoSpaceInKeys2(t: string)
    requires t in ["Brand-focused", "Design-focused", "Family-oriented", "Durability-focused", "UI-simplicity"]
    ensures ' ' !in t
  {
  }

  lemma NoSpaceInKeys3(t: string)
    requires t in ["Environment-sensitive", "Movie-lover", "Sports-fan", "Social-host"]
    ensures ' ' !in t
  {
  }

  /** No trait definition key contains a space. */
  lemma TraitKeysHaveNoSpace(t: string)
    requires t in AllTraits()
    ensures ' ' !in t
  {
    AllTraitsInOrder();
    var i :| 0 <= i < |AllTraits()| && AllTraits()[i] == t;
    if i < 5 {
      NoSpaceInKeys1(t);
    } else if i < 10 {
      NoSpaceInKeys2(t);
    } else {
      NoSpaceInKeys3(t);
    }
  }

  /** The two mappings agree on every text: the screen's recommendations
    * and the started session use the same trait ids. */
  lemma MappedAgreesWithStart(t: string)
    ensures MappedTraitId(t) == StartTraitId(t)
  {
    if t in AllTraits() {
      TraitKeysHaveNoSpace(t);
      var lower := JsText.Lower(t);
      assert JsText.ReplaceChar(lower, ' ', '_') == lower by {
        forall i | 0 <= i < |lower| ensures lower[i] != ' ' {
          assert t[i] in t;
        }
      }
    }
  }

  /** A definition key maps to its snake-cased key, which has a weight row
    * unless the trait is Brand-focused. */
  lemma KnownTraitWeights(t: string)
    requires t in AllTraits()
    ensures MappedTraitId(t) == SnakeKey(t)
    ensures MappedTraitId(t) in Keys(TraitWeights) <==> t != "Brand-focused"
  {
    var i :| 0 <= i < |AllTraits()| && AllTraits()[i] == t;
    WeightsForEveryTraitButBrand();
  }

  /** `toggleTrait(trait)` on the selection: a selected trait is removed
    * (every occurrence), an unselected one is appended only while fewer
    * than two are selected. */
  function Toggled(selected: seq<string>, t: string): seq<string>
  {
    if t in selected then Filter(x => x != t, selected)
    else if |selected| >= 2 then selected
    else selected + [t]
  }

  lemma ToggleTraitFacts(selected: seq<string>, t: string, other: string)
    ensures t in selected ==> t !in Toggled(selected, t)
    ensures t in selected && other != t ==>
      multiset(Toggled(selected, t))[other] == multiset(selected)[other]
    ensures t !in selected && |selected| < 2 ==> Toggled(selected, t) == selected + [t]
    ensures t !in selected && |selected| >= 2 ==> Toggled(selected, t) == selected
  {
    FilterMembership(x => x != t, selected, t);
    FilterCount(x => x != t, selected, other);
  }

  /** Starting from at most two traits, toggling never selects more than
    * two. */
  lemma ToggleKeepsCap(selected: seq<string>, t: string)
    requires |selected| <= 2
    ensures |Toggled(selected, t)| <= 2
  {
  }

  /** The tech_expert preset selects three traits, more than toggling
    * allows; toggling a fourth trait then changes nothing. */
  lemma PresetBypassesCap(t: string)
    requires t !in Personas[1].surfaceTraits
    ensures Personas[1].id == "tech_expert" && |Personas[1].surfaceTraits| == 3
    ensures Toggled(Personas[1].surfaceTraits, t) == Personas[1].surfaceTraits
  {
  }

  /** Picking a preset matches that persona again, except design_first,
    * whose traits are brand_loyalist's in the other order: the earlier
    * brand_loyalist is matched. */
  lemma PresetMatchesDesignFirst()
    ensures Personas[8].id == "design_first" && Personas[2].id == "brand_loyalist"
    ensures MatchedPersona(Personas[8].surfaceTraits) == Some(Personas[2])
  {
    var sel := Personas[8].surfaceTraits;
    assert !Covers(Personas[0], sel) by { assert Personas[0].surfaceTraits[0] !in sel; }
    assert !Covers(Personas[1], sel) by { assert Personas[1].surfaceTraits[0] !in sel; }
    MatchedPersonaIsFirst(sel, 2);
  }

  /** A product choice handed to the session. */
  datatype Product = Product(model: ProductModel, size: int)

  /** A started trait: its id and the definition's fields, absent for text
    * that is not a definition key. */
  datatype StartTrait = StartTrait(id: string, definition: Option<TraitDefinition>)

  datatype Customer = Customer(
    name: string,
    persona: Option<Persona>,
    traits: seq<StartTrait>,
    age: string,
    gender: string)

  datatype StartConfig = StartConfig(customer: Customer, product: Product, difficulty: DifficultyLevel)

  function StartTraits(selected: seq<string>): (r: seq<StartTrait>)
    ensures |r| == |selected|
  {
    seq(|selected|, i requires 0 <= i < |selected| =>
      StartTrait(StartTraitId(selected[i]), Lookup(TraitDefinitions, selected[i])))
  }

  /** A started trait carries the recommendation id of its text, and a
    * definition exactly when the text is a definition key. */
  lemma StartTraitsFacts(selected: seq<string>, i: nat)
    requires i < |selected|
    ensures StartTraits(selected)[i].id == MappedTraits(selected)[i].id
    ensures StartTraits(selected)[i].definition.Some? <==> selected[i] in AllTraits()
  {
    MappedAgreesWithStart(selected[i]);
    LookupFindsKey(TraitDefinitions, selected[i]);
  }

  /** The persona name, or "Custom Customer" when none matches. */
  function CustomerName(matched: Option<Persona>): string
  {
    if matched.Some? then matched.value.name else "Custom Customer"
  }

  /** The selection matches a persona and its upsell score reaches
    * Strong (3 or more). */
  predicate StrongUpsell(selected: seq<string>, age: string)
  {
    var matched := MatchedPersona(selected);
    matched.Some? && UpsellScore(MappedTraits(selected), Some(matched.value.id), age) >= 3
  }

  /** A size is an upsell target iff the upsell is Strong and the size is
    * at least 75 inches. */
  predicate UpsellTarget(selected: seq<string>, age: string, size: int)
  {
    StrongUpsell(selected, age) && size >= 75
  }

  /** The matched persona's upsell trigger sizes (`upsellInfo`), none
    * without a match. */
  function TriggerSizes(selected: seq<string>): seq<int>
  {
    var matched := MatchedPersona(selected);
    if matched.Some? && Lookup(UpsellTriggers, matched.value.id).Some? then
      Lookup(UpsellTriggers, matched.value.id).value.recommendedSizes
    else []
  }

  /** `size >= 75` per size when the upsell is Strong, else all false. */
  function LargeSizeFlags(strong: bool, sizes: seq<int>): (r: seq<bool>)
    ensures |r| == |sizes|
    ensures forall i :: 0 <= i < |sizes| ==> r[i] == (strong && sizes[i] >= 75)
  {
    seq(|sizes|, i requires 0 <= i < |sizes| => strong && sizes[i] >= 75)
  }

  /** A trigger size or an upsell target, per size. */
  function HighlightFlags(trigger: seq<int>, targets: seq<bool>, sizes: seq<int>): (r: seq<bool>)
    requires |targets| == |sizes|
    ensures |r| == |sizes|
    ensures forall i :: 0 <= i < |sizes| ==> r[i] == (sizes[i] in trigger || targets[i])
  {
    seq(|sizes|, i requires 0 <= i < |sizes| => sizes[i] in trigger || targets[i])
  }

  class SalesLabSetupState {
    var selectedType: string
    var selectedCategory: string
    var selectedModel: ProductModel
    var selectedSize: int
    var selectedTraits: seq<string>
    var difficulty: DifficultyLevel
    var age: string
    var gender: string
    var isPresetModalOpen: bool

    /** The initial choices: the first TV category and its first model at
      * 55 inches, the first and third traits, level 2, a man in his 30s. */
    constructor()
      ensures selectedType == "TV" && selectedCategory == "OLED"
      ensures selectedModel == ProductModels[0].1[0] && selectedSize == 55
      ensures selectedTraits == [AllTraits()[0], AllTraits()[2]]
      ensures selectedTraits == ["Price-sensitive", "Tech-oriented"]
      ensures difficulty == DifficultyLevels[1] && difficulty.level == 2
      ensures age == "30s" && gender == "Male" && !isPresetModalOpen
    {
      AllTraitsInOrder();
      selectedType := ProductTypes[0];
      selectedCategory := ProductCategories[0].1[0];
      selectedModel := ProductModels[0].1[0];
      selectedSize := 55;
      selectedTraits := [AllTraits()[0], AllTraits()[2]];
      difficulty := DifficultyLevels[1];
      age := "30s";
      gender := "Male";
      isPresetModalOpen := false;
    }

    method ToggleTrait(t: string)
      modifies this
      ensures selectedTraits == Toggled(old(selectedTraits), t)
      ensures selectedType == old(selectedType) && selectedCategory == old(selectedCategory)
      ensures selectedModel == old(selectedModel) && selectedSize == old(selectedSize)
      ensures difficulty == old(difficulty) && age == old(age) && gender == old(gender)
      ensures isPresetModalOpen == old(isPresetModalOpen)
    {
      if t in selectedTraits {
        selectedTraits := Filter(x => x != t, selectedTraits);
      } else {
        if |selectedTraits| >= 2 {
          return;
        }
        selectedTraits := selectedTraits + [t];
      }
    }

    /** `handlePresetSelect(persona)`: copy the persona's traits, age group
      * and gender, and close the preset dialog. */
    method HandlePresetSelect(p: Persona)
      modifies this
      ensures selectedTraits == p.surfaceTraits && age == p.ageGroup && gender == p.gender
      ensures !isPresetModalOpen
      ensures selectedType == old(selectedType) && selectedCategory == old(selectedCategory)
      ensures selectedModel == old(selectedModel) && selectedSize == old(selectedSize)
      ensures difficulty == old(difficulty)
    {
      selectedTraits := p.surfaceTraits;
      age := p.ageGroup;
      gender := p.gender;
      isPresetModalOpen := false;
    }

    /** A category button: select the category and its first model; the
      * selected size is kept, even when that model does not offer it. */
    method SelectCategory(cat: string)
      requires Lookup(ProductModels, cat).Some? && |Lookup(ProductModels, cat).value| > 0
      modifies this
      ensures selectedCategory == cat && selectedModel == Lookup(ProductModels, cat).value[0]
      ensures selectedSize == old(selectedSize) && selectedType == old(selectedType)
      ensures selectedTraits == old(selectedTraits) && difficulty == old(difficulty)
      ensures age == old(age) && gender == old(gender) && isPresetModalOpen == old(isPresetModalOpen)
    {
      selectedCategory := cat;
      selectedModel := Lookup(ProductModels, cat).value[0];
    }

    /** A model button: select the model and its smallest size. */
    method SelectModel(m: ProductModel)
      requires |m.sizes| > 0
      modifies this
      ensures selectedModel == m && selectedSize == m.sizes[0]
      ensures selectedCategory == old(selectedCategory) && selectedType == old(selectedType)
      ensures selectedTraits == old(selectedTraits) && difficulty == old(difficulty)
      ensures age == old(age) && gender == old(gender) && isPresetModalOpen == old(isPresetModalOpen)
    {
      selectedModel := m;
      selectedSize := m.sizes[0];
    }

    /** `productScores`: null without a matched persona, else the
      * recommendation engine's family scores for the mapped traits. */
    method ProductScoresView() returns (r: Option<ProductScores>)
      ensures r.None? <==> MatchedPersona(selectedTraits).None?
      ensures r.Some? ==>
        r.value.scores == AddWeights(TraitTotal(TraitWeights, MappedTraits(selectedTraits)),
                                     PersonaAdjustment(Some(MatchedPersona(selectedTraits).value.id)))
      ensures r.Some? ==> r.value.bestMatch != r.value.alternative
      ensures r.Some? ==> forall f :: ScoreOf(r.value.scores, f) <= ScoreOf(r.value.scores, r.value.bestMatch)
      ensures r.Some? ==> forall f :: f != r.value.bestMatch ==> ScoreOf(r.value.scores, f) <= ScoreOf(r.value.scores, r.value.alternative)
      ensures r.Some? ==> forall f :: ScoreOf(r.value.scores, f) == ScoreOf(r.value.scores, r.value.bestMatch) ==>
        Rank(r.value.bestMatch) <= Rank(f)
      ensures r.Some? ==> forall f :: f != r.value.bestMatch && ScoreOf(r.value.scores, f) == ScoreOf(r.value.scores, r.value.alternative) ==>
        Rank(r.value.alternative) <= Rank(f)
    {
      var matched := MatchedPersona(selectedTraits);
      if matched.None? {
        return None;
      }
      var scores := CalculateProductScores(MappedTraits(selectedTraits), Some(matched.value.id));
      r := Some(scores);
    }

    /** `upsellScore`: null without a matched persona, else the engine's
      * upsell score for the mapped traits, the persona and the age. */
    method UpsellScoreView() returns (r: Option<UpsellResult>)
      ensures r.None? <==> MatchedPersona(selectedTraits).None?
      ensures r.Some? ==>
        r.value.score == UpsellScore(MappedTraits(selectedTraits), Some(MatchedPersona(selectedTraits).value.id), age)
      ensures r.Some? ==> (r.value.recommendation == Strong <==> r.value.score >= 3)
      ensures (r.Some? && r.value.recommendation == Strong) == StrongUpsell(selectedTraits, age)
    {
      var matched := MatchedPersona(selectedTraits);
      if matched.None? {
        return None;
      }
      var upsell := CalculateUpsellScore(MappedTraits(selectedTraits), Some(matched.value.id), age);
      r := Some(upsell);
    }

    /** The size buttons: whether each size of the selected model is an
      * upsell target and whether it is highlighted. */
    method SizeHighlights() returns (targets: seq<bool>, highlighted: seq<bool>)
      ensures |targets| == |selectedModel.sizes| && |highlighted| == |selectedModel.sizes|
      ensures forall i :: 0 <= i < |targets| ==>
        targets[i] == UpsellTarget(selectedTraits, age, selectedModel.sizes[i])
      ensures forall i :: 0 <= i < |highlighted| ==>
        highlighted[i] == (selectedModel.sizes[i] in TriggerSizes(selectedTraits) || targets[i])
    {
      var upsell := UpsellScoreView();
      var recommendedSizes := TriggerSizes(selectedTraits);
      var strong := upsell.Some? && upsell.value.recommendation == Strong;
      var sizes := selectedModel.sizes;
      targets := LargeSizeFlags(strong, sizes);
      highlighted := HighlightFlags(recommendedSizes, targets, sizes);
    }

    /** `handleStart`: the configuration handed to the page. */
    method HandleStart() returns (cfg: StartConfig)
      ensures cfg.customer == Customer(CustomerName(MatchedPersona(selectedTraits)),
        MatchedPersona(selectedTraits), StartTraits(selectedTraits), age, gender)
      ensures cfg.product == Product(selectedModel, selectedSize)
      ensures cfg.difficulty == difficulty
    {
      var matched := MatchedPersona(selectedTraits);
      var name := if matched.Some? then matched.value.name else "Custom Customer";
      cfg := StartConfig(
        Customer(name, matched, StartTraits(selectedTraits), age, gender),
        Product(selectedModel, selectedSize),
        difficulty);
    }
  }

  /** With the initial selection (Price-sensitive, Tech-oriented) no persona
    * matches, so the screen shows no recommendation and the customer is
    * named "Custom Customer". */
  lemma InitialSelectionMatchesNobody()
    ensures MatchedPersona(["Price-sensitive", "Tech-oriented"]).None?
    ensures CustomerName(MatchedPersona(["Price-sensitive", "Tech-oriented"])) == "Custom Customer"
  {
    var sel := ["Price-sensitive", "Tech-oriented"];
    forall i | 0 <= i < |Personas| ensures !Covers(Personas[i], sel) {
      assert Personas[i].surfaceTraits[1] !in sel || Personas[i].surfaceTraits[0] !in sel;
    }
    MatchedPersonaNone(sel);
  }
}
