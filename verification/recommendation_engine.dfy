// The Sales Lab recommendation engine: product-family scores built from the
// trait weight table and persona adjustments, the best and alternative
// family picked by a stable descending sort, and the screen-size upsell
// score with its recommendation level.
module RecommendationEngine {
  import opened Wrappers
  import opened Assoc
  import opened SalesLabData
  import opened StableSort

  /** The four product families scored, in the key order of the scores object. */
  datatype Family = OLED | MRGB | QNED | UHD

  datatype Scores = Scores(oled: int, mrgb: int, qned: int, uhd: int)

  /** A selected trait as passed to the engine: only its `id` is read. */
  datatype Trait = Trait(id: string)

  datatype ProductScores = ProductScores(scores: Scores, bestMatch: Family, alternative: Family)

  /** 'Strong', 'Soft' or 'None'. */
  datatype Recommendation = Strong | Soft | NoUpsell

  datatype UpsellResult = UpsellResult(score: int, recommendation: Recommendation)

  const Zero := Scores(0, 0, 0, 0)

  function Rank(f: Family): nat
  {
    match f
    case OLED => 0
    case MRGB => 1
    case QNED => 2
    case UHD => 3
  }

  function ScoreOf(s: Scores, f: Family): int
  {
    match f
    case OLED => s.oled
    case MRGB => s.mrgb
    case QNED => s.qned
    case UHD => s.uhd
  }

  function AddWeights(s: Scores, w: Weights): Scores
  {
    Scores(s.oled + w.oled, s.mrgb + w.mrgb, s.qned + w.qned, s.uhd + w.uhd)
  }

  function Plus(a: Scores, b: Scores): Scores
  {
    Scores(a.oled + b.oled, a.mrgb + b.mrgb, a.qned + b.qned, a.uhd + b.uhd)
  }

  /** What one trait contributes under a weight table: its row, or nothing
    * when the id has no row. */
  function TraitContribution(table: seq<(string, Weights)>, id: string): Weights
  {
    match Lookup(table, id)
    case Some(w) => w
    case None => Weights(0, 0, 0, 0)
  }

  /** The trait part of the scores: the rows of all traits, summed. The
    * engine uses `TRAIT_WEIGHTS` as the table. */
  function TraitTotal(table: seq<(string, Weights)>, traits: seq<Trait>): Scores
  {
    if traits == [] then Zero
    else AddWeights(TraitTotal(table, traits[..|traits| - 1]), TraitContribution(table, traits[|traits| - 1].id))
  }

  /** The persona part of the scores. */
  function PersonaAdjustment(persona: Option<string>): Weights
  {
    if persona == Some("premium_lifestyle") then Weights(2, 1, 0, 0)
    else if persona == Some("budget_seeker") then Weights(-2, 0, 1, 3)
    else if persona == Some("gamer") then Weights(3, 2, 0, 0)
    else Weights(0, 0, 0, 0)
  }

  // ---- The stable descending sort of `Object.entries(scores)` ----

  type Entry = StableSort.Entry<Family>

  /** `Object.entries(scores)`: the families in key order with their scores. */
  function Entries(s: Scores): (e: seq<Entry>)
    ensures |e| == 4
    ensures forall i :: 0 <= i < 4 ==> Rank(e[i].0) == i && e[i].1 == ScoreOf(s, e[i].0)
  {
    [(OLED, s.oled), (MRGB, s.mrgb), (QNED, s.qned), (UHD, s.uhd)]
  }

  /** Each family stands at its key position among the entries. */
  lemma EntryOfFamily(s: Scores, f: Family)
    ensures Entries(s)[Rank(f)] == (f, ScoreOf(s, f))
  {
  }

  /** The best match: the first family of the sorted entries, which is the
    * first entry in key order holding the top score. */
  function BestOf(s: Scores): (f: Family)
    ensures Rank(f) == FirstMaxIndex(Entries(s))
  {
    SortDescHead(Entries(s));
    SortDesc(Entries(s))[0].0
  }

  /** The alternative: the second family of the sorted entries, which is the
    * first entry in key order holding the top score once the best match's
    * entry is removed (its index shifted back past the removed one). */
  function AlternativeOf(s: Scores): (f: Family)
    ensures var k := FirstMaxIndex(Entries(s));
      var k2 := FirstMaxIndex(RemoveAt(Entries(s), k));
      Rank(f) == if k2 < k then k2 else k2 + 1
  {
    var e := Entries(s);
    var k := FirstMaxIndex(e);
    SortDescSecond(e);
    RemoveAtIndex(e, k, FirstMaxIndex(RemoveAt(e, k)));
    SortDesc(e)[1].0
  }

  /** The best match has the top score, and it is the first family in key
    * order with that score. */
  lemma BestIsFirstTop(s: Scores, f: Family)
    ensures ScoreOf(s, f) <= ScoreOf(s, BestOf(s))
    ensures ScoreOf(s, f) == ScoreOf(s, BestOf(s)) ==> Rank(BestOf(s)) <= Rank(f)
  {
    var e := Entries(s);
    var k := FirstMaxIndex(e);
    SortDescHead(e);
    EntryOfFamily(s, f);
    EntryOfFamily(s, e[k].0);
  }

  /** The alternative is the entry at index `j` of the unsorted entries,
    * where `j` is not the best match's index and no other entry but the
    * best has a higher score or an equal score and a smaller index. */
  lemma AlternativeIndex(s: Scores) returns (j: nat)
    ensures j < 4 && j != FirstMaxIndex(Entries(s))
    ensures AlternativeOf(s) == Entries(s)[j].0
    ensures forall i :: 0 <= i < 4 && i != FirstMaxIndex(Entries(s)) ==>
      Entries(s)[i].1 <= Entries(s)[j].1 && (i < j ==> Entries(s)[i].1 < Entries(s)[j].1)
  {
    var e := Entries(s);
    var k := FirstMaxIndex(e);
    var rest := RemoveAt(e, k);
    SortDescSecond(e);
    var k2 := FirstMaxIndex(rest);
    j := if k2 < k then k2 else k2 + 1;
    RemoveAtIndex(e, k, k2);
    forall i | 0 <= i < 4 && i != k
      ensures e[i].1 <= e[j].1 && (i < j ==> e[i].1 < e[j].1)
    {
      var i' := if i < k then i else i - 1;
      RemoveAtIndex(e, k, i');
    }
  }

  /** The alternative differs from the best match; it has the top score among
    * the other families, and it is the first of them in key order with that
    * score. */
  lemma AlternativeIsRunnerUp(s: Scores, f: Family)
    ensures AlternativeOf(s) != BestOf(s)
    ensures f != BestOf(s) ==> ScoreOf(s, f) <= ScoreOf(s, AlternativeOf(s))
    ensures f != BestOf(s) && ScoreOf(s, f) == ScoreOf(s, AlternativeOf(s)) ==>
      Rank(AlternativeOf(s)) <= Rank(f)
  {
    var e := Entries(s);
    var j := AlternativeIndex(s);
    SortDescHead(e);
    EntryOfFamily(s, f);
  }

  /** `calculateProductScores(traits, persona)`: the trait rows are added in
    * a loop, the persona adjustment on top, and the entries are sorted by
    * descending score; `bestMatch` and `alternative` are the first two. */
  method CalculateProductScores(traits: seq<Trait>, persona: Option<string>) returns (r: ProductScores)
    ensures r.scores == AddWeights(TraitTotal(TraitWeights, traits), PersonaAdjustment(persona))
    ensures r.bestMatch != r.alternative
    ensures forall f :: ScoreOf(r.scores, f) <= ScoreOf(r.scores, r.bestMatch)
    ensures forall f :: f != r.bestMatch ==> ScoreOf(r.scores, f) <= ScoreOf(r.scores, r.alternative)
    ensures forall f :: ScoreOf(r.scores, f) == ScoreOf(r.scores, r.bestMatch) ==> Rank(r.bestMatch) <= Rank(f)
    ensures forall f :: f != r.bestMatch && ScoreOf(r.scores, f) == ScoreOf(r.scores, r.alternative) ==>
      Rank(r.alternative) <= Rank(f)
  {
    var scores := Zero;
    var i := 0;
    while i < |traits|
      invariant 0 <= i <= |traits|
      invariant scores == TraitTotal(TraitWeights, traits[..i])
    {
      var weights := Lookup(TraitWeights, traits[i].id);
      if weights.Some? {
        scores := AddWeights(scores, weights.value);
      }
      assert traits[..i + 1][..i] == traits[..i];
      i := i + 1;
    }
    assert traits[..i] == traits;
    if persona.Some? {
      var id := persona.value;
      if id == "premium_lifestyle" {
        scores := scores.(oled := scores.oled + 2, mrgb := scores.mrgb + 1);
      } else if id == "budget_seeker" {
        scores := scores.(uhd := scores.uhd + 3, qned := scores.qned + 1, oled := scores.oled - 2);
      } else if id == "gamer" {
        scores := scores.(oled := scores.oled + 3, mrgb := scores.mrgb + 2);
      }
    }
    var sorted := SortDesc(Entries(scores));
    r := ProductScores(scores, sorted[0].0, sorted[1].0);
    assert r.bestMatch == BestOf(scores) && r.alternative == AlternativeOf(scores);
    Ranking(scores);
  }

  /** The facts of the two lemmas above, for every family at once. */
  lemma Ranking(s: Scores)
    ensures BestOf(s) != AlternativeOf(s)
    ensures forall f :: ScoreOf(s, f) <= ScoreOf(s, BestOf(s))
    ensures forall f :: f != BestOf(s) ==> ScoreOf(s, f) <= ScoreOf(s, AlternativeOf(s))
    ensures forall f :: ScoreOf(s, f) == ScoreOf(s, BestOf(s)) ==> Rank(BestOf(s)) <= Rank(f)
    ensures forall f :: f != BestOf(s) && ScoreOf(s, f) == ScoreOf(s, AlternativeOf(s)) ==>
      Rank(AlternativeOf(s)) <= Rank(f)
  {
    AlternativeIsRunnerUp(s, BestOf(s));
    forall f ensures ScoreOf(s, f) <= ScoreOf(s, BestOf(s))
      && (ScoreOf(s, f) == ScoreOf(s, BestOf(s)) ==> Rank(BestOf(s)) <= Rank(f))
    {
      BestIsFirstTop(s, f);
    }
    forall f ensures (f != BestOf(s) ==> ScoreOf(s, f) <= ScoreOf(s, AlternativeOf(s)))
      && (f != BestOf(s) && ScoreOf(s, f) == ScoreOf(s, AlternativeOf(s)) ==>
          Rank(AlternativeOf(s)) <= Rank(f))
    {
      AlternativeIsRunnerUp(s, f);
    }
  }

  // ---- Upsell score ----

  function TraitIds(traits: seq<Trait>): (ids: seq<string>)
    ensures |ids| == |traits|
    ensures forall i :: 0 <= i < |traits| ==> ids[i] == traits[i].id
  {
    seq(|traits|, i requires 0 <= i < |traits| => traits[i].id)
  }

  /** The persona term of the upsell score: +2 exactly for the three
    * upsell-prone ids, -2 exactly for budget_seeker, 0 for any other id and
    * without a persona. */
  function PersonaUpsellTerm(persona: Option<string>): (t: int)
    ensures -2 <= t <= 2
    ensures t == 2 <==> persona.Some? && persona.value in {"premium_lifestyle", "gamer", "family_user"}
    ensures t == -2 <==> persona == Some("budget_seeker")
    ensures t == 0 <==> persona.None? || persona.value !in {"premium_lifestyle", "gamer", "family_user", "budget_seeker"}
  {
    match persona
    case None => 0
    case Some(id) =>
      if id == "premium_lifestyle" || id == "gamer" || id == "family_user" then 2
      else if id == "budget_seeker" then -2
      else 0
  }

  /** The trait terms of the upsell score: each listed trait id counts once,
    * however often it is repeated. */
  function TraitUpsellTerm(ids: seq<string>): (t: int)
    ensures -2 <= t <= 8
  {
    (if "design_focused" in ids then 1 else 0)
    + (if "environment_sensitive" in ids then 1 else 0)
    + (if "movie_lover" in ids then 2 else 0)
    + (if "sports_fan" in ids then 2 else 0)
    + (if "social_host" in ids then 2 else 0)
    + (if "price_sensitive" in ids then -2 else 0)
  }

  /** The age term of the upsell score: 1 exactly for the 30s, 40s and
    * 50s groups. */
  function AgeUpsellTerm(age: string): (t: int)
    ensures 0 <= t <= 1
    ensures t == 1 <==> age in {"30s", "40s", "50s"}
  {
    if age == "30s" || age == "40s" || age == "50s" then 1 else 0
  }

  /** The upsell score as a sum of independent terms. */
  function UpsellScore(traits: seq<Trait>, persona: Option<string>, age: string): int
  {
    1 + PersonaUpsellTerm(persona) + TraitUpsellTerm(TraitIds(traits)) + AgeUpsellTerm(age)
  }

  /** The trait factors of `calculateUpsellScore`, each applied once when
    * its id is among the trait ids. */
  method AddTraitTerms(score0: int, traitIds: seq<string>) returns (score: int)
    ensures score == score0 + TraitUpsellTerm(traitIds)
  {
    score := score0;
    if "design_focused" in traitIds { score := score + 1; }
    if "environment_sensitive" in traitIds { score := score + 1; }
    if "movie_lover" in traitIds { score := score + 2; }
    if "sports_fan" in traitIds { score := score + 2; }
    if "social_host" in traitIds { score := score + 2; }
    if "price_sensitive" in traitIds { score := score - 2; }
  }

  /** `calculateUpsellScore(traits, persona, age)`: a counter adjusted step
    * by step, then mapped to a recommendation level. */
  method CalculateUpsellScore(traits: seq<Trait>, persona: Option<string>, age: string) returns (r: UpsellResult)
    ensures r.score == UpsellScore(traits, persona, age)
    ensures -3 <= r.score <= 12
    ensures r.recommendation == Strong <==> r.score >= 3
    ensures r.recommendation == Soft <==> 1 <= r.score <= 2
    ensures r.recommendation == NoUpsell <==> r.score <= 0
  {
    var score := 1;
    if persona.Some? {
      var id := persona.value;
      if id == "premium_lifestyle" || id == "gamer" || id == "family_user" {
        score := score + 2;
      }
      if id == "budget_seeker" {
        score := score - 2;
      }
    }
    assert score == 1 + PersonaUpsellTerm(persona);
    var traitIds := TraitIds(traits);
    score := AddTraitTerms(score, traitIds);
    if age == "30s" || age == "40s" || age == "50s" { score := score + 1; }
    var recommendation := NoUpsell;
    if score >= 3 {
      recommendation := Strong;
    } else if score >= 1 {
      recommendation := Soft;
    }
    r := UpsellResult(score, recommendation);
  }

  // ---- Properties of the scoring rules ----

  /** Adding a trait list is adding its parts: the trait total of a
    * concatenation is the sum of the totals. */
  lemma {:induction false} TraitTotalConcat(table: seq<(string, Weights)>, a: seq<Trait>, b: seq<Trait>)
    ensures TraitTotal(table, a + b) == Plus(TraitTotal(table, a), TraitTotal(table, b))
    decreases |b|
  {
    if b == [] {
      assert a + b == a;
    } else {
      var b' := b[..|b| - 1];
      assert (a + b)[..|a + b| - 1] == a + b';
      TraitTotalConcat(table, a, b');
    }
  }

  /** Each trait adds exactly its weight row, wherever it stands in the list. */
  lemma TraitAddsItsRow(table: seq<(string, Weights)>, a: seq<Trait>, t: Trait, b: seq<Trait>)
    ensures TraitTotal(table, a + [t] + b) == AddWeights(TraitTotal(table, a + b), TraitContribution(table, t.id))
  {
    TraitTotalConcat(table, a + [t], b);
    TraitTotalConcat(table, a, b);
    assert (a + [t])[..|a|] == a;
  }

  /** A trait id with no weight row (brand_focused, for one) changes nothing. */
  lemma UnknownTraitChangesNothing(table: seq<(string, Weights)>, a: seq<Trait>, t: Trait, b: seq<Trait>)
    requires t.id !in Keys(table)
    ensures TraitTotal(table, a + [t] + b) == TraitTotal(table, a + b)
  {
    LookupFindsKey(table, t.id);
    TraitAddsItsRow(table, a, t, b);
  }

  /** The order of the traits does not matter. */
  lemma TraitOrderIrrelevant(table: seq<(string, Weights)>, a: seq<Trait>, b: seq<Trait>)
    ensures TraitTotal(table, a + b) == TraitTotal(table, b + a)
  {
    TraitTotalConcat(table, a, b);
    TraitTotalConcat(table, b, a);
  }

  /** With no traits and a persona other than the three adjusted ids, every
    * family scores 0, so the best match is OLED and the alternative MRGB. */
  lemma NeutralInputsScoreZero(persona: Option<string>)
    requires persona.None? || (persona.value != "premium_lifestyle"
      && persona.value != "budget_seeker" && persona.value != "gamer")
    ensures AddWeights(TraitTotal(TraitWeights, []), PersonaAdjustment(persona)) == Zero
    ensures BestOf(Zero) == OLED && AlternativeOf(Zero) == MRGB
  {
    BestIsFirstTop(Zero, OLED);
    AlternativeIsRunnerUp(Zero, OLED);
    AlternativeIsRunnerUp(Zero, MRGB);
  }

  /** The 'gamer' adjustment never fires for a shipped persona, whose gaming
    * id is hardcore_gamer: only premium_lifestyle and budget_seeker adjust. */
  lemma GamerAdjustmentUnreachable()
    ensures forall i :: 0 <= i < |Personas| ==>
      PersonaAdjustment(Some(Personas[i].id)) ==
        (if Personas[i].id == "premium_lifestyle" then Weights(2, 1, 0, 0)
         else if Personas[i].id == "budget_seeker" then Weights(-2, 0, 1, 3)
         else Weights(0, 0, 0, 0))
  {
  }

  /** Repeating a trait does not change the upsell score. */
  lemma UpsellIgnoresRepeats(traits: seq<Trait>, t: Trait, persona: Option<string>, age: string)
    requires t in traits
    ensures UpsellScore(traits + [t], persona, age) == UpsellScore(traits, persona, age)
  {
    var ids, ids' := TraitIds(traits), TraitIds(traits + [t]);
    assert ids' == ids + [t.id];
    var j :| 0 <= j < |traits| && traits[j] == t;
    assert ids[j] == t.id;
    assert forall x :: x in ids' <==> x in ids;
  }
}
