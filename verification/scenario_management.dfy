// The scenario management table of the operator console: a
// case-insensitive search over titles and descriptions, and a drawer whose
// form starts from the scenario being edited (or from defaults for a new
// one) and saves by update or by create.
module ScenarioManagement {
  import opened Wrappers
  import opened JsValue
  import opened JsText
  import opened SeqFilter

  /** A listed scenario; a missing description is None. */
  datatype Scenario = Scenario(scenarioId: Value, title: string, description: Option<string>,
                               difficulty: Option<Value>, published: Option<Value>)

  /** The search callback for the lower-cased term: the lower-cased title
    * or the lower-cased description contains it. */
  function Matches(lowerTerm: string): Scenario -> bool
  {
    (s: Scenario) => Includes(Lower(s.title), lowerTerm)
      || (s.description.Some? && Includes(Lower(s.description.value), lowerTerm))
  }

  /** The shown scenarios: no data yet shows none; otherwise exactly the
    * matching ones, in order. */
  function Shown(data: Option<seq<Scenario>>, searchTerm: string): (r: seq<Scenario>)
    ensures data.None? ==> r == []
    ensures data.Some? ==> IsSubsequence(r, data.value)
    ensures data.Some? ==> forall s :: s in r <==> s in data.value && Matches(Lower(searchTerm))(s)
  {
    if data.None? then []
    else
      FilterIsSubsequence(Matches(Lower(searchTerm)), data.value);
      assert forall s :: s in Filter(Matches(Lower(searchTerm)), data.value) <==> s in data.value && Matches(Lower(searchTerm))(s) by {
        forall s ensures s in Filter(Matches(Lower(searchTerm)), data.value) <==> s in data.value && Matches(Lower(searchTerm))(s) {
          FilterMembership(Matches(Lower(searchTerm)), data.value, s);
        }
      }
      Filter(Matches(Lower(searchTerm)), data.value)
  }

  /** An empty search shows every scenario, in order. */
  lemma EmptySearchShowsAll(data: seq<Scenario>)
    ensures Shown(Some(data), "") == data
  {
    forall i | 0 <= i < |data| ensures Matches(Lower(""))(data[i]) {
      IncludesEmpty(Lower(data[i].title));
    }
    FilterAllPass(Matches(Lower("")), data);
  }

  /** Terms that differ only in letter case show the same scenarios. */
  lemma SearchIgnoresCase(data: Option<seq<Scenario>>, t1: string, t2: string)
    requires Lower(t1) == Lower(t2)
    ensures Shown(data, t1) == Shown(data, t2)
  {
  }

  /** The drawer's form: the edited scenario's values, each falling back
    * to its default when falsy; a new scenario gets every default. */
  function DrawerForm(scenario: Option<Scenario>): (r: Record)
    ensures r.Keys == {"title", "description", "difficulty", "published"}
    ensures scenario.None? ==> r == map["title" := Str(""), "description" := Str(""), "difficulty" := Num(1), "published" := Bool(false)]
    ensures scenario.Some? ==> r["title"] == Str(scenario.value.title)
    ensures scenario.Some? && Truthy(scenario.value.difficulty) ==> r["difficulty"] == scenario.value.difficulty.value
    ensures scenario.Some? && !Truthy(scenario.value.difficulty) ==> r["difficulty"] == Num(1)
    ensures scenario.Some? && scenario.value.description.Some? ==> r["description"] == Str(scenario.value.description.value)
    ensures scenario.Some? && scenario.value.description.None? ==> r["description"] == Str("")
    ensures scenario.Some? && Truthy(scenario.value.published) ==> r["published"] == scenario.value.published.value
    ensures scenario.Some? && !Truthy(scenario.value.published) ==> r["published"] == Bool(false)
  {
    if scenario.None? then
      map["title" := Str(""), "description" := Str(""), "difficulty" := Num(1), "published" := Bool(false)]
    else
      var s := scenario.value;
      map["title" := Str(s.title),
          "description" := Str(if s.description.Some? then s.description.value else ""),
          "difficulty" := Or(s.difficulty, Num(1)),
          "published" := Or(s.published, Bool(false))]
  }

  /** The drawer's submit: update when editing, create otherwise. The
    * facade's update entry throws as written; the intended update is
    * OperatorApi.OperatorApiClient.UpdateScenario. */
  datatype SaveCall = UpdateCall(scenarioId: Value, data: Record) | CreateCall(data: Record)

  function SaveRoute(scenario: Option<Scenario>, form: Record): (c: SaveCall)
    ensures scenario.Some? <==> c.UpdateCall?
    ensures scenario.Some? ==> c == UpdateCall(scenario.value.scenarioId, form)
    ensures scenario.None? ==> c == CreateCall(form)
  {
    if scenario.Some? then UpdateCall(scenario.value.scenarioId, form) else CreateCall(form)
  }
}
