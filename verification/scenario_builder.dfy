// The scenario builder of the operator console: a list of scenarios loaded
// from the operator service, one of them selected by id, and a create form
// whose title must not be blank. The service's answers are inputs.
module ScenarioBuilder {
  import opened Wrappers
  import opened JsValue
  import opened JsText
  import opened SeqFilter

  /** `s.scenarioId === selectedId`. */
  function IdIs(selectedId: Value): Record -> bool
  {
    (s: Record) => Get(s, "scenarioId") == Some(selectedId)
  }

  /** `scenarios.find(s => s.scenarioId === selectedId)`: the first
    * scenario with that id, or none. */
  function SelectedScenario(scenarios: seq<Record>, selectedId: Value): (r: Option<Record>)
    ensures r.Some? ==> r.value in scenarios && Get(r.value, "scenarioId") == Some(selectedId)
    ensures r.None? <==> forall i :: 0 <= i < |scenarios| ==> Get(scenarios[i], "scenarioId") != Some(selectedId)
  {
    FindIndexMissing(IdIs(selectedId), scenarios);
    var k := FindIndex(IdIs(selectedId), scenarios);
    if k == -1 then None else Some(scenarios[k])
  }

  /** The scenario the service answers a create with is the one the
    * selection finds, unless an earlier scenario carries the same id. */
  lemma CreatedIsSelected(scenarios: seq<Record>, created: Record, id: Value)
    requires Get(created, "scenarioId") == Some(id)
    requires forall i :: 0 <= i < |scenarios| ==> Get(scenarios[i], "scenarioId") != Some(id)
    ensures SelectedScenario(scenarios + [created], id) == Some(created)
  {
    FindIndexIs(IdIs(id), scenarios + [created], |scenarios|);
  }

  /** The request body of a create. */
  function CreateRequest(title: string, description: string): (r: Record)
    ensures Get(r, "title") == Some(Str(title)) && Get(r, "description") == Some(Str(description))
    ensures Get(r, "stages") == Some(Arr([]))
  {
    map["title" := Str(title), "description" := Str(description), "stages" := Arr([])]
  }

  class ScenarioBuilderState {
    var loading: bool
    var scenarios: seq<Record>
    /** The selected id; null is `Null`. */
    var selectedId: Value
    var isCreateModalOpen: bool
    var newTitle: string
    var newDesc: string

    constructor()
      ensures loading && scenarios == [] && selectedId == Null
      ensures !isCreateModalOpen && newTitle == [] && newDesc == []
    {
      loading := true;
      scenarios := [];
      selectedId := Null;
      isCreateModalOpen := false;
      newTitle := [];
      newDesc := [];
    }

    /** `loadData` with the service's list (None when the call failed):
      * the list replaces the old one, and with nothing selected the first
      * scenario becomes the selection. */
    method LoadData(listed: Option<seq<Record>>)
      modifies this
      ensures listed.Some? ==> scenarios == listed.value
      ensures listed.None? ==> scenarios == old(scenarios) && selectedId == old(selectedId)
      ensures listed.Some? && !Truthy(Some(old(selectedId))) && |listed.value| > 0 ==>
        Some(selectedId) == Get(listed.value[0], "scenarioId") || (selectedId == Null && "scenarioId" !in listed.value[0])
      ensures listed.Some? && (Truthy(Some(old(selectedId))) || |listed.value| == 0) ==> selectedId == old(selectedId)
      ensures !loading
      ensures isCreateModalOpen == old(isCreateModalOpen) && newTitle == old(newTitle) && newDesc == old(newDesc)
    {
      loading := true;
      if listed.Some? {
        scenarios := listed.value;
        if !Truthy(Some(selectedId)) && |listed.value| > 0 {
          var id := Get(listed.value[0], "scenarioId");
          selectedId := if id.Some? then id.value else Null;
        }
      }
      loading := false;
    }

    /** `handleCreate`: a blank title sends nothing (the answer is None).
      * Otherwise the request is sent, and a created scenario is appended
      * and selected, the form cleared and the modal closed. */
    method HandleCreate(created: Option<Record>) returns (request: Option<Record>)
      modifies this
      ensures IsBlank(old(newTitle)) ==> request.None? && scenarios == old(scenarios) && selectedId == old(selectedId)
      ensures IsBlank(old(newTitle)) ==> newTitle == old(newTitle) && newDesc == old(newDesc) && isCreateModalOpen == old(isCreateModalOpen)
      ensures !IsBlank(old(newTitle)) ==> request == Some(CreateRequest(old(newTitle), old(newDesc)))
      ensures !IsBlank(old(newTitle)) && created.Some? ==>
        scenarios == old(scenarios) + [created.value] && !isCreateModalOpen && newTitle == [] && newDesc == []
      ensures !IsBlank(old(newTitle)) && created.Some? && "scenarioId" in created.value ==>
        selectedId == created.value["scenarioId"]
      ensures !IsBlank(old(newTitle)) && created.Some? && "scenarioId" !in created.value ==> selectedId == Null
      ensures !IsBlank(old(newTitle)) && created.None? ==>
        scenarios == old(scenarios) && selectedId == old(selectedId) && newTitle == old(newTitle)
        && newDesc == old(newDesc) && isCreateModalOpen == old(isCreateModalOpen)
      ensures loading == old(loading)
    {
      if IsBlank(newTitle) {
        return None;
      }
      request := Some(CreateRequest(newTitle, newDesc));
      if created.Some? {
        AddCreated(created.value);
      }
    }

    /** The success branch of `handleCreate`. */
    method AddCreated(created: Record)
      modifies this
      ensures scenarios == old(scenarios) + [created] && !isCreateModalOpen && newTitle == [] && newDesc == []
      ensures "scenarioId" in created ==> selectedId == created["scenarioId"]
      ensures "scenarioId" !in created ==> selectedId == Null
      ensures loading == old(loading)
    {
      scenarios := scenarios + [created];
      var id := Get(created, "scenarioId");
      selectedId := if id.Some? then id.value else Null;
      isCreateModalOpen := false;
      newTitle := [];
      newDesc := [];
    }
  }
}
