// The Sales Lab page: a four-phase screen (setup, role-play, feedback,
// history) that hands the chosen configuration to the chat, files each
// finished session in the chat store's session list, newest first, and
// reopens a filed session by its id. The clock readings are inputs.
module SalesLabPage {
  import opened Wrappers
  import opened JsValue
  import opened SeqFilter
  import ChatStore
  import SalesLabSetup
  import SalesLabChat

  datatype Phase = Setup | Roleplay | Feedback | History

  /** The object spread `{...result}`: an object's own fields; null and
    * undefined spread to nothing. */
  function SpreadFields(result: Option<Value>): Record
  {
    if result.Some? && result.value.Obj? then result.value.fields else map[]
  }

  /** `{...result, id, date}`: the result's fields with a fresh id and
    * date, which win over any the result carried. */
  function SessionRecord(result: Option<Value>, nowMs: nat, nowIso: string): (r: Record)
    ensures Get(r, "id") == Some(Num(nowMs)) && Get(r, "date") == Some(Str(nowIso))
    ensures r.Keys == SpreadFields(result).Keys + {"id", "date"}
    ensures forall k :: k in SpreadFields(result) && k !in {"id", "date"} ==> r[k] == SpreadFields(result)[k]
  {
    Merge(SpreadFields(result), map["id" := Num(nowMs), "date" := Str(nowIso)])
  }

  /** The session whose id is strictly equal to `sessionId`. */
  function IdIs(sessionId: int): Value -> bool
  {
    (s: Value) => s.Obj? && Get(s.fields, "id") == Some(Num(sessionId))
  }

  /** `sessions.find(s => s.id === sessionId)`. */
  function FindSession(sessions: seq<Value>, sessionId: int): (r: Option<Value>)
    ensures r.Some? ==> r.value in sessions && IdIs(sessionId)(r.value)
    ensures r.None? <==> forall i :: 0 <= i < |sessions| ==> !IdIs(sessionId)(sessions[i])
  {
    FindIndexMissing(IdIs(sessionId), sessions);
    var k := FindIndex(IdIs(sessionId), sessions);
    if k == -1 then None else Some(sessions[k])
  }

  /** A session just filed is the one its id finds, even when an older
    * session carries the same id. */
  lemma NewestSessionFound(sessions: seq<Value>, result: Option<Value>, nowMs: nat, nowIso: string)
    ensures FindSession([Obj(SessionRecord(result, nowMs, nowIso))] + sessions, nowMs)
      == Some(Obj(SessionRecord(result, nowMs, nowIso)))
  {
    var s := [Obj(SessionRecord(result, nowMs, nowIso))] + sessions;
    assert IdIs(nowMs)(s[0]);
    FindIndexIs(IdIs(nowMs), s, 0);
  }

  class SalesLabPageState {
    const store: ChatStore.ChatStoreState
    var phase: Phase
    var sessionConfig: Option<SalesLabSetup.StartConfig>
    var savedSession: Option<SalesLabChat.SavedState>
    var sessionResult: Option<Value>

    /** The role-play phase always has a configuration and the feedback
      * phase always has a result to show. */
    predicate Valid()
      reads this
    {
      (phase == Roleplay ==> sessionConfig.Some?) && (phase == Feedback ==> sessionResult.Some?)
    }

    constructor(store: ChatStore.ChatStoreState)
      ensures this.store == store
      ensures phase == Setup && sessionConfig.None? && savedSession.None? && sessionResult.None?
      ensures Valid()
    {
      this.store := store;
      phase := Setup;
      sessionConfig := None;
      savedSession := None;
      sessionResult := None;
    }

    /** `handleStartRoleplay(config, savedData)`. */
    method HandleStartRoleplay(config: SalesLabSetup.StartConfig, savedData: Option<SalesLabChat.SavedState>)
      modifies this
      ensures phase == Roleplay && sessionConfig == Some(config) && savedSession == savedData
      ensures sessionResult == old(sessionResult)
      ensures Valid()
    {
      sessionConfig := Some(config);
      savedSession := savedData;
      phase := Roleplay;
    }

    /** `handleEndSession(result)`: even a null result (an abandoned
      * session) is filed, stamped and shown. The answer says whether the
      * stored draft session is discarded, which happens for a truthy
      * result only. */
    method HandleEndSession(result: Option<Value>, nowMs: nat, nowIso: string) returns (discardDraft: bool)
      modifies this, store
      ensures discardDraft == Truthy(result)
      ensures sessionResult == Some(Obj(SessionRecord(result, nowMs, nowIso)))
      ensures store.sessions == [Obj(SessionRecord(result, nowMs, nowIso))] + old(store.sessions)
      ensures store.messages == old(store.messages) && store.isTyping == old(store.isTyping)
      ensures store.currentScenario == old(store.currentScenario) && store.feedback == old(store.feedback)
      ensures phase == Feedback && sessionConfig == old(sessionConfig) && savedSession == old(savedSession)
      ensures Valid()
    {
      discardDraft := Truthy(result);
      var sessionWithDate := Obj(Merge(SpreadFields(result), map["id" := Num(nowMs), "date" := Str(nowIso)]));
      sessionResult := Some(sessionWithDate);
      store.AddSession(sessionWithDate);
      phase := Feedback;
    }

    /** `handleBackToSetup()`: back to the start with nothing kept. */
    method HandleBackToSetup()
      modifies this
      ensures phase == Setup && sessionConfig.None? && savedSession.None? && sessionResult.None?
      ensures Valid()
    {
      phase := Setup;
      sessionConfig := None;
      savedSession := None;
      sessionResult := None;
    }

    /** `handleViewSession(id)`: shows a filed session; an unknown id
      * changes nothing. */
    method HandleViewSession(sessionId: int)
      requires Valid()
      modifies this
      ensures FindSession(store.sessions, sessionId).Some? ==>
        phase == Feedback && sessionResult == FindSession(store.sessions, sessionId)
      ensures FindSession(store.sessions, sessionId).None? ==>
        phase == old(phase) && sessionResult == old(sessionResult)
      ensures sessionConfig == old(sessionConfig) && savedSession == old(savedSession)
      ensures Valid()
    {
      var session := FindSession(store.sessions, sessionId);
      if session.Some? {
        sessionResult := session;
        phase := Feedback;
      }
    }

    /** The setup screen's history button. */
    method ViewHistory()
      modifies this
      ensures phase == History
      ensures sessionConfig == old(sessionConfig) && savedSession == old(savedSession) && sessionResult == old(sessionResult)
      ensures Valid()
    {
      phase := History;
    }

    /** The back button of the history screen (the role-play screen is
      * handed the same callback but never calls it): only the phase
      * changes, the configuration and saved state stay. */
    method GoToSetup()
      modifies this
      ensures phase == Setup
      ensures sessionConfig == old(sessionConfig) && savedSession == old(savedSession) && sessionResult == old(sessionResult)
      ensures Valid()
    {
      phase := Setup;
    }
  }
}
