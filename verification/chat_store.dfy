// The tutor chat store: the message list, the typing flag and the list of
// past role-play sessions.
module ChatStore {
  import opened Wrappers
  import opened JsValue

  /** `[...messages, {...message, id: Date.now()}]`. */
  function AppendMessage(messages: seq<Record>, message: Record, nowMs: nat): (r: seq<Record>)
    ensures |r| == |messages| + 1
    ensures r[..|messages|] == messages
    ensures Get(r[|messages|], "id") == Some(Num(nowMs))
    ensures forall k :: k in message && k != "id" ==> k in r[|messages|] && r[|messages|][k] == message[k]
  {
    messages + [Merge(message, map["id" := Num(nowMs)])]
  }

  /** Appending two messages in turn leaves the earlier ones where they were. */
  lemma AppendKeepsPrefix(messages: seq<Record>, m1: Record, m2: Record, t1: nat, t2: nat)
    ensures AppendMessage(AppendMessage(messages, m1, t1), m2, t2)[..|messages|] == messages
    ensures |AppendMessage(AppendMessage(messages, m1, t1), m2, t2)| == |messages| + 2
  {
    var once := AppendMessage(messages, m1, t1);
    var twice := AppendMessage(once, m2, t2);
    assert twice[..|messages|] == twice[..|once|][..|messages|];
  }

  class ChatStoreState {
    var messages: seq<Record>
    var isTyping: bool
    var currentScenario: Value
    var feedback: Value
    var sessions: seq<Value>

    /** The store with the seeded past sessions. */
    constructor(seededSessions: seq<Value>)
      ensures messages == [] && !isTyping && currentScenario == Null && feedback == Null
      ensures sessions == seededSessions
    {
      messages := [];
      isTyping := false;
      currentScenario := Null;
      feedback := Null;
      sessions := seededSessions;
    }

    method AddMessage(message: Record, nowMs: nat)
      modifies this
      ensures messages == AppendMessage(old(messages), message, nowMs)
      ensures isTyping == old(isTyping) && sessions == old(sessions)
      ensures currentScenario == old(currentScenario) && feedback == old(feedback)
    {
      messages := messages + [Merge(message, map["id" := Num(nowMs)])];
    }

    method SetTyping(status: bool)
      modifies this
      ensures isTyping == status && messages == old(messages) && sessions == old(sessions)
      ensures currentScenario == old(currentScenario) && feedback == old(feedback)
    {
      isTyping := status;
    }

    /** `addSession(session)`: newest first, with no cap. */
    method AddSession(session: Value)
      modifies this
      ensures sessions == [session] + old(sessions)
      ensures messages == old(messages) && isTyping == old(isTyping)
      ensures currentScenario == old(currentScenario) && feedback == old(feedback)
    {
      sessions := [session] + sessions;
    }

    /** `resetChat()`: the only action that empties the messages. */
    method ResetChat()
      modifies this
      ensures messages == [] && isTyping == old(isTyping) && sessions == old(sessions)
      ensures currentScenario == old(currentScenario) && feedback == old(feedback)
    {
      messages := [];
    }
  }
}
