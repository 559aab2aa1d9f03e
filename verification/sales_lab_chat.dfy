// The role-play chat of the Sales Lab: the trainee's messages and the
// simulated customer's replies, a sales stage that only moves forward
// through five fixed steps, traits the trainee has uncovered, an objection
// hint, and the rule that ends the session when the customer says goodbye
// during the closing step. The model's replies and its analysis of each
// message are inputs; each send is handled to completion before the next.
module SalesLabChat {
  import opened Wrappers
  import opened JsText
  import opened JsValue
  import opened SeqFilter
  import Gemini
  import SalesLabSetup

  /** The stage ids, in the order a sale goes through them. */
  const SalesSteps: seq<string> := ["greeting", "needs", "proposal", "objection", "closing"]

  /** `SALES_STEPS.findIndex(s => s.id === id)`. */
  function StepIndex(id: string): (i: int)
    ensures -1 <= i < |SalesSteps|
    ensures i >= 0 ==> SalesSteps[i] == id
    ensures i == -1 ==> id !in SalesSteps
  {
    if id == "greeting" then 0
    else if id == "needs" then 1
    else if id == "proposal" then 2
    else if id == "objection" then 3
    else if id == "closing" then 4
    else -1
  }

  /** A string-or-null field that JavaScript reads as true: present and
    * not empty. */
  predicate Present(v: Option<string>)
  {
    v.Some? && v.value != []
  }

  /** What the model reports about one trainee message. */
  datatype Analysis = Analysis(
    nextStep: Option<string>,
    discoveredTrait: Option<string>,
    objectionDetected: bool,
    objectionHint: Option<string>)

  /** The stage after an analysis proposes `proposed`: taken only when it is
    * a known stage later than the current one. */
  function NextStep(current: string, proposed: Option<string>): (r: string)
    ensures StepIndex(r) >= StepIndex(current)
    ensures r != current <==>
      (proposed.Some? && proposed.value in SalesSteps && StepIndex(proposed.value) > StepIndex(current))
    ensures r != current ==> proposed.Some? && r == proposed.value
  {
    if Present(proposed) && StepIndex(proposed.value) > StepIndex(current) then proposed.value else current
  }

  /** The stage after a series of analyses, each applied to the stage the
    * previous one left. */
  function StepAfter(current: string, proposals: seq<Option<string>>): string
    decreases |proposals|
  {
    if proposals == [] then current else StepAfter(NextStep(current, proposals[0]), proposals[1..])
  }

  /** Over any series of analyses the stage never goes back, a known stage
    * stays known, and the closing stage is final. */
  lemma {:induction false} StepsNeverGoBack(current: string, proposals: seq<Option<string>>)
    ensures StepIndex(StepAfter(current, proposals)) >= StepIndex(current)
    ensures current in SalesSteps ==> StepAfter(current, proposals) in SalesSteps
    ensures current == "closing" ==> StepAfter(current, proposals) == "closing"
    decreases |proposals|
  {
    if proposals != [] {
      var next := NextStep(current, proposals[0]);
      StepsNeverGoBack(next, proposals[1..]);
    }
  }

  /** No element occurs twice. */
  predicate Distinct(s: seq<string>)
  {
    forall i, j :: 0 <= i < j < |s| ==> s[i] != s[j]
  }

  /** Some trait of the customer carries this id. */
  predicate HasTrait(traits: seq<SalesLabSetup.StartTrait>, id: string)
  {
    Any((t: SalesLabSetup.StartTrait) => t.id == id, traits)
  }

  /** The discovered list after an analysis reports `proposed`: the id is
    * appended only when it names one of the customer's traits and has not
    * been discovered yet. */
  function Discover(traits: seq<SalesLabSetup.StartTrait>, discovered: seq<string>, proposed: Option<string>): (r: seq<string>)
    ensures r == discovered || (proposed.Some? && r == discovered + [proposed.value])
    ensures r != discovered <==>
      (Present(proposed) && HasTrait(traits, proposed.value) && proposed.value !in discovered)
  {
    if Present(proposed) && HasTrait(traits, proposed.value) && proposed.value !in discovered then
      discovered + [proposed.value]
    else discovered
  }

  /** Discovery keeps the list free of repeats and made of the customer's
    * trait ids. */
  lemma DiscoverKeepsValid(traits: seq<SalesLabSetup.StartTrait>, discovered: seq<string>, proposed: Option<string>)
    requires Distinct(discovered)
    requires forall i :: 0 <= i < |discovered| ==> HasTrait(traits, discovered[i])
    ensures Distinct(Discover(traits, discovered, proposed))
    ensures forall i :: 0 <= i < |Discover(traits, discovered, proposed)| ==>
      HasTrait(traits, Discover(traits, discovered, proposed)[i])
  {
    var r := Discover(traits, discovered, proposed);
    if r != discovered {
      assert r[|discovered|] == proposed.value;
      forall i, j | 0 <= i < j < |r| ensures r[i] != r[j] {
        if j == |discovered| {
          assert r[i] == discovered[i];
        }
      }
    }
  }

  /** The words that end a conversation in the closing stage. */
  const EndKeywords: seq<string> := ["goodbye", "bye", "see you", "안녕", "가볼게요", "다음에", "adios", "tchau"]

  /** The lower-cased reply contains one of the end keywords. */
  predicate EndsConversation(reply: string)
  {
    exists i :: 0 <= i < |EndKeywords| && Includes(Lower(reply), EndKeywords[i])
  }

  /** Text containing "goodbye" contains "bye". */
  lemma GoodbyeHasBye(l: string)
    requires Includes(l, "goodbye")
    ensures Includes(l, "bye")
  {
    IncludesIff(l, "goodbye");
    var k :| OccursAt(l, "goodbye", k);
    assert l[k + 4..k + 7] == l[k..k + 7][4..7];
    assert OccursAt(l, "bye", k + 4);
    IncludesIff(l, "bye");
  }

  /** "goodbye" is covered by "bye": a reply ends the closing stage exactly
    * when its lower-cased text contains one of the seven other keywords,
    * whatever the letter case it was written in. */
  lemma EndsConversationIff(reply: string)
    ensures EndsConversation(reply) <==>
      (Includes(Lower(reply), "bye") || Includes(Lower(reply), "see you") || Includes(Lower(reply), "안녕")
       || Includes(Lower(reply), "가볼게요") || Includes(Lower(reply), "다음에")
       || Includes(Lower(reply), "adios") || Includes(Lower(reply), "tchau"))
  {
    var l := Lower(reply);
    if EndsConversation(reply) {
      var i :| 0 <= i < |EndKeywords| && Includes(l, EndKeywords[i]);
      if i == 0 {
        GoodbyeHasBye(l);
      }
    }
    if Includes(l, "bye") {
      assert Includes(l, EndKeywords[1]);
    } else if Includes(l, "see you") {
      assert Includes(l, EndKeywords[2]);
    } else if Includes(l, "안녕") {
      assert Includes(l, EndKeywords[3]);
    } else if Includes(l, "가볼게요") {
      assert Includes(l, EndKeywords[4]);
    } else if Includes(l, "다음에") {
      assert Includes(l, EndKeywords[5]);
    } else if Includes(l, "adios") {
      assert Includes(l, EndKeywords[6]);
    } else if Includes(l, "tchau") {
      assert Includes(l, EndKeywords[7]);
    }
  }

  /** The generic error line for the screen's language. */
  function ErrorTextFor(language: string): (t: string)
    ensures language == "ko" ==> t == "오류가 발생했습니다."
    ensures language != "ko" ==> t == "An error occurred."
  {
    if language == "ko" then "오류가 발생했습니다." else "An error occurred."
  }

  /** `useBlocker`'s rule: leaving for another route is held back while a
    * session with messages is still running. */
  function BlocksRoute(isSessionEnded: bool, messageCount: nat, currentPath: string, nextPath: string): (b: bool)
    ensures isSessionEnded ==> !b
    ensures messageCount == 0 ==> !b
    ensures currentPath == nextPath ==> !b
    ensures !isSessionEnded && messageCount > 0 && currentPath != nextPath ==> b
  {
    !isSessionEnded && messageCount > 0 && currentPath != nextPath
  }

  /** What `handleEndSession` hands on: the generated feedback when it is
    * truthy, otherwise a fixed fallback report. */
  function EndSessionResult(feedback: Option<Value>): (r: Value)
    ensures Truthy(feedback) ==> r == feedback.value
    ensures !Truthy(feedback) ==> r.Obj? && Get(r.fields, "totalScore") == Some(Num(75))
    ensures !Truthy(feedback) ==> r.Obj? && Get(r.fields, "summary") == Some(Str("Feedback generation failed."))
    ensures !Truthy(feedback) ==> r.Obj? && Get(r.fields, "scores") == Some(Arr([]))
  {
    if Truthy(feedback) then feedback.value
    else Obj(map["totalScore" := Num(75), "summary" := Str("Feedback generation failed."), "scores" := Arr([])])
  }

  datatype ChatMessage = ChatMessage(role: string, text: string)

  lemma AppendTwo(s: seq<ChatMessage>, a: ChatMessage, b: ChatMessage)
    ensures s + [a] + [b] == s + [a, b]
  {
  }

  /** A session saved on leaving the page, handed back when resuming. */
  datatype SavedState = SavedState(
    messages: seq<ChatMessage>,
    currentStep: string,
    discoveredTraits: seq<string>,
    objectionHint: Option<string>)

  class SalesLabChatState {
    const config: SalesLabSetup.StartConfig
    const language: string
    var messages: seq<ChatMessage>
    var input: string
    var isProcessing: bool
    var currentStep: string
    var discoveredTraits: seq<string>
    var objectionHint: Option<string>
    var isAutoMode: bool
    var isSessionEnded: bool

    /** The discovered traits are distinct trait ids of the customer. */
    predicate Valid()
      reads this
    {
      Distinct(discoveredTraits)
      && forall i :: 0 <= i < |discoveredTraits| ==> HasTrait(config.customer.traits, discoveredTraits[i])
    }

    /** A fresh session starts at the greeting with nothing discovered; a
      * resumed one takes its saved messages, stage (greeting when empty),
      * traits and hint (none when empty). The session is Valid exactly
      * when it is fresh or its saved traits are distinct traits of the
      * customer. */
    constructor(config: SalesLabSetup.StartConfig, language: string, initial: Option<SavedState>)
      ensures this.config == config && this.language == language
      ensures initial.None? ==> messages == [] && currentStep == "greeting" && discoveredTraits == [] && objectionHint.None?
      ensures initial.Some? ==>
        messages == initial.value.messages
        && currentStep == (if initial.value.currentStep == [] then "greeting" else initial.value.currentStep)
        && discoveredTraits == initial.value.discoveredTraits
        && objectionHint == (if Present(initial.value.objectionHint) then initial.value.objectionHint else None)
      ensures input == [] && !isProcessing && !isAutoMode && !isSessionEnded
      ensures Valid() <==>
        (initial.None? || (Distinct(initial.value.discoveredTraits)
          && forall i :: 0 <= i < |initial.value.discoveredTraits| ==> HasTrait(config.customer.traits, initial.value.discoveredTraits[i])))
    {
      this.config := config;
      this.language := language;
      if initial.None? {
        messages, currentStep, discoveredTraits, objectionHint := [], "greeting", [], None;
      } else {
        messages := initial.value.messages;
        currentStep := if initial.value.currentStep == [] then "greeting" else initial.value.currentStep;
        discoveredTraits := initial.value.discoveredTraits;
        objectionHint := if Present(initial.value.objectionHint) then initial.value.objectionHint else None;
      }
      input, isProcessing, isAutoMode, isSessionEnded := [], false, false, false;
    }

    /** The opening of a fresh session: the customer's first line, or the
      * error line when the model fails. */
    method StartRoleplay(opening: Option<string>)
      modifies this
      ensures messages == [ChatMessage("ai", if opening.Some? then opening.value else ErrorTextFor(language))]
      ensures !isProcessing
      ensures input == old(input) && currentStep == old(currentStep) && discoveredTraits == old(discoveredTraits)
      ensures objectionHint == old(objectionHint) && isAutoMode == old(isAutoMode) && isSessionEnded == old(isSessionEnded)
      ensures !isSessionEnded ==> forall p, q :: p != q ==> BlocksNavigation(p, q)
    {
      isProcessing := true;
      if opening.Some? {
        messages := [ChatMessage("ai", opening.value)];
      } else {
        messages := [ChatMessage("ai", ErrorTextFor(language))];
      }
      isProcessing := false;
    }

    /** The blocker of this chat: it holds back exactly the moves to
      * another route while the session runs and has messages. */
    function BlocksNavigation(currentPath: string, nextPath: string): (b: bool)
      reads this
      ensures isSessionEnded || messages == [] ==> !b
      ensures !b && currentPath != nextPath ==> isSessionEnded || messages == []
    {
      BlocksRoute(isSessionEnded, |messages|, currentPath, nextPath)
    }

    /** `handleSend`: the text is the speech transcript in auto mode and
      * the input field otherwise. Blank text, a reply in progress or an
      * ended session make it do nothing. Otherwise the user message is
      * appended, the input and hint cleared, the analysis applied to the
      * stage, the traits and the hint, and exactly one customer message
      * appended: the reply, or the error line when the service call threw
      * (None). A model failure the service catches itself arrives as a
      * reply carrying the service's Korean error text.
      * The session ends, and auto mode stops, when the stage at the time of
      * sending was closing and the reply says goodbye. */
    method HandleSend(isAuto: bool, autoText: string, analysis: Analysis, reply: Option<Gemini.Reply>)
      returns (accepted: bool)
      modifies this
      ensures old(Valid()) ==> Valid()
      ensures accepted == !(IsBlank(if isAuto then autoText else old(input)) || old(isProcessing) || old(isSessionEnded))
      ensures !accepted ==>
        messages == old(messages) && input == old(input) && isProcessing == old(isProcessing)
        && currentStep == old(currentStep) && discoveredTraits == old(discoveredTraits)
        && objectionHint == old(objectionHint) && isAutoMode == old(isAutoMode) && isSessionEnded == old(isSessionEnded)
      ensures accepted ==> messages == old(messages) + [
        ChatMessage("user", if isAuto then autoText else old(input)),
        ChatMessage("ai", if reply.Some? then reply.value.text else ErrorTextFor(language))]
      ensures accepted ==> input == [] && !isProcessing
      ensures accepted ==> currentStep == NextStep(old(currentStep), analysis.nextStep)
      ensures accepted ==> discoveredTraits == Discover(config.customer.traits, old(discoveredTraits), analysis.discoveredTrait)
      ensures accepted ==> objectionHint == (if analysis.objectionDetected then analysis.objectionHint else None)
      ensures accepted ==> isSessionEnded == (old(currentStep) == "closing" && reply.Some? && EndsConversation(reply.value.text))
      ensures accepted ==> isAutoMode == (old(isAutoMode) && !isSessionEnded)
      ensures accepted && !isSessionEnded ==> forall p, q :: p != q ==> BlocksNavigation(p, q)
      ensures isSessionEnded ==> forall p, q :: !BlocksNavigation(p, q)
      ensures old(isSessionEnded) ==> isSessionEnded
    {
      var textToSend := if isAuto then autoText else input;
      if IsBlank(textToSend) || isProcessing || isSessionEnded {
        return false;
      }
      Exchange(textToSend, analysis, reply);
      return true;
    }

    /** An accepted send, from the user message to the customer's reply,
      * with the stage captured when the message was sent. */
    method Exchange(text: string, analysis: Analysis, reply: Option<Gemini.Reply>)
      modifies this
      ensures old(Valid()) ==> Valid()
      ensures messages == old(messages) + [
        ChatMessage("user", text),
        ChatMessage("ai", if reply.Some? then reply.value.text else ErrorTextFor(language))]
      ensures input == [] && !isProcessing
      ensures currentStep == NextStep(old(currentStep), analysis.nextStep)
      ensures discoveredTraits == Discover(config.customer.traits, old(discoveredTraits), analysis.discoveredTrait)
      ensures objectionHint == (if analysis.objectionDetected then analysis.objectionHint else None)
      ensures isSessionEnded == (old(isSessionEnded) || (old(currentStep) == "closing" && reply.Some? && EndsConversation(reply.value.text)))
      ensures isAutoMode == (old(isAutoMode) && !(old(currentStep) == "closing" && reply.Some? && EndsConversation(reply.value.text)))
    {
      var stepAtSend := currentStep;
      var before := messages;
      AcceptSend(text);
      ApplyAnalysis(stepAtSend, analysis);
      ApplyReply(stepAtSend, reply);
      AppendTwo(before, ChatMessage("user", text), messages[|messages| - 1]);
    }

    /** The synchronous part of an accepted send: the user message is
      * appended, the input and the objection hint cleared, and a reply is
      * in progress. */
    method AcceptSend(text: string)
      modifies this
      ensures messages == old(messages) + [ChatMessage("user", text)]
      ensures input == [] && isProcessing && objectionHint.None?
      ensures currentStep == old(currentStep) && discoveredTraits == old(discoveredTraits)
      ensures isAutoMode == old(isAutoMode) && isSessionEnded == old(isSessionEnded)
    {
      messages := messages + [ChatMessage("user", text)];
      input := [];
      isProcessing := true;
      objectionHint := None;
    }

    /** The analysis callback, which compares against the stage captured
      * when the message was sent. */
    method ApplyAnalysis(stepAtSend: string, analysis: Analysis)
      modifies this
      ensures old(Valid()) ==> Valid()
      ensures currentStep == NextStep(stepAtSend, analysis.nextStep)
      ensures discoveredTraits == Discover(config.customer.traits, old(discoveredTraits), analysis.discoveredTrait)
      ensures objectionHint == (if analysis.objectionDetected then analysis.objectionHint else old(objectionHint))
      ensures messages == old(messages) && input == old(input) && isProcessing == old(isProcessing)
      ensures isAutoMode == old(isAutoMode) && isSessionEnded == old(isSessionEnded)
    {
      currentStep := NextStep(stepAtSend, analysis.nextStep);
      if Valid() {
        DiscoverKeepsValid(config.customer.traits, discoveredTraits, analysis.discoveredTrait);
      }
      discoveredTraits := Discover(config.customer.traits, discoveredTraits, analysis.discoveredTrait);
      if analysis.objectionDetected {
        objectionHint := analysis.objectionHint;
      }
    }

    /** The end of the send: one customer message (the reply, or the error
      * line when the service call threw), the closing-stage goodbye check,
      * and processing off. */
    method ApplyReply(stepAtSend: string, reply: Option<Gemini.Reply>)
      modifies this
      ensures messages == old(messages) + [ChatMessage("ai", if reply.Some? then reply.value.text else ErrorTextFor(language))]
      ensures isSessionEnded == (old(isSessionEnded) || (stepAtSend == "closing" && reply.Some? && EndsConversation(reply.value.text)))
      ensures isAutoMode == (old(isAutoMode) && !(stepAtSend == "closing" && reply.Some? && EndsConversation(reply.value.text)))
      ensures !isProcessing
      ensures input == old(input) && currentStep == old(currentStep) && discoveredTraits == old(discoveredTraits)
      ensures objectionHint == old(objectionHint)
    {
      if reply.Some? {
        messages := messages + [ChatMessage("ai", reply.value.text)];
        if stepAtSend == "closing" && EndsConversation(reply.value.text) {
          isSessionEnded := true;
          isAutoMode := false;
        }
      } else {
        messages := messages + [ChatMessage("ai", ErrorTextFor(language))];
      }
      isProcessing := false;
    }

    /** `handleEndSession`: hands on the feedback, or the fallback report
      * when generation failed (None) or gave nothing. */
    method HandleEndSession(feedback: Option<Value>) returns (result: Value)
      modifies this
      ensures result == EndSessionResult(feedback)
      ensures !isProcessing
      ensures messages == old(messages) && input == old(input) && currentStep == old(currentStep)
      ensures discoveredTraits == old(discoveredTraits) && objectionHint == old(objectionHint)
      ensures isAutoMode == old(isAutoMode) && isSessionEnded == old(isSessionEnded)
    {
      isProcessing := true;
      if Truthy(feedback) {
        result := feedback.value;
      } else {
        result := Obj(map["totalScore" := Num(75), "summary" := Str("Feedback generation failed."), "scores" := Arr([])]);
      }
      isProcessing := false;
    }
  }
}
