// The quiz editor of the operator console: a quiz being edited is a record
// of its own fields and a list of questions. Adding, editing and removing
// questions builds new lists and new question records, but the option list
// of a question is one array shared by every copy, and editing an option
// writes into that array in place. Saving updates the quiz named in the URL
// or creates a new one; generation needs a source material.
module QuizBuilder {
  import opened Wrappers
  import opened JsValue

  /** A question: its own fields (id, type, text, answer index,
    * explanation) and a reference to its options array. Copying a question
    * with a spread copies the fields and shares the array. */
  datatype Question = Question(fields: Record, options: array<string>)

  /** The fields `updateQuestion` is called with. */
  const EditableFields: set<string> := {"type", "question", "answer", "explanation"}

  /** The fields of a new question: an mcq question with answer 0 and an
    * empty explanation, identified by the clock. */
  function NewQuestionFields(nowMs: nat): (r: Record)
    ensures Get(r, "questionId") == Some(Str("q_" + NatToString(nowMs)))
    ensures Get(r, "type") == Some(Str("mcq")) && Get(r, "question") == Some(Str("New Question"))
    ensures Get(r, "answer") == Some(Num(0)) && Get(r, "explanation") == Some(Str(""))
    ensures "options" !in r
  {
    map["questionId" := Str("q_" + NatToString(nowMs)), "type" := Str("mcq"),
        "question" := Str("New Question"), "answer" := Num(0), "explanation" := Str("")]
  }

  /** `questions.filter((_, i) => i !== idx)`: every question but the one
    * at `idx`, in order; an index outside the list removes nothing. */
  function RemoveAt<T>(s: seq<T>, idx: int): (r: seq<T>)
    ensures 0 <= idx < |s| ==> |r| == |s| - 1
    ensures 0 <= idx < |s| ==> forall i :: 0 <= i < |r| ==> r[i] == s[if i < idx then i else i + 1]
    ensures !(0 <= idx < |s|) ==> r == s
  {
    if 0 <= idx < |s| then s[..idx] + s[idx + 1..] else s
  }

  /** Removing keeps every other question and no other: an element's
    * count drops by one exactly for the removed one. */
  lemma RemoveAtCount<T>(s: seq<T>, idx: int)
    requires 0 <= idx < |s|
    ensures multiset(RemoveAt(s, idx)) + multiset{s[idx]} == multiset(s)
  {
    assert s == s[..idx] + [s[idx]] + s[idx + 1..];
  }

  /** The save request: update the quiz in the URL, or create one. */
  datatype SaveCall = UpdateCall(quizId: string, data: Record, questions: seq<Question>)
                    | CreateCall(data: Record, questions: seq<Question>)

  class QuizBuilderState {
    /** The `id` and `materialId` URL parameters. */
    const quizId: Option<string>
    const sourceMaterialId: Option<string>
    /** The quiz's own fields: title, difficulty, tags and possibly a
      * material id. */
    var fields: Record
    var questions: seq<Question>
    var generating: bool

    constructor(quizId: Option<string>, sourceMaterialId: Option<string>)
      ensures this.quizId == quizId && this.sourceMaterialId == sourceMaterialId
      ensures fields == map["title" := Str("New Quiz"), "difficulty" := Num(2), "tags" := Arr([])]
      ensures questions == [] && !generating
    {
      this.quizId := quizId;
      this.sourceMaterialId := sourceMaterialId;
      fields := map["title" := Str("New Quiz"), "difficulty" := Num(2), "tags" := Arr([])];
      questions := [];
      generating := false;
    }

    /** The load effect: a loaded quiz replaces the draft; otherwise a
      * material id in the URL names the draft after it and links it. */
    method LoadExisting(existing: Option<(Record, seq<Question>)>)
      modifies this
      ensures existing.Some? ==> fields == existing.value.0 && questions == existing.value.1
      ensures existing.None? && sourceMaterialId.Some? && sourceMaterialId.value != [] ==>
        fields == Merge(old(fields), map["title" := Str("Quiz for Material " + sourceMaterialId.value),
                                         "materialId" := Str(sourceMaterialId.value)])
      ensures existing.None? && sourceMaterialId.Some? && sourceMaterialId.value != [] ==> questions == old(questions)
      ensures existing.None? && (sourceMaterialId.None? || sourceMaterialId.value == []) ==>
        fields == old(fields) && questions == old(questions)
      ensures generating == old(generating)
    {
      if existing.Some? {
        fields := existing.value.0;
        questions := existing.value.1;
      } else if sourceMaterialId.Some? && sourceMaterialId.value != [] {
        fields := fields + map["title" := Str("Quiz for Material " + sourceMaterialId.value),
                               "materialId" := Str(sourceMaterialId.value)];
      }
    }

    /** `addQuestion`: one new question at the end with a fresh options
      * array ["Option A", "Option B"]; the others are the same. */
    method AddQuestion(nowMs: nat)
      modifies this
      ensures |questions| == |old(questions)| + 1 && questions[..|old(questions)|] == old(questions)
      ensures questions[|old(questions)|].fields == NewQuestionFields(nowMs)
      ensures fresh(questions[|old(questions)|].options)
      ensures questions[|old(questions)|].options[..] == ["Option A", "Option B"]
      ensures fields == old(fields) && generating == old(generating)
    {
      var options := new string[2];
      options[0], options[1] := "Option A", "Option B";
      questions := questions + [Question(NewQuestionFields(nowMs), options)];
    }

    /** `updateQuestion(idx, field, val)`: a new record for question `idx`
      * with the one field replaced, still sharing its options array; every
      * other question is the same. */
    method UpdateQuestion(idx: nat, field: string, val: Value)
      requires idx < |questions| && field in EditableFields
      modifies this
      ensures questions == old(questions)[idx := Question(Merge(old(questions)[idx].fields, map[field := val]), old(questions)[idx].options)]
      ensures questions[idx].options == old(questions)[idx].options
      ensures fields == old(fields) && generating == old(generating)
    {
      questions := questions[idx := Question(questions[idx].fields + map[field := val], questions[idx].options)];
    }

    /** `updateOption(qIdx, optIdx, val)`: writes into the options array in
      * place. The list of questions is the very same list, so the quiz as
      * it was before the edit shows the new option too. */
    method UpdateOption(qIdx: nat, optIdx: nat, val: string)
      requires qIdx < |questions| && optIdx < questions[qIdx].options.Length
      modifies questions[qIdx].options
      ensures questions[qIdx].options[..] == old(questions[qIdx].options[..])[optIdx := val]
      ensures questions == old(questions) && fields == old(fields)
    {
      questions[qIdx].options[optIdx] := val;
    }

    /** `removeQuestion(idx)`. */
    method RemoveQuestion(idx: int)
      modifies this
      ensures questions == RemoveAt(old(questions), idx)
      ensures fields == old(fields) && generating == old(generating)
    {
      questions := RemoveAt(questions, idx);
    }

    /** `handleSave`: the request sent for the current draft. */
    method Save() returns (call: SaveCall)
      ensures quizId.Some? && quizId.value != [] ==> call == UpdateCall(quizId.value, fields, questions)
      ensures !(quizId.Some? && quizId.value != []) ==> call == CreateCall(fields, questions)
    {
      if quizId.Some? && quizId.value != [] {
        call := UpdateCall(quizId.value, fields, questions);
      } else {
        call := CreateCall(fields, questions);
      }
    }

    /** The material generation would use: the URL's, else the draft's. */
    function MaterialToUse(): (m: Option<Value>)
      reads this
      ensures sourceMaterialId.Some? && sourceMaterialId.value != [] ==> m == Some(Str(sourceMaterialId.value))
      ensures !(sourceMaterialId.Some? && sourceMaterialId.value != []) ==> m == Get(fields, "materialId")
    {
      if sourceMaterialId.Some? && sourceMaterialId.value != [] then Some(Str(sourceMaterialId.value))
      else Get(fields, "materialId")
    }

    /** `handleGenerate`: without a material it refuses and asks for
      * nothing; otherwise it asks for a quiz from that material (the
      * answer), and a generated quiz replaces the draft. */
    method Generate(generated: Option<(Record, seq<Question>)>) returns (requested: Option<Value>)
      modifies this
      ensures !Truthy(old(MaterialToUse())) ==> requested.None? && fields == old(fields) && questions == old(questions)
      ensures !Truthy(old(MaterialToUse())) ==> generating == old(generating)
      ensures Truthy(old(MaterialToUse())) ==> requested == old(MaterialToUse())
      ensures Truthy(old(MaterialToUse())) && generated.Some? ==>
        fields == generated.value.0 && questions == generated.value.1
      ensures Truthy(old(MaterialToUse())) && generated.None? ==> fields == old(fields) && questions == old(questions)
      ensures Truthy(old(MaterialToUse())) ==> !generating
    {
      var material := MaterialToUse();
      if !Truthy(material) {
        return None;
      }
      generating := true;
      requested := material;
      if generated.Some? {
        fields := generated.value.0;
        questions := generated.value.1;
      }
      generating := false;
    }
  }

  /** The in-place option edit reaches every holder of the options array:
    * a copy of the question list taken before the edit shows the new
    * option as well. */
  method SharedOptionsSeeEdit(builder: QuizBuilderState, qIdx: nat, optIdx: nat, val: string)
    returns (before: seq<Question>)
    requires qIdx < |builder.questions| && optIdx < builder.questions[qIdx].options.Length
    modifies builder.questions[qIdx].options
    ensures before == builder.questions && before[qIdx].options[optIdx] == val
  {
    before := builder.questions;
    builder.UpdateOption(qIdx, optIdx, val);
  }
}
