// The quiz screen: one question at a time, a single answer per question
// (further clicks are ignored), one point per correct answer, a Next button
// that is live only once the question is answered, and at the end a result
// screen that awards the 'g5-master' badge from three points on. The
// questions are the four built-in ones unless a stored quiz for the course
// replaces them.
module QuizPage {
  import opened Wrappers
  import opened SeqFilter
  import AppStore

  datatype QuizOption = QuizOption(id: string, correct: bool)
  datatype Question = Question(id: int, options: seq<QuizOption>)

  /** `QUESTIONS.length`. */
  const BuiltInCount: nat := 4
  const PassMark: nat := 3
  const MasterBadge: string := "g5-master"

  /** Four options 'a'..'d' with exactly the one named correct. */
  function FourOptions(correctId: string): (r: seq<QuizOption>)
    ensures |r| == 4
    ensures forall i :: 0 <= i < 4 ==> (r[i].correct <==> r[i].id == correctId)
  {
    [QuizOption("a", "a" == correctId), QuizOption("b", "b" == correctId),
     QuizOption("c", "c" == correctId), QuizOption("d", "d" == correctId)]
  }

  /** The built-in questions: the answers are b, b, c and c. */
  function BuiltInQuestions(): (r: seq<Question>)
    ensures |r| == BuiltInCount
    ensures forall i :: 0 <= i < |r| ==> r[i].id == i + 1 && |r[i].options| == 4
  {
    [Question(1, FourOptions("b")), Question(2, FourOptions("b")),
     Question(3, FourOptions("c")), Question(4, FourOptions("c"))]
  }

  function IdIs(optionId: string): QuizOption -> bool
  {
    (o: QuizOption) => o.id == optionId
  }

  predicate HasOption(q: Question, optionId: string)
  {
    exists i :: 0 <= i < |q.options| && q.options[i].id == optionId
  }

  /** `options.find(opt => opt.id === optionId).correct`: the first option
    * with that id decides. */
  function ChoiceIsCorrect(q: Question, optionId: string): (c: bool)
    requires HasOption(q, optionId)
    ensures c ==> exists i :: 0 <= i < |q.options| && q.options[i].id == optionId && q.options[i].correct
    ensures !c ==> exists i :: 0 <= i < |q.options| && q.options[i].id == optionId && !q.options[i].correct
  {
    FindIndexMissing(IdIs(optionId), q.options);
    var k := FindIndex(IdIs(optionId), q.options);
    q.options[k].correct
  }

  /** With distinct option ids, the chosen option itself decides. */
  lemma ChoiceIsCorrectIff(q: Question, k: nat)
    requires k < |q.options|
    requires forall i, j :: 0 <= i < j < |q.options| ==> q.options[i].id != q.options[j].id
    ensures ChoiceIsCorrect(q, q.options[k].id) == q.options[k].correct
  {
    FindIndexIs(IdIs(q.options[k].id), q.options, k);
  }

  /** The guard of `handleNext`: another question follows index `index`
    * of `total`. */
  predicate Advances(index: nat, total: int)
  {
    index < total - 1
  }

  class QuizState {
    const app: AppStore.AppStoreState
    var questions: seq<Question>
    var index: nat
    var selected: Option<string>
    var isAnswered: bool
    var score: nat
    var showResult: bool
    var showBadge: bool

    /** The questions answered so far in this round. */
    function Answered(): nat
      reads this
    {
      index + (if isAnswered then 1 else 0)
    }

    /** A selection exists exactly when the question is answered, and every
      * point was earned by an answered question. */
    predicate Valid()
      reads this
    {
      (isAnswered <==> selected.Some?) && score <= Answered()
    }

    /** The index points at a question. */
    predicate InRange()
      reads this
    {
      index < |questions|
    }

    /** The Next button is enabled only once the question is answered. */
    predicate NextEnabled()
      reads this
    {
      isAnswered
    }

    constructor(app: AppStore.AppStoreState)
      ensures this.app == app && questions == BuiltInQuestions()
      ensures index == 0 && selected.None? && !isAnswered && score == 0 && !showResult && !showBadge
      ensures Valid() && InRange()
    {
      this.app := app;
      questions := BuiltInQuestions();
      index := 0;
      selected := None;
      isAnswered := false;
      score := 0;
      showResult := false;
      showBadge := false;
    }

    /** The load effect: a stored quiz for the course replaces the
      * questions; nothing else changes. */
    method LoadQuiz(stored: Option<seq<Question>>)
      modifies this
      ensures stored.Some? ==> questions == stored.value
      ensures stored.None? ==> questions == old(questions)
      ensures index == old(index) && score == old(score) && isAnswered == old(isAnswered)
      ensures selected == old(selected) && showResult == old(showResult)
    {
      if stored.Some? {
        questions := stored.value;
      }
    }

    /** `handleOptionClick(optionId)` on a rendered option of the current
      * question: ignored once answered; otherwise the option is selected,
      * a correct one scores a point, and the question is answered. */
    method OptionClick(optionId: string)
      requires InRange() && HasOption(questions[index], optionId)
      requires Valid()
      modifies this
      ensures old(isAnswered) ==> selected == old(selected) && score == old(score) && isAnswered
      ensures !old(isAnswered) ==> selected == Some(optionId) && isAnswered
      ensures index == old(index) && questions == old(questions) && showResult == old(showResult)
      ensures !old(isAnswered) ==> score == old(score) + (if ChoiceIsCorrect(questions[index], optionId) then 1 else 0)
      ensures Valid()
    {
      if isAnswered {
        return;
      }
      selected := Some(optionId);
      if ChoiceIsCorrect(questions[index], optionId) {
        score := score + 1;
      }
      isAnswered := true;
    }

    /** The end of a round: the result shows, and three points or more
      * earn the badge and its animation. */
    method Finish()
      modifies this, app
      ensures showResult && showBadge == (old(showBadge) || score >= PassMark)
      ensures score >= PassMark ==> app.earnedBadges == AppStore.AddBadgeTo(old(app.earnedBadges), MasterBadge)
      ensures score < PassMark ==> app.earnedBadges == old(app.earnedBadges)
      ensures app.language == old(app.language) && app.isDemoMode == old(app.isDemoMode)
      ensures index == old(index) && score == old(score) && isAnswered == old(isAnswered)
      ensures selected == old(selected) && questions == old(questions)
    {
      showResult := true;
      if score >= PassMark {
        app.AddBadge(MasterBadge);
        showBadge := true;
      }
    }

    /** `handleNext` as written: the guard counts the four built-in
      * questions whatever quiz is showing. */
    method NextAsWritten()
      requires Valid()
      modifies this, app
      ensures Advances(old(index), BuiltInCount) ==>
        index == old(index) + 1 && selected.None? && !isAnswered && showResult == old(showResult)
      ensures !Advances(old(index), BuiltInCount) ==> index == old(index) && showResult
      ensures score == old(score) && questions == old(questions)
      ensures Valid()
    {
      if Advances(index, BuiltInCount) {
        index := index + 1;
        selected := None;
        isAnswered := false;
      } else {
        Finish();
      }
    }

    /** `handleNext` as intended: the guard counts the questions showing,
      * so the index never leaves them and the last one ends the round. */
    method Next()
      requires Valid() && InRange()
      modifies this, app
      ensures Advances(old(index), |questions|) ==>
        index == old(index) + 1 && selected.None? && !isAnswered && showResult == old(showResult)
      ensures !Advances(old(index), |questions|) ==> index == |questions| - 1 && showResult
      ensures score == old(score) && questions == old(questions)
      ensures Valid() && InRange()
    {
      if Advances(index, |questions|) {
        index := index + 1;
        selected := None;
        isAnswered := false;
      } else {
        Finish();
      }
    }

    /** `handleRetry`: a fresh round on the same questions. */
    method Retry()
      modifies this
      ensures index == 0 && selected.None? && !isAnswered && score == 0 && !showResult
      ensures questions == old(questions) && showBadge == old(showBadge)
      ensures Valid()
    {
      index := 0;
      selected := None;
      isAnswered := false;
      score := 0;
      showResult := false;
    }
  }

  /** On the second question of a two-question stored quiz, Next as
    * written moves to a third question that does not exist, where the
    * intended Next shows the result. */
  method ShortQuizDiscrepancy(quiz: QuizState)
    requires |quiz.questions| == 2 && quiz.index == 1 && quiz.Valid()
    modifies quiz, quiz.app
    ensures quiz.index == 2 && !quiz.InRange()
  {
    quiz.NextAsWritten();
  }

  /** On the fourth question of a six-question stored quiz, Next as
    * written ends the round while the intended Next moves on. */
  method LongQuizDiscrepancy(asWritten: QuizState, intended: QuizState)
    requires asWritten != intended
    requires |asWritten.questions| == 6 && asWritten.index == 3 && asWritten.Valid()
    requires |intended.questions| == 6 && intended.index == 3 && intended.Valid()
    modifies asWritten, asWritten.app, intended, intended.app
    ensures asWritten.showResult && asWritten.index == 3
    ensures intended.index == 4 && intended.InRange()
  {
    asWritten.NextAsWritten();
    intended.Next();
  }
}
