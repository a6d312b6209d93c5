/**
 * Quiz scoring, answer bookkeeping, question batches and the attack
 * playground of the education page (frontend/src/pages/EducationModule.js).
 */
module Education {
  import opened Wrappers
  import Rounding
  import Visualizer

  /** One quiz question as the gateway returns it. */
  datatype Question = Question(id: int, category: string, text: string, options: seq<string>, correct: int)

  /** Chosen option index per question id, for one quiz. */
  type Answers = map<int, int>

  /** `quizAnswers`: the answers per quiz id. */
  type QuizAnswers = map<string, Answers>

  /** The only quiz the page defines. */
  const QuizId := "comprehensive-quiz"

  /** The categories fetched, in order, and the batch size per category. */
  const Categories: seq<string> := ["SQLi", "XSS", "BruteForce"]
  const PerCategory := 3

  /** `quizAnswers[quizId] || {}`. */
  function AnswersFor(qa: QuizAnswers, quizId: string): Answers {
    if quizId in qa then qa[quizId] else map[]
  }

  /** `answers[q.id] === q.correct`: an unanswered question is never correct. */
  predicate IsCorrect(q: Question, answers: Answers) {
    q.id in answers && answers[q.id] == q.correct
  }

  /** The outcome reported for one question. */
  datatype QuestionResult = QuestionResult(question: string, userAnswer: string, correctAnswer: Option<string>, isCorrect: bool)

  /** `question.options[i]`, absent when the index is out of range. */
  function OptionAt(q: Question, i: int): Option<string> {
    if 0 <= i < |q.options| then Some(q.options[i]) else None
  }

  /** `question.options[userAnswer] || 'Not answered'`. */
  function UserAnswerText(q: Question, answers: Answers): (t: string)
    ensures q.id !in answers ==> t == "Not answered"
    ensures t != ""
    ensures t != "Not answered" ==> q.id in answers && OptionAt(q, answers[q.id]) == Some(t)
    ensures q.id in answers && OptionAt(q, answers[q.id]).Some? && OptionAt(q, answers[q.id]).value != "" ==>
      t == OptionAt(q, answers[q.id]).value
  {
    if q.id in answers && OptionAt(q, answers[q.id]).Some? && OptionAt(q, answers[q.id]).value != "" then
      OptionAt(q, answers[q.id]).value
    else
      "Not answered"
  }

  function ResultFor(q: Question, answers: Answers): (r: QuestionResult)
    ensures r.isCorrect <==> IsCorrect(q, answers)
    ensures q.id !in answers ==> !r.isCorrect && r.userAnswer == "Not answered"
    ensures r.question == q.text && r.correctAnswer == OptionAt(q, q.correct)
    ensures r.userAnswer == UserAnswerText(q, answers)
  {
    QuestionResult(q.text, UserAnswerText(q, answers), OptionAt(q, q.correct), IsCorrect(q, answers))
  }

  /** The number of questions answered correctly. */
  function CountCorrect(qs: seq<Question>, answers: Answers): (n: nat)
    ensures n <= |qs|
  {
    if qs == [] then 0
    else CountCorrect(qs[..|qs| - 1], answers) + (if IsCorrect(qs[|qs| - 1], answers) then 1 else 0)
  }

  /** Full marks exactly when every question is correct; zero exactly when none is. */
  lemma {:induction false} CountCorrectExtremes(qs: seq<Question>, answers: Answers)
    ensures CountCorrect(qs, answers) == |qs| <==> forall i :: 0 <= i < |qs| ==> IsCorrect(qs[i], answers)
    ensures CountCorrect(qs, answers) == 0 <==> forall i :: 0 <= i < |qs| ==> !IsCorrect(qs[i], answers)
  {
    if qs != [] {
      var prefix := qs[..|qs| - 1];
      CountCorrectExtremes(prefix, answers);
      assert forall i :: 0 <= i < |prefix| ==> prefix[i] == qs[i];
      assert qs == prefix + [qs[|qs| - 1]];
    }
  }

  /** The number of reported results marked correct. */
  function CountMarked(rs: seq<QuestionResult>): nat {
    if rs == [] then 0 else CountMarked(rs[..|rs| - 1]) + (if rs[|rs| - 1].isCorrect then 1 else 0)
  }

  /** The result list: one entry per question, in question order. */
  function ResultsFor(qs: seq<Question>, answers: Answers): (rs: seq<QuestionResult>)
    ensures |rs| == |qs|
    ensures forall i :: 0 <= i < |qs| ==> rs[i] == ResultFor(qs[i], answers)
  {
    seq(|qs|, i requires 0 <= i < |qs| => ResultFor(qs[i], answers))
  }

  /** The score and the per-question marks agree. */
  lemma {:induction false} ScoreMatchesMarks(qs: seq<Question>, answers: Answers)
    ensures CountCorrect(qs, answers) == CountMarked(ResultsFor(qs, answers))
  {
    if qs != [] {
      var prefix := qs[..|qs| - 1];
      ScoreMatchesMarks(prefix, answers);
      assert ResultsFor(qs, answers)[..|qs| - 1] == ResultsFor(prefix, answers);
    }
  }

  /** Grading of a quiz's questions: the counter loop of `handleQuizSubmit`. */
  method Grade(qs: seq<Question>, answers: Answers) returns (correct: nat, results: seq<QuestionResult>)
    ensures correct == CountCorrect(qs, answers)
    ensures results == ResultsFor(qs, answers)
    ensures correct <= |qs|
  {
    correct := 0;
    results := [];
    var i := 0;
    while i < |qs|
      invariant 0 <= i <= |qs|
      invariant correct == CountCorrect(qs[..i], answers)
      invariant |results| == i
      invariant forall j :: 0 <= j < i ==> results[j] == ResultFor(qs[j], answers)
    {
      var q := qs[i];
      var r := ResultFor(q, answers);
      if r.isCorrect {
        correct := correct + 1;
      }
      results := results + [r];
      assert qs[..i + 1][..i] == qs[..i];
      i := i + 1;
    }
    assert qs[..i] == qs;
  }

  /** `quizResults`: `percentage` is absent where the page shows NaN (an empty quiz). */
  datatype QuizResults = QuizResults(quizId: string, correct: nat, total: nat, percentage: Option<int>, results: seq<QuestionResult>)

  /** `Math.round((correct / total) * 100)`. */
  function ScorePercent(correct: nat, total: nat): (p: Option<int>)
    ensures p.Some? <==> total > 0
    ensures p.Some? && correct <= total ==> 0 <= p.value <= 100
    ensures p.Some? ==> 2 * p.value * total - total <= 200 * correct < 2 * p.value * total + total
  {
    if total > 0 then Some(Rounding.Percent(correct, total)) else None
  }

  /** `resetQuiz`: only the given quiz loses its answers. */
  function ResetAnswers(qa: QuizAnswers, quizId: string): (r: QuizAnswers)
    ensures r.Keys == qa.Keys + {quizId}
    ensures r[quizId] == map[]
    ensures forall k :: k in qa && k != quizId ==> r[k] == qa[k]
  {
    qa[quizId := map[]]
  }

  /** The radio-button `onChange`: records one option for one question of one quiz. */
  function SelectAnswer(qa: QuizAnswers, quizId: string, questionId: int, option: int): (r: QuizAnswers)
    ensures r.Keys == qa.Keys + {quizId}
    ensures AnswersFor(r, quizId).Keys == AnswersFor(qa, quizId).Keys + {questionId}
    ensures AnswersFor(r, quizId)[questionId] == option
    ensures forall k :: k in AnswersFor(qa, quizId) && k != questionId ==>
      AnswersFor(r, quizId)[k] == AnswersFor(qa, quizId)[k]
    ensures forall k :: k in qa && k != quizId ==> r[k] == qa[k]
  {
    qa[quizId := AnswersFor(qa, quizId)[questionId := option]]
  }

  /** After a reset the quiz scores nothing and every question reads 'Not answered'. */
  lemma {:induction false} ResetScoresZero(qs: seq<Question>, qa: QuizAnswers, quizId: string)
    ensures CountCorrect(qs, AnswersFor(ResetAnswers(qa, quizId), quizId)) == 0
    ensures forall i :: 0 <= i < |qs| ==>
      ResultsFor(qs, AnswersFor(ResetAnswers(qa, quizId), quizId))[i].userAnswer == "Not answered"
  {
    var none := AnswersFor(ResetAnswers(qa, quizId), quizId);
    assert none == map[];
    forall i | 0 <= i < |qs| ensures !IsCorrect(qs[i], none) { }
    CountCorrectExtremes(qs, none);
  }

  /** Selecting an option changes the mark of the selected question only. */
  lemma SelectChangesOneMark(qs: seq<Question>, qa: QuizAnswers, quizId: string, questionId: int, option: int)
    ensures forall i :: 0 <= i < |qs| && qs[i].id != questionId ==>
      (IsCorrect(qs[i], AnswersFor(SelectAnswer(qa, quizId, questionId, option), quizId)) <==>
       IsCorrect(qs[i], AnswersFor(qa, quizId)))
    ensures forall i :: 0 <= i < |qs| && qs[i].id == questionId ==>
      (IsCorrect(qs[i], AnswersFor(SelectAnswer(qa, quizId, questionId, option), quizId)) <==>
       option == qs[i].correct)
  {
  }

  /** One `GET /api/quiz/questions` request. */
  datatype QuestionRequest = QuestionRequest(category: string, count: int, exclude: seq<int>)

  /** The ids of a batch, in order. */
  function Ids(qs: seq<Question>): (ids: seq<int>)
    ensures |ids| == |qs|
    ensures forall i :: 0 <= i < |qs| ==> ids[i] == qs[i].id
  {
    if qs == [] then [] else [qs[0].id] + Ids(qs[1..])
  }

  /** The concatenation of the answered batches, a failed one contributing nothing. */
  function Batch(responses: seq<Option<seq<Question>>>): seq<Question> {
    if responses == [] then []
    else Batch(responses[..|responses| - 1]) + responses[|responses| - 1].GetOr([])
  }

  /** The index of the first failed request, or the number of requests when none failed. */
  function FirstFailure(responses: seq<Option<seq<Question>>>): (k: nat)
    ensures k <= |responses|
    ensures forall i :: 0 <= i < k ==> responses[i].Some?
    ensures k < |responses| ==> responses[k].None?
  {
    if responses == [] then 0
    else if responses[0].None? then 0
    else 1 + FirstFailure(responses[1..])
  }

  /** The requests sent for a fetch that reaches the category at index `k`. */
  function RequestsUpTo(k: nat, exclude: seq<int>): (rs: seq<QuestionRequest>)
    requires k <= |Categories|
    ensures |rs| == k
    ensures forall i :: 0 <= i < k ==> rs[i] == QuestionRequest(Categories[i], PerCategory, exclude)
  {
    seq(k, i requires 0 <= i < k => QuestionRequest(Categories[i], PerCategory, exclude))
  }

  /** The playground walkthrough (`playground` state): four steps, indices 0 to 3. */
  datatype Playground = Playground(attack: Visualizer.Attack, input: string, step: int)

  const PlaygroundLast := 3

  function PlaygroundRestart(p: Playground): (r: Playground)
    ensures r == p.(step := 0)
  {
    p.(step := 0)
  }

  function PlaygroundPrev(p: Playground): (r: Playground)
    ensures r.attack == p.attack && r.input == p.input
    ensures r.step >= 0
    ensures p.step > 0 ==> r.step == p.step - 1
    ensures p.step <= 0 ==> r.step == 0
  {
    p.(step := if 0 > p.step - 1 then 0 else p.step - 1)
  }

  function PlaygroundNext(p: Playground): (r: Playground)
    ensures r.attack == p.attack && r.input == p.input
    ensures r.step <= PlaygroundLast
    ensures p.step < PlaygroundLast ==> r.step == p.step + 1
    ensures p.step >= PlaygroundLast ==> r.step == PlaygroundLast
  {
    p.(step := if PlaygroundLast < p.step + 1 then PlaygroundLast else p.step + 1)
  }

  /** Changing the playground's attack keeps its step, as the visualizer does. */
  function PlaygroundSetAttack(p: Playground, a: Visualizer.Attack): (r: Playground)
    ensures r.attack == a && r.step == p.step && r.input == p.input
  {
    p.(attack := a)
  }

  /** Typing into the playground's input changes the input alone. */
  function PlaygroundSetInput(p: Playground, input: string): (r: Playground)
    ensures r.input == input && r.attack == p.attack && r.step == p.step
  {
    p.(input := input)
  }

  /**
   * The playground step stays in [0, 3], and its buttons are the visualizer's
   * manual navigation over a four-stage script.
   */
  lemma PlaygroundMatchesSequencer(p: Playground)
    requires 0 <= p.step <= PlaygroundLast
    ensures 0 <= PlaygroundPrev(p).step <= PlaygroundLast
    ensures 0 <= PlaygroundNext(p).step <= PlaygroundLast
    ensures PlaygroundNext(p).step == Visualizer.NextStep(p.step, PlaygroundLast + 1)
    ensures PlaygroundPrev(p).step == Visualizer.PrevStep(p.step)
  {
  }

  /** The quiz tab's state. */
  class QuizPage {
    var answers: QuizAnswers
    var results: Option<QuizResults>
    var questions: seq<Question>
    var usedIds: seq<int>
    var loadingQuestions: bool

    constructor ()
      ensures answers == map[] && results == None && questions == [] && usedIds == []
      ensures !loadingQuestions
    {
      answers := map[];
      results := None;
      questions := [];
      usedIds := [];
      loadingQuestions := false;
    }

    method Select(quizId: string, questionId: int, option: int)
      modifies this`answers
      ensures answers == SelectAnswer(old(answers), quizId, questionId, option)
    {
      answers := SelectAnswer(answers, quizId, questionId, option);
    }

    method Reset(quizId: string)
      modifies this`answers, this`results
      ensures answers == ResetAnswers(old(answers), quizId)
      ensures results == None
    {
      answers := ResetAnswers(answers, quizId);
      results := None;
    }

    /** `handleQuizSubmit`; the page passes only the id of the quiz it shows. */
    method Submit(quizId: string)
      requires quizId == QuizId
      modifies this`results
      ensures results.Some?
      ensures results.value.quizId == quizId && results.value.total == |questions|
      ensures results.value.correct == CountCorrect(questions, AnswersFor(answers, quizId))
      ensures results.value.results == ResultsFor(questions, AnswersFor(answers, quizId))
      ensures results.value.percentage == ScorePercent(results.value.correct, |questions|)
    {
      var correct, rs := Grade(questions, AnswersFor(answers, quizId));
      results := Some(QuizResults(quizId, correct, |questions|, ScorePercent(correct, |questions|), rs));
    }

    /**
     * `fetchQuestions`: one request per category, in order, with the responses
     * supplied by the gateway; the first failed request ends the fetch and
     * leaves the quiz as it was.
     */
    method FetchQuestions(replace: bool, responses: seq<Option<seq<Question>>>) returns (requests: seq<QuestionRequest>)
      requires |responses| == |Categories|
      modifies this`answers, this`results, this`questions, this`usedIds, this`loadingQuestions
      ensures !loadingQuestions
      ensures var k := FirstFailure(responses);
        requests == RequestsUpTo(if k < |Categories| then k + 1 else k, if replace then [] else old(usedIds))
      ensures FirstFailure(responses) < |Categories| ==>
        questions == old(questions) && usedIds == old(usedIds) &&
        answers == old(answers) && results == old(results)
      ensures FirstFailure(responses) == |Categories| ==>
        questions == Batch(responses) &&
        usedIds == (if replace then Ids(Batch(responses)) else old(usedIds) + Ids(Batch(responses))) &&
        answers == (if replace then map[] else old(answers)) &&
        results == (if replace then None else old(results))
    {
      loadingQuestions := true;
      var exclude := if replace then [] else usedIds;
      var all: seq<Question> := [];
      requests := [];
      var i := 0;
      var failed := false;
      while i < |Categories| && !failed
        invariant 0 <= i <= |Categories|
        invariant !failed ==> i <= FirstFailure(responses) && all == Batch(responses[..i])
        invariant failed ==> i == FirstFailure(responses) + 1
        invariant requests == RequestsUpTo(i, exclude)
        invariant questions == old(questions) && usedIds == old(usedIds)
        invariant answers == old(answers) && results == old(results)
        decreases |Categories| - i
      {
        requests := requests + [QuestionRequest(Categories[i], PerCategory, exclude)];
        if responses[i].None? {
          failed := true;
        } else {
          assert responses[..i + 1][..i] == responses[..i];
          all := all + responses[i].value;
        }
        i := i + 1;
      }
      if !failed {
        assert responses[..i] == responses;
        var newIds := Ids(all);
        if replace {
          usedIds := newIds;
          answers := map[];
          results := None;
        } else {
          usedIds := usedIds + newIds;
        }
        questions := all;
      }
      loadingQuestions := false;
    }
  }
}
