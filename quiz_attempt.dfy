/**
 * Answering a past paper (frontend/src/pages/Quiz/QuizAttempt.jsx): answers
 * marked in pencil (changeable) or pen (final), five questions per page, a
 * countdown that submits when it runs out, and the score.
 */
module QuizAttempt {
  import opened Wrappers
  import opened Text

  const QuestionsPerPage: int := 5

  datatype Tool = Pen | Pencil

  /** answers[qIndex] = { choice, tool }. */
  datatype Answer = Answer(choice: int, tool: Tool)

  /** A stored question; a missing correctAnswers list behaves as an empty one. */
  datatype Question = Question(question: string, options: seq<string>, correctAnswers: seq<int>)

  datatype Score = Score(correct: nat, total: nat)

  /** q.correctAnswers?.[0], undefined for an empty list. */
  function FirstCorrect(q: Question): (r: Option<int>)
    ensures r.Some? <==> |q.correctAnswers| > 0
  {
    if |q.correctAnswers| > 0 then Some(q.correctAnswers[0]) else None
  }

  /** answers[i]?.choice, undefined for an unanswered question. */
  function Chosen(answers: map<int, Answer>, i: int): (r: Option<int>)
    ensures r.Some? <==> i in answers
  {
    if i in answers then Some(answers[i].choice) else None
  }

  /** The test handleSubmit applies: the two optional values are strictly equal. */
  predicate CountsAsWritten(q: Question, answers: map<int, Answer>, i: int)
  {
    Chosen(answers, i) == FirstCorrect(q)
  }

  /** The evidently intended test: the question was answered with its first correct choice. */
  predicate Counts(q: Question, answers: map<int, Answer>, i: int)
  {
    i in answers && FirstCorrect(q) == Some(answers[i].choice)
  }

  /** The number of answered questions among the first n. */
  function AnsweredCount(n: nat, answers: map<int, Answer>): (c: nat)
    ensures c <= n
  {
    if n == 0 then 0 else AnsweredCount(n - 1, answers) + (if n - 1 in answers then 1 else 0)
  }

  /** handleSubmit's count over the first n questions, as written. */
  function CorrectAsWritten(qs: seq<Question>, answers: map<int, Answer>, n: nat): (c: nat)
    requires n <= |qs|
    ensures c <= n
  {
    if n == 0 then 0
    else CorrectAsWritten(qs, answers, n - 1) + (if CountsAsWritten(qs[n - 1], answers, n - 1) then 1 else 0)
  }

  /** The corrected count over the first n questions: never more than were answered. */
  function CorrectCount(qs: seq<Question>, answers: map<int, Answer>, n: nat): (c: nat)
    requires n <= |qs|
    ensures c <= AnsweredCount(n, answers) <= n
    ensures (forall i :: 0 <= i < n ==> Counts(qs[i], answers, i)) ==> c == n
    ensures (forall i :: 0 <= i < n ==> !Counts(qs[i], answers, i)) ==> c == 0
  {
    if n == 0 then 0
    else CorrectCount(qs, answers, n - 1) + (if Counts(qs[n - 1], answers, n - 1) then 1 else 0)
  }

  /**
   * As written, a question with no correct answers that was left unanswered
   * scores a mark: undefined === undefined.
   */
  lemma UnansweredScoresAsWritten()
    ensures CorrectAsWritten([Question("Q1", ["a", "b", "c", "d"], [])], map[], 1) == 1
    ensures CorrectCount([Question("Q1", ["a", "b", "c", "d"], [])], map[], 1) == 0
  {
    var qs := [Question("Q1", ["a", "b", "c", "d"], [])];
    assert CountsAsWritten(qs[0], map[], 0);
    assert !Counts(qs[0], map[], 0);
  }

  /** The two tests agree on every question that has a correct answer. */
  lemma CountsAgreeWithAnswerKey(q: Question, answers: map<int, Answer>, i: int)
    requires |q.correctAnswers| > 0
    ensures CountsAsWritten(q, answers, i) <==> Counts(q, answers, i)
  {
  }

  /** Math.ceil(n / 5). */
  function TotalPages(n: nat): (p: nat)
    ensures QuestionsPerPage * p >= n && (n > 0 ==> QuestionsPerPage * (p - 1) < n)
  {
    (n + QuestionsPerPage - 1) / QuestionsPerPage
  }

  /** The position a JavaScript slice bound selects: negatives count from the end; both clamp. */
  function SliceBound(x: int, len: nat): (r: nat)
    ensures r <= len
    ensures 0 <= x <= len ==> r == x
  {
    if x < 0 then (if len + x < 0 then 0 else len + x) else if x > len then len else x
  }

  /** questions.slice(from, to). */
  function JsSlice<T>(s: seq<T>, from: int, to: int): (r: seq<T>)
    ensures 0 <= from <= to <= |s| ==> r == s[from..to]
    ensures 0 <= to <= from ==> r == []
    ensures |r| <= |s|
  {
    var a := SliceBound(from, |s|);
    var b := SliceBound(to, |s|);
    if a < b then s[a..b] else []
  }

  /** The questions shown on a page. */
  function VisibleQuestions(qs: seq<Question>, page: int): (r: seq<Question>)
    ensures |r| <= QuestionsPerPage
    ensures page == -1 || page * QuestionsPerPage >= |qs| ==> r == []
    ensures page >= 0 ==> forall k :: 0 <= k < |r| ==> page * QuestionsPerPage + k < |qs| && r[k] == qs[page * QuestionsPerPage + k]
  {
    JsSlice(qs, page * QuestionsPerPage, page * QuestionsPerPage + QuestionsPerPage)
  }

  /** Question i is shown on page i / 5, at position i % 5, and each page in range is non-empty. */
  lemma QuestionOnItsPage(qs: seq<Question>, i: int)
    requires 0 <= i < |qs|
    ensures 0 <= i / QuestionsPerPage < TotalPages(|qs|)
    ensures i % QuestionsPerPage < |VisibleQuestions(qs, i / QuestionsPerPage)|
    ensures VisibleQuestions(qs, i / QuestionsPerPage)[i % QuestionsPerPage] == qs[i]
  {
    var p := i / QuestionsPerPage;
    assert p * QuestionsPerPage + i % QuestionsPerPage == i;
  }

  /** The page range the two buttons keep: [0, pages - 1], and [-1, 0] for an empty paper. */
  predicate PageInRange(page: int, n: nat)
  {
    if n > 0 then 0 <= page < TotalPages(n) else -1 <= page <= 0
  }

  /** formatTime: minutes, a colon, then the seconds with a leading 0 below 10. */
  function FormatTime(seconds: int): string
  {
    var m := seconds / 60;
    var s := JsRem(seconds, 60);
    IntToString(m) + ":" + (if s < 10 then "0" else "") + IntToString(s)
  }

  /** For a non-negative count, formatTime is `m:ss` and the fields give back the count. */
  lemma FormatTimeShape(seconds: int)
    requires seconds >= 0
    ensures FormatTime(seconds) == NatToString(seconds / 60) + ":" + Pad2(seconds % 60)
    ensures 60 * DigitsValue(NatToString(seconds / 60)) + DigitsValue(Pad2(seconds % 60)) == seconds
  {
    var m := seconds / 60;
    var s := seconds % 60;
    assert JsRem(seconds, 60) == s;
    Pad2Prefix(s);
    assert FormatTime(seconds) == NatToString(m) + ":" + Pad2(s);
    DigitsValueOfNatToString(m);
    Pad2Value(s);
  }

  class Attempt {
    var questions: seq<Question>
    var answers: map<int, Answer>
    var locked: set<int>
    var selectedTool: Option<Tool>
    var submitted: bool
    var score: Option<Score>
    var currentPage: int
    var timeLeft: Option<int>

    /** Every pen-marked question holds a pen answer, and the page is in range. */
    ghost predicate Valid()
      reads this
    {
      (forall q :: q in locked ==> q in answers && answers[q].tool == Pen)
      && PageInRange(currentPage, |questions|)
    }

    /** The page once the paper has loaded: nothing answered, page 0, timeLimit minutes left. */
    constructor (paper: seq<Question>, timeLimit: int)
      ensures Valid()
      ensures questions == paper && answers == map[] && locked == {} && selectedTool == None
      ensures !submitted && score == None && currentPage == 0 && timeLeft == Some(timeLimit * 60)
    {
      questions := paper;
      answers := map[];
      locked := {};
      selectedTool := None;
      submitted := false;
      score := None;
      currentPage := 0;
      timeLeft := Some(timeLimit * 60);
    }

    method SelectTool(t: Tool)
      modifies this`selectedTool
      ensures selectedTool == Some(t)
    {
      selectedTool := Some(t);
    }

    /** handleSelect: needs a tool; a pen-marked question is final; the pen locks what it marks. */
    method HandleSelect(qIndex: int, idx: int)
      requires Valid()
      modifies this`answers, this`locked
      ensures Valid()
      ensures selectedTool.None? || qIndex in old(locked) ==> answers == old(answers) && locked == old(locked)
      ensures selectedTool.Some? && qIndex !in old(locked) ==>
        answers == old(answers)[qIndex := Answer(idx, selectedTool.value)]
        && locked == old(locked) + (if selectedTool.value == Pen then {qIndex} else {})
      ensures forall q :: q in old(locked) ==> q in locked && q in answers && answers[q] == old(answers)[q]
    {
      if selectedTool.None? {
        return;
      }
      if qIndex in locked {
        return;
      }
      answers := answers[qIndex := Answer(idx, selectedTool.value)];
      if selectedTool.value == Pen {
        locked := locked + {qIndex};
      }
    }

    /** handleSubmit: count the correct answers and mark the attempt submitted. */
    method HandleSubmit()
      modifies this`score, this`submitted
      ensures submitted
      ensures score == Some(Score(CorrectCount(questions, answers, |questions|), |questions|))
    {
      var correct := 0;
      var i := 0;
      while i < |questions|
        invariant 0 <= i <= |questions|
        invariant correct == CorrectCount(questions, answers, i)
      {
        if i in answers && FirstCorrect(questions[i]) == Some(answers[i].choice) {
          correct := correct + 1;
        }
        i := i + 1;
      }
      score := Some(Score(correct, |questions|));
      submitted := true;
    }

    /** The Previous button: disabled on page 0, otherwise one page back, not below 0. */
    method PreviousPage()
      requires Valid()
      modifies this`currentPage
      ensures Valid()
      ensures old(currentPage) == 0 ==> currentPage == 0
      ensures old(currentPage) != 0 ==> currentPage == (if old(currentPage) - 1 < 0 then 0 else old(currentPage) - 1)
    {
      if currentPage != 0 {
        currentPage := if currentPage - 1 < 0 then 0 else currentPage - 1;
      }
    }

    /** The Next button: disabled on the last page, otherwise one page on, not past the last. */
    method NextPage()
      requires Valid()
      modifies this`currentPage
      ensures Valid()
      ensures old(currentPage) == TotalPages(|questions|) - 1 ==> currentPage == old(currentPage)
      ensures old(currentPage) != TotalPages(|questions|) - 1 ==>
        currentPage == (if old(currentPage) + 1 < TotalPages(|questions|) - 1 then old(currentPage) + 1
                        else TotalPages(|questions|) - 1)
    {
      var last := TotalPages(|questions|) - 1;
      if currentPage != last {
        currentPage := if currentPage + 1 < last then currentPage + 1 else last;
      }
    }

    /**
     * One second of the countdown.  The interval runs only while time is set,
     * non-zero and not submitted; at one second or less it stops at 0 and submits.
     */
    method Tick()
      requires Valid()
      modifies this`timeLeft, this`score, this`submitted
      ensures Valid()
      ensures old(timeLeft).None? || old(timeLeft) == Some(0) || old(submitted) ==>
        timeLeft == old(timeLeft) && submitted == old(submitted) && score == old(score)
      ensures old(timeLeft).Some? && old(timeLeft) != Some(0) && !old(submitted) && old(timeLeft).value <= 1 ==>
        timeLeft == Some(0) && submitted
        && score == Some(Score(CorrectCount(questions, answers, |questions|), |questions|))
      ensures old(timeLeft).Some? && !old(submitted) && old(timeLeft).value > 1 ==>
        timeLeft == Some(old(timeLeft).value - 1) && submitted == old(submitted) && score == old(score)
    {
      if timeLeft.None? || timeLeft.value == 0 || submitted {
        return;
      }
      if timeLeft.value <= 1 {
        timeLeft := Some(0);
        HandleSubmit();
      } else {
        timeLeft := Some(timeLeft.value - 1);
      }
    }
  }
}
