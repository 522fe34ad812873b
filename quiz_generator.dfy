/**
 * The AI quiz page (frontend/src/pages/QuizGenerator.jsx): a PDF's text is
 * sent for a generated quiz, which the student then answers.  Multiple-choice
 * questions are scored on the page and the other answers are sent for
 * grading.  The services' replies are inputs.
 */
module QuizGenerator {
  import opened Wrappers

  const MaxFileSize: int := 5 * 1024 * 1024
  const GradingFailed: string := "\U{274C} Could not grade"

  /** A generated question: options present means multiple choice. */
  datatype GenQuestion = GenQuestion(
    question: string, options: Option<seq<string>>, correctAnswer: Option<string>, sampleAnswer: Option<string>)

  datatype Quiz = Quiz(questions: seq<GenQuestion>)

  datatype Feedback = Feedback(question: string, evaluation: string)

  /** The answer to a grade-essay request: an evaluation, or the request failed. */
  datatype GradeReply = Graded(evaluation: string) | GradeFailed

  /** The answer to a generate-quiz request. `Body(Some(q))` means data.quiz.questions was present. */
  datatype GenerateReply = Body(quiz: Option<Quiz>) | RequestFailed

  /** A chosen file: its size, and the text PDF.js extracts from it. */
  datatype PdfFile = PdfFile(size: int, text: string)

  function Answer(answers: map<int, string>, i: int): Option<string>
  {
    if i in answers then Some(answers[i]) else None
  }

  /** `ans` is truthy: present and non-empty. */
  predicate Truthy(a: Option<string>) { a.Some? && a.value != "" }

  /** The number of multiple-choice questions among the first n. */
  function McqCount(qs: seq<GenQuestion>, n: nat): (c: nat)
    requires n <= |qs|
    ensures c <= n
  {
    if n == 0 then 0 else McqCount(qs, n - 1) + (if qs[n - 1].options.Some? then 1 else 0)
  }

  /** The multiple-choice score over the first n questions: ans === q.correct_answer. */
  function McqScore(qs: seq<GenQuestion>, answers: map<int, string>, n: nat): (c: nat)
    requires n <= |qs|
    ensures c <= McqCount(qs, n)
  {
    if n == 0 then 0
    else
      var hit := qs[n - 1].options.Some? && Answer(answers, n - 1) == qs[n - 1].correctAnswer;
      McqScore(qs, answers, n - 1) + (if hit then 1 else 0)
  }

  /** The number of non-multiple-choice questions among the first n with a truthy answer. */
  function EssayCount(qs: seq<GenQuestion>, answers: map<int, string>, n: nat): (c: nat)
    requires n <= |qs|
    ensures c + McqCount(qs, n) <= n
  {
    if n == 0 then 0
    else EssayCount(qs, answers, n - 1) + (if qs[n - 1].options.None? && Truthy(Answer(answers, n - 1)) then 1 else 0)
  }

  /** The feedback entry of one graded question. */
  function FeedbackOf(q: GenQuestion, reply: GradeReply): (f: Feedback)
    ensures f.question == q.question
    ensures reply.GradeFailed? ==> f.evaluation == GradingFailed
  {
    Feedback(q.question, if reply.Graded? then reply.evaluation else GradingFailed)
  }

  /** The feedback for the first n questions, one entry per graded answer whatever the reply. */
  function EssayFeedback(qs: seq<GenQuestion>, answers: map<int, string>, grade: nat -> GradeReply, n: nat)
    : (r: seq<Feedback>)
    requires n <= |qs|
    ensures |r| == EssayCount(qs, answers, n)
  {
    if n == 0 then []
    else if qs[n - 1].options.None? && Truthy(Answer(answers, n - 1)) then
      EssayFeedback(qs, answers, grade, n - 1) + [FeedbackOf(qs[n - 1], grade(n - 1))]
    else EssayFeedback(qs, answers, grade, n - 1)
  }

  /** Every feedback entry names a non-multiple-choice question that got a truthy answer. */
  lemma {:induction false} FeedbackFromEssays(
    qs: seq<GenQuestion>, answers: map<int, string>, grade: nat -> GradeReply, n: nat, k: int)
    requires n <= |qs| && 0 <= k < |EssayFeedback(qs, answers, grade, n)|
    ensures exists i :: (0 <= i < n && qs[i].options.None? && Truthy(Answer(answers, i))
      && EssayFeedback(qs, answers, grade, n)[k] == FeedbackOf(qs[i], grade(i)))
  {
    var prev := EssayFeedback(qs, answers, grade, n - 1);
    if qs[n - 1].options.None? && Truthy(Answer(answers, n - 1)) && k == |prev| {
      assert EssayFeedback(qs, answers, grade, n)[k] == FeedbackOf(qs[n - 1], grade(n - 1));
    } else {
      FeedbackFromEssays(qs, answers, grade, n - 1, k);
      var i :| 0 <= i < n - 1 && qs[i].options.None? && Truthy(Answer(answers, i))
        && prev[k] == FeedbackOf(qs[i], grade(i));
      assert EssayFeedback(qs, answers, grade, n)[k] == prev[k];
    }
  }

  class QuizPage {
    var pdfText: string
    var loading: bool
    var quiz: Option<Quiz>
    var studentAnswers: map<int, string>
    var submitted: bool
    var score: int
    var readyToTake: bool
    var essayFeedback: seq<Feedback>

    constructor ()
      ensures pdfText == "" && !loading && quiz == None && studentAnswers == map[]
      ensures !submitted && score == 0 && !readyToTake && essayFeedback == []
    {
      pdfText := "";
      loading := false;
      quiz := None;
      studentAnswers := map[];
      submitted := false;
      score := 0;
      readyToTake := false;
      essayFeedback := [];
    }

    /** handleFileChange: no file or one over 5 MB leaves the text as it was. */
    method HandleFileChange(file: Option<PdfFile>) returns (accepted: bool)
      modifies this`pdfText
      ensures accepted <==> file.Some? && file.value.size <= MaxFileSize
      ensures accepted ==> pdfText == file.value.text
      ensures !accepted ==> pdfText == old(pdfText)
    {
      if file.None? || file.value.size > MaxFileSize {
        return false;
      }
      pdfText := file.value.text;
      return true;
    }

    /** handleGenerate: without text nothing happens; a quiz reply starts a fresh attempt. */
    method HandleGenerate(reply: GenerateReply)
      modifies this
      ensures pdfText == old(pdfText)
      ensures loading == (if old(pdfText) == "" then old(loading) else false)
      ensures old(pdfText) == "" || reply.RequestFailed? ==>
        quiz == old(quiz) && studentAnswers == old(studentAnswers) && submitted == old(submitted)
        && score == old(score) && readyToTake == old(readyToTake) && essayFeedback == old(essayFeedback)
      ensures old(pdfText) != "" && reply.Body? && reply.quiz.Some? ==>
        quiz == reply.quiz && studentAnswers == map[] && !submitted && score == 0 && !readyToTake
        && essayFeedback == old(essayFeedback)
      ensures old(pdfText) != "" && reply.Body? && reply.quiz.None? ==>
        quiz == None && studentAnswers == old(studentAnswers) && submitted == old(submitted)
        && score == old(score) && readyToTake == old(readyToTake) && essayFeedback == old(essayFeedback)
    {
      if pdfText == "" {
        return;
      }
      loading := true;
      if reply.Body? {
        if reply.quiz.Some? {
          quiz := reply.quiz;
          studentAnswers := map[];
          submitted := false;
          score := 0;
          readyToTake := false;
        } else {
          quiz := None;
        }
      }
      loading := false;
    }

    method TakeQuiz()
      modifies this`readyToTake
      ensures readyToTake
    {
      readyToTake := true;
    }

    /** handleAnswer: record the answer for one question only. */
    method HandleAnswer(qIndex: int, answer: string)
      modifies this`studentAnswers
      ensures studentAnswers == old(studentAnswers)[qIndex := answer]
      ensures forall i :: i != qIndex ==> Answer(studentAnswers, i) == Answer(old(studentAnswers), i)
    {
      studentAnswers := studentAnswers[qIndex := answer];
    }

    /**
     * handleSubmitQuiz, on the quiz the Submit button belongs to.  grade(i) is
     * the reply of the grading request for question i.
     */
    method HandleSubmitQuiz(grade: nat -> GradeReply)
      requires quiz.Some?
      modifies this`score, this`submitted, this`essayFeedback
      ensures submitted
      ensures score == McqScore(quiz.value.questions, studentAnswers, |quiz.value.questions|)
      ensures essayFeedback == EssayFeedback(quiz.value.questions, studentAnswers, grade, |quiz.value.questions|)
    {
      var qs := quiz.value.questions;
      var correctCount := 0;
      var essayResults: seq<Feedback> := [];
      var i := 0;
      while i < |qs|
        invariant 0 <= i <= |qs|
        invariant correctCount == McqScore(qs, studentAnswers, i)
        invariant essayResults == EssayFeedback(qs, studentAnswers, grade, i)
      {
        var q := qs[i];
        var ans := Answer(studentAnswers, i);
        if q.options.Some? {
          if ans == q.correctAnswer {
            correctCount := correctCount + 1;
          }
        } else if ans.Some? && ans.value != "" {
          var reply := grade(i);
          if reply.Graded? {
            essayResults := essayResults + [Feedback(q.question, reply.evaluation)];
          } else {
            essayResults := essayResults + [Feedback(q.question, GradingFailed)];
          }
        }
        i := i + 1;
      }
      score := correctCount;
      submitted := true;
      essayFeedback := essayResults;
    }
  }
}
