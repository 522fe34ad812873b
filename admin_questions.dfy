/**
 * The paper editor for administrators (frontend/src/pages/Adminquiz/AdminAddQuestions.jsx):
 * a draft question with four or five options and a set of correct option
 * indices, the list of questions added so far, and the paper they are saved under.
 */
module AdminQuestions {
  import opened Wrappers
  import opened Seqs
  import opened Text
  import opened QuizAttempt

  const BlankQuestion := Question("", ["", "", "", ""], [])

  /** includes(index) ? filter(i => i !== index) : [...list, index]. */
  function ToggleIndex(s: seq<int>, x: int): (r: seq<int>)
    ensures x in r <==> x !in s
    ensures forall y :: y != x ==> (y in r <==> y in s)
    ensures x !in s ==> r == s + [x]
  {
    if x in s then
      var p := (i: int) => i != x;
      assert forall y :: y in Filter(s, p) <==> y in s && p(y) by {
        forall y ensures y in Filter(s, p) <==> y in s && p(y) { FilterMember(s, p, y); }
      }
      Filter(s, p)
    else s + [x]
  }

  /** Toggling the same index twice restores which indices are marked correct. */
  lemma ToggleTwice(s: seq<int>, x: int)
    ensures forall y :: y in ToggleIndex(ToggleIndex(s, x), x) <==> y in s
  {
  }

  /** All options of the draft are filled in. */
  predicate AllFilled(options: seq<string>)
  {
    forall k :: 0 <= k < |options| ==> options[k] != ""
  }

  datatype PaperDetails = PaperDetails(
    year: string, subject: string, medium: string, category: string, timeLimit: string, marksPerQuestion: string)

  /** `${year}_${subject}_${medium}`. */
  function PaperId(d: PaperDetails): string
  {
    d.year + "_" + d.subject + "_" + d.medium
  }

  /** The paper id gives back its three parts when none of them holds an underscore. */
  lemma PaperIdParts(d: PaperDetails)
    requires '_' !in d.year && '_' !in d.subject && '_' !in d.medium
    ensures Split(PaperId(d), '_') == [d.year, d.subject, d.medium]
  {
    var rest := d.subject + "_" + d.medium;
    assert PaperId(d) == d.year + ['_'] + rest;
    assert rest == d.subject + ['_'] + d.medium;
    SplitCons(d.year, '_', rest);
    SplitCons(d.subject, '_', d.medium);
    assert Split(d.medium, '_') == [d.medium];
  }

  /** What a save sends to the store: the details and the questions, under the paper's category and id. */
  datatype PaperWrite = PaperWrite(category: string, paperId: string, details: PaperDetails, questions: seq<Question>)

  /** What an edit sends to the store: the questions alone, to one document. */
  datatype QuestionsUpdate = QuestionsUpdate(path: seq<string>, questions: seq<Question>)

  /** The values the category select offers. */
  const Categories: set<string> := {"ol", "al", "school"}

  function NonEmptyFn(): string -> bool { (seg: string) => seg != "" }

  /** The path Firestore resolves from the segments given: empty segments are dropped, the rest kept in order. */
  function Resolve(segments: seq<string>): (r: seq<string>)
    ensures IsSubseq(r, segments)
    ensures forall k :: 0 <= k < |r| ==> r[k] != ""
    ensures |r| == Count(segments, NonEmptyFn())
    ensures (forall k :: 0 <= k < |segments| ==> segments[k] != "") ==> r == segments
  {
    FilterIsSubseq(segments, NonEmptyFn());
    FilterLength(segments, NonEmptyFn());
    assert (forall k :: 0 <= k < |segments| ==> segments[k] != "") ==> Filter(segments, NonEmptyFn()) == segments by {
      if forall k :: 0 <= k < |segments| ==> segments[k] != "" {
        FilterAllPass(segments, NonEmptyFn());
      }
    }
    Filter(segments, NonEmptyFn())
  }

  /** Two non-empty segments followed by an empty one resolve to the first two. */
  lemma ResolveDropsEmptyLast(a: string, b: string)
    requires a != "" && b != ""
    ensures Resolve([a, b, ""]) == [a, b]
  {
    var f := NonEmptyFn();
    assert [a, b, ""][1..] == [b, ""] && [b, ""][1..] == [""] && [""][1..] == [];
    assert Filter([""], f) == [];
    assert Filter([b, ""], f) == [b];
  }

  /**
   * Firestore's doc(db, ...segments): a document is named by an even number of
   * resolved segments; with an odd number the call throws instead of returning a reference.
   */
  function DocRef(segments: seq<string>): (r: Option<seq<string>>)
    ensures r.Some? <==> |Resolve(segments)| % 2 == 0
    ensures r.Some? ==> r.value == Resolve(segments)
  {
    var path := Resolve(segments);
    if |path| % 2 == 0 then Some(path) else None
  }

  /** Where handleEditPaper points, as written: papers/{category}/{selectedPaperId}. */
  function EditPathAsWritten(category: string, paperId: string): (p: seq<string>)
    ensures |p| == 3 && p[1] == category && p[2] == paperId
  {
    ["papers", category, paperId]
  }

  /**
   * As written, the edit never reaches updateDoc: with a category from the
   * select and a chosen id, its three segments name no document, so doc()
   * throws, and the path is not the one the paper lives at.
   */
  lemma EditNeverWrites(category: string, paperId: string)
    requires category != "" && paperId != ""
    ensures DocRef(EditPathAsWritten(category, paperId)) == None
    ensures EditPathAsWritten(category, paperId) != EditPath(category, paperId)
  {
    var p := EditPathAsWritten(category, paperId);
    assert forall k :: 0 <= k < |p| ==> p[k] != "";
  }

  /** The corrected edit target: papers/{category}/papersList/{id}, where the quiz pages read a paper. */
  function EditPath(category: string, paperId: string): (p: seq<string>)
    ensures category != "" && paperId != "" ==> DocRef(p) == Some(p)
    ensures |p| == 4 && p[0] == "papers" && p[1] == category && p[2] == "papersList" && p[3] == paperId
  {
    var p := ["papers", category, "papersList", paperId];
    assert category != "" && paperId != "" ==> forall k :: 0 <= k < |p| ==> p[k] != "";
    p
  }

  /** Two chosen papers of one category are edited at the same document only when their ids agree. */
  lemma EditPathInjective(category: string, a: string, b: string)
    ensures EditPath(category, a) == EditPath(category, b) <==> a == b
  {
    if EditPath(category, a) == EditPath(category, b) {
      assert EditPath(category, a)[3] == EditPath(category, b)[3];
    }
  }

  class AddQuestionsPanel {
    var paperDetails: PaperDetails
    var questions: seq<Question>
    var currentQuestion: Question
    var selectedPaperId: string

    /** The draft always has four or five options, and the category is one the select offers. */
    ghost predicate Valid()
      reads this
    {
      4 <= |currentQuestion.options| <= 5 && paperDetails.category in Categories
    }

    constructor ()
      ensures Valid()
      ensures paperDetails == PaperDetails("", "", "", "ol", "", "") && questions == []
      ensures currentQuestion == BlankQuestion && selectedPaperId == ""
    {
      paperDetails := PaperDetails("", "", "", "ol", "", "");
      questions := [];
      currentQuestion := BlankQuestion;
      selectedPaperId := "";
    }

    /** handleAddOption: one more empty option, up to five. */
    method HandleAddOption()
      requires Valid()
      modifies this`currentQuestion
      ensures Valid()
      ensures |old(currentQuestion.options)| < 5 ==>
        currentQuestion == old(currentQuestion).(options := old(currentQuestion.options) + [""])
      ensures |old(currentQuestion.options)| >= 5 ==> currentQuestion == old(currentQuestion)
    {
      if |currentQuestion.options| < 5 {
        currentQuestion := currentQuestion.(options := currentQuestion.options + [""]);
      }
    }

    /** A paper-details input: replace the details; the draft and the questions are kept. */
    method SetPaperDetails(d: PaperDetails)
      requires Valid() && d.category in Categories
      modifies this`paperDetails
      ensures Valid()
      ensures paperDetails == d
    {
      paperDetails := d;
    }

    /** The question text input. */
    method SetQuestionText(value: string)
      requires Valid()
      modifies this`currentQuestion
      ensures Valid()
      ensures currentQuestion == old(currentQuestion).(question := value)
    {
      currentQuestion := currentQuestion.(question := value);
    }

    /** An option input: replace that option only. */
    method SetOption(index: int, value: string)
      requires Valid() && 0 <= index < |currentQuestion.options|
      modifies this`currentQuestion
      ensures Valid()
      ensures currentQuestion == old(currentQuestion).(options := old(currentQuestion.options)[index := value])
    {
      currentQuestion := currentQuestion.(options := currentQuestion.options[index := value]);
    }

    /** handleAddQuestion: a draft with text and every option filled is appended, then the draft is cleared. */
    method HandleAddQuestion()
      requires Valid()
      modifies this`questions, this`currentQuestion
      ensures Valid()
      ensures old(currentQuestion.question) != "" && AllFilled(old(currentQuestion.options)) ==>
        questions == old(questions) + [old(currentQuestion)] && currentQuestion == BlankQuestion
      ensures !(old(currentQuestion.question) != "" && AllFilled(old(currentQuestion.options))) ==>
        questions == old(questions) && currentQuestion == old(currentQuestion)
    {
      if currentQuestion.question != "" && AllFilled(currentQuestion.options) {
        questions := questions + [currentQuestion];
        currentQuestion := BlankQuestion;
      }
    }

    /** toggleCorrectAnswer: mark or unmark one option of the draft. */
    method ToggleCorrectAnswer(index: int)
      requires Valid()
      modifies this`currentQuestion
      ensures Valid()
      ensures currentQuestion ==
        old(currentQuestion).(correctAnswers := ToggleIndex(old(currentQuestion.correctAnswers), index))
    {
      currentQuestion := currentQuestion.(correctAnswers := ToggleIndex(currentQuestion.correctAnswers, index));
    }

    /** handleSavePaper: refused without a subject or a year; otherwise the paper goes under its id. */
    method HandleSavePaper() returns (r: Option<PaperWrite>)
      modifies this`selectedPaperId
      ensures old(paperDetails).subject == "" || old(paperDetails).year == "" ==>
        r == None && selectedPaperId == old(selectedPaperId)
      ensures paperDetails.subject != "" && paperDetails.year != "" ==>
        selectedPaperId == PaperId(paperDetails)
        && r == Some(PaperWrite(paperDetails.category, PaperId(paperDetails), paperDetails, questions))
    {
      if paperDetails.subject == "" || paperDetails.year == "" {
        return None;
      }
      var paperId := paperDetails.year + "_" + paperDetails.subject + "_" + paperDetails.medium;
      selectedPaperId := paperId;
      r := Some(PaperWrite(paperDetails.category, paperId, paperDetails, questions));
    }

    /**
     * handleEditPaper as written: refused until a paper id has been chosen; then
     * doc() throws on the three-segment path, so nothing is ever written.
     */
    method HandleEditPaperAsWritten() returns (r: Option<QuestionsUpdate>)
      requires Valid()
      ensures r == None
    {
      if selectedPaperId == "" {
        return None;
      }
      EditNeverWrites(paperDetails.category, selectedPaperId);
      var ref := DocRef(EditPathAsWritten(paperDetails.category, selectedPaperId));
      match ref {
        case None => r := None;
        case Some(path) => r := Some(QuestionsUpdate(path, questions));
      }
    }

    /**
     * handleEditPaper with the corrected target: refused until a paper id has
     * been chosen; then the questions alone are written to that paper's document.
     */
    method HandleEditPaper() returns (r: Option<QuestionsUpdate>)
      ensures selectedPaperId == "" ==> r == None
      ensures selectedPaperId != "" ==>
        r == Some(QuestionsUpdate(EditPath(paperDetails.category, selectedPaperId), questions))
    {
      if selectedPaperId == "" {
        return None;
      }
      r := Some(QuestionsUpdate(EditPath(paperDetails.category, selectedPaperId), questions));
    }
  }
}
