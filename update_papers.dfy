/**
 * Editing a stored paper (frontend/src/pages/Adminquiz/UpdatePapers.jsx): the
 * loaded paper's questions are edited one field, option or correct-answer mark
 * at a time, added to, or deleted from.
 */
module UpdatePapers {
  import opened Wrappers
  import opened Seqs
  import opened QuizAttempt
  import opened AdminQuestions

  /** The loaded paper: its id and its questions (other stored fields are carried along unchanged). */
  datatype PaperDoc = PaperDoc(id: string, questions: seq<Question>)

  /** Each question except the one at index is as before. */
  predicate OthersKept(before: seq<Question>, after: seq<Question>, index: int)
  {
    |after| == |before| && forall i :: 0 <= i < |before| && i != index ==> after[i] == before[i]
  }

  /** Where handleSelectPaper reads a paper: papers/ol/papersList/{id}. */
  function LoadPath(id: string): (p: seq<string>)
    ensures |p| == 4 && p[3] == id
  {
    ["papers", "ol", "papersList", id]
  }

  /** The segments handleSaveChanges hands to doc(), as written: papers, ol, selectedPaperId. */
  function SavePathAsWritten(selectedPaperId: string): (p: seq<string>)
    ensures |p| == 3 && p[2] == selectedPaperId
  {
    ["papers", "ol", selectedPaperId]
  }

  /**
   * As written, the save never addresses the paper that was loaded. The page
   * never sets selectedPaperId, so its segment is empty; Firestore drops it and
   * the reference is the category document papers/ol, whichever paper was loaded.
   */
  lemma SaveMissesLoadedPaper(id: string)
    ensures DocRef(SavePathAsWritten("")) == Some(["papers", "ol"])
    ensures DocRef(SavePathAsWritten("")) != DocRef(LoadPath(id))
  {
    ResolveDropsEmptyLast("papers", "ol");
    var l := LoadPath(id);
    var f := NonEmptyFn();
    assert f("papers") && f("ol") && f("papersList");
    assert l[1..] == ["ol", "papersList", id] && l[1..][1..] == ["papersList", id];
    assert Count(l[1..][1..], f) >= 1;
    assert Count(l, f) >= 3;
  }

  /**
   * The load reference exists exactly for a non-empty id: "Choose Paper"
   * passes "", Firestore drops it, and three segments name no document.
   */
  lemma LoadRefIff(id: string)
    ensures DocRef(LoadPath(id)).Some? <==> id != ""
    ensures id != "" ==> DocRef(LoadPath(id)) == Some(LoadPath(id))
  {
    var l := LoadPath(id);
    if id != "" {
      assert forall k :: 0 <= k < |l| ==> l[k] != "";
    } else {
      var f := NonEmptyFn();
      assert f("papers") && f("ol") && f("papersList") && !f("");
      assert l[1..] == ["ol", "papersList", ""] && l[1..][1..] == ["papersList", ""] && l[1..][1..][1..] == [""];
      assert Count([""], f) == 0;
      assert Count(l, f) == 3;
    }
  }

  /** The corrected save target: the document the paper was loaded from. */
  function SavePath(paper: PaperDoc): (p: seq<string>)
    ensures p == LoadPath(paper.id)
    ensures |p| % 2 == 0
  {
    ["papers", "ol", "papersList", paper.id]
  }

  class PaperUpdater {
    var selectedPaperId: string
    var paperDetails: Option<PaperDoc>
    var loading: bool

    constructor ()
      ensures selectedPaperId == "" && paperDetails == None && !loading
    {
      selectedPaperId := "";
      paperDetails := None;
      loading := false;
    }

    /**
     * handleSelectPaper: loading starts; doc() on the load path throws for
     * the empty id, and getDoc may reject, and either way the handler stops
     * with loading still set. Otherwise the stored paper is shown when it
     * exists (the store names it by the id asked for) and loading ends. The
     * chosen id is not recorded in selectedPaperId.
     */
    method HandleSelectPaper(id: string, read: Outcome<Option<PaperDoc>>)
      requires read.Resolved? && read.value.Some? ==> read.value.value.id == id
      modifies this`paperDetails, this`loading
      ensures selectedPaperId == old(selectedPaperId)
      ensures DocRef(LoadPath(id)).None? || read.Rejected? ==> loading && paperDetails == old(paperDetails)
      ensures DocRef(LoadPath(id)).Some? && read.Resolved? ==> !loading
      ensures DocRef(LoadPath(id)).Some? && read.Resolved? && read.value.Some? ==>
        paperDetails == read.value && LoadPath(id) == SavePath(paperDetails.value)
      ensures DocRef(LoadPath(id)).Some? && read.Resolved? && read.value.None? ==> paperDetails == old(paperDetails)
    {
      loading := true;
      var ref := DocRef(LoadPath(id));
      if ref.None? || read.Rejected? {
        return;
      }
      if read.value.Some? {
        paperDetails := read.value;
      }
      loading := false;
    }

    /** handleQuestionChange(index, "question", value): the text of one question. */
    method HandleQuestionChange(index: int, value: string)
      requires paperDetails.Some? && 0 <= index < |paperDetails.value.questions|
      modifies this`paperDetails
      ensures paperDetails.Some? && paperDetails.value.id == old(paperDetails.value.id)
      ensures OthersKept(old(paperDetails.value.questions), paperDetails.value.questions, index)
      ensures paperDetails.value.questions[index] == old(paperDetails.value.questions[index]).(question := value)
    {
      var qs := paperDetails.value.questions;
      qs := qs[index := qs[index].(question := value)];
      paperDetails := Some(paperDetails.value.(questions := qs));
    }

    /** handleOptionChange: one option of one question. */
    method HandleOptionChange(qIndex: int, oIndex: int, value: string)
      requires paperDetails.Some? && 0 <= qIndex < |paperDetails.value.questions|
      requires 0 <= oIndex < |paperDetails.value.questions[qIndex].options|
      modifies this`paperDetails
      ensures paperDetails.Some? && paperDetails.value.id == old(paperDetails.value.id)
      ensures OthersKept(old(paperDetails.value.questions), paperDetails.value.questions, qIndex)
      ensures var q := old(paperDetails.value.questions[qIndex]);
        paperDetails.value.questions[qIndex] == q.(options := q.options[oIndex := value])
    {
      var qs := paperDetails.value.questions;
      var q := qs[qIndex];
      qs := qs[qIndex := q.(options := q.options[oIndex := value])];
      paperDetails := Some(paperDetails.value.(questions := qs));
    }

    /** toggleCorrectAnswer: mark or unmark one option of one question. */
    method ToggleCorrectAnswer(qIndex: int, oIndex: int)
      requires paperDetails.Some? && 0 <= qIndex < |paperDetails.value.questions|
      modifies this`paperDetails
      ensures paperDetails.Some? && paperDetails.value.id == old(paperDetails.value.id)
      ensures OthersKept(old(paperDetails.value.questions), paperDetails.value.questions, qIndex)
      ensures var q := old(paperDetails.value.questions[qIndex]);
        paperDetails.value.questions[qIndex] == q.(correctAnswers := ToggleIndex(q.correctAnswers, oIndex))
    {
      var qs := paperDetails.value.questions;
      var q := qs[qIndex];
      qs := qs[qIndex := q.(correctAnswers := ToggleIndex(q.correctAnswers, oIndex))];
      paperDetails := Some(paperDetails.value.(questions := qs));
    }

    /** handleAddQuestion: one blank question at the end. */
    method HandleAddQuestion()
      requires paperDetails.Some?
      modifies this`paperDetails
      ensures paperDetails == Some(old(paperDetails.value).(questions := old(paperDetails.value.questions) + [BlankQuestion]))
    {
      paperDetails := Some(paperDetails.value.(questions := paperDetails.value.questions + [BlankQuestion]));
    }

    /** handleDeleteQuestion: splice(index, 1) on an index of the list. */
    method HandleDeleteQuestion(index: int)
      requires paperDetails.Some? && 0 <= index < |paperDetails.value.questions|
      modifies this`paperDetails
      ensures paperDetails == Some(old(paperDetails.value).(questions := RemoveAt(old(paperDetails.value.questions), index)))
    {
      paperDetails := Some(paperDetails.value.(questions := RemoveAt(paperDetails.value.questions, index)));
    }

    /**
     * handleSaveChanges as written: the reference Firestore resolves from
     * papers/ol/{selectedPaperId}. No method sets selectedPaperId after the
     * constructor, so on the page it is the category document papers/ol.
     */
    method HandleSaveChangesAsWritten() returns (ref: Option<seq<string>>)
      ensures ref == DocRef(SavePathAsWritten(selectedPaperId))
      ensures selectedPaperId == "" ==> ref == Some(["papers", "ol"])
    {
      SaveMissesLoadedPaper("");
      ref := DocRef(SavePathAsWritten(selectedPaperId));
    }

    /** handleSaveChanges, with the corrected target: the edited questions go back to the loaded paper. */
    method HandleSaveChanges() returns (path: seq<string>, questions: seq<Question>)
      requires paperDetails.Some?
      ensures path == LoadPath(paperDetails.value.id) && questions == paperDetails.value.questions
    {
      path := SavePath(paperDetails.value);
      questions := paperDetails.value.questions;
    }
  }
}
