/**
 * The A/L paper picker (frontend/src/components/AlPaperSelector.jsx): MCQ
 * papers of the `al` category narrowed by a year and a medium, with the same
 * year menu and filter as the O/L picker.
 */
module AlPaperSelector {
  import opened Wrappers
  import opened Seqs
  import opened Ordering
  import opened PaperSelector

  class AlSelector {
    var papers: seq<Paper>
    var selectedYear: Option<int>
    var selectedMedium: Option<string>
    var loading: bool

    constructor ()
      ensures papers == [] && selectedYear == None && selectedMedium == None && loading
    {
      papers, selectedYear, selectedMedium, loading := [], None, None, true;
    }

    /** fetchPapers: on a failed read the papers stay as they were; loading ends either way. */
    method FetchPapers(store: Outcome<seq<Paper>>)
      modifies this
      ensures papers == (if store.Resolved? then store.value else old(papers))
      ensures !loading && selectedYear == old(selectedYear) && selectedMedium == old(selectedMedium)
    {
      if store.Resolved? {
        papers := store.value;
      }
      loading := false;
    }

    method SelectYear(year: int)
      modifies this
      ensures selectedYear == Some(year)
      ensures papers == old(papers) && loading == old(loading) && selectedMedium == old(selectedMedium)
    {
      selectedYear := Some(year);
    }

    method SelectMedium(medium: string)
      modifies this
      ensures selectedMedium == Some(medium)
      ensures papers == old(papers) && loading == old(loading) && selectedYear == old(selectedYear)
    {
      selectedMedium := Some(medium);
    }

    /** The year menu: distinct, newest first, exactly the years of the papers. */
    function YearMenu(): (r: seq<int>)
      reads this
      ensures Descending(r)
      ensures forall y :: y in r <==> exists i :: 0 <= i < |papers| && papers[i].year == y
    {
      Years(papers)
    }

    /** The cards: the papers in order passing every chosen criterion, all of them when nothing is chosen. */
    function Filtered(): (r: seq<Paper>)
      reads this
      ensures IsSubseq(r, papers)
      ensures forall p :: p in r <==> p in papers && Matches(p, selectedYear, selectedMedium)
      ensures selectedYear == None && selectedMedium == None ==> r == papers
      ensures |r| == Count(papers, MatchesFn(selectedYear, selectedMedium))
    {
      FilterPapers(papers, selectedYear, selectedMedium)
    }
  }

  /** Opening the page and having the read fail leaves no papers and ends loading. */
  method FailedFetchShowsNothing(message: string) returns (shown: seq<Paper>, loading: bool)
    ensures shown == [] && !loading
  {
    var page := new AlSelector();
    page.FetchPapers(Rejected(message));
    shown := page.Filtered();
    loading := page.loading;
  }
}
