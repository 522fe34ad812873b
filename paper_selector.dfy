/**
 * The O/L paper picker (frontend/src/components/PaperSelector.jsx): MCQ papers
 * from the store and the known essay PDFs, narrowed by a year and a medium.
 */
module PaperSelector {
  import opened Wrappers
  import opened Seqs
  import opened Text
  import opened Ordering
  import PdfList

  /** A paper document of `papers/<category>/papersList` with the fields the picker reads. */
  datatype Paper = Paper(id: string, year: int, medium: string, subject: string)

  datatype PaperType = Mcq | Essay

  const Mediums: seq<string> := ["English", "Sinhala", "Tamil"]

  /** `selectedYear ? ... : true`: null and 0 select nothing. */
  predicate YearChosen(selected: Option<int>) { selected.Some? && selected.value != 0 }

  /** `selectedMedium ? ... : true`: null and the empty string select nothing. */
  predicate MediumChosen(selected: Option<string>) { selected.Some? && selected.value != "" }

  function YearsOf(papers: seq<Paper>): (r: seq<int>)
    ensures |r| == |papers|
    ensures forall i :: 0 <= i < |papers| ==> r[i] == papers[i].year
  {
    if papers == [] then [] else [papers[0].year] + YearsOf(papers[1..])
  }

  /** The year menu: every paper year once, newest first. */
  function Years(papers: seq<Paper>): (r: seq<int>)
    ensures Descending(r)
    ensures forall y :: y in r <==> exists i :: 0 <= i < |papers| && papers[i].year == y
  {
    var ys := YearsOf(papers);
    var r := DistinctDescending(ys);
    assert forall y :: y in ys <==> exists i :: 0 <= i < |papers| && papers[i].year == y by {
      forall y ensures y in ys <==> exists i :: 0 <= i < |papers| && papers[i].year == y {
        if y in ys {
          var i :| 0 <= i < |ys| && ys[i] == y;
          assert papers[i].year == y;
        }
      }
    }
    r
  }

  /** Whether a paper passes the year and medium chosen; what is not chosen does not constrain. */
  predicate Matches(p: Paper, year: Option<int>, medium: Option<string>)
  {
    (YearChosen(year) ==> p.year == year.value) && (MediumChosen(medium) ==> p.medium == medium.value)
  }

  function MatchesFn(year: Option<int>, medium: Option<string>): Paper -> bool { p => Matches(p, year, medium) }

  /** filteredPapers: the papers in order that pass every chosen criterion; with none chosen, all of them. */
  function FilterPapers(papers: seq<Paper>, year: Option<int>, medium: Option<string>): (r: seq<Paper>)
    ensures IsSubseq(r, papers)
    ensures forall p :: p in r <==> p in papers && Matches(p, year, medium)
    ensures !YearChosen(year) && !MediumChosen(medium) ==> r == papers
    ensures |r| == Count(papers, MatchesFn(year, medium))
  {
    var f := MatchesFn(year, medium);
    FilterIsSubseq(papers, f);
    FilterLength(papers, f);
    assert forall p :: p in Filter(papers, f) <==> p in papers && Matches(p, year, medium) by {
      forall p ensures p in Filter(papers, f) <==> p in papers && Matches(p, year, medium) {
        FilterMember(papers, f, p);
      }
    }
    assert !YearChosen(year) && !MediumChosen(medium) ==> Filter(papers, f) == papers by {
      if !YearChosen(year) && !MediumChosen(medium) {
        FilterAllPass(papers, f);
      }
    }
    Filter(papers, f)
  }

  /** pdf.match(/^\d{4}/) and parseInt: the year a file name starts with, if it starts with four digits. */
  function LeadingYear(pdf: string): (r: Option<int>)
    ensures r.Some? <==> |pdf| >= 4 && IsDigits(pdf[..4])
    ensures r.Some? ==> r.value == DigitsValue(pdf[..4])
  {
    if |pdf| >= 4 && IsDigits(pdf[..4]) then Some(DigitsValue(pdf[..4])) else None
  }

  predicate EssayMatches(pdf: string, year: Option<int>)
  {
    !YearChosen(year) || LeadingYear(pdf) == Some(year.value)
  }

  function EssayMatchesFn(year: Option<int>): string -> bool { pdf => EssayMatches(pdf, year) }

  /** filteredEssayPdfs: all files when no year is chosen, else those whose leading four digits are that year. */
  function FilterEssayPdfs(pdfs: seq<string>, year: Option<int>): (r: seq<string>)
    ensures IsSubseq(r, pdfs)
    ensures !YearChosen(year) ==> r == pdfs
    ensures YearChosen(year) ==> forall f :: f in r <==> f in pdfs && LeadingYear(f) == Some(year.value)
    ensures |r| == Count(pdfs, EssayMatchesFn(year))
  {
    var m := EssayMatchesFn(year);
    FilterIsSubseq(pdfs, m);
    FilterLength(pdfs, m);
    assert forall f :: f in Filter(pdfs, m) <==> f in pdfs && EssayMatches(f, year) by {
      forall f ensures f in Filter(pdfs, m) <==> f in pdfs && EssayMatches(f, year) {
        FilterMember(pdfs, m, f);
      }
    }
    assert !YearChosen(year) ==> Filter(pdfs, m) == pdfs by {
      if !YearChosen(year) {
        FilterAllPass(pdfs, m);
      }
    }
    Filter(pdfs, m)
  }

  /** A name `<yyyy>_...` with four digits up front is kept exactly when that year is chosen. */
  lemma EssayYearOfName(digits: string, rest: string, year: int)
    requires |digits| == 4 && IsDigits(digits) && year != 0
    ensures EssayMatches(digits + rest, Some(year)) <==> DigitsValue(digits) == year
  {
    assert (digits + rest)[..4] == digits;
  }

  /** What the page lists: MCQ papers or essay files, with the titles the cards show. */
  datatype Listing = McqPapers(papers: seq<Paper>) | EssayPapers(files: seq<string>, titles: seq<string>)

  function Titles(files: seq<string>): (r: seq<string>)
    ensures |r| == |files|
    ensures forall i :: 0 <= i < |files| ==> r[i] == PdfList.ParsePdfName(files[i])
  {
    if files == [] then [] else [PdfList.ParsePdfName(files[0])] + Titles(files[1..])
  }

  class Selector {
    var papers: seq<Paper>
    var essayPdfs: seq<string>
    var selectedYear: Option<int>
    var selectedMedium: Option<string>
    var selectedPaperType: PaperType
    var loading: bool

    /** Loading, nothing chosen, MCQ papers shown. */
    constructor ()
      ensures papers == [] && essayPdfs == [] && selectedYear == None && selectedMedium == None
      ensures selectedPaperType == Mcq && loading
    {
      papers, essayPdfs := [], [];
      selectedYear, selectedMedium := None, None;
      selectedPaperType := Mcq;
      loading := true;
    }

    /** fetchPapers: the store's papers, or none when the read fails; loading ends either way. */
    method FetchPapers(store: Outcome<seq<Paper>>)
      modifies this
      ensures papers == (if store.Resolved? then store.value else [])
      ensures !loading
      ensures essayPdfs == old(essayPdfs) && selectedYear == old(selectedYear)
      ensures selectedMedium == old(selectedMedium) && selectedPaperType == old(selectedPaperType)
    {
      match store {
        case Resolved(docs) => papers := docs;
        case Rejected(_) => papers := [];
      }
      loading := false;
    }

    /** The essay-file effect: the fixed list of known files. */
    method LoadEssayPdfs()
      modifies this
      ensures essayPdfs == PdfList.PdfFiles
      ensures papers == old(papers) && loading == old(loading) && selectedYear == old(selectedYear)
      ensures selectedMedium == old(selectedMedium) && selectedPaperType == old(selectedPaperType)
    {
      essayPdfs := PdfList.PdfFiles;
    }

    method SelectYear(year: int)
      modifies this
      ensures selectedYear == Some(year)
      ensures papers == old(papers) && essayPdfs == old(essayPdfs) && loading == old(loading)
      ensures selectedMedium == old(selectedMedium) && selectedPaperType == old(selectedPaperType)
    {
      selectedYear := Some(year);
    }

    method SelectMedium(medium: string)
      modifies this
      ensures selectedMedium == Some(medium)
      ensures papers == old(papers) && essayPdfs == old(essayPdfs) && loading == old(loading)
      ensures selectedYear == old(selectedYear) && selectedPaperType == old(selectedPaperType)
    {
      selectedMedium := Some(medium);
    }

    method SelectPaperType(t: PaperType)
      modifies this
      ensures selectedPaperType == t
      ensures papers == old(papers) && essayPdfs == old(essayPdfs) && loading == old(loading)
      ensures selectedYear == old(selectedYear) && selectedMedium == old(selectedMedium)
    {
      selectedPaperType := t;
    }

    /** The page body once loaded: the MCQ view lists filteredPapers, the essay view filteredEssayPdfs. */
    function Shown(): (r: Listing)
      reads this
      ensures selectedPaperType == Mcq ==> r == McqPapers(FilterPapers(papers, selectedYear, selectedMedium))
      ensures selectedPaperType == Essay ==> r.EssayPapers? && r.files == FilterEssayPdfs(essayPdfs, selectedYear)
      ensures r.EssayPapers? ==> |r.titles| == |r.files|
      ensures r.EssayPapers? ==> forall i :: 0 <= i < |r.files| ==> r.titles[i] == PdfList.ParsePdfName(r.files[i])
      ensures r.McqPapers? ==> forall p :: p in r.papers ==> p in papers
    {
      if selectedPaperType == Mcq then McqPapers(FilterPapers(papers, selectedYear, selectedMedium))
      else
        var files := FilterEssayPdfs(essayPdfs, selectedYear);
        EssayPapers(files, Titles(files))
    }
  }
}
