/**
 * The marking-scheme library (frontend/src/pages/MarkingSchemes.jsx): a fixed
 * list of schemes narrowed by year, medium and level.
 */
module MarkingSchemes {
  import opened Wrappers
  import opened Seqs
  import opened Text
  import opened Ordering

  datatype Scheme = Scheme(year: int, subject: string, medium: string, level: string, fileName: string)

  /** The schemes the page lists, in declared order. */
  const Schemes: seq<Scheme> := [
    Scheme(2022, "Sinhala", "Sinhala", "OL", "2022_OL_sinhala.pdf"),
    Scheme(2022, "Science", "Sinhala", "OL", "2022_OL_science.pdf"),
    Scheme(2022, "Mathematics", "English", "OL", "2022_OL_mathematics_english.pdf"),
    Scheme(2023, "History", "Sinhala", "AL", "2023_AL_history_sinhala.pdf"),
    Scheme(2023, "Buddhism", "Sinhala", "OL", "2023_OL_buddhism_sinhala.pdf"),
    Scheme(2023, "English", "English", "AL", "2023_AL_english.pdf"),
    Scheme(2024, "Mathematics", "Sinhala", "AL", "2024_AL_mathematics_sinhala.pdf"),
    Scheme(2024, "Science", "Tamil", "OL", "2024_OL_science_tamil.pdf"),
    Scheme(2024, "Sinhala", "Sinhala", "AL", "2024_AL_sinhala.pdf")]

  const Levels: seq<string> := ["AL", "OL"]

  function YearsOf(schemes: seq<Scheme>): (r: seq<int>)
    ensures |r| == |schemes| && forall i :: 0 <= i < |schemes| ==> r[i] == schemes[i].year
  {
    if schemes == [] then [] else [schemes[0].year] + YearsOf(schemes[1..])
  }

  function MediumsOf(schemes: seq<Scheme>): (r: seq<string>)
    ensures |r| == |schemes| && forall i :: 0 <= i < |schemes| ==> r[i] == schemes[i].medium
  {
    if schemes == [] then [] else [schemes[0].medium] + MediumsOf(schemes[1..])
  }

  /** The year menu: each scheme year once, newest first. */
  function Years(schemes: seq<Scheme>): (r: seq<int>)
    ensures Descending(r)
    ensures forall y :: y in r <==> exists i :: 0 <= i < |schemes| && schemes[i].year == y
  {
    var ys := YearsOf(schemes);
    assert forall y :: y in ys <==> exists i :: 0 <= i < |schemes| && schemes[i].year == y by {
      forall y ensures y in ys <==> exists i :: 0 <= i < |schemes| && schemes[i].year == y {
        if y in ys {
          var i :| 0 <= i < |ys| && ys[i] == y;
          assert schemes[i].year == y;
        }
      }
    }
    DistinctDescending(ys)
  }

  /** The medium menu: each scheme medium once, in JavaScript's default string order. */
  function Mediums(schemes: seq<Scheme>): (r: seq<string>)
    ensures Ascending(r)
    ensures forall m :: m in r <==> exists i :: 0 <= i < |schemes| && schemes[i].medium == m
  {
    var ms := MediumsOf(schemes);
    assert forall m :: m in ms <==> exists i :: 0 <= i < |schemes| && schemes[i].medium == m by {
      forall m ensures m in ms <==> exists i :: 0 <= i < |schemes| && schemes[i].medium == m {
        if m in ms {
          var i :| 0 <= i < |ms| && ms[i] == m;
          assert schemes[i].medium == m;
        }
      }
    }
    DistinctAscending(ms)
  }

  /** `selected ? ... : true` for each criterion: null, 0 and "" choose nothing. */
  predicate Matches(s: Scheme, year: Option<int>, medium: Option<string>, level: Option<string>)
  {
    (year.Some? && year.value != 0 ==> s.year == year.value) &&
    (medium.Some? && medium.value != "" ==> s.medium == medium.value) &&
    (level.Some? && level.value != "" ==> s.level == level.value)
  }

  function MatchesFn(year: Option<int>, medium: Option<string>, level: Option<string>): Scheme -> bool
  {
    s => Matches(s, year, medium, level)
  }

  /** filteredSchemes: the schemes in order passing every chosen criterion; nothing chosen lists them all. */
  function FilterSchemes(schemes: seq<Scheme>, year: Option<int>, medium: Option<string>, level: Option<string>): (r: seq<Scheme>)
    ensures IsSubseq(r, schemes)
    ensures forall s :: s in r <==> s in schemes && Matches(s, year, medium, level)
    ensures year == None && medium == None && level == None ==> r == schemes
    ensures |r| == Count(schemes, MatchesFn(year, medium, level))
  {
    var f := MatchesFn(year, medium, level);
    FilterIsSubseq(schemes, f);
    FilterLength(schemes, f);
    assert forall s :: s in Filter(schemes, f) <==> s in schemes && Matches(s, year, medium, level) by {
      forall s ensures s in Filter(schemes, f) <==> s in schemes && Matches(s, year, medium, level) {
        FilterMember(schemes, f, s);
      }
    }
    assert year == None && medium == None && level == None ==> Filter(schemes, f) == schemes by {
      if year == None && medium == None && level == None {
        FilterAllPass(schemes, f);
      }
    }
    Filter(schemes, f)
  }

  /** The page's year menu reads 2024, 2023, 2022. */
  lemma SchemeYears()
    ensures Years(Schemes) == [2024, 2023, 2022]
  {
    SchemeYearRange();
    YearsOfThree(Schemes, 2024, 2023, 2022, 6, 3, 0);
  }

  /** Every listed scheme is from 2022 to 2024. */
  lemma SchemeYearRange()
    ensures forall i :: 0 <= i < |Schemes| ==> 2022 <= Schemes[i].year <= 2024
  {
  }

  /** Schemes from three years, each year present, give a three-entry menu. */
  lemma YearsOfThree(schemes: seq<Scheme>, a: int, b: int, c: int, ia: int, ib: int, ic: int)
    requires a == b + 1 && b == c + 1
    requires forall i :: 0 <= i < |schemes| ==> c <= schemes[i].year <= a
    requires 0 <= ia < |schemes| && schemes[ia].year == a
    requires 0 <= ib < |schemes| && schemes[ib].year == b
    requires 0 <= ic < |schemes| && schemes[ic].year == c
    ensures Years(schemes) == [a, b, c]
  {
    var r := Years(schemes);
    forall y ensures y in r <==> y in [a, b, c] {
      if y in r {
        var i :| 0 <= i < |schemes| && schemes[i].year == y;
      }
    }
    DescendingUnique(r, [a, b, c]);
  }

  class Library {
    var selectedYear: Option<int>
    var selectedMedium: Option<string>
    var selectedLevel: Option<string>

    constructor ()
      ensures selectedYear == None && selectedMedium == None && selectedLevel == None
    {
      selectedYear, selectedMedium, selectedLevel := None, None, None;
    }

    method SelectYear(year: int)
      modifies this
      ensures selectedYear == Some(year) && selectedMedium == old(selectedMedium) && selectedLevel == old(selectedLevel)
    {
      selectedYear := Some(year);
    }

    method SelectMedium(medium: string)
      modifies this
      ensures selectedMedium == Some(medium) && selectedYear == old(selectedYear) && selectedLevel == old(selectedLevel)
    {
      selectedMedium := Some(medium);
    }

    method SelectLevel(level: string)
      modifies this
      ensures selectedLevel == Some(level) && selectedYear == old(selectedYear) && selectedMedium == old(selectedMedium)
    {
      selectedLevel := Some(level);
    }

    /** The cards shown: every scheme in declared order until something is chosen. */
    function Shown(): (r: seq<Scheme>)
      reads this
      ensures IsSubseq(r, Schemes)
      ensures forall s :: s in r <==> s in Schemes && Matches(s, selectedYear, selectedMedium, selectedLevel)
      ensures selectedYear == None && selectedMedium == None && selectedLevel == None ==> r == Schemes
    {
      FilterSchemes(Schemes, selectedYear, selectedMedium, selectedLevel)
    }
  }
}
