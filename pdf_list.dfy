/**
 * The essay-paper list (frontend/src/pages/Adminquiz/PdfListPage.jsx): which
 * of the known PDF files can be fetched, and the title shown for a file name
 * such as `2022_science.pdf`.
 */
module PdfList {
  import opened Seqs
  import opened Text

  /** The file names the page knows about. */
  const PdfFiles: seq<string> := ["2022_science.pdf", "2022_buddhism.pdf", "2022_history.pdf", "2022_sinhala.pdf",
                                  "2023_science.pdf", "2024_buddhism.pdf", "2024_sinhala.pdf"]

  /** What fetching `/essay-papers/<file>` gave: an ok response, another response, or a thrown error. */
  datatype FetchResult = Ok | NotOk | Thrown

  function Loads(fetch: string -> FetchResult): string -> bool { f => fetch(f) == Ok }

  /**
   * testPdfs: the files in order, keeping those whose fetch answered ok; a
   * failed or thrown fetch only skips that file.
   */
  method TestPdfs(files: seq<string>, fetch: string -> FetchResult) returns (valid: seq<string>)
    ensures valid == Filter(files, Loads(fetch))
    ensures IsSubseq(valid, files)
    ensures forall f :: f in valid <==> f in files && fetch(f) == Ok
  {
    valid := [];
    var i := 0;
    while i < |files|
      invariant 0 <= i <= |files|
      invariant valid == Filter(files[..i], Loads(fetch))
    {
      var pdf := files[i];
      FilterAppend(files[..i], [pdf], Loads(fetch));
      assert files[..i + 1] == files[..i] + [pdf];
      if fetch(pdf) == Ok {
        valid := valid + [pdf];
      }
      i := i + 1;
    }
    assert files[..|files|] == files;
    FilterIsSubseq(files, Loads(fetch));
    forall f ensures f in valid <==> f in files && fetch(f) == Ok {
      FilterMember(files, Loads(fetch), f);
    }
  }

  /** A word character of a regular expression's \w. */
  predicate IsWordChar(c: char)
  {
    'a' <= c <= 'z' || 'A' <= c <= 'Z' || '0' <= c <= '9' || c == '_'
  }

  function UpperChar(c: char): (u: char)
    ensures IsWordChar(u) == IsWordChar(c)
  {
    if 'a' <= c <= 'z' then (c as int - 32) as char else c
  }

  /** Whether position i of s starts a word (\b\w), given whether the text before s ended in a word character. */
  predicate StartsWord(s: string, i: int, before: bool)
    requires 0 <= i < |s|
  {
    IsWordChar(s[i]) && !(if i == 0 then before else IsWordChar(s[i - 1]))
  }

  function TitleCaseAfter(s: string, before: bool): (r: string)
    ensures |r| == |s|
    ensures forall i :: 0 <= i < |s| ==> r[i] == if StartsWord(s, i, before) then UpperChar(s[i]) else s[i]
  {
    if s == [] then []
    else
      var rest := TitleCaseAfter(s[1..], IsWordChar(s[0]));
      var r := [if IsWordChar(s[0]) && !before then UpperChar(s[0]) else s[0]] + rest;
      assert forall i :: 1 <= i < |s| ==> StartsWord(s, i, before) == StartsWord(s[1..], i - 1, IsWordChar(s[0]));
      r
  }

  /** s.replace(/\b\w/g, l => l.toUpperCase()): the first character of every word in upper case. */
  function TitleCase(s: string): string { TitleCaseAfter(s, false) }

  /** Capitalising twice is capitalising once. */
  lemma TitleCaseIdempotent(s: string)
    ensures TitleCase(TitleCase(s)) == TitleCase(s)
  {
    var t := TitleCase(s);
    assert forall i :: 0 <= i < |s| ==> StartsWord(t, i, false) == StartsWord(s, i, false);
  }

  /** The file name with its first ".pdf" removed. */
  function Stem(filename: string): string { ReplaceFirst(filename, ".pdf", "") }

  /** parsePdfName: the year before the first underscore, then the capitalised rest with spaces for underscores. */
  function ParsePdfName(filename: string): (r: string)
    ensures var year := Split(Stem(filename), '_')[0];
      year != "" ==> |r| > |year| && r[..|year|] == year && r[|year|] == ' '
    ensures Split(Stem(filename), '_')[0] == "" ==> '_' !in r
  {
    var parts := Split(Stem(filename), '_');
    var year := parts[0];
    var subject := TitleCase(ReplaceAllChar(Join(parts[1..], " "), '_', ' '));
    if year != "" then year + " " + subject else subject
  }

  /** Only the first ".pdf" goes: what follows it, another ".pdf" included, is kept. */
  lemma StemRemovesFirstOnly(name: string, rest: string)
    requires '.' !in name
    ensures Stem(name + ".pdf" + rest) == name + rest
  {
    var s := name + ".pdf" + rest;
    var k := |name|;
    assert s[k..k + 4] == ".pdf";
    assert OccursAt(s, ".pdf", k);
    var i := IndexOfSub(s, ".pdf");
    assert i >= 0;
    assert OccursAt(s, ".pdf", i);
    assert s[i] == '.';
    assert forall j :: 0 <= j < k ==> s[j] == name[j] && s[j] != '.';
    assert i == k;
    assert s[..k] == name && s[k + 4..] == rest;
  }

  /**
   * For `<year>_<subject>.pdf` with neither part holding an underscore or a
   * dot, the title is the year, a space and the capitalised subject, or the
   * subject alone when the year is empty.
   */
  lemma ParseYearSubject(year: string, subject: string)
    requires '_' !in year && '.' !in year && '_' !in subject && '.' !in subject
    ensures ParsePdfName(year + "_" + subject + ".pdf") ==
      if year != "" then year + " " + TitleCase(subject) else TitleCase(subject)
  {
    var name := year + "_" + subject;
    assert '.' !in name by {
      assert forall i :: 0 <= i < |name| ==> name[i] == (if i < |year| then year[i] else if i == |year| then '_' else subject[i - |year| - 1]);
    }
    StemRemovesFirstOnly(name, "");
    assert name + ".pdf" + "" == year + "_" + subject + ".pdf";
    assert Stem(year + "_" + subject + ".pdf") == name;
    SplitCons(year, '_', subject);
    assert year + "_" + subject == year + ['_'] + subject;
    assert Split(name, '_') == [year, subject];
  }

  /** Inside a word nothing more is capitalised. */
  lemma TitleCaseInsideWord(s: string)
    requires forall i :: 0 <= i < |s| ==> IsWordChar(s[i])
    ensures TitleCaseAfter(s, true) == s
  {
  }

  /** A lower-case word gets only its first letter capitalised. */
  lemma TitleCaseWord(c: char, s: string)
    requires 'a' <= c <= 'z' && forall i :: 0 <= i < |s| ==> IsWordChar(s[i])
    ensures TitleCase([c] + s) == [UpperChar(c)] + s
  {
    TitleCaseInsideWord(s);
    assert ([c] + s)[1..] == s;
  }
}
