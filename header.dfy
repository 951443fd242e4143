/** qna_bm_core.py's header stripping, before chunking
    (qna_bm_core.py:256-266): a text with a "Teks:" marker keeps what
    follows the last marker; a text with an "ID Fail :" or "Tajuk :" header
    keeps everything from the first line that is neither blank nor a header
    field. */
module Header {
  import opened Text

  /** The header field names; a line mentioning any of them is header. */
  const HeaderKeywords: seq<string> := ["ID Fail", "Tajuk", "Penulis", "Tarikh", "Bidang", "Subbidang",
    "Sumber", "Tahap", "Bahasa", "Laras", "Panjang", "Sensitif", "Format", "Kaedah", "Hak Guna", "Rujukan"]

  /** A line where the content starts: not blank, and no header field. */
  predicate IsContent(line: string) {
    Strip(line) != [] && !ContainsAny(line, HeaderKeywords)
  }

  /** The first index at or after i whose element satisfies p. */
  function FirstWhere<T>(p: T -> bool, xs: seq<T>, i: nat): (r: Option<nat>)
    requires i <= |xs|
    ensures r.Some? ==> i <= r.value < |xs|
    decreases |xs| - i
  {
    if i == |xs| then None
    else if p(xs[i]) then Some(i)
    else FirstWhere(p, xs, i + 1)
  }

  /** FirstWhere finds an element satisfying p with none before it, or
      reports that there is none. */
  lemma {:induction false} FirstWhereSpec<T>(p: T -> bool, xs: seq<T>, i: nat)
    requires i <= |xs|
    ensures var r := FirstWhere(p, xs, i);
      (r.Some? ==> p(xs[r.value]) && forall j :: i <= j < r.value ==> !p(xs[j])) &&
      (r.None? ==> forall j :: i <= j < |xs| ==> !p(xs[j]))
    decreases |xs| - i
  {
    if i < |xs| && !p(xs[i]) {
      FirstWhereSpec(p, xs, i + 1);
    }
  }

  /** The first content line at or after i. */
  function FirstContent(lines: seq<string>, i: nat): (r: Option<nat>)
    requires i <= |lines|
    ensures r.Some? ==> i <= r.value < |lines|
  {
    FirstWhere(IsContent, lines, i)
  }

  /** FirstContent finds a content line with none before it, or reports
      that there is none. */
  lemma FirstContentSpec(lines: seq<string>, i: nat)
    requires i <= |lines|
    ensures var r := FirstContent(lines, i);
      (r.Some? ==> IsContent(lines[r.value]) && forall j :: i <= j < r.value ==> !IsContent(lines[j])) &&
      (r.None? ==> forall j :: i <= j < |lines| ==> !IsContent(lines[j]))
  {
    FirstWhereSpec(IsContent, lines, i);
  }

  /** The text process_text_file goes on with. */
  function StrippedText(text: string): string {
    if Contains(text, "Teks:") then Strip(LastPiece(text, "Teks:"))
    else if Contains(text, "ID Fail :") || Contains(text, "Tajuk :") then
      var lines := SplitOn(text, '\n');
      match FirstContent(lines, 0)
      case None => text
      case Some(i) => Strip(Join(lines[i..], "\n"))
    else text
  }

  /** The header stripping as the source loops over the lines. */
  method StripHeader(text: string) returns (out: string)
    ensures out == StrippedText(text)
  {
    out := text;
    if Contains(text, "Teks:") {
      out := Strip(LastPiece(text, "Teks:"));
    } else if Contains(text, "ID Fail :") || Contains(text, "Tajuk :") {
      var lines := SplitOn(text, '\n');
      var i := 0;
      while i < |lines|
        invariant 0 <= i <= |lines|
        invariant FirstContent(lines, 0) == FirstContent(lines, i)
      {
        if Strip(lines[i]) != [] && !ContainsAny(lines[i], HeaderKeywords) {
          out := Strip(Join(lines[i..], "\n"));
          break;
        }
        i := i + 1;
      }
    }
  }

  /** With a "Teks:" marker the text becomes what follows its last
      occurrence, stripped: no marker is left in it, and in the original it
      comes right after one. */
  lemma AfterLastTeksMarker(text: string)
    requires Contains(text, "Teks:")
    ensures !Contains(StrippedText(text), "Teks:")
    ensures var tail := LastPiece(text, "Teks:");
      |tail| + 5 <= |text| && tail == text[|text| - |tail|..] &&
      OccursAt(text, "Teks:", |text| - |tail| - 5) && StrippedText(text) == Strip(tail)
  {
    var tail := LastPiece(text, "Teks:");
    LastPieceFollowsLastMatch(text, "Teks:");
    if Contains(Strip(tail), "Teks:") {
      StripKeepsNoNewMatch(tail, "Teks:");
    }
  }

  /** When the header's first line is already content, the whole text is
      kept, stripped. */
  lemma ContentFirstKeepsAll(text: string)
    requires !Contains(text, "Teks:") && (Contains(text, "ID Fail :") || Contains(text, "Tajuk :"))
    requires IsContent(SplitOn(text, '\n')[0])
    ensures StrippedText(text) == Strip(text)
  {
    var lines := SplitOn(text, '\n');
    assert lines[0..] == lines;
    JoinSplitOn(text, '\n');
  }

  /** Header lines are dropped: every line before the kept part is blank or
      names a header field. */
  lemma HeaderLinesDropped(text: string)
    requires !Contains(text, "Teks:") && (Contains(text, "ID Fail :") || Contains(text, "Tajuk :"))
    requires FirstContent(SplitOn(text, '\n'), 0).Some?
    ensures var lines, i := SplitOn(text, '\n'), FirstContent(SplitOn(text, '\n'), 0).value;
      StrippedText(text) == Strip(Join(lines[i..], "\n")) &&
      forall j :: 0 <= j < i ==> Strip(lines[j]) == [] || exists k :: 0 <= k < |HeaderKeywords| && Contains(lines[j], HeaderKeywords[k])
  {
    FirstContentSpec(SplitOn(text, '\n'), 0);
  }
}
