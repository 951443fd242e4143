/** Python's built-in string operations that the pipeline relies on:
    str.split() with no argument, str.strip(), str.lower(), the `in`
    substring test, str.find/rfind for one character, slicing with
    Python's index rules, str.splitlines(), str.split(c) and str.join. */
module Text {

  /** The characters for which Python's str.isspace() holds; str.split()
      and str.strip() with no argument break and trim on exactly these. */
  predicate IsSpace(c: char) {
    c == ' ' || ('\t' <= c <= '\r') || ('\U{1c}' <= c <= '\U{1f}') ||
    c == '\U{85}' || c == '\U{a0}' || c == '\U{1680}' || ('\U{2000}' <= c <= '\U{200a}') ||
    c == '\U{2028}' || c == '\U{2029}' || c == '\U{202f}' || c == '\U{205f}' || c == '\U{3000}'
  }

  /** The characters at which str.splitlines() ends a line. */
  predicate IsLineBreak(c: char) {
    c == '\n' || c == '\r' || c == '\U{b}' || c == '\U{c}' ||
    ('\U{1c}' <= c <= '\U{1e}') || c == '\U{85}' || c == '\U{2028}' || c == '\U{2029}'
  }

  /** A word of str.split(): non-empty and free of whitespace. */
  predicate IsWord(w: string) {
    |w| > 0 && forall i :: 0 <= i < |w| ==> !IsSpace(w[i])
  }

  predicate AllSpace(s: string) {
    forall i :: 0 <= i < |s| ==> IsSpace(s[i])
  }

  /** Length of the run of non-space characters that starts s. */
  function WordLen(s: string): (r: nat)
    ensures r <= |s|
    ensures forall i :: 0 <= i < r ==> !IsSpace(s[i])
    ensures r == |s| || IsSpace(s[r])
  {
    if s == [] || IsSpace(s[0]) then 0 else 1 + WordLen(s[1..])
  }

  /** str.split() with no argument: the maximal runs of non-space characters. */
  function Words(s: string): (ws: seq<string>)
    ensures forall k :: 0 <= k < |ws| ==> IsWord(ws[k])
    decreases |s|
  {
    if s == [] then []
    else if IsSpace(s[0]) then Words(s[1..])
    else
      var k := WordLen(s);
      [s[..k]] + Words(s[k..])
  }

  /** sep.join(ws). */
  function Join(ws: seq<string>, sep: string): string {
    if |ws| == 0 then ""
    else if |ws| == 1 then ws[0]
    else ws[0] + sep + Join(ws[1..], sep)
  }

  /** A text has no words exactly when it is empty or only whitespace. */
  lemma {:induction false} WordsEmptyIffBlank(s: string)
    ensures Words(s) == [] <==> AllSpace(s)
    decreases |s|
  {
    if s != [] {
      if IsSpace(s[0]) {
        WordsEmptyIffBlank(s[1..]);
        if AllSpace(s[1..]) {
          forall i | 0 <= i < |s| ensures IsSpace(s[i]) {
            if i > 0 { assert s[i] == s[1..][i - 1]; }
          }
        }
      }
    }
  }

  lemma {:induction false} WordLenOfWordThenBreak(w: string, t: string)
    requires forall i :: 0 <= i < |w| ==> !IsSpace(w[i])
    requires t == [] || IsSpace(t[0])
    ensures WordLen(w + t) == |w|
    decreases |w|
  {
    if w != [] {
      assert (w + t)[1..] == w[1..] + t;
      WordLenOfWordThenBreak(w[1..], t);
    } else {
      assert w + t == t;
    }
  }

  /** Splitting words re-joined with single spaces gives the words back:
      the number of words of a chunk's text is the width of its span. */
  lemma {:induction false} WordsOfJoin(ws: seq<string>)
    requires forall k :: 0 <= k < |ws| ==> IsWord(ws[k])
    ensures Words(Join(ws, " ")) == ws
    decreases |ws|
  {
    if |ws| == 1 {
      var w := ws[0];
      WordLenOfWordThenBreak(w, []);
      assert w + [] == w;
      assert w[..|w|] == w && w[|w|..] == [];
    } else if |ws| > 1 {
      var w, rest := ws[0], Join(ws[1..], " ");
      var s := w + " " + rest;
      assert s == w + (" " + rest);
      WordLenOfWordThenBreak(w, " " + rest);
      assert s[..|w|] == w;
      assert s[|w|..] == " " + rest;
      assert (" " + rest)[1..] == rest;
      WordsOfJoin(ws[1..]);
      assert Words(s) == [w] + Words(s[|w|..]);
      assert Words(" " + rest) == Words(rest);
      assert ws == [w] + ws[1..];
    }
  }

  /** The first index at or after i that is not whitespace (|s| if none). */
  function SpaceRunEnd(s: string, i: nat): (r: nat)
    requires i <= |s|
    ensures i <= r <= |s|
    ensures forall k :: i <= k < r ==> IsSpace(s[k])
    ensures r == |s| || !IsSpace(s[r])
    decreases |s| - i
  {
    if i < |s| && IsSpace(s[i]) then SpaceRunEnd(s, i + 1) else i
  }

  /** The index just after the last non-whitespace character before j (0 if
      none). */
  function SpaceRunStart(s: string, j: nat): (r: nat)
    requires j <= |s|
    ensures r <= j
    ensures forall k :: r <= k < j ==> IsSpace(s[k])
    ensures r == 0 || !IsSpace(s[r - 1])
  {
    if j > 0 && IsSpace(s[j - 1]) then SpaceRunStart(s, j - 1) else j
  }

  /** str.strip() with no argument: the text between the leading and the
      trailing run of whitespace. */
  function Strip(s: string): string {
    var lo := SpaceRunEnd(s, 0);
    if lo == |s| then [] else s[lo..SpaceRunStart(s, |s|)]
  }

  /** strip() removes exactly the leading and trailing whitespace: the result
      is a slice of the input that neither starts nor ends with whitespace,
      and everything cut off around it is whitespace. */
  lemma StripIsTrimmedSlice(s: string)
    ensures var r, lo := Strip(s), SpaceRunEnd(s, 0);
      lo + |r| <= |s| && r == s[lo..lo + |r|] &&
      (forall i :: 0 <= i < lo ==> IsSpace(s[i])) &&
      (forall i :: lo + |r| <= i < |s| ==> IsSpace(s[i])) &&
      (r == [] || (!IsSpace(r[0]) && !IsSpace(r[|r| - 1])))
  {
  }

  /** A stripped text is empty exactly when the text is blank. */
  lemma StripEmptyIffBlank(s: string)
    ensures Strip(s) == [] <==> AllSpace(s)
  {
    var lo := SpaceRunEnd(s, 0);
    if lo < |s| {
      assert !IsSpace(s[lo]);
    }
  }

  /** str.lower(), on the ASCII letters. */
  function LowerChar(c: char): char {
    if 'A' <= c <= 'Z' then (c as int + 32) as char else c
  }

  function Lower(s: string): (r: string)
    ensures |r| == |s|
  {
    seq(|s|, i requires 0 <= i < |s| => LowerChar(s[i]))
  }

  predicate StartsWith(s: string, prefix: string) {
    |prefix| <= |s| && s[..|prefix|] == prefix
  }

  /** sub occurs in s at index i. */
  predicate OccursAt(s: string, sub: string, i: int) {
    0 <= i && i + |sub| <= |s| && s[i..i + |sub|] == sub
  }

  /** Python's `sub in s`. */
  function Contains(s: string, sub: string): bool
    decreases |s|
  {
    if StartsWith(s, sub) then true
    else if s == [] then false
    else Contains(s[1..], sub)
  }

  /** `sub in s` holds exactly when sub occurs at some index of s. */
  lemma {:induction false} ContainsIffOccurs(s: string, sub: string)
    ensures Contains(s, sub) <==> exists i :: OccursAt(s, sub, i)
    decreases |s|
  {
    if StartsWith(s, sub) {
      assert OccursAt(s, sub, 0);
    } else if s != [] {
      ContainsIffOccurs(s[1..], sub);
      if Contains(s[1..], sub) {
        var j :| OccursAt(s[1..], sub, j);
        assert s[j + 1..j + 1 + |sub|] == s[1..][j..j + |sub|];
        assert OccursAt(s, sub, j + 1);
      }
      if i :| OccursAt(s, sub, i) {
        assert i != 0;
        assert s[1..][i - 1..i - 1 + |sub|] == s[i..i + |sub|];
        assert OccursAt(s[1..], sub, i - 1);
      }
    }
  }

  /** any(k in s for k in ks). */
  function ContainsAny(s: string, ks: seq<string>): (r: bool)
    ensures r <==> exists i :: 0 <= i < |ks| && Contains(s, ks[i])
  {
    if ks == [] then false else Contains(s, ks[0]) || ContainsAny(s, ks[1..])
  }

  /** What strip() keeps of a text holds only what the text holds. */
  lemma StripKeepsNoNewMatch(s: string, sub: string)
    requires Contains(Strip(s), sub)
    ensures Contains(s, sub)
  {
    var r, lo := Strip(s), SpaceRunEnd(s, 0);
    StripIsTrimmedSlice(s);
    ContainsIffOccurs(r, sub);
    var j :| OccursAt(r, sub, j);
    assert r == s[lo..lo + |r|];
    assert forall t :: j <= t < j + |sub| ==> s[lo + t] == r[t];
    assert s[lo + j..lo + j + |sub|] == r[j..j + |sub|];
    assert OccursAt(s, sub, lo + j);
    ContainsIffOccurs(s, sub);
  }

  /** str.find(c): the first index of c, or -1. */
  function Find(s: string, c: char): (r: int)
    ensures -1 <= r < |s|
    ensures r == -1 <==> c !in s
    ensures r >= 0 ==> s[r] == c && c !in s[..r]
  {
    if s == [] then -1
    else if s[0] == c then 0
    else
      var r := Find(s[1..], c);
      if r == -1 then -1
      else
        assert s[..r + 1] == [s[0]] + s[1..][..r];
        r + 1
  }

  /** str.rfind(c): the last index of c, or -1. */
  function RFind(s: string, c: char): (r: int)
    ensures -1 <= r < |s|
    ensures r == -1 <==> c !in s
    ensures r >= 0 ==> s[r] == c && c !in s[r + 1..]
  {
    if s == [] then -1
    else if s[|s| - 1] == c then |s| - 1
    else
      var r := RFind(s[..|s| - 1], c);
      if r != -1 then
        assert s[r + 1..] == s[..|s| - 1][r + 1..] + [s[|s| - 1]];
        r
      else
        assert s == s[..|s| - 1] + [s[|s| - 1]];
        -1
  }

  /** Python's clamping of a slice bound against a sequence of length n. */
  function SliceBound(b: int, n: nat): (r: nat)
    ensures r <= n
  {
    if b < 0 then (if n + b < 0 then 0 else n + b) else if b > n then n else b
  }

  /** Python's s[lo:hi] for any integers lo and hi (negative ones count from the end). */
  function Slice<T>(s: seq<T>, lo: int, hi: int): (r: seq<T>)
    ensures 0 <= lo <= hi <= |s| ==> r == s[lo..hi]
    ensures 0 <= lo < |s| && lo < hi ==> r != []
  {
    var a, b := SliceBound(lo, |s|), SliceBound(hi, |s|);
    if a < b then s[a..b] else []
  }

  /** Length of the line that starts s, up to its first line break. */
  function LineLen(s: string): (r: nat)
    ensures r <= |s|
    ensures forall i :: 0 <= i < r ==> !IsLineBreak(s[i])
    ensures r == |s| || IsLineBreak(s[r])
  {
    if s == [] || IsLineBreak(s[0]) then 0 else 1 + LineLen(s[1..])
  }

  /** str.splitlines(): "\r\n" ends one line, and a final line break does
      not open an empty last line. */
  function SplitLines(s: string): (lines: seq<string>)
    ensures forall k :: 0 <= k < |lines| ==> forall i :: 0 <= i < |lines[k]| ==> !IsLineBreak(lines[k][i])
    decreases |s|
  {
    if s == [] then []
    else
      var k := LineLen(s);
      if k == |s| then [s]
      else
        var width := if s[k] == '\r' && k + 1 < |s| && s[k + 1] == '\n' then 2 else 1;
        [s[..k]] + SplitLines(s[k + width..])
  }

  /** For a text whose only line breaks are '\n', joining its lines with
      '\n' restores it, less one final line break: the lines are exactly the
      pieces between the breaks. */
  lemma {:induction false} SplitLinesJoin(s: string)
    requires OnlyNewlines(s)
    ensures Join(SplitLines(s), "\n") == if s != [] && s[|s| - 1] == '\n' then s[..|s| - 1] else s
    decreases |s|
  {
    if s != [] {
      var k := LineLen(s);
      if k < |s| {
        var t := s[k + 1..];
        assert IsLineBreak(s[k]);
        SplitLinesAtNewline(s, k);
        OnlyNewlinesSuffix(s, k + 1);
        if t == [] {
          assert s[..k] == s[..|s| - 1];
        } else {
          SplitLinesJoin(t);
          JoinAfterNewline(s, k, SplitLines(t));
        }
      } else {
        assert SplitLines(s) == [s];
      }
    }
  }

  lemma JoinAfterNewline(s: string, k: nat, rest: seq<string>)
    requires k + 1 < |s| && s[k] == '\n'
    requires |rest| >= 1
    requires Join(rest, "\n") == var t := s[k + 1..]; if t[|t| - 1] == '\n' then t[..|t| - 1] else t
    ensures Join([s[..k]] + rest, "\n") == if s[|s| - 1] == '\n' then s[..|s| - 1] else s
  {
    var t := s[k + 1..];
    JoinCons(s[..k], rest, "\n");
    var head := s[..k] + "\n";
    SplitAround(s, k);
    if t[|t| - 1] == '\n' {
      DropLastOfConcat(head, t);
    }
  }

  predicate OnlyNewlines(s: string) {
    forall i :: 0 <= i < |s| && IsLineBreak(s[i]) ==> s[i] == '\n'
  }

  /** Past a '\n' that ends the first line, splitlines() goes on from the
      next character. */
  lemma SplitLinesAtNewline(s: string, k: nat)
    requires k == LineLen(s) < |s| && s[k] == '\n'
    ensures SplitLines(s) == [s[..k]] + SplitLines(s[k + 1..])
  {
  }

  lemma OnlyNewlinesSuffix(s: string, d: nat)
    requires OnlyNewlines(s) && d <= |s|
    ensures OnlyNewlines(s[d..])
  {
    var t := s[d..];
    forall i | 0 <= i < |t| && IsLineBreak(t[i]) ensures t[i] == '\n' {
      assert t[i] == s[d + i];
    }
  }

  lemma SplitAround(s: string, k: nat)
    requires k < |s| && s[k] == '\n'
    ensures s == s[..k] + "\n" + s[k + 1..]
  {
    assert s == s[..k] + [s[k]] + s[k + 1..];
  }

  lemma DropLastOfConcat(a: string, b: string)
    requires b != []
    ensures (a + b)[..|a + b| - 1] == a + b[..|b| - 1]
  {
  }

  /** Length of the prefix of s before the first c. */
  function PieceLen(s: string, c: char): (r: nat)
    ensures r <= |s|
    ensures c !in s[..r]
    ensures r == |s| || s[r] == c
  {
    if s == [] || s[0] == c then 0
    else
      var r := 1 + PieceLen(s[1..], c);
      assert s[..r] == [s[0]] + s[1..][..r - 1];
      r
  }

  /** str.split(c) for a one-character separator. */
  function SplitOn(s: string, c: char): (pieces: seq<string>)
    ensures |pieces| >= 1
    ensures forall k :: 0 <= k < |pieces| ==> c !in pieces[k]
    decreases |s|
  {
    var k := PieceLen(s, c);
    if k == |s| then [s] else [s[..k]] + SplitOn(s[k + 1..], c)
  }

  /** Joining the pieces of split(c) with c restores the text. */
  lemma {:induction false} JoinSplitOn(s: string, c: char)
    ensures Join(SplitOn(s, c), [c]) == s
    decreases |s|
  {
    var k := PieceLen(s, c);
    if k < |s| {
      var t := s[k + 1..];
      var rest := SplitOn(t, c);
      JoinSplitOn(t, c);
      assert SplitOn(s, c) == [s[..k]] + rest;
      JoinCons(s[..k], rest, [c]);
      assert s[..k] + [c] + t == s;
    } else {
      assert SplitOn(s, c) == [s];
    }
  }

  /** sep.join([w] + ws) for a non-empty ws. */
  lemma JoinCons(w: string, ws: seq<string>, sep: string)
    requires |ws| >= 1
    ensures Join([w] + ws, sep) == w + sep + Join(ws, sep)
  {
    assert ([w] + ws)[1..] == ws;
  }

  /** Where the text after the last sep ends up starting, scanning from i as
      str.split(sep) does: left to right, resuming after each match; `last`
      is the end of the latest match so far, -1 if none. */
  function LastMatchEnd(s: string, sep: string, i: nat, last: int): int
    requires |sep| > 0
    decreases |s| - i
  {
    if i + |sep| > |s| then last
    else if OccursAt(s, sep, i) then LastMatchEnd(s, sep, i + |sep|, i + |sep|)
    else LastMatchEnd(s, sep, i + 1, last)
  }

  /** str.split(sep)[-1]. */
  function LastPiece(s: string, sep: string): string
    requires |sep| > 0
  {
    var e := LastMatchEnd(s, sep, 0, -1);
    if 0 <= e <= |s| then s[e..] else s
  }

  /** sep occurs nowhere at or after index j. */
  ghost predicate NoMatchFrom(s: string, sep: string, j: int) {
    forall m :: j <= m ==> !OccursAt(s, sep, m)
  }

  /** The scan ends either where it started (no match at or after i) or just
      after a match that none follows. */
  lemma {:induction false} LastMatchEndSpec(s: string, sep: string, i: nat, last: int)
    requires |sep| > 0 && last <= i
    ensures var e := LastMatchEnd(s, sep, i, last);
      (e == last && NoMatchFrom(s, sep, i)) ||
      (i + |sep| <= e <= |s| && OccursAt(s, sep, e - |sep|) && NoMatchFrom(s, sep, e))
    decreases |s| - i
  {
    if i + |sep| > |s| {
    } else if OccursAt(s, sep, i) {
      LastMatchEndSpec(s, sep, i + |sep|, i + |sep|);
    } else {
      LastMatchEndSpec(s, sep, i + 1, last);
    }
  }

  /** split(sep)[-1] is the text after the last occurrence of sep: it is a
      suffix of s, directly preceded by sep, and sep does not occur in it.
      When sep does not occur, it is the whole text. */
  lemma LastPieceFollowsLastMatch(s: string, sep: string)
    requires |sep| > 0
    ensures var r := LastPiece(s, sep);
      if Contains(s, sep) then
        |r| + |sep| <= |s| && r == s[|s| - |r|..] &&
        OccursAt(s, sep, |s| - |r| - |sep|) && !Contains(r, sep)
      else r == s
  {
    var e := LastMatchEnd(s, sep, 0, -1);
    LastMatchEndSpec(s, sep, 0, -1);
    ContainsIffOccurs(s, sep);
    if e != -1 {
      var r := s[e..];
      ContainsIffOccurs(r, sep);
      if Contains(r, sep) {
        var j :| OccursAt(r, sep, j);
        OccursInSuffix(s, sep, e, j);
      }
    }
  }

  /** An occurrence in s[d..] is an occurrence in s, d further on. */
  lemma OccursInSuffix(s: string, sub: string, d: nat, at: int)
    requires d <= |s| && OccursAt(s[d..], sub, at)
    ensures OccursAt(s, sub, d + at)
  {
    assert s[d + at..d + at + |sub|] == s[d..][at..at + |sub|];
  }

  datatype Option<+T> = None | Some(value: T)

  function DigitChar(d: nat): char
    requires d < 10
  {
    ('0' as int + d) as char
  }

  predicate AllDigits(s: string) {
    forall i :: 0 <= i < |s| ==> '0' <= s[i] <= '9'
  }

  /** The number a string of decimal digits spells, most significant first. */
  function DecimalValue(s: string): nat
    requires AllDigits(s)
  {
    if s == [] then 0 else 10 * DecimalValue(s[..|s| - 1]) + (s[|s| - 1] as int - '0' as int)
  }

  /** str(n) for a natural number: the decimal digits that spell n, with no
      leading zero. */
  function NatToString(n: nat): (r: string)
    ensures |r| > 0 && AllDigits(r)
    ensures DecimalValue(r) == n
    ensures r[0] == '0' ==> n == 0
  {
    if n < 10 then [DigitChar(n)]
    else
      var r := NatToString(n / 10) + [DigitChar(n % 10)];
      assert r[..|r| - 1] == NatToString(n / 10);
      r
  }

  /** Different numbers have different decimal spellings. */
  lemma NatToStringInjective(i: nat, j: nat)
    requires NatToString(i) == NatToString(j)
    ensures i == j
  {
  }
}
