/** generate_pairs_for_chunk: one chat call, whose reply is read line by
    line as JSON objects with a question and an answer (core.py:103-180,
    qna_bm_core.py:98-146). The prompt text is not modelled: the reply is a
    parameter. */
module Generation {
  import opened Text
  import opened Settings
  import opened Replies

  /** A question-answer pair. chunkText is the fourth key, chunk_text, that
      core.py's generator adds; reviewed pairs and qna_bm_core.py's pairs
      carry only question, answer and source. */
  datatype Pair = Pair(question: string, answer: string, source: string, chunkText: Option<string>)

  /** Non-empty, with no whitespace at either end: what strip() leaves of a
      text that is not blank. */
  predicate Trimmed(s: string) {
    s != [] && !IsSpace(s[0]) && !IsSpace(s[|s| - 1])
  }

  lemma StripTrimmed(s: string)
    requires Strip(s) != []
    ensures Trimmed(Strip(s))
  {
    StripIsTrimmedSlice(s);
  }

  /** How one line of the reply ends up. */
  datatype LineRead = Skip | Keep(question: string, answer: string) | LineRaised

  /** q = (obj.get("question") or "").strip(), a likewise, kept when both
      are non-empty. A document that is not an object, or a truthy
      non-string question or answer, raises. */
  function FromDoc(doc: Doc): (r: LineRead)
    ensures r.Keep? ==> Trimmed(r.question) && Trimmed(r.answer)
    ensures r.Keep? ==> doc.Object? && Get(doc.members, "question").Some? && Get(doc.members, "answer").Some?
    ensures r.Keep? ==>
      OrText(Get(doc.members, "question"), "").Ok? && r.question == Strip(OrText(Get(doc.members, "question"), "").value) &&
      OrText(Get(doc.members, "answer"), "").Ok? && r.answer == Strip(OrText(Get(doc.members, "answer"), "").value)
    ensures r.Skip? <==> (doc.Object? &&
      OrText(Get(doc.members, "question"), "").Ok? && OrText(Get(doc.members, "answer"), "").Ok? &&
      (Strip(OrText(Get(doc.members, "question"), "").value) == "" || Strip(OrText(Get(doc.members, "answer"), "").value) == ""))
    ensures r.LineRaised? <==> (doc.NotObject? ||
      OrText(Get(doc.members, "question"), "").Raised? || OrText(Get(doc.members, "answer"), "").Raised?)
  {
    match doc
    case NotObject => LineRaised
    case Object(members) =>
      match OrText(Get(members, "question"), "")
      case Raised => LineRaised
      case Ok(q0) =>
        match OrText(Get(members, "answer"), "")
        case Raised => LineRaised
        case Ok(a0) =>
          var q, a := Strip(q0), Strip(a0);
          if q != "" && a != "" then
            StripTrimmed(q0);
            StripTrimmed(a0);
            Keep(q, a)
          else Skip
  }

  /** One line of the reply: stripped; skipped when empty or a code fence;
      otherwise read as JSON (core.py parses even an out-of-order brace
      span, qna_bm_core.py does not) and skipped when that fails. */
  function ReadLine(v: Variant, parse: string -> Parsed, raw: string): (r: LineRead)
    ensures Strip(raw) == [] || StartsWith(Strip(raw), "```") ==> r == Skip
    ensures r != Skip ==> ReadJson(parse, Strip(raw), v == QnaBm).Found? && r == FromDoc(ReadJson(parse, Strip(raw), v == QnaBm).doc)
    ensures Strip(raw) != [] && !StartsWith(Strip(raw), "```") && ReadJson(parse, Strip(raw), v == QnaBm).Found? ==>
      r == FromDoc(ReadJson(parse, Strip(raw), v == QnaBm).doc)
  {
    var line := Strip(raw);
    if line == [] || StartsWith(line, "```") then Skip
    else
      match ReadJson(parse, line, v == QnaBm)
      case Found(doc) => FromDoc(doc)
      case _ => Skip
  }

  /** The pairs the loop collects from `lines`, or Raised when some line
      raises. */
  function Candidates(v: Variant, parse: string -> Parsed, lines: seq<string>, srcLabel: string, chunkText: Option<string>): Outcome<seq<Pair>>
    decreases |lines|
  {
    if lines == [] then Ok([])
    else
      match ReadLine(v, parse, lines[0])
      case LineRaised => Raised
      case Skip => Candidates(v, parse, lines[1..], srcLabel, chunkText)
      case Keep(q, a) => Prepend([Pair(q, a, srcLabel, chunkText)], Candidates(v, parse, lines[1..], srcLabel, chunkText))
  }

  /** pre + the outcome's pairs, or Raised. */
  function Prepend(pre: seq<Pair>, o: Outcome<seq<Pair>>): Outcome<seq<Pair>> {
    match o
    case Raised => Raised
    case Ok(ps) => Ok(pre + ps)
  }

  lemma PrependTwice(a: seq<Pair>, b: seq<Pair>, o: Outcome<seq<Pair>>)
    ensures Prepend(a, Prepend(b, o)) == Prepend(a + b, o)
  {
    if o.Ok? {
      assert a + (b + o.value) == (a + b) + o.value;
    }
  }

  /** The source label: core.py names the chunk ("<source> Chunk <idx>")
      whenever chunk_idx is non-zero; qna_bm_core.py uses the source name. */
  function Label(v: Variant, source: string, idx: nat): (r: string)
    ensures v == QnaBm || idx == 0 ==> r == source
    ensures v == Core && idx != 0 ==>
      |r| > |source| + 7 && r[..|source| + 7] == source + " Chunk " &&
      AllDigits(r[|source| + 7..]) && DecimalValue(r[|source| + 7..]) == idx
  {
    if v == Core && idx != 0 then source + " Chunk " + NatToString(idx) else source
  }

  /** The first n pairs, pairs[:n]. */
  function Take(ps: seq<Pair>, n: nat): (r: seq<Pair>)
    ensures |r| == if n < |ps| then n else |ps|
    ensures r == ps[..|r|]
  {
    if n < |ps| then ps[..n] else ps
  }

  /** How many pairs a chunk may return: core.py's cap_this_chunk,
      qna_bm_core.py's fixed 10. */
  function Limit(v: Variant, cap: nat): nat {
    if v == Core then cap else QnaBmPairsPerChunk
  }

  /** What generate_pairs_for_chunk returns for chunk `idx` (cap is
      core.py's cap_this_chunk, which process_chunk always passes as a
      non-negative number) when the chat call answers `reply`. */
  function Generate(v: Variant, parse: string -> Parsed, reply: ChatReply, chunkText: string, source: string, idx: nat, cap: nat): (r: Outcome<seq<Pair>>)
    ensures reply.ChatFailed? ==> r == Ok([])
    ensures r.Ok? ==> |r.value| <= Limit(v, cap)
  {
    match reply
    case ChatFailed => Ok([])
    case Answered(raw) =>
      if Strip(raw) == [] then Ok([])
      else
        match Candidates(v, parse, SplitLines(raw), Label(v, source, idx), if v == Core then Some(chunkText) else None)
        case Raised => Raised
        case Ok(ps) => Ok(Take(ps, Limit(v, cap)))
  }

  /** generate_pairs_for_chunk, from the chat call's answer to the capped
      list of pairs. */
  method GeneratePairs(v: Variant, parse: string -> Parsed, reply: ChatReply, chunkText: string, source: string, idx: nat, cap: nat)
    returns (out: Outcome<seq<Pair>>)
    ensures out == Generate(v, parse, reply, chunkText, source, idx, cap)
  {
    if reply.ChatFailed? {
      return Ok([]);
    }
    var raw := reply.text;
    if Strip(raw) == [] {
      return Ok([]);
    }
    var text: Option<string> := if v == Core then Some(chunkText) else None;
    var collected := CollectPairs(v, parse, SplitLines(raw), Label(v, source, idx), text);
    if collected.Raised? {
      return Raised;
    }
    out := Ok(Take(collected.value, Limit(v, cap)));
  }

  /** The loop over the reply's lines. */
  method CollectPairs(v: Variant, parse: string -> Parsed, lines: seq<string>, srcLabel: string, text: Option<string>)
    returns (out: Outcome<seq<Pair>>)
    ensures out == Candidates(v, parse, lines, srcLabel, text)
  {
    var pairs: seq<Pair> := [];
    var todo := lines;
    PrependNothing(Candidates(v, parse, lines, srcLabel, text));
    while todo != []
      invariant Candidates(v, parse, lines, srcLabel, text) == Prepend(pairs, Candidates(v, parse, todo, srcLabel, text))
      decreases |todo|
    {
      var r := ReadLine(v, parse, todo[0]);
      ghost var rest := Candidates(v, parse, todo[1..], srcLabel, text);
      if r.LineRaised? {
        return Raised;
      } else if r.Keep? {
        PrependTwice(pairs, [Pair(r.question, r.answer, srcLabel, text)], rest);
        pairs := pairs + [Pair(r.question, r.answer, srcLabel, text)];
      }
      todo := todo[1..];
    }
    assert pairs + [] == pairs;
    out := Ok(pairs);
  }

  lemma PrependNothing(o: Outcome<seq<Pair>>)
    ensures Prepend([], o) == o
  {
    if o.Ok? {
      assert [] + o.value == o.value;
    }
  }

  /** Every collected pair has a trimmed, non-empty question and answer and
      carries the label and chunk text it was given. */
  lemma {:induction false} CandidatesWellFormed(v: Variant, parse: string -> Parsed, lines: seq<string>, srcLabel: string, chunkText: Option<string>)
    ensures var o := Candidates(v, parse, lines, srcLabel, chunkText);
      o.Ok? ==> forall p :: p in o.value ==>
        Trimmed(p.question) && Trimmed(p.answer) && p.source == srcLabel && p.chunkText == chunkText
    decreases |lines|
  {
    if lines != [] {
      CandidatesWellFormed(v, parse, lines[1..], srcLabel, chunkText);
    }
  }

  /** What a chunk's generator returns: at most the cap (10 in
      qna_bm_core.py) pairs, each with a trimmed non-empty question and
      answer, labelled with the chunk's source label, and in core.py
      carrying the chunk's text. */
  lemma GeneratedWellFormed(v: Variant, parse: string -> Parsed, reply: ChatReply, chunkText: string, source: string, idx: nat, cap: nat)
    ensures var o := Generate(v, parse, reply, chunkText, source, idx, cap);
      o.Ok? ==>
        |o.value| <= (if v == Core then cap else 10) &&
        forall p :: p in o.value ==>
          Trimmed(p.question) && Trimmed(p.answer) && p.source == Label(v, source, idx) &&
          p.chunkText == (if v == Core then Some(chunkText) else None)
  {
    if reply.Answered? && Strip(reply.text) != [] {
      var o := Candidates(v, parse, SplitLines(reply.text), Label(v, source, idx), if v == Core then Some(chunkText) else None);
      CandidatesWellFormed(v, parse, SplitLines(reply.text), Label(v, source, idx), if v == Core then Some(chunkText) else None);
      if o.Ok? {
        var t := Take(o.value, Limit(v, cap));
        forall p | p in t ensures p in o.value {
          var k :| 0 <= k < |t| && t[k] == p;
          assert o.value[k] == p;
        }
      }
    }
  }

  /** A failed chat call, or a reply that is empty or blank, yields no
      pairs and does not raise. */
  lemma NoReplyNoPairs(v: Variant, parse: string -> Parsed, reply: ChatReply, chunkText: string, source: string, idx: nat, cap: nat)
    requires reply.ChatFailed? || AllSpace(reply.text)
    ensures Generate(v, parse, reply, chunkText, source, idx, cap) == Ok([])
  {
    if reply.Answered? {
      StripEmptyIffBlank(reply.text);
    }
  }

  /** Blank lines and code-fence lines are skipped whatever the parser. */
  lemma FenceLinesSkipped(v: Variant, parse: string -> Parsed, raw: string)
    requires StartsWith(Strip(raw), "```") || AllSpace(raw)
    ensures ReadLine(v, parse, raw) == Skip
  {
    StripEmptyIffBlank(raw);
  }

  /** A line that is exactly a JSON object with a non-blank question and
      answer becomes a pair of the two stripped texts. */
  lemma ObjectLineKept(v: Variant, parse: string -> Parsed, raw: string, members: map<string, Value>, q: string, a: string)
    requires Strip(raw) != [] && !StartsWith(Strip(raw), "```")
    requires parse(Strip(raw)) == Valid(Object(members))
    requires Get(members, "question") == Some(Str(q)) && Get(members, "answer") == Some(Str(a))
    requires Strip(q) != [] && Strip(a) != []
    ensures ReadLine(v, parse, raw) == Keep(Strip(q), Strip(a))
  {
    assert q != [] && a != [];
  }

  /** A line that is not JSON but holds one object between prose without
      braces is read through the brace span, by both modules. */
  lemma ProseLineKept(v: Variant, parse: string -> Parsed, raw: string, pre: string, body: string, post: string,
                      members: map<string, Value>, q: string, a: string)
    requires Strip(raw) == pre + body + post && !StartsWith(Strip(raw), "```")
    requires |body| >= 2 && body[0] == '{' && body[|body| - 1] == '}'
    requires '{' !in pre && '}' !in post
    requires parse(Strip(raw)) == Invalid && parse(body) == Valid(Object(members))
    requires Get(members, "question") == Some(Str(q)) && Get(members, "answer") == Some(Str(a))
    requires Strip(q) != [] && Strip(a) != []
    ensures ReadLine(v, parse, raw) == Keep(Strip(q), Strip(a))
  {
    EmbeddedObjectFound(parse, pre, body, post, v == QnaBm);
    assert q != [] && a != [];
  }

  /** Chunk labels in core.py tell the chunks apart. */
  lemma CoreLabelsDistinct(source: string, i: nat, j: nat)
    requires i != 0 && j != 0 && Label(Core, source, i) == Label(Core, source, j)
    ensures i == j
  {
    var n := |source| + 7;
    assert Label(Core, source, i)[n..] == Label(Core, source, j)[n..];
  }

  /** One line that raises makes the whole loop raise, whatever the lines
      around it. */
  lemma {:induction false} RaisingLineRaises(v: Variant, parse: string -> Parsed, lines: seq<string>, srcLabel: string, chunkText: Option<string>, k: nat)
    requires k < |lines| && ReadLine(v, parse, lines[k]) == LineRaised
    ensures Candidates(v, parse, lines, srcLabel, chunkText) == Raised
    decreases k
  {
    if k > 0 {
      assert lines[1..][k - 1] == lines[k];
      RaisingLineRaises(v, parse, lines[1..], srcLabel, chunkText, k - 1);
    }
  }

  /** core.py:171: a reply line holding valid JSON that is not an object
      raises, and with it the whole generator call (its chunk then
      contributes nothing). */
  lemma NonObjectLineRaisesChunk(v: Variant, parse: string -> Parsed, raw: string, chunkText: string, source: string, idx: nat, cap: nat, k: nat)
    requires Strip(raw) != []
    requires k < |SplitLines(raw)|
    requires var line := Strip(SplitLines(raw)[k]); line != [] && !StartsWith(line, "```") && parse(line) == Valid(NotObject)
    ensures Generate(v, parse, Answered(raw), chunkText, source, idx, cap) == Raised
  {
    var lines := SplitLines(raw);
    assert ReadLine(v, parse, lines[k]) == LineRaised;
    RaisingLineRaises(v, parse, lines, Label(v, source, idx), if v == Core then Some(chunkText) else None, k);
  }

  /** As long as json.loads("") fails, the two generators read every line
      alike: core.py's missing `start < end` guard only makes it parse an
      empty slice. */
  lemma {:induction false} GeneratorsReadAlike(parse: string -> Parsed, raw: string)
    requires parse("") == Invalid
    ensures ReadLine(Core, parse, raw) == ReadLine(QnaBm, parse, raw)
  {
    GuardOnlyMattersOutOfOrder(parse, Strip(raw));
  }
}
