/** review_pair (core.py:223-273, qna_bm_core.py:189-230), and the
    metadata filter that replaces it when review is skipped (core.py:392-396,
    qna_bm_core.py:327-334). */
module Review {
  import opened Text
  import opened Replies
  import opened Generation

  /** What review_pair returns: the reviewed pair, or None with the
      reviewer's reason ("rejected" by default), "cannot_parse_reviewer" or
      "invalid_status: <status>"; or it raises. */
  datatype Review = Approved(pair: Pair) | Rejected(reason: Value) | CannotParse
                  | InvalidStatus(status: string) | ReviewRaised

  /** The members of the reviewer's reply, when it reads as a JSON object. */
  function ReplyMembers(parse: string -> Parsed, reply: ChatReply): Option<map<string, Value>> {
    if reply.ChatFailed? then None
    else
      var read := ReadJson(parse, Strip(reply.text), true);
      if read.Found? && read.doc.Object? then Some(read.doc.members) else None
  }

  /** The lowercased status of a reply that reads as a JSON object whose
      status is a string or missing. */
  function ReplyStatus(parse: string -> Parsed, reply: ChatReply): (r: Option<string>)
    ensures r.Some? ==> ReplyMembers(parse, reply).Some? && StatusOf(ReplyMembers(parse, reply).value) == Ok(r.value)
  {
    match ReplyMembers(parse, reply)
    case None => None
    case Some(members) =>
      if StatusOf(members).Ok? then Some(StatusOf(members).value) else None
  }

  /** review_pair for the candidate `pair` when the reviewer's chat call
      answers `reply`. */
  function ReviewPair(parse: string -> Parsed, pair: Pair, reply: ChatReply): (r: Review)
    ensures r.Approved? ==>
      Trimmed(r.pair.question) && Trimmed(r.pair.answer) &&
      r.pair.source == pair.source && r.pair.chunkText == None &&
      ReplyStatus(parse, reply) in {Some("accept"), Some("edit")}
    ensures r.Rejected? <==> ReplyStatus(parse, reply) == Some("reject")
    ensures r == CannotParse <==> reply.Answered? && !ReadJson(parse, Strip(reply.text), true).Found?
    ensures r.InvalidStatus? ==> ReplyStatus(parse, reply) == Some(r.status)
    ensures r.Approved? <==>
      ReplyStatus(parse, reply) in {Some("accept"), Some("edit")} &&
      var m := ReplyMembers(parse, reply).value;
      OrText(Get(m, "question"), pair.question).Ok? && OrText(Get(m, "answer"), pair.answer).Ok? &&
      Strip(OrText(Get(m, "question"), pair.question).value) != "" &&
      Strip(OrText(Get(m, "answer"), pair.answer).value) != ""
    ensures r.Approved? ==>
      var m := ReplyMembers(parse, reply).value;
      r.pair.question == Strip(OrText(Get(m, "question"), pair.question).value) &&
      r.pair.answer == Strip(OrText(Get(m, "answer"), pair.answer).value)
    ensures r.Rejected? ==>
      var m := ReplyMembers(parse, reply).value;
      r.reason == if "reason" in m then m["reason"] else Str("rejected")
    ensures r.ReviewRaised? <==>
      reply.ChatFailed? ||
      (ReadJson(parse, Strip(reply.text), true).Found? && ReadJson(parse, Strip(reply.text), true).doc.NotObject?) ||
      (ReplyMembers(parse, reply).Some? && StatusOf(ReplyMembers(parse, reply).value).Raised?) ||
      (ReplyStatus(parse, reply) in {Some("accept"), Some("edit")} &&
       var m := ReplyMembers(parse, reply).value;
       (OrText(Get(m, "question"), pair.question).Raised? || OrText(Get(m, "answer"), pair.answer).Raised?))
    ensures r.InvalidStatus? <==>
      (ReplyStatus(parse, reply).Some? && ReplyStatus(parse, reply).value !in {"reject", "accept", "edit"}) ||
      (ReplyStatus(parse, reply) in {Some("accept"), Some("edit")} &&
       var m := ReplyMembers(parse, reply).value;
       OrText(Get(m, "question"), pair.question).Ok? && OrText(Get(m, "answer"), pair.answer).Ok? &&
       (Strip(OrText(Get(m, "question"), pair.question).value) == "" ||
        Strip(OrText(Get(m, "answer"), pair.answer).value) == ""))
  {
    match reply
    case ChatFailed => ReviewRaised
    case Answered(raw) =>
      match ReadJson(parse, Strip(raw), true)
      case Found(NotObject) => ReviewRaised
      case Found(Object(members)) =>
        (match StatusOf(members)
         case Raised => ReviewRaised
         case Ok(status) =>
           if status == "reject" then
             Rejected(if "reason" in members then members["reason"] else Str("rejected"))
           else if status == "accept" || status == "edit" then
             match OrText(Get(members, "question"), pair.question)
             case Raised => ReviewRaised
             case Ok(q0) =>
               match OrText(Get(members, "answer"), pair.answer)
               case Raised => ReviewRaised
               case Ok(a0) =>
                 var q, a := Strip(q0), Strip(a0);
                 if q != "" && a != "" then
                   StripTrimmed(q0);
                   StripTrimmed(a0);
                   Approved(Pair(q, a, pair.source, None))
                 else InvalidStatus(status)
           else InvalidStatus(status))
      case _ => CannotParse
  }

  /** A bare {"status": "accept"} keeps the candidate's own question and
      answer (stripped), drops its chunk_text and keeps its source. */
  lemma AcceptKeepsCandidate(parse: string -> Parsed, pair: Pair, raw: string)
    requires parse(Strip(raw)) == Valid(Object(map["status" := Str("accept")]))
    requires Strip(pair.question) != [] && Strip(pair.answer) != []
    ensures ReviewPair(parse, pair, Answered(raw)) ==
      Approved(Pair(Strip(pair.question), Strip(pair.answer), pair.source, None))
  {
    var m := map["status" := Str("accept")];
    assert ReadJson(parse, Strip(raw), true) == Found(Object(m));
    StatusWordsLower();
    assert StatusOf(m) == Ok("accept");
    assert "question" !in m && "answer" !in m;
  }

  /** An "edit" with a new, non-blank question and answer replaces both. */
  lemma EditReplaces(parse: string -> Parsed, pair: Pair, raw: string, q: string, a: string)
    requires parse(Strip(raw)) == Valid(Object(map["status" := Str("edit"), "question" := Str(q), "answer" := Str(a)]))
    requires Strip(q) != [] && Strip(a) != []
    ensures ReviewPair(parse, pair, Answered(raw)) == Approved(Pair(Strip(q), Strip(a), pair.source, None))
  {
    var m := map["status" := Str("edit"), "question" := Str(q), "answer" := Str(a)];
    assert ReadJson(parse, Strip(raw), true) == Found(Object(m));
    StatusWordsLower();
    assert StatusOf(m) == Ok("edit");
    assert q != [] && a != [];
    assert OrText(Get(m, "question"), pair.question) == Ok(q);
    assert OrText(Get(m, "answer"), pair.answer) == Ok(a);
  }

  /** The keywords that mark a pair as metadata when review is skipped. */
  const MetadataKeywords: seq<string> := ["file://", "path://", "http://", "https://", "metadata:", "e-mel:", "@", ".com"]

  /** any(k in q or k in a for k in MetadataKeywords), on the lowercased
      question and answer. */
  function HasMetadata(p: Pair): (r: bool)
    ensures r <==> (exists k :: 0 <= k < |MetadataKeywords| && (Contains(Lower(p.question), MetadataKeywords[k])
                                                               || Contains(Lower(p.answer), MetadataKeywords[k])))
  {
    ContainsAny(Lower(p.question), MetadataKeywords) || ContainsAny(Lower(p.answer), MetadataKeywords)
  }

  /** Any pair mentioning an e-mail address ('@') is dropped. */
  lemma AtSignIsMetadata(p: Pair)
    requires '@' in p.question
    ensures HasMetadata(p)
  {
    var i :| 0 <= i < |p.question| && p.question[i] == '@';
    var lq := Lower(p.question);
    assert lq[i] == '@';
    assert OccursAt(lq, "@", i) by {
      assert lq[i..i + 1] == "@";
    }
    ContainsIffOccurs(lq, "@");
    assert MetadataKeywords[6] == "@";
  }
}
