/** prefilter_chunk: a chunk of fewer than 50 words is rejected without a
    chat call; otherwise the model's verdict is read from its reply, and
    every failure along the way accepts the chunk (core.py:183-220,
    qna_bm_core.py:149-186, identical in both modules). */
module Prefilter {
  import opened Text
  import opened Settings
  import opened Replies

  /** The reason that comes back with the verdict: "Text too short", the
      reply's own "reason" value (or "No reason provided"), "Accepted",
      "Could not parse prefilter response...", "No JSON in response..." or
      "Prefilter error: ...". */
  datatype Note = TextTooShort | Given(reason: Value) | NoReasonProvided | Accepted
                | CouldNotParse | NoJsonInResponse | PrefilterError

  datatype Verdict = Verdict(accepted: bool, note: Note)

  /** obj.get("reason", "No reason provided"). */
  function ReasonNote(members: map<string, Value>): Note {
    if "reason" in members then Given(members["reason"]) else NoReasonProvided
  }

  /** The reply names a status that lowercases to "reject": it reads as a
      JSON object (directly or through the brace span) whose "status" is
      such a string. */
  predicate ExplicitReject(parse: string -> Parsed, reply: ChatReply) {
    reply.Answered? &&
    var read := ReadJson(parse, Strip(reply.text), true);
    read.Found? && read.doc.Object? && "status" in read.doc.members &&
    read.doc.members["status"].Str? && Lower(read.doc.members["status"].s) == "reject"
  }

  /** prefilter_chunk for a chunk whose chat call answers `reply`. It fails
      open: a chunk of at least 50 words is rejected only on an explicit
      "reject" status, and then with the reply's own reason. */
  function Prefilter(parse: string -> Parsed, chunkText: string, reply: ChatReply): (r: Verdict)
    ensures r.note == TextTooShort <==> |Words(chunkText)| < MinChunkWords
    ensures !r.accepted <==> |Words(chunkText)| < MinChunkWords || ExplicitReject(parse, reply)
    ensures !r.accepted && r.note != TextTooShort ==>
      r.note == ReasonNote(ReadJson(parse, Strip(reply.text), true).doc.members)
  {
    if |Words(chunkText)| < MinChunkWords then Verdict(false, TextTooShort)
    else
      match reply
      case ChatFailed => Verdict(true, PrefilterError)
      case Answered(raw) =>
        match ReadJson(parse, Strip(raw), true)
        case NoBraces => Verdict(true, NoJsonInResponse)
        case SpanInvalid => Verdict(true, CouldNotParse)
        case Unbound => Verdict(true, PrefilterError)
        case Found(NotObject) => Verdict(true, PrefilterError)
        case Found(Object(members)) =>
          match StatusOf(members)
          case Raised => Verdict(true, PrefilterError)
          case Ok(status) =>
            if status == "reject" then Verdict(false, ReasonNote(members))
            else Verdict(true, if status == "accept" then ReasonNote(members) else Accepted)
  }

  /** A failed chat call lets a long enough chunk through. */
  lemma ChatFailureAccepts(parse: string -> Parsed, chunkText: string)
    requires |Words(chunkText)| >= MinChunkWords
    ensures Prefilter(parse, chunkText, ChatFailed) == Verdict(true, PrefilterError)
  {
  }

  /** Blank or empty text never reaches the model. */
  lemma BlankChunkRejected(parse: string -> Parsed, chunkText: string, reply: ChatReply)
    requires AllSpace(chunkText)
    ensures Prefilter(parse, chunkText, reply) == Verdict(false, TextTooShort)
  {
    WordsEmptyIffBlank(chunkText);
  }

  /** The status is compared case-insensitively: a reply that is exactly
      {"status": "REJECT"} rejects the chunk, with "No reason provided". */
  lemma UppercaseRejectRejects(parse: string -> Parsed, chunkText: string, raw: string)
    requires |Words(chunkText)| >= MinChunkWords
    requires parse(Strip(raw)) == Valid(Object(map["status" := Str("REJECT")]))
    ensures Prefilter(parse, chunkText, Answered(raw)) == Verdict(false, NoReasonProvided)
  {
    StatusWordsLower();
  }

  /** A reply with no braces that is not JSON accepts the chunk. */
  lemma NoJsonAccepts(parse: string -> Parsed, chunkText: string, raw: string)
    requires |Words(chunkText)| >= MinChunkWords
    requires parse(Strip(raw)) == Invalid && '{' !in Strip(raw)
    ensures Prefilter(parse, chunkText, Answered(raw)) == Verdict(true, NoJsonInResponse)
  {
  }
}
