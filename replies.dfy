/** What the language model answers and how the modules read it: a chat call
    either returns text or raises, and a reply is read as JSON with
    json.loads, falling back to the span from the first '{' to the last '}'
    (core.py:155-168, 199-212, 242-259; qna_bm_core.py:126-143, 162-176,
    200-215). json.loads itself is a parameter: only what the modules do with
    its answer is modelled. */
module Replies {
  import opened Text

  /** The answer of one chat call: its text, or an exception. */
  datatype ChatReply = Answered(text: string) | ChatFailed

  /** A JSON value as the modules use it: a string, or any other value
      together with its Python truthiness (null, false, 0, [] and {} are
      falsy). */
  datatype Value = Str(s: string) | Other(truthy: bool)

  /** A parsed document: an object (its members) or any other JSON value. */
  datatype Doc = Object(members: map<string, Value>) | NotObject

  /** What json.loads does with a text: raises JSONDecodeError, or returns. */
  datatype Parsed = Invalid | Valid(doc: Doc)

  /** A computation that returns a value or raises. */
  datatype Outcome<T> = Ok(value: T) | Raised

  /** How reading a reply as JSON ends. `Unbound` is the case where the
      braces are in the wrong order and the guarded fallback never assigns
      the variable it goes on to use. */
  datatype Read = Found(doc: Doc) | SpanInvalid | NoBraces | Unbound

  /** obj.get(key) on a document's members. */
  function Get(members: map<string, Value>, key: string): Option<Value> {
    if key in members then Some(members[key]) else None
  }

  /** json.loads(text), and on JSONDecodeError, when text holds both '{' and
      '}', json.loads(text[find('{'):rfind('}') + 1]). `guarded` is the
      `if start < end` test the fallback has everywhere except in core.py's
      generator, which parses the (then empty) slice regardless. */
  function ReadJson(parse: string -> Parsed, text: string, guarded: bool): (r: Read)
    ensures r.Found? ==>
      parse(text) == Valid(r.doc) ||
      (parse(text) == Invalid && exists i, j :: 0 <= i <= j <= |text| && parse(text[i..j]) == Valid(r.doc))
    ensures parse(text).Valid? ==> r == Found(parse(text).doc)
    ensures r == NoBraces <==> parse(text).Invalid? && !('{' in text && '}' in text)
    ensures r == Unbound <==>
      guarded && parse(text).Invalid? && '{' in text && '}' in text && !(Find(text, '{') < RFind(text, '}') + 1)
    ensures parse(text).Invalid? && '{' in text && '}' in text && (!guarded || Find(text, '{') < RFind(text, '}') + 1) ==>
      var span := parse(Slice(text, Find(text, '{'), RFind(text, '}') + 1));
      (r.Found? <==> span.Valid?) && (r.Found? ==> r.doc == span.doc)
  {
    match parse(text)
    case Valid(doc) => Found(doc)
    case Invalid =>
      if '{' in text && '}' in text then
        var start, end := Find(text, '{'), RFind(text, '}') + 1;
        if guarded && !(start < end) then Unbound
        else
          var span := Slice(text, start, end);
          assert start < end ==> span == text[start..end];
          assert !(start < end) ==> span == text[0..0];
          match parse(span)
          case Valid(doc) => Found(doc)
          case Invalid => SpanInvalid
      else NoBraces
  }

  /** The fallback recovers a JSON object wrapped in prose: when the text
      is not JSON but the object is preceded by no '{' and followed by no
      '}', the object itself is what is read. */
  lemma EmbeddedObjectFound(parse: string -> Parsed, pre: string, body: string, post: string, guarded: bool)
    requires |body| >= 2 && body[0] == '{' && body[|body| - 1] == '}'
    requires '{' !in pre && '}' !in post
    requires parse(pre + body + post) == Invalid && parse(body).Valid?
    ensures ReadJson(parse, pre + body + post, guarded) == Found(parse(body).doc)
  {
    var t := pre + body + post;
    var start, last := |pre|, |pre| + |body| - 1;
    assert t[start] == '{' && t[last] == '}';
    assert t[..start] == pre;
    assert t[last + 1..] == post;
    assert Find(t, '{') == start;
    assert RFind(t, '}') == last;
    assert t[start..last + 1] == body;
  }

  /** When the braces come in order the guard makes no difference: the
      slice it would skip is the one the unguarded code parses. */
  lemma GuardOnlyMattersOutOfOrder(parse: string -> Parsed, text: string)
    requires parse("") == Invalid
    ensures ReadJson(parse, text, true) == ReadJson(parse, text, false)
      || (ReadJson(parse, text, true) == Unbound && ReadJson(parse, text, false) == SpanInvalid)
  {
    if parse(text).Invalid? && '{' in text && '}' in text {
      var start, end := Find(text, '{'), RFind(text, '}') + 1;
      if !(start < end) {
        assert Slice(text, start, end) == "";
      }
    }
  }

  /** (obj.get(key) or fallback): a missing or falsy value gives the
      fallback; a truthy value that is not a string makes the .strip() that
      follows raise. */
  function OrText(v: Option<Value>, fallback: string): (r: Outcome<string>)
    ensures r.Raised? <==> v.Some? && v.value.Other? && v.value.truthy
    ensures r.Ok? && v.Some? && v.value.Str? && v.value.s != "" ==> r.value == v.value.s
    ensures r.Ok? && !(v.Some? && v.value.Str? && v.value.s != "") ==> r.value == fallback
  {
    match v
    case None => Ok(fallback)
    case Some(Str(s)) => Ok(if s != "" then s else fallback)
    case Some(Other(truthy)) => if truthy then Raised else Ok(fallback)
  }

  /** obj.get("status", "").lower(): a status that is not a string raises. */
  function StatusOf(members: map<string, Value>): (r: Outcome<string>)
    ensures r.Raised? <==> "status" in members && members["status"].Other?
    ensures r.Ok? && "status" in members ==> r.value == Lower(members["status"].s)
    ensures r.Ok? && "status" !in members ==> r.value == ""
  {
    match Get(members, "status")
    case None => Ok("")
    case Some(Str(s)) => Ok(Lower(s))
    case Some(Other(_)) => Raised
  }

  /** The statuses the modules compare against are already lowercase. */
  lemma StatusWordsLower()
    ensures Lower("accept") == "accept" && Lower("edit") == "edit" && Lower("reject") == "reject"
    ensures Lower("REJECT") == "reject"
  {
  }
}
