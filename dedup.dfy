/** is_dup_question: a question is a near-duplicate when, lowercased and
    stripped, it is similar enough to some accepted question, lowercased and
    stripped too (core.py:276-284, qna_bm_core.py:233-241). The similarity
    test, difflib's SequenceMatcher ratio against the 0.88 threshold (QNA_DUP_QUESTION_SIM), is a
    parameter. */
module Dedup {
  import opened Text

  /** question.lower().strip(). */
  function Normalize(s: string): string {
    Strip(Lower(s))
  }

  /** Some accepted question is similar to q, after normalizing both. */
  predicate IsDup(similar: (string, string) -> bool, q: string, existing: seq<string>) {
    exists i :: 0 <= i < |existing| && similar(Normalize(q), Normalize(existing[i]))
  }

  /** is_dup_question's loop: the first similar question ends it. */
  method IsDupQuestion(similar: (string, string) -> bool, q: string, existing: seq<string>) returns (dup: bool)
    ensures dup == IsDup(similar, q, existing)
  {
    var qn := Normalize(q);
    var i := 0;
    while i < |existing|
      invariant 0 <= i <= |existing|
      invariant forall j :: 0 <= j < i ==> !similar(qn, Normalize(existing[j]))
    {
      if similar(qn, Normalize(existing[i])) {
        return true;
      }
      i := i + 1;
    }
    return false;
  }

  /** No question of the list is similar to one before it. */
  predicate NoDup(similar: (string, string) -> bool, qs: seq<string>) {
    forall i, j :: 0 <= i < j < |qs| ==> !similar(Normalize(qs[j]), Normalize(qs[i]))
  }

  /** Checking against a longer list: the old list, or the new question. */
  lemma DupOfAppended(similar: (string, string) -> bool, q: string, existing: seq<string>, x: string)
    ensures IsDup(similar, q, existing + [x]) <==>
      IsDup(similar, q, existing) || similar(Normalize(q), Normalize(x))
  {
    var e := existing + [x];
    if similar(Normalize(q), Normalize(x)) {
      assert e[|existing|] == x;
    }
    if IsDup(similar, q, existing) {
      var i :| 0 <= i < |existing| && similar(Normalize(q), Normalize(existing[i]));
      assert e[i] == existing[i];
    }
    if IsDup(similar, q, e) {
      var i :| 0 <= i < |e| && similar(Normalize(q), Normalize(e[i]));
      if i < |existing| {
        assert e[i] == existing[i];
      }
    }
  }

  /** Appending a question that is not a duplicate keeps the list free of
      duplicates. */
  lemma NoDupAppend(similar: (string, string) -> bool, qs: seq<string>, q: string)
    requires NoDup(similar, qs) && !IsDup(similar, q, qs)
    ensures NoDup(similar, qs + [q])
  {
    var e := qs + [q];
    forall i, j | 0 <= i < j < |e| ensures !similar(Normalize(e[j]), Normalize(e[i])) {
      assert e[i] == qs[i];
      if j < |qs| {
        assert e[j] == qs[j];
      }
    }
  }

  /** With a similarity that holds between equal texts (a ratio of 1.0), a
      question that differs from an accepted one only in ASCII case and
      surrounding whitespace is a duplicate. */
  lemma SameNormalFormIsDup(similar: (string, string) -> bool, q: string, existing: seq<string>, k: nat)
    requires forall s :: similar(s, s)
    requires k < |existing| && Normalize(existing[k]) == Normalize(q)
    ensures IsDup(similar, q, existing)
  {
    assert similar(Normalize(q), Normalize(existing[k]));
  }
}
