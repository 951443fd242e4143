/** The final step of process_text_file: sorted(accepted_pairs,
    key=lambda x: x.get('source', '')) (core.py:458, qna_bm_core.py:395), a
    stable sort on the source label under Python's string order. */
module Sorting {
  import opened Generation

  /** Python's a <= b on strings: code point by code point, a prefix first. */
  predicate StrLe(a: string, b: string)
    decreases |a|
  {
    if a == [] then true
    else if b == [] then false
    else if a[0] != b[0] then a[0] < b[0]
    else StrLe(a[1..], b[1..])
  }

  /** a and b agree before position n, where a's character is below b's. */
  predicate DivergesBelow(a: string, b: string, n: nat) {
    n < |a| && n < |b| && a[..n] == b[..n] && a[n] < b[n]
  }

  /** StrLe is the lexicographic order: a prefix of b, or below b at the
      first position where they differ. */
  lemma {:induction false} StrLeMeans(a: string, b: string)
    ensures StrLe(a, b) <==> a <= b || exists n: nat :: DivergesBelow(a, b, n)
    decreases |a|
  {
    if a == [] || b == [] {
    } else if a[0] != b[0] {
      forall n: nat | DivergesBelow(a, b, n) ensures a[0] < b[0] {
        DivergesAtHead(a, b, n);
      }
      if a[0] < b[0] {
        assert DivergesBelow(a, b, 0);
      }
    } else {
      StrLeMeans(a[1..], b[1..]);
      assert a <= b <==> a[1..] <= b[1..] by {
        assert a == [a[0]] + a[1..] && b == [b[0]] + b[1..];
      }
      if exists n: nat :: DivergesBelow(a[1..], b[1..], n) {
        var n: nat :| DivergesBelow(a[1..], b[1..], n);
        assert a[..n + 1] == [a[0]] + a[1..][..n];
        assert b[..n + 1] == [b[0]] + b[1..][..n];
        assert DivergesBelow(a, b, n + 1);
      }
      if exists n: nat :: DivergesBelow(a, b, n) {
        var n: nat :| DivergesBelow(a, b, n);
        assert n > 0;
        assert a[1..][..n - 1] == a[..n][1..] && b[1..][..n - 1] == b[..n][1..];
        assert DivergesBelow(a[1..], b[1..], n - 1);
      }
    }
  }

  /** Where two strings diverge, their first characters are in order. */
  lemma DivergesAtHead(a: string, b: string, n: nat)
    requires DivergesBelow(a, b, n)
    ensures a[0] <= b[0]
  {
    if n > 0 {
      assert a[0] == a[..n][0] && b[0] == b[..n][0];
    }
  }

  lemma {:induction false} StrLeRefl(a: string)
    ensures StrLe(a, a)
    decreases |a|
  {
    if a != [] {
      StrLeRefl(a[1..]);
    }
  }

  lemma {:induction false} StrLeTotal(a: string, b: string)
    ensures StrLe(a, b) || StrLe(b, a)
    decreases |a|
  {
    if a != [] && b != [] && a[0] == b[0] {
      StrLeTotal(a[1..], b[1..]);
    }
  }

  lemma {:induction false} StrLeTrans(a: string, b: string, c: string)
    requires StrLe(a, b) && StrLe(b, c)
    ensures StrLe(a, c)
    decreases |a|
  {
    if a != [] && b != [] && c != [] && a[0] == b[0] && b[0] == c[0] {
      StrLeTrans(a[1..], b[1..], c[1..]);
    }
  }

  lemma {:induction false} StrLeAntisym(a: string, b: string)
    requires StrLe(a, b) && StrLe(b, a)
    ensures a == b
    decreases |a|
  {
    if a != [] && b != [] {
      StrLeAntisym(a[1..], b[1..]);
      assert a == [a[0]] + a[1..] && b == [b[0]] + b[1..];
    }
  }

  /** Sorted by source label. */
  predicate SortedBySource(ps: seq<Pair>) {
    forall i, j :: 0 <= i < j < |ps| ==> StrLe(ps[i].source, ps[j].source)
  }

  /** The pairs with source label k, in their order. */
  function WithSource(ps: seq<Pair>, k: string): (r: seq<Pair>)
    ensures |r| <= |ps|
  {
    if ps == [] then []
    else (if ps[0].source == k then [ps[0]] else []) + WithSource(ps[1..], k)
  }

  /** p placed before the first pair whose label is not below its own. */
  function Insert(p: Pair, s: seq<Pair>): seq<Pair> {
    if s == [] then [p]
    else if StrLe(p.source, s[0].source) then [p] + s
    else [s[0]] + Insert(p, s[1..])
  }

  /** sorted(pairs, key=source). */
  function SortBySource(ps: seq<Pair>): seq<Pair> {
    if ps == [] then [] else Insert(ps[0], SortBySource(ps[1..]))
  }

  lemma {:induction false} InsertPermutes(p: Pair, s: seq<Pair>)
    ensures multiset(Insert(p, s)) == multiset(s) + multiset{p}
    decreases |s|
  {
    if s != [] && !StrLe(p.source, s[0].source) {
      InsertPermutes(p, s[1..]);
      assert s == [s[0]] + s[1..];
    }
  }

  lemma {:induction false} InsertSorted(p: Pair, s: seq<Pair>)
    requires SortedBySource(s)
    ensures SortedBySource(Insert(p, s))
    decreases |s|
  {
    if s == [] {
    } else if StrLe(p.source, s[0].source) {
      var r := [p] + s;
      forall i, j | 0 <= i < j < |r| ensures StrLe(r[i].source, r[j].source) {
        if i == 0 && j > 1 {
          StrLeTrans(p.source, s[0].source, s[j - 1].source);
        }
      }
    } else {
      StrLeTotal(p.source, s[0].source);
      InsertSorted(p, s[1..]);
      InsertPermutes(p, s[1..]);
      var t := Insert(p, s[1..]);
      var r := [s[0]] + t;
      assert Insert(p, s) == r;
      forall j | 0 < j < |r| ensures StrLe(s[0].source, r[j].source) {
        assert r[j] == t[j - 1];
        assert t[j - 1] in multiset(s[1..]) + multiset{p};
        if t[j - 1] != p {
          var m :| 0 <= m < |s[1..]| && s[1..][m] == t[j - 1];
          assert s[m + 1] == r[j];
        }
      }
    }
  }

  /** The result is ordered by source label and holds exactly the pairs it
      was given. */
  lemma {:induction false} SortSortsAndPermutes(ps: seq<Pair>)
    ensures SortedBySource(SortBySource(ps))
    ensures multiset(SortBySource(ps)) == multiset(ps)
    decreases |ps|
  {
    if ps != [] {
      var t := SortBySource(ps[1..]);
      SortSortsAndPermutes(ps[1..]);
      InsertSorted(ps[0], t);
      InsertPermutes(ps[0], t);
      assert ps == [ps[0]] + ps[1..];
    }
  }

  lemma {:induction false} WithSourceInsert(p: Pair, s: seq<Pair>, k: string)
    ensures WithSource(Insert(p, s), k) == (if p.source == k then [p] else []) + WithSource(s, k)
    decreases |s|
  {
    if s == [] {
      assert WithSource([p], k) == (if p.source == k then [p] else []) + WithSource([], k);
    } else if StrLe(p.source, s[0].source) {
      assert ([p] + s)[1..] == s;
    } else {
      StrLeRefl(p.source);
      var t := Insert(p, s[1..]);
      WithSourceInsert(p, s[1..], k);
      assert ([s[0]] + t)[1..] == t;
      var head := if s[0].source == k then [s[0]] else [];
      var mine := if p.source == k then [p] else [];
      assert WithSource(Insert(p, s), k) == head + WithSource(t, k);
      assert WithSource(t, k) == mine + WithSource(s[1..], k);
      assert head == [] || mine == [];
      assert WithSource(s, k) == head + WithSource(s[1..], k);
    }
  }

  /** The sort is stable: the pairs of each source label keep their order. */
  lemma {:induction false} SortIsStable(ps: seq<Pair>, k: string)
    ensures WithSource(SortBySource(ps), k) == WithSource(ps, k)
    decreases |ps|
  {
    if ps != [] {
      SortIsStable(ps[1..], k);
      WithSourceInsert(ps[0], SortBySource(ps[1..]), k);
    }
  }

  /** Labels compare as strings, not by chunk number: chunk 10's pairs come
      before chunk 2's. */
  lemma ChunkTenBeforeChunkTwo()
    ensures StrLe("doc Chunk 10", "doc Chunk 2") && !StrLe("doc Chunk 2", "doc Chunk 10")
  {
    var a, b := "doc Chunk 10", "doc Chunk 2";
    assert a[10..] == "10" && b[10..] == "2";
    assert StrLe(a, b) == StrLe(a[10..], b[10..]) by {
      StrLeDropCommon(a, b, 10);
    }
    assert StrLe(b, a) == StrLe(b[10..], a[10..]) by {
      StrLeDropCommon(b, a, 10);
    }
  }

  /** A common prefix does not affect the comparison. */
  lemma {:induction false} StrLeDropCommon(a: string, b: string, n: nat)
    requires n <= |a| && n <= |b| && a[..n] == b[..n]
    ensures StrLe(a, b) == StrLe(a[n..], b[n..])
    decreases n
  {
    if n > 0 {
      assert a[0] == a[..n][0] && b[0] == b[..n][0];
      assert a[1..][..n - 1] == a[1..n] == b[1..n] == b[1..][..n - 1];
      StrLeDropCommon(a[1..], b[1..], n - 1);
      assert a[1..][n - 1..] == a[n..] && b[1..][n - 1..] == b[n..];
    }
  }
}
