/** process_text_file (core.py:287-465, qna_bm_core.py:244-402): chunk the
    text, fix the pair budget, run process_chunk for every chunk on a thread
    pool whose threads share accepted_pairs and existing_questions under one
    lock, then sort the accepted pairs by source label.

    The threads are modelled as workers, one per chunk, each advancing
    through the lock regions and lock-free stretches of process_chunk; a
    scheduler picks, at every step, any worker that has not finished, so
    what is proved holds for every interleaving. */
module Pipeline {
  import opened Text
  import opened Settings
  import opened Replies
  import opened Chunker
  import opened Budget
  import opened Generation
  import opened Prefilter
  import opened Review
  import opened Dedup
  import opened Header
  import opened Sorting

  /** Everything outside the modules: json.loads, the similarity test
      (SequenceMatcher ratio >= 0.88), and the answers of the chat calls.
      The generator's answer may depend on the chunk index, the pairs
      produced so far and the cap in its prompt; the prefilter's on the
      chunk; the reviewer's on the chunk and the pair. */
  datatype Service = Service(
    parse: string -> Parsed,
    similar: (string, string) -> bool,
    generate: (nat, nat, nat) -> ChatReply,
    prefilter: nat -> ChatReply,
    review: (nat, Pair) -> ChatReply)

  /** What the chat calls' answers make of a run's chunks: generate_pairs_for_chunk's
      outcome for chunk i when `produced` pairs were accepted, what
      screening keeps of candidate c of chunk i, whether its review raises,
      and whether chunk i is skipped before generation. RunConfig fills
      these in from Batch, Screened, ReviewFails and ChunkSkipped below;
      the thread invariants are stated over them. */
  datatype Outcomes = Outcomes(
    batch: (nat, nat) -> Outcome<seq<Pair>>,
    screened: (nat, Pair) -> Option<Pair>,
    raises: (nat, Pair) -> bool,
    skipped: nat -> bool)

  /** One run's fixed inputs: which module, the source name, the chunks'
      texts (chunk i, numbered from 1, is texts[i - 1]), the resolved
      budget, skip_review and the service; and what the service's answers
      make of them. */
  datatype Config = Config(v: Variant, source: string, texts: seq<string>, budget: int, skipReview: bool, svc: Service, out: Outcomes)

  /** How the final locked region of a candidate ends. */
  datatype CommitResult = BudgetFull | Duplicate | Added

  /** The questions of a list of pairs, in order. */
  function Questions(ps: seq<Pair>): (qs: seq<string>)
    ensures |qs| == |ps|
    ensures forall k :: 0 <= k < |ps| ==> qs[k] == ps[k].question
  {
    seq(|ps|, k requires 0 <= k < |ps| => ps[k].question)
  }

  lemma QuestionsAppend(ps: seq<Pair>, x: Pair)
    ensures Questions(ps + [x]) == Questions(ps) + [x.question]
  {
    assert forall k :: 0 <= k < |ps| ==> (ps + [x])[k] == ps[k];
  }

  /** The lists process_text_file shares between its threads, with the lock
      regions that touch them. */
  class SharedState {
    var acceptedPairs: seq<Pair>
    var existingQuestions: seq<string>
    const budget: int
    const similar: (string, string) -> bool

    /** existing_questions lists the accepted questions, the budget is never
        exceeded, and no accepted question duplicates an earlier one. */
    predicate Valid()
      reads this
    {
      existingQuestions == Questions(acceptedPairs) &&
      |acceptedPairs| <= Max(0, budget) &&
      NoDup(similar, existingQuestions)
    }

    constructor (budget: int, similar: (string, string) -> bool)
      ensures Valid()
      ensures acceptedPairs == [] && existingQuestions == []
      ensures this.budget == budget && this.similar == similar
    {
      acceptedPairs := [];
      existingQuestions := [];
      this.budget := budget;
      this.similar := similar;
    }

    /** `with lock: current_produced = len(accepted_pairs)`. */
    method Produced() returns (n: nat)
      ensures n == |acceptedPairs|
    {
      n := |acceptedPairs|;
    }

    /** `with lock: if len(accepted_pairs) >= max_pairs`. */
    method BudgetReached() returns (full: bool)
      ensures full <==> |acceptedPairs| >= budget
    {
      full := |acceptedPairs| >= budget;
    }

    /** `with lock: if is_dup_question(question, existing_questions)`. */
    method IsDuplicate(q: string) returns (dup: bool)
      ensures dup == IsDup(similar, q, existingQuestions)
    {
      dup := IsDupQuestion(similar, q, existingQuestions);
    }

    /** The last lock region for a reviewed pair: the budget and the
        duplicate test again, then both appends together. */
    method TryCommit(p: Pair) returns (r: CommitResult)
      requires Valid()
      modifies this
      ensures Valid()
      ensures r == BudgetFull <==> |old(acceptedPairs)| >= budget
      ensures r == Duplicate <==> |old(acceptedPairs)| < budget && IsDup(similar, p.question, old(existingQuestions))
      ensures acceptedPairs == old(acceptedPairs) + (if r == Added then [p] else [])
      ensures existingQuestions == old(existingQuestions) + (if r == Added then [p.question] else [])
    {
      if |acceptedPairs| >= budget {
        return BudgetFull;
      }
      var dup := IsDupQuestion(similar, p.question, existingQuestions);
      if dup {
        return Duplicate;
      }
      NoDupAppend(similar, existingQuestions, p.question);
      QuestionsAppend(acceptedPairs, p);
      acceptedPairs := acceptedPairs + [p];
      existingQuestions := existingQuestions + [p.question];
      r := Added;
    }
  }

  /** Why a thread returned: its chunk was skipped before generation (too
      short in qna_bm_core.py, or rejected by the prefilter); the generator
      raised; the budget was reached; it went through all its candidates;
      or the review of the candidate at position `at` raised. */
  datatype Stop = Skipped | GenerationFailed | BudgetSpent | AllSeen | ReviewFailed(at: nat)

  /** Where a chunk's thread is in process_chunk: about to start; at the
      head of the candidate loop; past the budget check of cands[0]; past
      its duplicate check; holding a reviewed pair to commit; or returned. */
  datatype Phase = Begin
                 | BudgetCheck(cands: seq<Pair>)
                 | DupCheck(cands: seq<Pair>)
                 | Screen(cands: seq<Pair>)
                 | Commit(reviewed: Pair, rest: seq<Pair>)
                 | Finished(why: Stop)

  /** The thread for chunk idx (numbered from 1), with process_chunk's
      locals current_produced and candidate_pairs once it has them. */
  datatype Worker = Worker(idx: nat, produced: nat, batch: seq<Pair>, phase: Phase)

  /** How much work a thread has left; every step lowers it. */
  function Rank(ph: Phase): nat {
    match ph
    case Begin => 4 * MaxPairsPerChunk + 2
    case BudgetCheck(c) => 4 * |c| + 1
    case DupCheck(c) => 4 * |c|
    case Screen(c) => if |c| == 0 then 0 else 4 * |c| - 1
    case Commit(_, rest) => 4 * |rest| + 2
    case Finished(_) => 0
  }

  function ChunkText(cfg: Config, i: nat): string
    requires 1 <= i <= |cfg.texts|
  {
    cfg.texts[i - 1]
  }

  /** process_chunk returns before generating: qna_bm_core.py's chunk of
      fewer than 50 words, or the prefilter's rejection when review is on. */
  predicate ChunkSkipped(cfg: Config, i: nat)
    requires 1 <= i <= |cfg.texts|
  {
    (cfg.v == QnaBm && |Words(ChunkText(cfg, i))| < MinChunkWords) ||
    (!cfg.skipReview && !Prefilter.Prefilter(cfg.svc.parse, ChunkText(cfg, i), cfg.svc.prefilter(i)).accepted)
  }

  /** The cap in chunk i's prompt when the thread read `produced` accepted
      pairs: core.py's cap_this_chunk; qna_bm_core.py sends none. */
  function CapFor(cfg: Config, i: nat, produced: nat): nat {
    if cfg.v == Core then ChunkCap(cfg.budget, produced, |cfg.texts|, i) else 0
  }

  /** What generate_pairs_for_chunk returns for chunk i when the thread
      read `produced` accepted pairs. */
  function Batch(cfg: Config, i: nat, produced: nat): (r: Outcome<seq<Pair>>)
    requires 1 <= i <= |cfg.texts|
    ensures r.Ok? ==> |r.value| <= MaxPairsPerChunk
  {
    var cap := CapFor(cfg, i, produced);
    Generate(cfg.v, cfg.svc.parse, cfg.svc.generate(i, produced, cap), ChunkText(cfg, i), cfg.source, i, cap)
  }

  /** What the screening of candidate c of chunk i keeps: without review,
      the candidate itself unless it has metadata; with review, the pair the
      reviewer approves. */
  function Screened(cfg: Config, i: nat, c: Pair): Option<Pair> {
    if cfg.skipReview then (if HasMetadata(c) then None else Some(c))
    else
      var r := ReviewPair(cfg.svc.parse, c, cfg.svc.review(i, c));
      if r.Approved? then Some(r.pair) else None
  }

  /** The review of candidate c of chunk i raises. */
  predicate ReviewFails(cfg: Config, i: nat, c: Pair) {
    !cfg.skipReview && ReviewPair(cfg.svc.parse, c, cfg.svc.review(i, c)).ReviewRaised?
  }

  /** cfg.out holds what the service's answers make of cfg's chunks. */
  ghost predicate Consistent(cfg: Config) {
    (forall i, produced {:trigger Batch(cfg, i, produced)} ::
       1 <= i <= |cfg.texts| ==> cfg.out.batch(i, produced) == Batch(cfg, i, produced)) &&
    (forall i, c {:trigger Screened(cfg, i, c)} :: cfg.out.screened(i, c) == Screened(cfg, i, c)) &&
    (forall i, c {:trigger ReviewFails(cfg, i, c)} :: cfg.out.raises(i, c) == ReviewFails(cfg, i, c)) &&
    (forall i {:trigger ChunkSkipped(cfg, i)} :: 1 <= i <= |cfg.texts| ==> cfg.out.skipped(i) == ChunkSkipped(cfg, i))
  }

  /** The outcomes of cfg's chunks, as Batch, Screened, ReviewFails and
      ChunkSkipped give them. */
  function OutcomesOf(cfg: Config): Outcomes {
    Outcomes((i: nat, produced: nat) => if 1 <= i <= |cfg.texts| then Batch(cfg, i, produced) else Raised,
             (i: nat, c: Pair) => Screened(cfg, i, c),
             (i: nat, c: Pair) => ReviewFails(cfg, i, c),
             (i: nat) => 1 <= i <= |cfg.texts| && ChunkSkipped(cfg, i))
  }

  /** A run's inputs with their outcomes filled in. */
  function WithOutcomes(v: Variant, source: string, texts: seq<string>, budget: int, skipReview: bool, svc: Service): (cfg: Config)
    ensures Consistent(cfg)
    ensures cfg.v == v && cfg.source == source && cfg.texts == texts && cfg.budget == budget
    ensures cfg.skipReview == skipReview && cfg.svc == svc
  {
    var base := Config(v, source, texts, budget, skipReview, svc,
                       Outcomes((i, produced) => Raised, (i, c) => None, (i, c) => false, i => false));
    base.(out := OutcomesOf(base))
  }

  /** Candidate c of chunk i is accounted for by the accepted pairs acc:
      its question duplicates an accepted one, screening drops it, or what
      screening keeps was accepted or duplicates an accepted question. */
  predicate Handled(cfg: Config, i: nat, c: Pair, acc: seq<Pair>) {
    IsDup(cfg.svc.similar, c.question, Questions(acc)) ||
    match cfg.out.screened(i, c)
    case None => true
    case Some(p) => p in acc || IsDup(cfg.svc.similar, p.question, Questions(acc))
  }

  predicate HandledUpTo(cfg: Config, i: nat, b: seq<Pair>, d: nat, acc: seq<Pair>)
    requires d <= |b|
  {
    forall k :: 0 <= k < d ==> Handled(cfg, i, b[k], acc)
  }

  /** A trimmed, non-empty question and answer, with chunk i's label. */
  predicate Labelled(cfg: Config, p: Pair, i: nat) {
    Trimmed(p.question) && Trimmed(p.answer) && p.source == Label(cfg.v, cfg.source, i)
  }

  predicate AllLabelled(cfg: Config, ps: seq<Pair>, i: nat) {
    forall k :: 0 <= k < |ps| ==> Labelled(cfg, ps[k], i)
  }

  /** What a thread may have read as current_produced while the run has
      accepted n pairs: core.py reads len(accepted_pairs), which only
      grows, so at most n; qna_bm_core.py's generator prompt does not use
      it, and the model passes 0. */
  predicate Snapshot(cfg: Config, produced: nat, n: nat) {
    produced <= n && (cfg.v == QnaBm ==> produced == 0)
  }

  /** Screening kept p of one of the candidates b. */
  predicate KeptFrom(cfg: Config, i: nat, b: seq<Pair>, p: Pair) {
    exists k :: 0 <= k < |b| && cfg.out.screened(i, b[k]) == Some(p)
  }

  /** p is what screening kept of a candidate that chunk i's generator
      returned when its thread had read at most n accepted pairs, and
      carries chunk i's label. */
  ghost predicate Kept(cfg: Config, p: Pair, i: nat, n: nat) {
    1 <= i <= |cfg.texts| && Labelled(cfg, p, i) &&
    exists produced: nat :: Snapshot(cfg, produced, n) && cfg.out.batch(i, produced).Ok? &&
      KeptFrom(cfg, i, cfg.out.batch(i, produced).value, p)
  }

  ghost predicate KeptBySomeChunk(cfg: Config, p: Pair, n: nat) {
    exists i :: Kept(cfg, p, i, n)
  }

  /** A snapshot of at most n accepted pairs is one of at most m >= n. */
  lemma KeptWeaken(cfg: Config, p: Pair, n: nat, m: nat)
    requires n <= m && KeptBySomeChunk(cfg, p, n)
    ensures KeptBySomeChunk(cfg, p, m)
  {
    var i :| Kept(cfg, p, i, n);
    var produced: nat :| Snapshot(cfg, produced, n) && cfg.out.batch(i, produced).Ok? &&
      KeptFrom(cfg, i, cfg.out.batch(i, produced).value, p);
    assert Snapshot(cfg, produced, m);
    assert Kept(cfg, p, i, m);
  }

  /** Over consistent outcomes, Kept speaks of generate_pairs_for_chunk
      and the screening themselves. */
  lemma KeptMeans(cfg: Config, p: Pair, i: nat, n: nat)
    requires Consistent(cfg)
    ensures Kept(cfg, p, i, n) <==>
      1 <= i <= |cfg.texts| && Labelled(cfg, p, i) &&
      exists produced: nat, k: nat :: Snapshot(cfg, produced, n) && Batch(cfg, i, produced).Ok? &&
        k < |Batch(cfg, i, produced).value| && Screened(cfg, i, Batch(cfg, i, produced).value[k]) == Some(p)
  {
    if Kept(cfg, p, i, n) {
      var produced: nat :| Snapshot(cfg, produced, n) && cfg.out.batch(i, produced).Ok? &&
        KeptFrom(cfg, i, cfg.out.batch(i, produced).value, p);
      var b := cfg.out.batch(i, produced).value;
      var k :| 0 <= k < |b| && cfg.out.screened(i, b[k]) == Some(p);
      assert cfg.out.batch(i, produced) == Batch(cfg, i, produced);
      assert cfg.out.screened(i, b[k]) == Screened(cfg, i, b[k]);
    }
    if 1 <= i <= |cfg.texts| && Labelled(cfg, p, i) &&
       exists produced: nat, k: nat :: Snapshot(cfg, produced, n) && Batch(cfg, i, produced).Ok? &&
         k < |Batch(cfg, i, produced).value| && Screened(cfg, i, Batch(cfg, i, produced).value[k]) == Some(p)
    {
      var produced: nat, k: nat :| Snapshot(cfg, produced, n) && Batch(cfg, i, produced).Ok? &&
        k < |Batch(cfg, i, produced).value| && Screened(cfg, i, Batch(cfg, i, produced).value[k]) == Some(p);
      var b := Batch(cfg, i, produced).value;
      assert cfg.out.screened(i, b[k]) == Some(p);
      assert KeptFrom(cfg, i, cfg.out.batch(i, produced).value, p);
    }
  }

  /** c is what is left of the candidates b: a suffix. */
  predicate Position(b: seq<Pair>, c: seq<Pair>) {
    |c| <= |b| && c == b[|b| - |c|..]
  }

  lemma PositionTail(b: seq<Pair>, c: seq<Pair>)
    requires Position(b, c) && c != []
    ensures c[0] == b[|b| - |c|] && Position(b, c[1..])
  {
  }

  /** The thread holds its chunk's candidates. */
  predicate Started(cfg: Config, w: Worker)
    requires 1 <= w.idx <= |cfg.texts|
  {
    cfg.out.batch(w.idx, w.produced) == Ok(w.batch) && AllLabelled(cfg, w.batch, w.idx)
  }

  /** Why a returned thread returned, against the accepted pairs acc. */
  predicate Ended(cfg: Config, w: Worker, why: Stop, acc: seq<Pair>)
    requires 1 <= w.idx <= |cfg.texts|
  {
    match why
    case Skipped => cfg.out.skipped(w.idx)
    case GenerationFailed => cfg.out.batch(w.idx, w.produced).Raised?
    case BudgetSpent => |acc| >= cfg.budget
    case AllSeen => Started(cfg, w) && HandledUpTo(cfg, w.idx, w.batch, |w.batch|, acc)
    case ReviewFailed(d) =>
      Started(cfg, w) && d < |w.batch| && cfg.out.raises(w.idx, w.batch[d]) && HandledUpTo(cfg, w.idx, w.batch, d, acc)
  }

  /** What a thread holds is its own chunk's candidates, generated from a
      snapshot of the accepted pairs acc, and every candidate it has gone
      past is accounted for by acc. */
  predicate WorkerOk(cfg: Config, w: Worker, acc: seq<Pair>) {
    1 <= w.idx <= |cfg.texts| && Snapshot(cfg, w.produced, |acc|) &&
    match w.phase
    case Begin => true
    case BudgetCheck(c) => Started(cfg, w) && Position(w.batch, c) && HandledUpTo(cfg, w.idx, w.batch, |w.batch| - |c|, acc)
    case DupCheck(c) => c != [] && Started(cfg, w) && Position(w.batch, c) && HandledUpTo(cfg, w.idx, w.batch, |w.batch| - |c|, acc)
    case Screen(c) => c != [] && Started(cfg, w) && Position(w.batch, c) && HandledUpTo(cfg, w.idx, w.batch, |w.batch| - |c|, acc)
    case Commit(p, rest) =>
      Started(cfg, w) && |rest| < |w.batch| && Position(w.batch, rest) &&
      cfg.out.screened(w.idx, w.batch[|w.batch| - |rest| - 1]) == Some(p) && Labelled(cfg, p, w.idx) &&
      HandledUpTo(cfg, w.idx, w.batch, |w.batch| - |rest| - 1, acc)
    case Finished(why) => Ended(cfg, w, why, acc)
  }

  /** The shared lists as a run keeps them: every accepted pair was kept
      from some chunk's candidates, generated before the pair's own commit. */
  ghost predicate StateOk(cfg: Config, st: SharedState)
    reads st
  {
    st.Valid() && st.similar == cfg.svc.similar && st.budget == cfg.budget && AllKept(cfg, st.acceptedPairs)
  }

  /** The pair at position k was generated from a snapshot of at most the k
      pairs accepted before it. */
  ghost predicate AllKept(cfg: Config, ps: seq<Pair>) {
    forall k :: 0 <= k < |ps| ==> KeptBySomeChunk(cfg, ps[k], k)
  }

  lemma AllKeptAppend(cfg: Config, ps: seq<Pair>, p: Pair, i: nat)
    requires AllKept(cfg, ps) && Kept(cfg, p, i, |ps|)
    ensures AllKept(cfg, ps + [p])
  {
    forall k | 0 <= k < |ps| + 1 ensures KeptBySomeChunk(cfg, (ps + [p])[k], k) {
      if k < |ps| {
        assert (ps + [p])[k] == ps[k];
      } else {
        assert (ps + [p])[k] == p;
      }
    }
  }

  /** Accepting one more pair keeps every candidate accounted for. */
  lemma HandledGrows(cfg: Config, i: nat, c: Pair, acc: seq<Pair>, x: Pair)
    requires Handled(cfg, i, c, acc)
    ensures Handled(cfg, i, c, acc + [x])
  {
    QuestionsAppend(acc, x);
    DupOfAppended(cfg.svc.similar, c.question, Questions(acc), x.question);
    var s := cfg.out.screened(i, c);
    if s.Some? {
      DupOfAppended(cfg.svc.similar, s.value.question, Questions(acc), x.question);
    }
  }

  lemma HandledUpToGrows(cfg: Config, i: nat, b: seq<Pair>, d: nat, acc: seq<Pair>, x: Pair)
    requires d <= |b| && HandledUpTo(cfg, i, b, d, acc)
    ensures HandledUpTo(cfg, i, b, d, acc + [x])
  {
    forall k | 0 <= k < d ensures Handled(cfg, i, b[k], acc + [x]) {
      HandledGrows(cfg, i, b[k], acc, x);
    }
  }

  /** Another thread's commit leaves a thread's invariant in place. */
  lemma WorkerOkGrows(cfg: Config, w: Worker, acc: seq<Pair>, x: Pair)
    requires WorkerOk(cfg, w, acc)
    ensures WorkerOk(cfg, w, acc + [x])
  {
    match w.phase
    case Begin =>
    case BudgetCheck(c) => HandledUpToGrows(cfg, w.idx, w.batch, |w.batch| - |c|, acc, x);
    case DupCheck(c) => HandledUpToGrows(cfg, w.idx, w.batch, |w.batch| - |c|, acc, x);
    case Screen(c) => HandledUpToGrows(cfg, w.idx, w.batch, |w.batch| - |c|, acc, x);
    case Commit(_, rest) => HandledUpToGrows(cfg, w.idx, w.batch, |w.batch| - |rest| - 1, acc, x);
    case Finished(why) =>
      match why
      case AllSeen => HandledUpToGrows(cfg, w.idx, w.batch, |w.batch|, acc, x);
      case ReviewFailed(d) => HandledUpToGrows(cfg, w.idx, w.batch, d, acc, x);
      case _ =>
  }

  /** The start of process_chunk: qna_bm_core.py's 50-word check, the
      prefilter unless review is skipped, core.py's cap from the pairs
      produced so far, and the generator. Any exception ends the thread. */
  method StepBegin(st: SharedState, cfg: Config, w: Worker) returns (w': Worker)
    requires Consistent(cfg) && StateOk(cfg, st) && WorkerOk(cfg, w, st.acceptedPairs) && w.phase == Begin
    ensures w'.idx == w.idx && WorkerOk(cfg, w', st.acceptedPairs)
    ensures Rank(w'.phase) < Rank(w.phase)
    ensures cfg.v == QnaBm && |Words(ChunkText(cfg, w.idx))| < MinChunkWords ==> w'.phase == Finished(Skipped)
    ensures !cfg.skipReview && !Prefilter.Prefilter(cfg.svc.parse, ChunkText(cfg, w.idx), cfg.svc.prefilter(w.idx)).accepted ==>
      w'.phase == Finished(Skipped)
    ensures w'.phase ==
      if ChunkSkipped(cfg, w.idx) then Finished(Skipped)
      else
        var g := Batch(cfg, w.idx, if cfg.v == Core then |st.acceptedPairs| else 0);
        if g.Raised? then Finished(GenerationFailed) else BudgetCheck(g.value)
  {
    var text := cfg.texts[w.idx - 1];
    assert cfg.out.skipped(w.idx) == ChunkSkipped(cfg, w.idx);
    if cfg.v == QnaBm && |Words(text)| < MinChunkWords {
      return Worker(w.idx, 0, [], Finished(Skipped));
    }
    if !cfg.skipReview {
      var verdict := Prefilter.Prefilter(cfg.svc.parse, text, cfg.svc.prefilter(w.idx));
      if !verdict.accepted {
        return Worker(w.idx, 0, [], Finished(Skipped));
      }
    }
    var produced, cap := 0, 0;
    if cfg.v == Core {
      produced := st.Produced();
      cap := ChunkCap(st.budget, produced, |cfg.texts|, w.idx);
    }
    var reply := cfg.svc.generate(w.idx, produced, cap);
    var gen := GeneratePairs(cfg.v, cfg.svc.parse, reply, text, cfg.source, w.idx, cap);
    assert gen == Batch(cfg, w.idx, produced);
    if gen.Raised? {
      return Worker(w.idx, produced, [], Finished(GenerationFailed));
    }
    BatchStarts(cfg, w.idx, produced, st.acceptedPairs);
    w' := Worker(w.idx, produced, gen.value, BudgetCheck(gen.value));
  }

  /** A generated batch starts the thread's loop with every candidate ahead. */
  lemma BatchStarts(cfg: Config, i: nat, produced: nat, acc: seq<Pair>)
    requires Consistent(cfg) && 1 <= i <= |cfg.texts| && Batch(cfg, i, produced).Ok? && Snapshot(cfg, produced, |acc|)
    ensures var b := Batch(cfg, i, produced).value; WorkerOk(cfg, Worker(i, produced, b, BudgetCheck(b)), acc)
  {
    var b := Batch(cfg, i, produced).value;
    var cap := CapFor(cfg, i, produced);
    GeneratedWellFormed(cfg.v, cfg.svc.parse, cfg.svc.generate(i, produced, cap), ChunkText(cfg, i), cfg.source, i, cap);
    forall k | 0 <= k < |b| ensures Labelled(cfg, b[k], i) {
      assert b[k] in b;
    }
    assert b[|b| - |b|..] == b;
  }

  /** The loop head: the loop ends with the candidates, the thread returns
      once the budget is reached, and otherwise the next candidate goes on
      to the duplicate check. */
  method StepBudgetCheck(st: SharedState, cfg: Config, w: Worker) returns (next: Phase)
    requires StateOk(cfg, st) && WorkerOk(cfg, w, st.acceptedPairs) && w.phase.BudgetCheck?
    ensures WorkerOk(cfg, w.(phase := next), st.acceptedPairs)
    ensures Rank(next) < Rank(w.phase)
    ensures next == if w.phase.cands == [] then Finished(AllSeen)
                    else if |st.acceptedPairs| >= st.budget then Finished(BudgetSpent)
                    else DupCheck(w.phase.cands)
  {
    var c := w.phase.cands;
    if c == [] {
      return Finished(AllSeen);
    }
    var full := st.BudgetReached();
    if full {
      return Finished(BudgetSpent);
    }
    next := DupCheck(c);
  }

  /** A candidate whose question duplicates an accepted one is passed over;
      any other goes on to screening. */
  method StepDupCheck(st: SharedState, cfg: Config, w: Worker) returns (next: Phase)
    requires StateOk(cfg, st) && WorkerOk(cfg, w, st.acceptedPairs) && w.phase.DupCheck?
    ensures WorkerOk(cfg, w.(phase := next), st.acceptedPairs)
    ensures Rank(next) < Rank(w.phase)
    ensures next == if IsDup(st.similar, w.phase.cands[0].question, st.existingQuestions)
                    then BudgetCheck(w.phase.cands[1..]) else Screen(w.phase.cands)
  {
    var c := w.phase.cands;
    PositionTail(w.batch, c);
    var dup := st.IsDuplicate(c[0].question);
    if dup {
      next := BudgetCheck(c[1..]);
      assert HandledUpTo(cfg, w.idx, w.batch, |w.batch| - |c| + 1, st.acceptedPairs);
      return;
    }
    next := Screen(c);
  }

  /** Without review a candidate with metadata is dropped and any other is
      kept as it is; with review, the reviewer's approved pair is kept, any
      other verdict drops the candidate, and an exception ends the thread. */
  method StepScreen(st: SharedState, cfg: Config, w: Worker) returns (next: Phase)
    requires Consistent(cfg) && StateOk(cfg, st) && WorkerOk(cfg, w, st.acceptedPairs) && w.phase.Screen?
    ensures WorkerOk(cfg, w.(phase := next), st.acceptedPairs)
    ensures Rank(next) < Rank(w.phase)
    ensures cfg.skipReview ==>
      next == if HasMetadata(w.phase.cands[0]) then BudgetCheck(w.phase.cands[1..]) else Commit(w.phase.cands[0], w.phase.cands[1..])
    ensures !cfg.skipReview ==>
      var r := ReviewPair(cfg.svc.parse, w.phase.cands[0], cfg.svc.review(w.idx, w.phase.cands[0]));
      next == if r.Approved? then Commit(r.pair, w.phase.cands[1..])
              else if r.ReviewRaised? then Finished(ReviewFailed(|w.batch| - |w.phase.cands|))
              else BudgetCheck(w.phase.cands[1..])
  {
    next := ScreenNext(cfg, w);
    ScreenNextOk(cfg, w, st.acceptedPairs);
    ScreenNextMeans(cfg, w);
  }

  /** ScreenNext in process_chunk's own terms: without review a pair that
      mentions metadata is dropped and any other is committed as is; with
      review an approved pair is committed in its reviewed form, a raising
      review ends the thread, and a rejected pair is dropped. */
  lemma ScreenNextMeans(cfg: Config, w: Worker)
    requires Consistent(cfg) && w.phase.Screen? && w.phase.cands != [] && |w.phase.cands| <= |w.batch|
    ensures cfg.skipReview ==>
      ScreenNext(cfg, w) == if HasMetadata(w.phase.cands[0]) then BudgetCheck(w.phase.cands[1..]) else Commit(w.phase.cands[0], w.phase.cands[1..])
    ensures !cfg.skipReview ==>
      var r := ReviewPair(cfg.svc.parse, w.phase.cands[0], cfg.svc.review(w.idx, w.phase.cands[0]));
      ScreenNext(cfg, w) == if r.Approved? then Commit(r.pair, w.phase.cands[1..])
                            else if r.ReviewRaised? then Finished(ReviewFailed(|w.batch| - |w.phase.cands|))
                            else BudgetCheck(w.phase.cands[1..])
  {
    var c := w.phase.cands[0];
    assert cfg.out.raises(w.idx, c) == ReviewFails(cfg, w.idx, c);
    assert cfg.out.screened(w.idx, c) == Screened(cfg, w.idx, c);
  }

  /** The phase after screening the next candidate. */
  function ScreenNext(cfg: Config, w: Worker): Phase
    requires w.phase.Screen? && w.phase.cands != [] && |w.phase.cands| <= |w.batch|
  {
    var c := w.phase.cands;
    if cfg.out.raises(w.idx, c[0]) then Finished(ReviewFailed(|w.batch| - |c|))
    else
      match cfg.out.screened(w.idx, c[0])
      case None => BudgetCheck(c[1..])
      case Some(p) => Commit(p, c[1..])
  }

  /** Screening keeps the thread's invariant. */
  lemma ScreenNextOk(cfg: Config, w: Worker, acc: seq<Pair>)
    requires Consistent(cfg) && WorkerOk(cfg, w, acc) && w.phase.Screen?
    ensures WorkerOk(cfg, w.(phase := ScreenNext(cfg, w)), acc)
  {
    var c := w.phase.cands;
    if cfg.out.raises(w.idx, c[0]) {
      ScreenRaisesOk(cfg, w, acc);
    } else if cfg.out.screened(w.idx, c[0]).None? {
      ScreenDropsOk(cfg, w, acc);
    } else {
      ScreenKeepsOk(cfg, w, acc);
    }
  }

  /** A raising review ends the thread with the candidates before it
      accounted for. */
  lemma ScreenRaisesOk(cfg: Config, w: Worker, acc: seq<Pair>)
    requires WorkerOk(cfg, w, acc) && w.phase.Screen? && cfg.out.raises(w.idx, w.phase.cands[0])
    ensures WorkerOk(cfg, w.(phase := Finished(ReviewFailed(|w.batch| - |w.phase.cands|))), acc)
  {
    PositionTail(w.batch, w.phase.cands);
  }

  /** A candidate screening drops is accounted for. */
  lemma ScreenDropsOk(cfg: Config, w: Worker, acc: seq<Pair>)
    requires WorkerOk(cfg, w, acc) && w.phase.Screen? && cfg.out.screened(w.idx, w.phase.cands[0]).None?
    ensures WorkerOk(cfg, w.(phase := BudgetCheck(w.phase.cands[1..])), acc)
  {
    var c := w.phase.cands;
    PositionTail(w.batch, c);
    HandledUpToExtend(cfg, w.idx, w.batch, |w.batch| - |c|, acc);
  }

  /** What screening keeps of a candidate goes on to the commit. */
  lemma ScreenKeepsOk(cfg: Config, w: Worker, acc: seq<Pair>)
    requires Consistent(cfg) && WorkerOk(cfg, w, acc) && w.phase.Screen? && cfg.out.screened(w.idx, w.phase.cands[0]).Some?
    ensures WorkerOk(cfg, w.(phase := Commit(cfg.out.screened(w.idx, w.phase.cands[0]).value, w.phase.cands[1..])), acc)
  {
    var c := w.phase.cands;
    PositionTail(w.batch, c);
    assert Labelled(cfg, c[0], w.idx);
    ScreenedLabelled(cfg, w.idx, c[0]);
  }

  /** What screening keeps of a labelled candidate is labelled alike. */
  lemma ScreenedLabelled(cfg: Config, i: nat, c: Pair)
    requires Consistent(cfg) && Labelled(cfg, c, i) && cfg.out.screened(i, c).Some?
    ensures Labelled(cfg, cfg.out.screened(i, c).value, i)
  {
    assert cfg.out.screened(i, c) == Screened(cfg, i, c);
  }

  /** The commit: a full budget ends the thread, a duplicate is passed
      over, anything else joins the accepted pairs; the loop then goes on
      with the next candidate. */
  method StepCommit(st: SharedState, cfg: Config, w: Worker) returns (next: Phase)
    requires StateOk(cfg, st) && WorkerOk(cfg, w, st.acceptedPairs) && w.phase.Commit?
    modifies st
    ensures StateOk(cfg, st)
    ensures WorkerOk(cfg, w.(phase := next), st.acceptedPairs)
    ensures Rank(next) < Rank(w.phase)
    ensures next == if |old(st.acceptedPairs)| >= st.budget then Finished(BudgetSpent) else BudgetCheck(w.phase.rest)
    ensures st.acceptedPairs == old(st.acceptedPairs) +
      if |old(st.acceptedPairs)| < st.budget && !IsDup(st.similar, w.phase.reviewed.question, old(st.existingQuestions))
      then [w.phase.reviewed] else []
  {
    ghost var before := st.acceptedPairs;
    var r := st.TryCommit(w.phase.reviewed);
    if r == BudgetFull {
      return Finished(BudgetSpent);
    }
    CommitOk(cfg, w, before, r == Added, st.acceptedPairs);
    next := BudgetCheck(w.phase.rest);
  }

  /** A commit past the budget check keeps the thread's invariant and the
      provenance of the accepted pairs, whether it adds the pair or finds
      it a duplicate. */
  lemma CommitOk(cfg: Config, w: Worker, acc: seq<Pair>, added: bool, acc': seq<Pair>)
    requires WorkerOk(cfg, w, acc) && w.phase.Commit? && AllKept(cfg, acc)
    requires !added ==> IsDup(cfg.svc.similar, w.phase.reviewed.question, Questions(acc))
    requires acc' == acc + (if added then [w.phase.reviewed] else [])
    ensures AllKept(cfg, acc') && WorkerOk(cfg, w.(phase := BudgetCheck(w.phase.rest)), acc')
  {
    var p, rest := w.phase.reviewed, w.phase.rest;
    var d := |w.batch| - |rest| - 1;
    assert Started(cfg, w);
    assert d < |w.batch| && cfg.out.screened(w.idx, w.batch[d]) == Some(p);
    assert Labelled(cfg, p, w.idx);
    assert HandledUpTo(cfg, w.idx, w.batch, d, acc);
    if added {
      CommitKeepsInvariants(cfg, w.idx, w.produced, w.batch, d, acc, p);
      AllKeptAppend(cfg, acc, p, w.idx);
    } else {
      assert acc' == acc;
      HandledUpToExtend(cfg, w.idx, w.batch, d, acc);
    }
  }

  lemma HandledUpToExtend(cfg: Config, i: nat, b: seq<Pair>, d: nat, acc: seq<Pair>)
    requires d < |b| && HandledUpTo(cfg, i, b, d, acc) && Handled(cfg, i, b[d], acc)
    ensures HandledUpTo(cfg, i, b, d + 1, acc)
  {
  }

  /** What StepCommit needs when p, kept of candidate d of chunk i, joins
      the accepted pairs: p was kept from the chunk's own candidates, and
      every candidate up to d, d included, stays accounted for. */
  lemma CommitKeepsInvariants(cfg: Config, i: nat, produced: nat, b: seq<Pair>, d: nat, acc: seq<Pair>, p: Pair)
    requires 1 <= i <= |cfg.texts| && cfg.out.batch(i, produced) == Ok(b) && Labelled(cfg, p, i)
    requires d < |b| && cfg.out.screened(i, b[d]) == Some(p) && HandledUpTo(cfg, i, b, d, acc)
    requires Snapshot(cfg, produced, |acc|)
    ensures Kept(cfg, p, i, |acc|)
    ensures HandledUpTo(cfg, i, b, d + 1, acc + [p])
  {
    assert KeptFrom(cfg, i, cfg.out.batch(i, produced).value, p);
    HandledUpToGrows(cfg, i, b, d, acc, p);
    assert Handled(cfg, i, b[d], acc + [p]) by {
      assert (acc + [p])[|acc|] == p;
    }
    HandledUpToExtend(cfg, i, b, d, acc + [p]);
  }

  /** One step of a thread that has not returned. */
  method Step(st: SharedState, cfg: Config, w: Worker) returns (w': Worker)
    requires Consistent(cfg) && StateOk(cfg, st) && WorkerOk(cfg, w, st.acceptedPairs) && !w.phase.Finished?
    modifies st
    ensures StateOk(cfg, st)
    ensures WorkerOk(cfg, w', st.acceptedPairs) && w'.idx == w.idx
    ensures Rank(w'.phase) < Rank(w.phase)
    ensures st.acceptedPairs == old(st.acceptedPairs) || (w.phase.Commit? && st.acceptedPairs == old(st.acceptedPairs) + [w.phase.reviewed])
  {
    var next: Phase;
    match w.phase {
      case Begin =>
        w' := StepBegin(st, cfg, w);
        return;
      case BudgetCheck(_) => next := StepBudgetCheck(st, cfg, w);
      case DupCheck(_) => next := StepDupCheck(st, cfg, w);
      case Screen(_) => next := StepScreen(st, cfg, w);
      case Commit(_, _) => next := StepCommit(st, cfg, w);
    }
    w' := w.(phase := next);
  }

  /** The work all threads have left. */
  function TotalRank(ws: seq<Worker>): nat {
    if ws == [] then 0 else Rank(ws[0].phase) + TotalRank(ws[1..])
  }

  lemma {:induction false} TotalRankUpdate(ws: seq<Worker>, k: nat, w: Worker)
    requires k < |ws| && Rank(w.phase) < Rank(ws[k].phase)
    ensures TotalRank(ws[k := w]) < TotalRank(ws)
    decreases k
  {
    if k > 0 {
      TotalRankUpdate(ws[1..], k - 1, w);
      assert ws[k := w][1..] == ws[1..][k - 1 := w];
    }
  }

  predicate AllFinished(ws: seq<Worker>) {
    forall k :: 0 <= k < |ws| ==> ws[k].phase.Finished?
  }

  predicate AllWorkersOk(cfg: Config, ws: seq<Worker>, acc: seq<Pair>) {
    forall k :: 0 <= k < |ws| ==> WorkerOk(cfg, ws[k], acc)
  }

  /** Threads other than the one that committed keep their invariants. */
  lemma OthersStayOk(cfg: Config, ws: seq<Worker>, acc: seq<Pair>, x: Pair)
    requires AllWorkersOk(cfg, ws, acc)
    ensures AllWorkersOk(cfg, ws, acc + [x])
  {
    forall k | 0 <= k < |ws| ensures WorkerOk(cfg, ws[k], acc + [x]) {
      WorkerOkGrows(cfg, ws[k], acc, x);
    }
  }

  /** The thread pool: until every thread has returned, any unfinished one
      takes its next step. */
  method RunWorkers(st: SharedState, cfg: Config, ws0: seq<Worker>) returns (ws: seq<Worker>)
    requires Consistent(cfg) && StateOk(cfg, st) && AllWorkersOk(cfg, ws0, st.acceptedPairs)
    modifies st
    ensures StateOk(cfg, st) && AllWorkersOk(cfg, ws, st.acceptedPairs) && AllFinished(ws)
    ensures |ws| == |ws0| && forall k :: 0 <= k < |ws| ==> ws[k].idx == ws0[k].idx
  {
    ws := ws0;
    while !AllFinished(ws)
      invariant StateOk(cfg, st) && AllWorkersOk(cfg, ws, st.acceptedPairs)
      invariant |ws| == |ws0| && forall k :: 0 <= k < |ws| ==> ws[k].idx == ws0[k].idx
      decreases TotalRank(ws)
    {
      var k :| 0 <= k < |ws| && !ws[k].phase.Finished?;
      ghost var before := st.acceptedPairs;
      var w := Step(st, cfg, ws[k]);
      if st.acceptedPairs != before {
        OthersStayOk(cfg, ws, before, ws[k].phase.reviewed);
      }
      TotalRankUpdate(ws, k, w);
      ws := ws[k := w];
    }
  }

  /** Candidate list b of chunk i is accounted for by acc, except for the
      candidates after one whose review raised. */
  predicate Accounted(cfg: Config, i: nat, b: seq<Pair>, acc: seq<Pair>) {
    forall k :: 0 <= k < |b| ==>
      Handled(cfg, i, b[k], acc) || exists j :: 0 <= j < k && cfg.out.raises(i, b[j])
  }

  /** Chunk i was skipped, or, generated from a snapshot of the accepted
      pairs acc, its generator raised or its candidates are accounted for. */
  ghost predicate ChunkAccounted(cfg: Config, i: nat, acc: seq<Pair>)
    requires 1 <= i <= |cfg.texts|
  {
    cfg.out.skipped(i) ||
    exists produced: nat :: Snapshot(cfg, produced, |acc|) &&
      (cfg.out.batch(i, produced).Raised? ||
       (cfg.out.batch(i, produced).Ok? && Accounted(cfg, i, cfg.out.batch(i, produced).value, acc)))
  }

  /** A returned thread that did not stop at the budget accounts for its
      chunk. */
  lemma FinishedAccounts(cfg: Config, w: Worker, acc: seq<Pair>)
    requires Consistent(cfg) && WorkerOk(cfg, w, acc) && w.phase.Finished? && |acc| < cfg.budget
    ensures ChunkAccounted(cfg, w.idx, acc)
  {
    match w.phase.why
    case Skipped =>
    case GenerationFailed =>
      assert cfg.out.batch(w.idx, w.produced).Raised?;
    case BudgetSpent =>
    case AllSeen =>
      assert Accounted(cfg, w.idx, cfg.out.batch(w.idx, w.produced).value, acc);
    case ReviewFailed(d) =>
      var b := w.batch;
      forall k | 0 <= k < |b| ensures Handled(cfg, w.idx, b[k], acc) || exists j :: 0 <= j < k && cfg.out.raises(w.idx, b[j]) {
        if k == d {
          assert cfg.out.raises(w.idx, b[k]) == ReviewFails(cfg, w.idx, b[k]);
          assert cfg.out.screened(w.idx, b[k]) == Screened(cfg, w.idx, b[k]);
        } else if k > d {
          assert cfg.out.raises(w.idx, b[d]);
        }
      }
      assert Accounted(cfg, w.idx, cfg.out.batch(w.idx, w.produced).value, acc);
  }

  /** With nothing accepted, a chunk is accounted for exactly when it was
      skipped, or its generator, run with nothing produced, raised or
      returned candidates of which screening keeps none before a raising
      review. */
  lemma NothingAcceptedMeans(cfg: Config, i: nat)
    requires Consistent(cfg) && 1 <= i <= |cfg.texts|
    ensures ChunkAccounted(cfg, i, []) <==>
      ChunkSkipped(cfg, i) || Batch(cfg, i, 0).Raised? ||
      (Batch(cfg, i, 0).Ok? &&
       var b := Batch(cfg, i, 0).value;
       forall k :: 0 <= k < |b| ==> Screened(cfg, i, b[k]) == None || exists j :: 0 <= j < k && ReviewFails(cfg, i, b[j]))
  {
    assert cfg.out.skipped(i) == ChunkSkipped(cfg, i);
    assert cfg.out.batch(i, 0) == Batch(cfg, i, 0);
    if ChunkAccounted(cfg, i, []) && !cfg.out.skipped(i) {
      var produced: nat :| Snapshot(cfg, produced, 0) &&
        (cfg.out.batch(i, produced).Raised? ||
         (cfg.out.batch(i, produced).Ok? && Accounted(cfg, i, cfg.out.batch(i, produced).value, [])));
      assert produced == 0;
    }
    assert Snapshot(cfg, 0, 0);
    if Batch(cfg, i, 0).Ok? {
      AccountedByNothing(cfg, i, Batch(cfg, i, 0).value);
    }
  }

  /** Nothing accepted accounts for a candidate list exactly when screening
      keeps none of it before a raising review. */
  lemma AccountedByNothing(cfg: Config, i: nat, b: seq<Pair>)
    requires Consistent(cfg)
    ensures Accounted(cfg, i, b, []) <==>
      forall k :: 0 <= k < |b| ==> Screened(cfg, i, b[k]) == None || exists j :: 0 <= j < k && ReviewFails(cfg, i, b[j])
  {
    forall k | 0 <= k < |b|
      ensures Handled(cfg, i, b[k], []) <==> Screened(cfg, i, b[k]) == None
      ensures cfg.out.raises(i, b[k]) == ReviewFails(cfg, i, b[k])
    {
      HandledByNothing(cfg, i, b[k]);
    }
  }

  lemma HandledByNothing(cfg: Config, i: nat, c: Pair)
    requires Consistent(cfg)
    ensures Handled(cfg, i, c, []) <==> Screened(cfg, i, c) == None
    ensures cfg.out.raises(i, c) == ReviewFails(cfg, i, c)
  {
    assert cfg.out.screened(i, c) == Screened(cfg, i, c);
    assert cfg.out.raises(i, c) == ReviewFails(cfg, i, c);
    assert Questions([]) == [];
  }

  /** core.py asks the last chunk, generated before anything is accepted,
      for at least one pair: its cap is the whole budget, up to 20. */
  lemma LastChunkCapAtStart(cfg: Config)
    requires cfg.v == Core && cfg.budget >= 1 && |cfg.texts| >= 1
    ensures 1 <= CapFor(cfg, |cfg.texts|, 0) <= Min(MaxPairsPerChunk, cfg.budget)
  {
  }

  /** The text chunked: qna_bm_core.py strips its header first. */
  function Body(v: Variant, text: string): string {
    if v == QnaBm then StrippedText(text) else text
  }

  /** The run a text resolves to: its chunks' texts and its budget. */
  function RunConfig(v: Variant, text: string, source: string, maxPairs: Option<int>, skipReview: bool, svc: Service): Config {
    var body := Body(v, text);
    var chunks := Chunks(v, body, DefaultChunkWords, DefaultChunkOverlap);
    WithOutcomes(v, source, seq(|chunks|, k requires 0 <= k < |chunks| => chunks[k].text),
                 ResolvedBudget(v, maxPairs, |Words(body)|, |chunks|), skipReview, svc)
  }

  /** Sorting keeps every pair's provenance. */
  lemma SortedKeepsProvenance(cfg: Config, ps: seq<Pair>)
    requires AllKept(cfg, ps)
    ensures SortedBySource(SortBySource(ps)) && multiset(SortBySource(ps)) == multiset(ps)
    ensures forall k :: 0 <= k < |SortBySource(ps)| ==> KeptBySomeChunk(cfg, SortBySource(ps)[k], |ps|)
  {
    var r := SortBySource(ps);
    SortSortsAndPermutes(ps);
    forall k | 0 <= k < |r| ensures KeptBySomeChunk(cfg, r[k], |ps|) {
      assert r[k] in multiset(ps);
      var j :| 0 <= j < |ps| && ps[j] == r[k];
      KeptWeaken(cfg, ps[j], j, |ps|);
    }
  }

  /** A run that keeps within its budget returns at most 200 pairs in
      core.py, and no more than a positive max_pairs the caller gives. */
  lemma BudgetLimitsRun(v: Variant, maxPairs: Option<int>, wordCount: nat, chunkCount: nat, n: nat)
    requires n <= Max(0, ResolvedBudget(v, maxPairs, wordCount, chunkCount))
    ensures v == Core ==> n <= 200
    ensures v == Core && maxPairs.Some? && maxPairs.value > 0 ==> n <= maxPairs.value
  {
  }

  /** The thread pool over the chunks, from empty shared lists to the
      accepted pairs in commit order: within the budget, free of
      near-duplicate questions, each kept from a chunk's candidates, and,
      unless the budget was reached, accounting for every chunk. */
  method RunChunks(cfg: Config) returns (accepted: seq<Pair>)
    requires Consistent(cfg)
    ensures |accepted| <= Max(0, cfg.budget)
    ensures NoDup(cfg.svc.similar, Questions(accepted))
    ensures forall k :: 0 <= k < |accepted| ==> KeptBySomeChunk(cfg, accepted[k], k)
    ensures |accepted| < cfg.budget ==> forall i :: 1 <= i <= |cfg.texts| ==> ChunkAccounted(cfg, i, accepted)
  {
    var st := new SharedState(cfg.budget, cfg.svc.similar);
    var ws0 := seq(|cfg.texts|, k requires 0 <= k < |cfg.texts| => Worker(k + 1, 0, [], Begin));
    var ws := RunWorkers(st, cfg, ws0);
    accepted := st.acceptedPairs;
    if |accepted| < cfg.budget {
      forall i | 1 <= i <= |cfg.texts| ensures ChunkAccounted(cfg, i, accepted) {
        assert ws[i - 1].idx == i;
        FinishedAccounts(cfg, ws[i - 1], accepted);
      }
    }
  }

  /** process_text_file. `accepted` is accepted_pairs in commit order,
      before the final sort. */
  method ProcessTextFile(v: Variant, text: string, source: string, maxPairs: Option<int>, skipReview: bool, svc: Service)
    returns (pairs: seq<Pair>, ghost accepted: seq<Pair>)
    ensures pairs == SortBySource(accepted)
    ensures v == QnaBm && |Strip(StrippedText(text))| < MinTextChars ==> pairs == []
    ensures Chunks(v, Body(v, text), DefaultChunkWords, DefaultChunkOverlap) == [] ==> pairs == []
    ensures |pairs| <= Max(0, ResolvedBudget(v, maxPairs, |Words(Body(v, text))|, |Chunks(v, Body(v, text), DefaultChunkWords, DefaultChunkOverlap)|))
    ensures v == Core ==> |pairs| <= 200
    ensures v == Core && maxPairs.Some? && maxPairs.value > 0 ==> |pairs| <= maxPairs.value
    ensures SortedBySource(pairs) && multiset(pairs) == multiset(accepted)
    ensures NoDup(svc.similar, Questions(accepted))
    ensures forall k :: 0 <= k < |accepted| ==> KeptBySomeChunk(RunConfig(v, text, source, maxPairs, skipReview, svc), accepted[k], k)
    ensures forall k :: 0 <= k < |pairs| ==> KeptBySomeChunk(RunConfig(v, text, source, maxPairs, skipReview, svc), pairs[k], |pairs|)
    ensures var cfg := RunConfig(v, text, source, maxPairs, skipReview, svc);
      !(v == QnaBm && |Strip(StrippedText(text))| < MinTextChars) && |accepted| < cfg.budget ==>
        forall i :: 1 <= i <= |cfg.texts| ==> ChunkAccounted(cfg, i, accepted)
  {
    var body := text;
    if v == QnaBm {
      body := StripHeader(text);
      if |Strip(body)| < MinTextChars {
        return [], [];
      }
    }
    assert body == Body(v, text);
    var chunks := ChunkWords(v, body, DefaultChunkWords, DefaultChunkOverlap);
    if chunks == [] {
      return [], [];
    }
    var budget := ResolvedBudget(v, maxPairs, |Words(body)|, |chunks|);
    var texts := seq(|chunks|, k requires 0 <= k < |chunks| => chunks[k].text);
    var cfg := WithOutcomes(v, source, texts, budget, skipReview, svc);
    assert cfg == RunConfig(v, text, source, maxPairs, skipReview, svc);
    var acc := RunChunks(cfg);
    accepted := acc;
    pairs := SortBySource(acc);
    SortedKeepsProvenance(cfg, acc);
    assert |pairs| == |multiset(pairs)| == |multiset(acc)| == |acc|;
    BudgetLimitsRun(v, maxPairs, |Words(body)|, |chunks|, |pairs|);
  }
}
