/** The budget arithmetic of process_text_file: core.py's adaptive global
    target (core.py:308-333) and per-chunk cap (core.py:356-361);
    qna_bm_core.py takes the caller's max_pairs as the budget. */
module Budget {
  import opened Settings
  import opened Text

  /** Python's round(num / den) on the exact quotient: the nearest integer,
      a tie going to the even neighbour. */
  function RoundHalfEven(num: int, den: int): (r: int)
    requires den > 0
    ensures num / den <= r <= num / den + 1
  {
    var q, rem := num / den, num % den;
    if 2 * rem < den then q
    else if 2 * rem > den then q + 1
    else if q % 2 == 0 then q else q + 1
  }

  /** round() gives the integer nearest to num / den, within a half, and
      on an exact half the even one. */
  lemma RoundIsNearestEven(num: int, den: int)
    requires den > 0
    ensures var r := RoundHalfEven(num, den);
      -den <= 2 * (num - r * den) <= den &&
      (2 * (num - r * den) == den || 2 * (num - r * den) == -den ==> r % 2 == 0)
  {
    var q, rem := num / den, num % den;
    assert num == q * den + rem;
    MulSucc(q, den);
  }

  /** Rounding a non-negative share never exceeds the amount shared out. */
  lemma RoundWithin(num: int, den: int)
    requires num >= 0 && den > 0
    ensures 0 <= RoundHalfEven(num, den) <= num
  {
    var q, rem := num / den, num % den;
    assert num == q * den + rem;
    assert q >= 0;
    if den >= 2 {
      assert q * den >= 2 * q;
    }
  }

  /** Halves go to the even neighbour: 5.5 rounds to 6 but 6.5 to 6 as well. */
  lemma HalvesRoundToEven()
    ensures RoundHalfEven(55, 10) == 6 && RoundHalfEven(65, 10) == 6
    ensures RoundHalfEven(75, 10) == 8 && RoundHalfEven(125, 10) == 12
  {
  }

  /** The estimate min(words // 40, chunks * 20) clamped to [50, 200]. */
  function ClampedEstimate(wordCount: nat, chunkCount: nat): int {
    Max(50, Min(200, Min(wordCount / 40, chunkCount * 20)))
  }

  /** core.py's adaptive target: the clamped estimate rounded to the nearest
      ten (halves to an even number of tens). It is a multiple of ten in
      [50, 200] within five of the clamped estimate. */
  function AdaptiveTarget(wordCount: nat, chunkCount: nat): (t: int)
    ensures t % 10 == 0 && 50 <= t <= 200
    ensures var e := ClampedEstimate(wordCount, chunkCount); -5 <= t - e <= 5
  {
    var e := ClampedEstimate(wordCount, chunkCount);
    RoundIsNearestEven(e, 10);
    RoundHalfEven(e, 10) * 10
  }

  /** core.py's budget: a positive user cap lowers the adaptive target,
      anything else leaves it. */
  function FinalBudget(maxPairs: Option<int>, adaptive: int): (g: int)
    ensures g <= adaptive
    ensures maxPairs.Some? && maxPairs.value > 0 ==> g <= maxPairs.value && (g == maxPairs.value || g == adaptive)
    ensures !(maxPairs.Some? && maxPairs.value > 0) ==> g == adaptive
    ensures adaptive >= 1 ==> g >= 1
  {
    if maxPairs.Some? && maxPairs.value > 0 then
      if maxPairs.value < adaptive then maxPairs.value else adaptive
    else adaptive
  }

  /** The budget a run resolves: core.py computes it from the word and
      chunk counts; qna_bm_core.py uses max_pairs (None standing for the
      argument left out, whose default is 100). */
  function ResolvedBudget(v: Variant, maxPairs: Option<int>, wordCount: nat, chunkCount: nat): (b: int)
    ensures v == Core ==> 1 <= b <= 200 && (maxPairs.Some? && maxPairs.value > 0 ==> b <= maxPairs.value)
    ensures v == QnaBm ==> b == if maxPairs.Some? then maxPairs.value else 100
  {
    match v
    case Core => FinalBudget(maxPairs, AdaptiveTarget(wordCount, chunkCount))
    case QnaBm => if maxPairs.Some? then maxPairs.value else DefaultMaxPairs
  }

  /** The per-chunk cap of chunk idx of total, with `produced` pairs
      accepted: the remaining budget shared evenly over the remaining chunks,
      rounded, and held to [0, 20]. */
  function ChunkCap(budget: int, produced: int, total: int, idx: int): (cap: int)
    ensures 0 <= cap <= MaxPairsPerChunk
    ensures cap <= Max(0, budget - produced)
    ensures var rb, rc := Max(0, budget - produced), Max(1, total - idx + 1);
      cap < MaxPairsPerChunk ==> -rc <= 2 * (rb - cap * rc) <= rc
  {
    var remainingBudget := Max(0, budget - produced);
    var remainingChunks := Max(1, total - idx + 1);
    RoundWithin(remainingBudget, remainingChunks);
    RoundIsNearestEven(remainingBudget, remainingChunks);
    Min(MaxPairsPerChunk, Max(0, RoundHalfEven(remainingBudget, remainingChunks)))
  }

  /** Once the budget is used up every later chunk is asked for nothing. */
  lemma SpentBudgetZeroCap(budget: int, produced: int, total: int, idx: int)
    requires produced >= budget
    ensures ChunkCap(budget, produced, total, idx) == 0
  {
  }

  /** A 1000-word text in two chunks gets the floor target of 50; a
      10,000-word one in 15 chunks gets 250 clamped to 200. */
  lemma AdaptiveExamples()
    ensures AdaptiveTarget(1000, 2) == 50
    ensures AdaptiveTarget(10000, 15) == 200
    ensures AdaptiveTarget(2600, 4) == 60 && AdaptiveTarget(3000, 4) == 80
  {
  }
}
