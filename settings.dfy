/** Configuration shared by the two processing modules, core.py and
    qna_bm_core.py, which differ only in the points a `Variant` selects. */
module Settings {

  /** Core: core.py (adaptive budget, per-chunk cap, chunk-numbered source
      labels). QnaBm: qna_bm_core.py (caller's budget used as is, ten pairs
      per chunk, metadata-header stripping, 50-character and 50-word guards). */
  datatype Variant = Core | QnaBm

  /** Defaults of QNA_CHUNK_WORDS, QNA_CHUNK_OVERLAP and QNA_MAX_PAIRS. */
  const DefaultChunkWords: int := 800
  const DefaultChunkOverlap: int := 100
  const DefaultMaxPairs: int := 100

  /** A chunk of fewer words is refused by the prefilter (and, in
      qna_bm_core.py, before it). */
  const MinChunkWords: nat := 50
  /** qna_bm_core.py refuses a stripped text of fewer characters. */
  const MinTextChars: nat := 50
  /** qna_bm_core.py keeps at most this many generated pairs per chunk. */
  const QnaBmPairsPerChunk: nat := 10
  /** core.py never asks one chunk for more pairs than this. */
  const MaxPairsPerChunk: nat := 20

  function Min(a: int, b: int): int { if a <= b then a else b }
  function Max(a: int, b: int): int { if a >= b then a else b }

  /** One more multiple: (c + 1) * d is c * d and one d more. */
  lemma MulSucc(c: int, d: int)
    ensures (c + 1) * d == c * d + d
  {
  }
}
