# qna-pair-generator core, in Dafny

This project models the part of qna-pair-generator that turns one document into
question–answer pairs. It covers both of the repository's processing modules:
`core.py`, which has an adaptive budget, and `qna_bm_core.py`, which has a fixed
budget and strips the document header first. They share a single model. The
`Variant` parameter (`Core` or `QnaBm`) picks the module wherever the two differ.

The run (`process_text_file`) goes like this:

- The text is split into overlapping windows of 800 words. Consecutive windows share 100 words.
- The run fixes a budget for the pairs.
  - `core.py` derives it from the word and chunk counts and caps it with the caller's positive `max_pairs`.
  - `qna_bm_core.py` takes `max_pairs` as it is.
- One thread per chunk runs `process_chunk`:
  1. `qna_bm_core.py` drops a chunk of fewer than 50 words.
  2. Unless review is skipped, a prefilter chat call may reject the chunk.
  3. `core.py` gives the chunk a cap: its share of the remaining budget.
  4. A generator chat call answers one JSON object per line. The lines become candidate pairs.
  5. Each candidate passes a budget check and a near-duplicate check. Then either a metadata keyword filter or a reviewer chat call screens it.
  6. It is committed under the lock. The commit re-checks the budget and the duplicates first.
- Every exception inside a chunk ends that chunk's work. Pairs it has already committed stay.
- The accepted pairs are sorted by their source label. The sort is stable and uses Python's string order.

Modules, one per file:

- `settings.dfy`: constants.
- `text.dfy`: the Python string operations the code relies on. These are `split`, `strip`, `lower`, `in`, `find`/`rfind`, slicing, `splitlines`, `split(sep)` and `join`.
- `chunker.dfy`: `chunk_words`.
- `budget.dfy`: the adaptive target and the per-chunk cap.
- `replies.dfy`: chat replies and how they are read as JSON.
- `generation.dfy`: `generate_pairs_for_chunk`.
- `prefilter.dfy`: `prefilter_chunk`.
- `review.dfy`: `review_pair` and the metadata filter.
- `dedup.dfy`: `is_dup_question`.
- `header.dfy`: `qna_bm_core.py`'s header stripping.
- `sorting.dfy`: the final sort.
- `pipeline.dfy`: the shared state, the threads and `process_text_file`.

Some parts are parameters of the model: `json.loads`, the similarity test, and
the answers of the three chat calls. Every property is proved for all values of
those parameters, with three exceptions that name their assumption:

- `Replies.GuardOnlyMattersOutOfOrder` and `Generation.GeneratorsReadAlike` assume that `json.loads("")` fails (`parse("") == Invalid`).
- `Dedup.SameNormalFormIsDup` assumes that the similarity test is reflexive.

The concurrency is modelled as follows. Each thread is a worker that moves
through the lock regions and lock-free stretches of `process_chunk`, one step at
a time. A scheduler lets any unfinished worker take the next step. So the budget
bound, the absence of duplicates and the shape of the pairs hold for every
interleaving.

What the chat answers make of a run's chunks is held in `Config.out`:

- each chunk's generator outcome;
- what screening keeps of each candidate;
- whether a candidate's review raises;
- whether a chunk is skipped.

`Pipeline.WithOutcomes` fills these in from `Batch`, `Screened`, `ReviewFails`
and `ChunkSkipped`, which are defined through `Generate`, `ReviewPair` and
`Prefilter`. `Pipeline.Consistent` states that they agree. The thread
invariants are stated over `Config.out`, and `Pipeline.KeptMeans` restates
provenance in terms of the generator and the screening themselves.

A thread's generator call depends on `current_produced`, the number of
accepted pairs it read under the lock (core.py:356-357). The model keeps that
snapshot with the thread (`Worker.produced`) and states provenance and
accounting for the snapshot the thread really read: at most the pairs accepted
so far, and 0 in qna_bm_core.py, whose prompt does not use it.

`core.py`'s generator adds a fourth key, `chunk_text`, to every candidate
(core.py:176). With review skipped, the candidate is committed as it is
(core.py:398, 411), so `core.py`'s accepted pairs carry that key too.
`Pair.chunkText` models it. A reviewed pair has no `chunk_text` (core.py:271).

## Model

| member | source | states |
|---|---|---|
| Chunker.Step | core.py:88 | the advance between windows is at least 1, and at most the window for a positive window and a non-negative overlap |
| Chunker.ChunkWords | core.py:82-100 | chunk_words of either module returns the chunk list `Chunks` specifies, split() words windowed from index 0 |
| Chunker.ChunkWordsWhile | core.py:90-99 | core.py's while loop (skip an empty window, stop once i >= len(words)) builds exactly the specified chunk list |
| Chunker.ChunkWordsRange | qna_bm_core.py:89-94 | qna_bm_core.py's loop over range(0, n, step) that breaks at an empty window builds exactly the specified chunk list |
| Chunker.ChunkShape | core.py:88-99 | with a positive window there are ceil(n / step) chunks; chunk k starts at k*step, ends at min(k*step + size, n) and its text is those words joined by single spaces |
| Chunker.ChunkersAgree | qna_bm_core.py:89-94 | the two modules' loops give the same chunks whenever the window is positive |
| Chunker.BlankTextNoChunks | core.py:84-86 | an empty or all-whitespace text has no chunks |
| Chunker.ChunkCoverage | core.py:88-99 | the chunks cover every word: the first starts at 0, each starts no later than the previous ends, the last ends at n |
| Chunker.ChunkWordCount | core.py:94-95 | a chunk's text splits back into exactly end - start words, which the 50-word guards count |
| Chunker.ThousandWordsTwoChunks | core.py:88-99 | 1000 words with window 800 and overlap 100 give chunks [0, 800) and [700, 1000) |
| Budget.RoundIsNearestEven | core.py:315 | round(num / den) is within half of the quotient and ties go to the even integer |
| Budget.RoundHalfEven | core.py:315 | round() of a quotient is the quotient rounded down or up, never further; RoundIsNearestEven pins which |
| Budget.RoundWithin | core.py:361 | rounding a non-negative share gives a value between 0 and the amount shared |
| Budget.HalvesRoundToEven | core.py:315 | 5.5 and 6.5 both round to 6, 7.5 to 8, 12.5 to 12 |
| Budget.AdaptiveTarget | core.py:308-316 | the adaptive target is a multiple of 10 in [50, 200] within 5 of min(words // 40, chunks * 20) clamped to [50, 200] |
| Budget.FinalBudget | core.py:319-333 | a positive user cap gives min(cap, adaptive); anything else gives the adaptive target |
| Budget.ResolvedBudget | core.py:309-333 | core.py's budget lies in [1, 200] and is at most a positive max_pairs; qna_bm_core.py's budget is max_pairs itself, 100 when it is left out |
| Budget.ChunkCap | core.py:356-361 | a chunk's cap is in [0, 20], never above the remaining budget, and below 20 it is the remaining budget over the remaining chunks rounded to within a half |
| Budget.SpentBudgetZeroCap | core.py:357-361 | once the pairs produced reach the budget every later chunk's cap is 0 |
| Budget.AdaptiveExamples | core.py:308-316 | 1000 words in 2 chunks give 50; 10000 words in 15 chunks give 200; 2600 and 3000 words in 4 chunks give 60 and 80 |
| Replies.ReadJson | core.py:159-170 | a direct parse that succeeds is the document read; when it fails and both braces are present (and, behind the start < end guard, in order), the document is found exactly when text[find("{"):rfind("}") + 1] parses, and it is that slice's document; "no JSON" exactly when the parse fails and a brace is missing; the unassigned case exactly when the guard is present, the parse fails and the braces are out of order |
| Replies.EmbeddedObjectFound | core.py:162-166 | a reply that is not JSON but holds one object between prose without braces is read as that object |
| Replies.GuardOnlyMattersOutOfOrder | core.py:162-168 | with json.loads("") failing, the missing start < end guard in core.py's generator changes nothing except turning the unassigned case into a skipped line |
| Replies.OrText | core.py:171-172 | (obj.get(k) or fallback) raises exactly on a truthy non-string, gives a non-empty string value itself, and otherwise the fallback |
| Replies.StatusOf | core.py:212 | obj.get("status", "").lower() raises exactly on a non-string status, lowercases a string one, and gives "" when absent |
| Generation.FromDoc | core.py:171-173 | a kept line's question and answer are (obj.get(k) or "").strip() of the object; the line is skipped exactly when both are strings (or falsy) and one strips to empty; it raises exactly when the document is not an object or a truthy question/answer is not a string |
| Generation.ReadLine | core.py:155-170 | a blank or fence line is skipped; any other line gives exactly what its document, read from the stripped line directly or through the brace span, makes of it, and is skipped when no document is found; core.py reads the brace span without the start < end guard |
| Generation.Take | core.py:178-179 | pairs[:n] is the prefix of length min(n, len(pairs)) |
| Generation.Label | core.py:175 | core.py's label for a non-zero index is "<source> Chunk " followed by digits that spell the index; with index 0, and in qna_bm_core.py, it is the source name |
| Generation.CoreLabelsDistinct | core.py:175 | different chunks get different labels in core.py |
| Generation.Generate | core.py:146-180 | a failed chat call gives no pairs, and a chunk gives at most its limit: core.py's cap, 10 in qna_bm_core.py |
| Generation.GeneratePairs | core.py:146-180 | generate_pairs_for_chunk returns what Generate specifies for the chat reply |
| Generation.CollectPairs | core.py:155-176 | the loop over the reply's lines collects what Candidates specifies, or raises |
| Generation.CandidatesWellFormed | core.py:155-176 | every collected pair has a trimmed non-empty question and answer and carries the given label and chunk text |
| Generation.GeneratedWellFormed | core.py:171-180 | a chunk yields at most its cap (10 in qna_bm_core.py) pairs, all trimmed, labelled "<source> Chunk <idx>" in core.py and "<source>" in qna_bm_core.py, core.py's carrying chunk_text |
| Generation.NoReplyNoPairs | core.py:146-152 | a failed chat call or a blank reply gives no pairs and does not raise |
| Generation.FenceLinesSkipped | core.py:156-158 | blank lines and lines starting with ``` are skipped |
| Generation.ObjectLineKept | core.py:159-176 | a line that parses to an object with non-blank question and answer gives exactly the two stripped texts |
| Generation.ProseLineKept | core.py:159-176 | a line that is not JSON but holds one object with non-blank question and answer between brace-free prose gives exactly the two stripped texts |
| Generation.GeneratorsReadAlike | qna_bm_core.py:118-144 | with json.loads("") failing, both modules read every reply line the same way |
| Generation.RaisingLineRaises | core.py:155-176 | one line that raises makes the whole line loop raise, whatever the other lines |
| Generation.NonObjectLineRaisesChunk | core.py:160-171 | a reply line that parses to JSON that is not an object makes generate_pairs_for_chunk raise; process_chunk's except (core.py:414) then ends the chunk with nothing from it |
| Prefilter.Prefilter | core.py:183-220 | a chunk under 50 words is rejected as too short; otherwise it is rejected exactly when the reply's status lowercases to "reject", with the reply's reason; every failure accepts |
| Prefilter.ChatFailureAccepts | core.py:218-220 | a failed chat call accepts a long enough chunk with a prefilter error |
| Prefilter.BlankChunkRejected | core.py:185-186 | a blank chunk is rejected as too short whatever the reply |
| Prefilter.UppercaseRejectRejects | core.py:212-216 | {"status": "REJECT"} rejects, with "No reason provided" |
| Prefilter.NoJsonAccepts | core.py:209-210 | a non-JSON reply without braces accepts the chunk |
| Review.ReviewPair | core.py:242-273 | a pair is approved exactly when the status is accept or edit and both (obj.get(k) or pair[k]) are strings that strip to non-empty text, and the approved pair holds those stripped texts, the candidate's source and no chunk_text; rejection exactly on status "reject", with obj.get("reason", "rejected"); cannot_parse exactly when no JSON is found; it raises exactly on a failed chat call, JSON that is not an object, a status that is not a string, or, for accept or edit, a question or answer that is a truthy non-string; invalid_status, naming the reply's status, exactly for any other status or an accept or edit whose question or answer strips to nothing |
| Review.ReplyStatus | core.py:263 | a status is read only from a reply object whose status lowercases without raising |
| Review.AcceptKeepsCandidate | core.py:267-271 | a bare accept keeps the candidate's stripped question and answer and its source |
| Review.EditReplaces | core.py:267-271 | an edit with non-blank question and answer replaces both |
| Review.HasMetadata | core.py:392-396 | true exactly when some metadata keyword occurs in the lowercased question or the lowercased answer |
| Review.AtSignIsMetadata | core.py:395-396 | a question containing '@' is filtered as metadata |
| Dedup.IsDupQuestion | core.py:276-284 | is_dup_question is true exactly when some existing question, lowercased and stripped, is similar to the lowercased, stripped candidate |
| Dedup.DupOfAppended | core.py:279-284 | a duplicate of a list extended by x is a duplicate of the list or similar to x |
| Dedup.NoDupAppend | core.py:405-412 | appending a question that is not a duplicate keeps the list free of duplicates |
| Dedup.SameNormalFormIsDup | core.py:278-282 | with a reflexive similarity, a question equal to an existing one up to case and surrounding whitespace is a duplicate |
| Header.FirstContentSpec | qna_bm_core.py:261-262 | finds the first line that is not blank and names no header field, and no earlier line is one |
| Header.StripHeader | qna_bm_core.py:256-266 | the header-stripping loop computes StrippedText |
| Header.AfterLastTeksMarker | qna_bm_core.py:257-258 | with a "Teks:" marker the text becomes the stripped text after the last marker, which holds no marker and directly follows one in the original |
| Header.ContentFirstKeepsAll | qna_bm_core.py:259-266 | when the first line is already content the whole text is kept, stripped |
| Header.HeaderLinesDropped | qna_bm_core.py:259-266 | every dropped line is blank or names a header field |
| Sorting.StrLeTotal | core.py:458 | Python's string order is total |
| Sorting.StrLeTrans | core.py:458 | Python's string order is transitive |
| Sorting.StrLeAntisym | core.py:458 | Python's string order is antisymmetric |
| Sorting.SortSortsAndPermutes | core.py:458 | sorted(key=source) is ordered by source and a permutation of its input |
| Sorting.SortIsStable | core.py:458 | the pairs of each source label keep their relative order |
| Sorting.ChunkTenBeforeChunkTwo | core.py:458 | labels compare as strings: "doc Chunk 10" sorts before "doc Chunk 2" |
| Sorting.StrLeMeans | core.py:458 | the order on labels is Python's string order: a prefix comes first, otherwise the first differing code point decides |
| Text.Words | core.py:84 | split() gives non-empty words without whitespace |
| Text.WordsEmptyIffBlank | core.py:84-86 | a text has no words exactly when it is empty or all whitespace |
| Text.WordsOfJoin | core.py:94 | words joined by single spaces split back into the same words |
| Text.StripIsTrimmedSlice | core.py:156 | strip() removes exactly the leading and trailing whitespace |
| Text.StripEmptyIffBlank | core.py:151 | a stripped text is empty exactly when the text is blank |
| Text.ContainsIffOccurs | core.py:396 | `sub in s` holds exactly when sub occurs at some index of s |
| Text.ContainsAny | core.py:396 | any(k in s for k in ks) holds exactly when some keyword occurs |
| Text.StripKeepsNoNewMatch | qna_bm_core.py:258 | a substring of the stripped text is one of the text |
| Text.Find | core.py:163 | find gives the first index of the character, or -1 when it is absent |
| Text.RFind | core.py:164 | rfind gives the last index of the character, or -1 when it is absent |
| Text.Slice | core.py:166 | Python slicing with in-range bounds is the ordinary subsequence |
| Text.SplitLines | core.py:155 | splitlines() gives lines free of line breaks |
| Text.SplitLinesJoin | core.py:155 | for a text whose line breaks are all "\n", joining the lines with "\n" gives back the text less one final break: the lines are the pieces between the breaks |
| Text.SplitOn | qna_bm_core.py:260 | split('\n') gives at least one piece, none holding the separator |
| Text.JoinSplitOn | qna_bm_core.py:260-264 | '\n'.join(text.split('\n')) is the text |
| Text.LastPieceFollowsLastMatch | qna_bm_core.py:258 | split(sep)[-1] is the suffix after an occurrence of sep and holds no sep, or the whole text when sep is absent |
| Text.NatToString | core.py:175 | str(idx) is a non-empty string of decimal digits that spells idx, with no leading zero unless idx is 0 |
| Text.NatToStringInjective | core.py:175 | different numbers have different spellings |
| Pipeline.SharedState.constructor | core.py:293-295 | the shared lists start empty and satisfy the invariant |
| Pipeline.SharedState.Produced | core.py:356-357 | reads the number of accepted pairs |
| Pipeline.SharedState.BudgetReached | core.py:380-382 | true exactly when the accepted pairs reach the budget |
| Pipeline.SharedState.IsDuplicate | core.py:385-387 | true exactly when the question duplicates an accepted one |
| Pipeline.SharedState.TryCommit | core.py:405-412 | full budget: nothing changes; duplicate: nothing changes; otherwise the pair and its question are appended; the invariant (lists in step, at most the budget, no duplicates) is kept |
| Pipeline.StepBegin | core.py:343-376 | a short qna_bm_core.py chunk or a prefilter rejection ends the thread; otherwise generate_pairs_for_chunk runs with the cap computed from the accepted pairs read under the lock: a raise ends the thread, and its pairs are otherwise the candidates the loop goes through |
| Pipeline.BatchStarts | core.py:362-378 | the generated candidates are trimmed, labelled with the chunk, and all still ahead |
| Pipeline.StepBudgetCheck | core.py:378-382 | the thread ends when no candidates are left or the budget is reached, and otherwise the same candidates go on to the duplicate check |
| Pipeline.StepDupCheck | core.py:384-387 | a candidate whose question duplicates an accepted one is passed over, and any other goes on to screening |
| Pipeline.StepScreen | core.py:389-401 | without review a metadata candidate is dropped and any other goes to commit; with review the approved pair goes to commit, a raise ends the thread, anything else drops the candidate |
| Pipeline.ScreenNextMeans | core.py:389-403 | the screening outcome the invariants use is the metadata filter without review and review_pair's verdict with it |
| Pipeline.ScreenNextOk | core.py:389-403 | screening keeps the thread's invariant: a dropped candidate is accounted for, a kept pair is labelled with the chunk |
| Pipeline.ScreenKeepsOk | core.py:398-403 | what screening keeps of a candidate is labelled with the chunk and goes to the commit with the candidates before it accounted for |
| Pipeline.StepCommit | core.py:403-412 | a full budget ends the thread and changes nothing; otherwise the reviewed pair is appended exactly when its question duplicates no accepted one, the loop goes on with the rest, and the run's invariants are kept |
| Pipeline.CommitOk | core.py:405-412 | after a commit that passed the budget test, the committed or duplicate pair is accounted for and every accepted pair still comes from a chunk |
| Pipeline.CommitKeepsInvariants | core.py:410-412 | a pair kept from a chunk's candidate and appended is that chunk's, and the candidates up to it stay accounted for |
| Pipeline.Step | core.py:338-418 | every step of a thread keeps the shared invariants, appends at most the pair it commits, and lowers the thread's remaining work |
| Pipeline.RunWorkers | core.py:421-455 | under any interleaving of the chunk threads, all of them finish and the shared lists keep the invariants |
| Pipeline.WorkerOkGrows | core.py:405-412 | another thread's commit leaves a thread's invariant in place |
| Pipeline.FinishedAccounts | core.py:378-418 | a thread that returned before the budget was reached accounts for its chunk with the snapshot of the accepted pairs it really read: skipped, failed generation, or every candidate up to a raising review handled |
| Pipeline.NothingAcceptedMeans | core.py:356-418 | with no pair accepted, a chunk is accounted for exactly when it was skipped, or generate_pairs_for_chunk, run with nothing produced, raised or returned candidates screening drops up to a raising review |
| Pipeline.LastChunkCapAtStart | core.py:356-361 | before anything is accepted, core.py asks the last chunk for at least one pair and at most min(20, budget) |
| Pipeline.KeptMeans | core.py:362-412 | a pair is kept from chunk i with a snapshot of at most n accepted pairs exactly when it is trimmed, carries chunk i's label and is what screening keeps of a candidate generate_pairs_for_chunk returned for chunk i after reading at most n accepted pairs (none in qna_bm_core.py) |
| Pipeline.WithOutcomes | core.py:338-418 | the run's outcomes agree with the generator, the screening, the review and the chunk skip |
| Pipeline.RunChunks | core.py:420-455 | one thread per chunk, numbered from 1, over shared lists that start empty: the accepted pairs stay within the budget, no question duplicates an earlier one, the pair at position k is what screening kept of a candidate its chunk's generator returned after reading at most k accepted pairs, and unless the budget was reached every chunk is accounted for with the snapshot its thread read (skipped, failed generation, or every candidate duplicated, dropped, accepted or behind a raising review) |
| Pipeline.SortedKeepsProvenance | core.py:458 | sorting keeps every pair's provenance, with a snapshot of at most the number of pairs, and yields a sorted permutation |
| Pipeline.BudgetLimitsRun | core.py:308-333 | a run within budget returns at most 200 pairs in core.py, and no more than a positive user max_pairs |
| Pipeline.ProcessTextFile | core.py:287-463 | the result is the accepted pairs sorted by source: at most the budget, no near-duplicate question in commit order, the k-th accepted pair what screening kept of a candidate its chunk's generator returned after reading at most k accepted pairs, and, unless the budget was reached, every chunk accounted for with the snapshot its thread read; for qna_bm_core.py (its own copy at qna_bm_core.py:244-400) a header-stripped text under 50 characters gives nothing; a text with no chunks gives nothing; core.py returns at most 200 pairs and at most a positive max_pairs |

## Left out

- The chat calls are not modelled. This covers the OpenAI client, the environment variables, the model names, the temperatures and the prompt texts (`chat`, `load_prompt`). Their answers are parameters of `Service`.
  - A reply may depend on the chunk, the pairs produced so far and the cap.
  - qna_bm_core.py's generator prompt depends on the chunk only, so the model passes zeros there.
- json.loads is a parameter. Only what the modules do with its result or its JSONDecodeError is modelled.
- difflib.SequenceMatcher(...).ratio() >= 0.88 (QNA_DUP_QUESTION_SIM) is a parameter `similar`.
- Text.Lower: lowercases ASCII letters only. Python's lower() also lowercases other letters. Every keyword compared against is ASCII, but a non-ASCII status or question is lowercased differently.
- Budget.RoundHalfEven: uses exact rational rounding. core.py divides in floating point before round(). The quotients there are small and exact halves are representable, so the two agree.
- The thread pool's limit of max_workers threads is not modelled. The model allows every interleaving of all chunk threads, which includes the interleavings the pool can produce.
- Each lock region and each lock-free stretch between them is one atomic step. The lock itself is not modelled.
- Pipeline.StepBegin: one step covers the prefilter call, the locked read of len(accepted_pairs) (core.py:356-357) and the generator call. The prefilter and generator calls touch no shared state, so running them atomically with the read allows the same outcomes as the source.
- The progress callback and its messages are left out. So are the loop over as_completed, whose only effect is progress reporting, and the value each chunk thread returns (chunk_results), which is only counted for progress.
- Exception messages are left out. A raise inside a chunk only ends the chunk's work.
- doc_title and the title prompt lines are left out because they only feed the prompt.
- Pipeline.ProcessTextFile: states no duplicates on the pairs in commit order (the ghost `accepted`), not on the sorted list. The similarity need not be symmetric, so "not similar to an earlier one" depends on the order.
- The chunk sizes CHUNK_WORDS and CHUNK_OVERLAP are fixed at their defaults, 800 and 100. MAX_PAIRS defaults to 100. The environment variables that override them are left out.
- For qna_bm_core.py, `None` as max_pairs stands for the argument left out, so its default of 100 is used. A caller passing an explicit None is not modelled.
- The command-line and web front ends (`web.py`, `qna_bm_web.py`) are not part of this model. Neither is the two-agent variant (`qna_bm_two_agent.py`).
