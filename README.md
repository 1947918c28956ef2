# Tiny Rounds backend: the retrieval-augmented chat pipeline

A Dafny model of the grounding pipeline in `backend/server.js` of the Tiny
Rounds demo. In that demo a student interviews a simulated patient, and then
talks the case over with a simulated attending physician. The backend gives
both conversations their context:

- **Case indexing.** The backend indexes two case records, `<caseId>_patient.json`
  and `<caseId>_physician.json`. It walks each record into labelled chunks and embeds
  every chunk. From the physician record it also takes the case's key history points.
- **Transcript indexing.** It indexes the patient-interview transcript into
  overlapping windows of lines, keyed in a cache by an MD5 hash of the transcript.
- **Coverage analysis.** It checks which key history points the student's
  `Student: ` questions covered, using a cosine similarity of at least 0.7.
- **Hybrid retrieval.** Each retrieval query scores the documents by cosine
  similarity plus 0.1 per shared keyword. The pipeline keeps the top 15 documents
  per query, merges the candidates by text, and keeps the overall top 5.
- **The augmented message list.** It builds the messages sent to the chat
  completion service. These are the system prompt, the retrieved context and, for
  the physician, the transcript and the performance summary, then the conversation
  history.

Modules, one per part of the pipeline:

- `Wrappers`: `Option`.
- `JsString`: the JavaScript string operations the code uses: `trim`, UTF-16 `length`,
  `startsWith`, `substring`, `split` on one character, `join`, and `String(n)`.
- `Json`: parsed case records, plus template interpolation, `Array.join` and `JSON.stringify`.
- `Keywords`: `extractKeywords`.
- `Similarity`: `cosineSimilarity`.
- `Chunker`: `createChunks`.
- `Documents`: embedded documents and key points.
- `CaseIndex`: `processCaseJson`.
- `Transcript`: `processTranscriptForRAG`.
- `OrderedSet`: insertion-ordered JavaScript `Set`s.
- `Coverage`: `analyzePatientTranscript`.
- `Retrieval`: the retrieval block of `/api/chat`.
- `Server`: the two module-level caches, `/api/preload-case-data` and `/api/chat`.

The outside world is passed in as parameters:

- the embedding service, as `string -> Option<Vector>`, where `None` is a failed call;
- `Math.sqrt`;
- the MD5 hex digest;
- the chat completion service;
- reading and parsing a case file.

Every `Promise.all` is modelled as a sequential map that fails as a whole when
any element fails. A rejection inside `/api/chat` is the handler's 500 answer.

Behaviours of the code worth noting:

- **Nested scalar text.** A scalar nested inside an object renders as `key: value`, not with its full path.
- **Keywords are a sequence.** Extracted keywords keep duplicates, and the keyword bonus counts a repeated document keyword once per occurrence.
- **On-demand case loading.** `/api/chat` loads the case on demand even for a chat type that then bypasses retrieval.
- **Transcript cache.** It is keyed by the case id alone. A physician request without a transcript message still retrieves from the transcript documents cached by an earlier request.

## Model

| member | source | states |
|---|---|---|
| JsString.TrimStartSpec | backend/server.js:201 | trimming the start leaves a suffix that is empty or starts with a non-whitespace character, and removes only whitespace |
| JsString.TrimEndSpec | backend/server.js:201 | trimming the end leaves a prefix that is empty or ends with a non-whitespace character, and removes only whitespace |
| JsString.TrimEnds | backend/server.js:215 | a trimmed string is empty or begins and ends with non-whitespace |
| JsString.TrimIsSlice | backend/server.js:215 | `trim` returns a contiguous slice with only whitespace outside it |
| JsString.TrimEmptyIff | backend/server.js:215-216 | a string trims to empty exactly when it is all whitespace |
| JsString.JsLength | backend/server.js:201 | the UTF-16 length lies between the number of code points and twice that |
| JsString.Substring | backend/server.js:255 | `substring(n)` is what follows the first n characters, and is empty past the end |
| JsString.Split | backend/server.js:201 | splitting gives at least one piece, and no piece contains the separator |
| JsString.JoinSplit | backend/server.js:201 | joining the pieces of a split with the separator gives back the original text |
| JsString.JoinEndsWithLast | backend/server.js:209 | a joined window ends with its last line |
| JsString.NatToString | backend/server.js:118 | `String(index)` is non-empty, and has two or more digits exactly from 10 on |
| JsString.NatToStringInjective | backend/server.js:118 | different array indices give different path segments |
| Json.Keys | backend/server.js:103 | the `for...in` keys of an object are its field names, in order |
| Json.Lookup | backend/server.js:147-172 | a field lookup misses exactly when no field has that name |
| Json.LookupIndex | backend/server.js:147-172 | a successful lookup returns the first field with the name |
| Json.LookupDistinct | backend/server.js:80 | in a parsed object, looking up any field's name returns that field's value |
| Json.ArrayJoinIsJoin | backend/server.js:108 | `Array.join` with a separator is `join` over the elements' renderings |
| Json.Rendered | backend/server.js:108 | each array element renders to exactly one string |
| Json.EscapeChar | backend/server.js:120 | every character escapes to at least one character |
| Json.HexRoundTrip | backend/server.js:120 | a hex digit written by `JSON.stringify` reads back as its value |
| Json.UnescapeChar | backend/server.js:120 | one escaped character decodes back to itself, followed by the rest of the decoding |
| Json.UnescapeEscape | backend/server.js:120 | the string escaping of `JSON.stringify` is reversible, so distinct strings render distinctly in object summaries |
| Keywords.ExtractKeywords | backend/server.js:68-72 | every keyword is lower case, made of word characters, longer than two characters and not a stop word |
| Keywords.ExtractJoined | backend/server.js:68-72 | extraction keeps order and repetitions: keywords joined by spaces extract back to exactly the same sequence |
| Keywords.ExtractIdempotent | backend/server.js:68-72 | extracting from the space-joined keywords of a text returns those keywords unchanged |
| Keywords.LowerHasNoCapitals | backend/server.js:70 | no ASCII capital survives `toLowerCase` |
| Keywords.LowerAppend | backend/server.js:70 | lowering distributes over concatenation |
| Keywords.WordRun | backend/server.js:70 | a word run stops at the first non-word character |
| Keywords.WordRunIsWord | backend/server.js:70 | a word run consists of word characters only |
| Keywords.SeparatorRun | backend/server.js:70 | a separator run (`\W+`) stops at the first word character |
| Keywords.SeparatorRunIsSeparator | backend/server.js:70 | a separator run consists of non-word characters only |
| Keywords.WordRunUnique | backend/server.js:70 | the word run is the unique maximal run of word characters |
| Keywords.SeparatorRunUnique | backend/server.js:70 | the separator run is the unique maximal run of non-word characters |
| Keywords.SplitNonWord | backend/server.js:70 | splitting on `\W+` always yields at least one token |
| Keywords.SplitPiecesAreSlices | backend/server.js:70 | every character of a token is a word character of the text |
| Keywords.FilterKeepSound | backend/server.js:71 | the filter keeps only tokens from its input that pass the length and stop-word test |
| Keywords.FilterKeepAppend | backend/server.js:71 | the filter works token by token, keeping order |
| Keywords.KeptKeyword | backend/server.js:70-71 | a single keyword extracts to itself |
| Keywords.KeptAfterKeyword | backend/server.js:70-71 | a keyword followed by a space and more text extracts to that keyword, then the rest |
| Keywords.LowerOfLowerWord | backend/server.js:70 | lowering leaves a lower-case word unchanged |
| Keywords.LowerOfJoined | backend/server.js:70 | lowering leaves space-joined keywords unchanged |
| Keywords.KeptJoined | backend/server.js:70-71 | the split-and-filter step returns space-joined keywords one by one |
| Similarity.CosineSimilarity | backend/server.js:52-65 | the accumulating loop computes the dot product over the first vector's length and the zero-guarded quotient |
| Similarity.SumOfSquares | backend/server.js:58-59 | an accumulated magnitude is never negative |
| Similarity.ZeroDot | backend/server.js:57 | a zero vector has a zero dot product with anything |
| Similarity.ZeroMagnitude | backend/server.js:63 | a zero magnitude on either side gives similarity 0 |
| Similarity.ZeroVector | backend/server.js:63 | a zero vector on either side gives similarity 0 |
| Similarity.DotSymmetric | backend/server.js:57 | the dot product is symmetric |
| Similarity.Symmetric | backend/server.js:52-65 | for vectors of equal length, the similarity is symmetric |
| Similarity.SelfSimilar | backend/server.js:52-65 | a non-zero vector has similarity 1 with itself |
| Chunker.ChunksShape | backend/server.js:86-144 | every chunk of a walk is labelled `<type> <path[0]>`, lies under the walk's path at or below its level, and lies strictly below for a compound value |
| Chunker.MembersShape | backend/server.js:103-143 | every chunk emitted for an object's or array's members lies strictly under its path |
| Chunker.ChildShape | backend/server.js:104-142 | every chunk emitted for a member lies under `path + [key]` at level + 1 or deeper |
| Chunker.ElementsShape | backend/server.js:118 | every element chunk lies under `path + [String(i)]` for an index i of the array |
| Chunker.ElementsUnder | backend/server.js:118 | the element chunks of an array lie strictly under the array's own path |
| Chunker.IndexKeys | backend/server.js:103-118 | the keys of an array are `String(0)` to `String(n-1)` in order |
| Chunker.RootScalar | backend/server.js:87-99 | a scalar yields exactly one chunk, `"<path joined by ' '>: <value>"`, at the current path and level, labelled by the first path segment |
| Chunker.SourceIsTopField | backend/server.js:93-136 | every chunk from a top-level field is labelled `<type> <field>`, and its path starts with that field |
| Chunker.TopFieldChunk | backend/server.js:112-136 | a labelled chunk under a field is attributed to that field |
| Chunker.ObjectScalarChild | backend/server.js:131-141 | a scalar child `k` of an object yields the chunk `"k: v"` with path `path.k` at level + 1 |
| Chunker.MemberIn | backend/server.js:103-143 | every chunk of each member appears among the object's chunks |
| Chunker.SummaryFirst | backend/server.js:107-130 | an array or object child emits its summary (`join('; ')` or `JSON.stringify`) at level + 1 before any descendant, and every descendant lies strictly below it |
| Chunker.ArrayElementsBelowIndex | backend/server.js:118 | descendants of an array child continue with an index segment at level + 2 and one level per further segment |
| CaseIndex.ProcessCaseJson | backend/server.js:75-193 | a failed read or a null record gives empty documents and key points, as does any failure in the try block; a run that gets through has one document per chunk, in push order, with the embedding of its text and its metadata, and one key point per `keyHistoryPoints` entry with its `point` and that text's embedding (none for the patient record) |
| CaseIndex.EmbedChunksSpec | backend/server.js:175-184 | embedding succeeds iff every chunk's text embeds; then it is one document per chunk, in order, with that embedding |
| CaseIndex.KeyPointsSpec | backend/server.js:157-165 | key points succeed iff every element yields one; then there is one key point per element, in order, with its `point` and that text's embedding |
| CaseIndex.Indexed | backend/server.js:146-187 | each indexed document carries its chunk's text, the embedding of that text, and source, dotted path, level and keywords; the key points are one per `keyHistoryPoints` entry, and none for the patient record or without that field |
| CaseIndex.PhysicianKeyPoints | backend/server.js:153-172 | for the physician: one key point per `keyHistoryPoints` element, in order; the chunks are summary and system_prompt, then the key points chunked generically, then the four teaching fields |
| CaseIndex.FailureEmpties | backend/server.js:189-192 | a read or parse failure, a non-array key-point list, a key point or chunk that fails to embed each empty the whole result |
| CaseIndex.SelectedContains | backend/server.js:146-172 | every chunk of a truthy selected field is among the record's chunks |
| CaseIndex.SelectedEmpty | backend/server.js:146-172 | with no truthy selected field, the record yields no chunks |
| Transcript.OverlapWindows | backend/server.js:205-224 | the nested loop with its `break` builds exactly the non-blank trimmed windows, tagged with their line index and keywords |
| Transcript.PushWindow | backend/server.js:205-223 | one turn of the window loop appends the chunk of window i exactly when it trims to non-empty, so the chunks so far plus those still to come stay the whole result |
| Transcript.WindowText | backend/server.js:206-213 | the inner loop with its `break` prepends up to two earlier lines, stopping at the first line, and yields window i |
| Transcript.ProcessTranscriptForRag | backend/server.js:196-246 | the procedure computes the transcript index: empty for empty input, otherwise the embedded windows, or a failure when an embedding fails |
| Transcript.RetainedSpec | backend/server.js:201 | a line is retained iff its trimmed UTF-16 length is over 20; the retained lines keep input order and repetitions, each line being appended exactly when it qualifies |
| Transcript.RetainedAppend | backend/server.js:201 | the line filter distributes over concatenation |
| Transcript.WindowShape | backend/server.js:206-213 | window i is line i preceded by up to two earlier retained lines, joined with newlines |
| Transcript.WindowNotBlank | backend/server.js:215-216 | no window trims to empty, because its own line is meaningful |
| Transcript.WindowChunksStep | backend/server.js:215-223 | each retained line contributes its window's chunk |
| Transcript.WindowChunksLength | backend/server.js:205-224 | with every line meaningful, there is one chunk per line |
| Transcript.WindowChunksAt | backend/server.js:205-224 | with every line meaningful, chunk k is line k's window chunk |
| Transcript.OneChunkPerLine | backend/server.js:201-224 | there are as many chunks as retained lines; chunk i is window i trimmed, non-empty, with turn number i and its keywords |
| Transcript.RetainedMeaningful | backend/server.js:201 | every retained line trims to more than 20 UTF-16 units |
| Transcript.ChunksOfMeaningful | backend/server.js:205-224 | when every line is meaningful, chunk i is the non-empty chunk of window i, one per line |
| Transcript.EmbedWindowsSpec | backend/server.js:231-243 | embedding succeeds iff every chunk embeds; then there is one document per chunk, in order |
| Transcript.NothingToIndex | backend/server.js:197-229 | an empty transcript, or one without retained lines, indexes to no documents |
| Transcript.TranscriptDocuments | backend/server.js:196-246 | indexing fails iff some window fails to embed; otherwise document i is window i trimmed, with its embedding, source `patient_transcript_dynamic`, turn i and keywords |
| OrderedSet.SetDelete | backend/server.js:279 | deleting from a set never makes it longer |
| OrderedSet.SetOfSpec | backend/server.js:251 | `new Set(xs)` holds exactly the members of xs, without duplicates |
| OrderedSet.SetOfSnoc | backend/server.js:277 | adding to a built set is building from the extended sequence |
| OrderedSet.SetOfDistinct | backend/server.js:287-288 | a set built from distinct values keeps their order |
| OrderedSet.SetOfLength | backend/server.js:251 | a set is no longer than its source sequence |
| OrderedSet.FilterOutSpec | backend/server.js:278-279 | removing a list of values leaves exactly the members that are not in it |
| OrderedSet.FilterOutNoDuplicates | backend/server.js:278-279 | removing values keeps a set duplicate-free |
| OrderedSet.FilterOutSnoc | backend/server.js:278-279 | deleting one more point is one more `Set.delete` |
| OrderedSet.FilterOutNone | backend/server.js:251 | removing nothing leaves the set as built |
| OrderedSet.FilterOutSameMembers | backend/server.js:278-279 | removal depends only on which values are removed, not on their order or repetitions |
| OrderedSet.DeleteAbsent | backend/server.js:278 | deleting an absent value changes nothing |
| Coverage.QuestionsSpec | backend/server.js:254-255 | the questions are exactly the lines starting `Student: `, with the prefix removed and trimmed |
| Coverage.EmbedQuestions | backend/server.js:265-271 | the embedding succeeds iff every question embeds; it then gives one vector per question, in order, vector i being the embedding of question i |
| Coverage.Points | backend/server.js:251 | the point texts are the key points' `point`s in order |
| Coverage.MatchingSpec | backend/server.js:273-284 | a point is matched iff some key point with that text reaches similarity 0.7 with some question |
| Coverage.MatchingMember | backend/server.js:273-284 | for one point text: it is matched iff some key point with that text is elicited by some question |
| Coverage.ElicitedPointSnoc | backend/server.js:273 | a text is elicited by a longer key-point list iff it was by the shorter one or the new key point carries it and is elicited |
| Coverage.CoveredIff | backend/server.js:273-284 | a point is covered iff some student question has similarity of at least 0.7 with it |
| Coverage.AnalyzeCovered | backend/server.js:265-284 | after a successful analysis, a point is covered iff some key point with that text reaches similarity 0.7 against the embedding of some `Student: ` question of the transcript |
| Coverage.CoveredMissedPartition | backend/server.js:250-288 | covered and missed are disjoint, duplicate-free, and together exactly the point texts; missed keeps the original key-point order |
| Coverage.SummaryMentions | backend/server.js:286-300 | the summary names every covered and missed point; it has the "none elicited" line when nothing is covered, the "all elicited" line when nothing is missed, and the missed heading when something is missed |
| Coverage.ItemMentioned | backend/server.js:291-297 | every item of a list section appears in that section |
| Coverage.CoveredMentioned | backend/server.js:290-291 | every covered point appears in the summary |
| Coverage.MissedMentioned | backend/server.js:296-297 | every missed point appears in the summary |
| Coverage.JoinContains | backend/server.js:291-297 | every item of a `join('\n- ')` appears in the joined text |
| Coverage.AnyQuestionSimilar | backend/server.js:274-283 | the inner loop with `break` finds a question at the threshold exactly when the point is elicited |
| Coverage.MarkCovered | backend/server.js:273-284 | the nested loop leaves covered and missed exactly as the set-based definitions describe |
| Coverage.MarkOne | backend/server.js:273-283 | one outer turn adds the key point to covered when a question reaches the threshold and deletes it from missed, keeping both equal to the set-based definitions over one more key point |
| Coverage.CoverStep | backend/server.js:276-280 | `add` of an elicited point and `delete` from missed extend covered and missed by exactly that key point |
| Coverage.AnalyzePatientTranscript | backend/server.js:249-307 | the procedure computes the analysis; it fails only when a question fails to embed |
| Coverage.NoQuestions | backend/server.js:257-263 | with no `Student: ` line, nothing is covered, every point is missed and the summary is the fixed sentence |
| Coverage.NoStudentLines | backend/server.js:254-255 | lines without the student prefix yield no questions |
| Retrieval.KeywordMatches | backend/server.js:509-512 | the keyword match count is at most the number of document keywords |
| Retrieval.KeywordBonus | backend/server.js:510-511 | no shared keyword gives count 0; all document keywords shared gives their full count |
| Retrieval.ScoreAll | backend/server.js:506-517 | each document is scored, in order, with cosine similarity plus 0.1 per matching keyword |
| Retrieval.SortDescSpec | backend/server.js:519-535 | the sort yields a non-increasing permutation that keeps equal scores in their original order (a stable sort) |
| Retrieval.SortDescSorted | backend/server.js:519-535 | the sort yields a non-increasing list |
| Retrieval.SortDescPermutes | backend/server.js:519-535 | the sort yields a permutation of its input |
| Retrieval.SortDescStable | backend/server.js:519-535 | the sort keeps the elements of each score in their original order |
| Retrieval.InsertSorted | backend/server.js:519 | insertion keeps a list sorted |
| Retrieval.InsertMembers | backend/server.js:519 | insertion adds the element and keeps every other one |
| Retrieval.SortedCons | backend/server.js:519 | a head scoring at least every element of a sorted list extends it sorted |
| Retrieval.SortedHead | backend/server.js:519-536 | the head of a sorted list scores at least every element |
| Retrieval.InsertMultiset | backend/server.js:519 | insertion adds exactly one element |
| Retrieval.InsertScoreClass | backend/server.js:519 | insertion places an element after every element of equal score |
| Retrieval.ScoreClassAppend | backend/server.js:519 | the elements with one score split over a concatenation |
| Retrieval.ScoreClassBelow | backend/server.js:519 | a sorted list headed below a score has no element of that score |
| Retrieval.Take | backend/server.js:519-536 | `slice(0, k)` is a prefix of at most k elements, exactly k when there are enough |
| Retrieval.TopK | backend/server.js:519-536 | every element taken scores at least as high as every element left |
| Retrieval.Texts | backend/server.js:524 | the candidates' texts, in order |
| Retrieval.IndexOfText | backend/server.js:524-527 | the lookup finds the first entry with the text, or none |
| Retrieval.PutTexts | backend/server.js:523-531 | updating the map adds the text as a set would |
| Retrieval.DedupTexts | backend/server.js:522-534 | the merged texts are the distinct candidate texts in first-occurrence order |
| Retrieval.DedupKeepsBest | backend/server.js:523-531 | each merged entry is a candidate with the highest score for its text, and the earliest such on ties |
| Retrieval.KeptFirst | backend/server.js:524-525 | a first occurrence of a text is kept |
| Retrieval.KeptAfterReplace | backend/server.js:528-529 | a later candidate with a strictly greater score replaces the kept one |
| Retrieval.KeptStays | backend/server.js:526-530 | a later candidate that is not strictly better leaves the kept one in place |
| Retrieval.KeptOther | backend/server.js:523-531 | a candidate for another text does not disturb a kept one |
| Retrieval.CollectCandidates | backend/server.js:496-520 | the query loop gathers each query's top 15 in query order, failing when a query fails to embed |
| Retrieval.MergeByText | backend/server.js:522-532 | the map-updating loop computes the merge by text |
| Retrieval.UniqueTexts | backend/server.js:538 | the final loop collects the distinct final texts in rank order |
| Retrieval.Retrieve | backend/server.js:486-543 | the retrieval block computes the context, which is empty without queries or documents |
| Retrieval.CandidatesFail | backend/server.js:499-503 | one failing query embedding fails the whole retrieval |
| Retrieval.TopForQuerySpec | backend/server.js:506-519 | each query contributes at most 15 of its scored documents, all 15 when the pool has that many, taken from the top of its sorted list |
| Retrieval.FinalRankedSpec | backend/server.js:534-536 | the final list has at most 5 merged entries, sorted non-increasing, and outranks every merged entry left out |
| Retrieval.ContextTexts | backend/server.js:538-540 | the context joins at most 5 pairwise-distinct texts, each one a candidate's |
| Server.WithCaseSpec | backend/server.js:407-417 | loading adds exactly that case; a cached case is never rebuilt, and other cases are untouched |
| Server.PreloadIdempotent | backend/server.js:367-396 | a second preload of the same case finds it cached and changes nothing |
| Server.Backend.constructor | backend/server.js:46-49 | both caches start empty |
| Server.Backend.EnsureCase | backend/server.js:407-417 | loading on demand fills the case entry only when it is missing, and leaves the transcript cache alone |
| Server.Backend.Preload | backend/server.js:367-396 | a missing caseId is refused; a cached case is reported loaded; otherwise both files are processed and stored |
| Server.Backend.Chat | backend/server.js:400-574 | the response and both new caches are those the request specification gives from the old caches |
| Server.FindTranscript | backend/server.js:429-431 | the message found is the first transcript message (a system message starting with the marker): any transcript message with none before it is the one returned, and none is found iff no message is one |
| Server.HistorySpec | backend/server.js:462-465 | a message is in the history iff it comes after the first and is not a transcript message |
| Server.HistoryInOrder | backend/server.js:462-465 | the history is an order-preserving filter: over growing prefixes it starts empty and each later message is appended, repetitions included, exactly when it is not a transcript message |
| Server.HistorySnoc | backend/server.js:462-465 | extending the messages by one appends that message to the history exactly when it is not a transcript message |
| Server.HistoryHasNoTranscript | backend/server.js:462-465 | no transcript message is in the history, and every other message after the first is |
| Server.MissedQueries | backend/server.js:482-484 | one `Information missed by student: ` query per missed point, in order |
| Server.QueriesSpec | backend/server.js:478-484 | the queries are the non-empty user message, if any, then one query per missed point |
| Server.AugmentShape | backend/server.js:545-562 | the list opens with the system prompt, carries the context if any, then for the physician only the transcript and summary, and ends with the whole history |
| Server.TranscriptStepSpec | backend/server.js:433-443 | re-indexing happens iff the transcript is non-empty and new or differently hashed; the entry is then replaced by the new documents and hash; otherwise the cache is unchanged; a failure leaves it unchanged too |
| Server.SameTranscriptNotReindexed | backend/server.js:437 | sending the same transcript again does not re-index it |
| Server.NoTranscriptNoReindex | backend/server.js:433-437 | without a transcript message the cache is unchanged |
| Server.ChatRefusesIncomplete | backend/server.js:402-405 | a request without messages or caseId is answered 400 with both caches unchanged |
| Server.ChatCaseCache | backend/server.js:407-417 | any complete request leaves its case cached, rebuilding only a missing one, whatever the chat type |
| Server.OnlyPhysicianIndexesTranscripts | backend/server.js:423-455 | patient and other chats leave the transcript cache unchanged |
| Server.PatientChatUsesPatientDocs | backend/server.js:423-424 | a complete patient chat answers from the cached case's patient documents, with no key points and no transcript documents |
| Server.PatientAnswerIgnoresPhysicianData | backend/server.js:473-489 | outside a physician chat the analysis never runs, the key points and transcript documents do not change the answer, and a failed retrieval answers 500 |
| Server.FailedIndexKeepsCache | backend/server.js:437-443 | a transcript that fails to index answers 500 (through the handler's catch) and keeps the previous entry |
| Server.Answer | backend/server.js:457-569 | the answer is analysis, then queries, then retrieval, then augmentation and completion, with every failure a 500 |

## Left out

- **External services.** The embedding and chat completion calls, their model names, `Math.sqrt` and MD5 are parameters. Nothing about their values is modelled beyond what is stated: a square root is zero only at zero, and a failed call is `None`.
- **Reading case files.** Reading and parsing a case file, and resolving its path, are a parameter that yields the parsed record or a failure.
- **Concurrency.** `Promise.all` is a sequential map that fails as a whole. Concurrent requests that interleave at an `await` are not modelled; each request runs as one step.
- **HTTP.** Framing, JSON bodies, error texts and logging are left out. A response is 400, 500 or the completion's message.
- **Preload failure.** The 500 branch of preload is not modelled. `processCaseJson` catches every error, so that branch cannot be reached.
- **Other code.** The endpoints `/api/patient-cases`, `/api/case-details/:caseId` and `/api/case-file/:caseId/:type` are not part of this model; they only read files. Neither are the Electron main and preload scripts or the front-end scripts. The front end writes transcript lines as `Student: <msg>`, and that format is what the coverage analysis reads.
- **Request shape.** Only a few forms of the request are modelled:
  - `caseId` is a string, where empty means missing.
  - `messages` is absent or an array of non-null messages.
  - A message content that is not a string is treated as absent. In JavaScript a non-string last message would still become a retrieval query.
- Similarity.Cosine: computes over exact reals, not IEEE doubles. When the second vector is shorter, the entries it lacks read as 0; JavaScript gets `NaN` there.
- Retrieval.SortDescSpec: scores are reals, so the `NaN` comparisons that could reach the sort are not modelled.
- Keywords.Lower: models `toLowerCase` only for the characters whose lower case contains a word character. Every other character maps to non-word characters either way.
- Numbers in case records are kept as the text `String(n)` gives for them, so number formatting is not modelled.
- Server.TranscriptBody: counts the offset after the marker in code points. JavaScript counts UTF-16 units, and the two differ only when a character outside the Basic Multilingual Plane sits right after the marker.
- CaseIndex.PointText: embeds only a `keyHistoryPoints` entry whose `point` is a string; any other entry is treated as a failed embedding that empties the case. The code sends `pointObj.point` whatever its type, and the embedding service may accept some other values (an array of strings, say), in which case the code keeps that entry.
- Server.WithCase: treats the case cache as a map, like `Server.PreloadSpec` and `Server.Backend.EnsureCase`. Both caches are plain objects, so a `caseId` naming an `Object.prototype` member (`constructor`, `toString`, `__proto__`) already reads as cached: preload reports it loaded without loading anything, and a chat skips the load and retrieves from undefined documents, which fails with a 500 once there is a query. Those ids are loaded like any other here.
