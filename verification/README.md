# heyGPT semantic memory and dialogue loop — Dafny model

heyGPT is a wake-word voice assistant that keeps a long-term memory of the
conversation. Every turn is embedded into a vector and added to a FAISS flat
index, while the literal turn `{role, content}` is appended to the list
`conversation_memory`. After every turn both are written to disk. When a new
question arrives, the index is searched for the five nearest past turns. Their
labels are resolved against the list, and the turns found are placed between
a fixed system instruction and the new user turn. Questions containing a digit
or an arithmetic operator skip all of this and go to a calculator.

This project models that core as pure functions over immutable values:

- `wrappers.dfy`: `Option` and `Result`.
- `faults.dfy` (module `Faults`): the uncaught exceptions that end the loop.
- `memory_store.dfy` (module `MemoryStore`): the index (`FlatIndex`), the log,
  the two files on disk (`Disk`), `StoreMessage`, `Save` and `Load`.
- `retrieval.dfy` (module `Retrieval`): the external services as oracles
  (`Services`), Python list indexing (`PyIndex`), the label filter
  (`FilterLabels`) and `Retrieve`.
- `classifier.dfy` (module `Classifier`): `IsMathExpression`.
- `dialogue.dfy` (module `Dialogue`): context assembly, one pass of the main
  loop (`HandleText`, `Exchange`), and a whole session (`Run`).

The embedding call, the index search and the chat-completion call are fields
of `Services`. They are arbitrary total functions. `None` from `embed` or
`complete` stands for the remote call raising. An uncaught Python exception
is the outcome `Crashed(fault)`. The `World` that comes with it is the state
at the moment of the exception. Every `store_message` persists, so disk and
memory agree at that point.

Behaviour kept exactly as the code has it, including where it is surprising
or where a more careful store would differ:

- FAISS pads a short answer with label `-1`. The filter `i < len(conversation_memory)`
  keeps `-1`, and Python indexing turns it into the most recent turn, wherever
  the `-1` stands (`PaddingLabelYieldsLastTurn`). On an aligned store the
  filter therefore never drops anything, and exactly `top_k` turns come back
  (`AlignedRetrieveReturnsExactlyTopK`). FAISS pads only when the store holds
  fewer than `top_k` vectors, so in that case the last turn is repeated once
  per padding label; the model's search oracle does not fix where the
  padding goes.
- A label below `-len(conversation_memory)` raises `IndexError`; FAISS never
  produces one.
- Loading does not compare the two files. An index file with a missing log
  file loads a misaligned store (`LoadAcceptsMismatchedArtifacts`).
- There is no rollback and no dimension check.
- The user turn is stored and persisted before the reply is embedded. If that
  second embedding call fails, an orphaned user turn remains
  (`ReplyEmbeddingFailureOrphansUserTurn`).
- A failing chat call raises before anything is stored (`GenerationFailureStoresNothing`).

## Model

| member | source | states |
|---|---|---|
| MemoryStore.StoreMessage | main.py:101-106 | one vector is appended to the index and one `{role, content: text}` record to the log, with the earlier entries unchanged; equal sizes before implies equal sizes after; afterwards both files hold exactly the in-memory state; a failing embedding call changes nothing |
| MemoryStore.Load | main.py:70-86 | each file is loaded when it exists; a missing index file gives a fresh empty index of dimension 1536, and a missing log file gives an empty log |
| MemoryStore.Save | main.py:63-67 | after saving, both files exist and loading them gives back exactly the in-memory index and log |
| MemoryStore.LoadSaveRoundTrip | main.py:63-86 | loading what was just saved reproduces the in-memory index and log (a named corollary of `Save`'s contract, stated as the round trip) |
| MemoryStore.LoadAcceptsMismatchedArtifacts | main.py:70-86 | a non-empty index file next to a missing log file loads into a store whose sizes differ; no consistency check is made |
| Retrieval.PyIndex | main.py:97 | Python list indexing: succeeds exactly for `-len <= i < len`, negative indices count from the end, otherwise `IndexError` |
| Retrieval.FilterLabels | main.py:97 | the comprehension returns at most one record per label, every record is an element of the log, and its only failure is `IndexError` |
| Retrieval.KeptPositions | main.py:97 | every position listed holds a label below the log length |
| Retrieval.KeptPositionsIncrease | main.py:97 | the kept positions are strictly increasing, so the filter never reorders |
| Retrieval.KeptPositionsComplete | main.py:97 | every label below the log length is kept; together with `KeptPositions` this is an if-and-only-if |
| Retrieval.FilterFollowsLabelOrder | main.py:97 | the j-th retrieved record is the Python-indexed log entry for the j-th kept label, and the counts agree |
| Retrieval.FilterSucceedsIff | main.py:97 | the filter raises exactly when some label is below minus the log length |
| Retrieval.FilterKeepsEveryInRangeLabel | main.py:97 | labels all within `[-len, len)` are all kept: one record per label |
| Retrieval.FilterConcat | main.py:97 | filtering a concatenation of label lists is filtering each part in turn and concatenating the results; the first failure wins |
| Retrieval.PaddingLabelYieldsLastTurn | main.py:97 | among labels that cannot raise, a -1 at any position passes the filter and yields the most recent turn at its place in the result |
| Retrieval.OutOfRangeLabelIsDropped | main.py:97 | a label at or beyond the log length, at any position, is not kept, and removing it leaves the result unchanged |
| Retrieval.Retrieve | main.py:89-98 | an empty log gives `[]` without calling any service; on a non-empty log a failing embedding call raises, and otherwise the result is the label filter applied to the labels the index search returned for the query's embedding; every retrieved record is in the log |
| Retrieval.EmptyMemoryConsultsNoService | main.py:91-92 | on an empty log the result is `[]` whatever the embedder and the index do |
| Retrieval.RetrieveAtMostTopK | main.py:94-97 | when the search returns `top_k` labels, at most `top_k` records are retrieved |
| Retrieval.AlignedRetrieveReturnsExactlyTopK | main.py:94-97 | on an aligned non-empty store, with FAISS labels being -1 or stored positions, retrieval cannot raise and returns exactly `top_k` records |
| Classifier.IsMathExpression | main.py:133-135 | true iff some character is an ASCII digit or one of `+ - * / ^ %` |
| Classifier.EmptyIsNotMath | main.py:133-135 | false on the empty string |
| Classifier.SpokenNumberIsMath | main.py:133-135 | true on "I have 2 dogs" |
| Classifier.PlainWordsAreNotMath | main.py:133-135 | false on every text with no digit or operator |
| Classifier.ConcatIsMathIff | main.py:133-135 | `a + b` matches iff `a` matches or `b` matches |
| Dialogue.BuildMessages | main.py:191-193 | the request has `len(past) + 2` messages: the fixed system message first, `past` in order in between, and `{user, user_input}` last |
| Dialogue.HandleText | main.py:181-206 | the calculator path is taken iff the text is a math expression and leaves memory and disk unchanged; a reply grows the log by exactly `[{user, text}, {assistant, reply}]` and the index by their two embeddings; a crash changes nothing except for an orphaned user turn when the reply's embedding fails (a failing embedding of the user turn itself stores nothing); alignment and persistence are preserved; on non-math text a retrieval failure, a chat failure or an embedding failure crashes with that fault, and when retrieval, the chat call and both embeddings succeed the outcome is the reply; whenever the state changes, the index keeps its dimension and both files hold exactly the new state, and a crash that changed the state added exactly the user turn's embedding to the index |
| Dialogue.MathShortcutConsultsNoService | main.py:181-185 | on a math expression the result is the same for any services, and memory and disk are untouched |
| Dialogue.ReplyFollowsAssembledContext | main.py:188-201 | a reply is the chat model's answer to the system message, the retrieved turns and the user turn |
| Dialogue.GenerationFailureStoresNothing | main.py:196-206 | a failing chat call leaves memory and disk unchanged (a named corollary of `HandleText`'s contract) |
| Dialogue.ReplyEmbeddingFailureOrphansUserTurn | main.py:205-206 | when the reply cannot be embedded, the user turn alone has been stored (a named corollary of `HandleText`'s contract) |
| Dialogue.ExchangeAsWritten | main.py:176-181 | a `None` recording raises `TypeError` and ends the loop; a recognised text is handled as in `HandleText` |
| Dialogue.Exchange | main.py:176-185 | a `None` recording leaves the state unchanged and is the only silent outcome; otherwise it agrees with the loop as written |
| Dialogue.SilenceCrashesAsWritten | main.py:176-181 | silence crashes the loop as written and is a no-op in the corrected loop |
| Dialogue.Run | main.py:153-212 | the corrected loop (a `None` recording is `Silent` rather than the crash of the loop as written): every recording is handled in turn until the first crash; one outcome per recording handled, the first is the first exchange's, only the last may be a crash, and fewer outcomes than recordings means the last one crashed; when a recording crashes, the session ends with exactly the state that crash left, including a user turn it had already persisted |
| Dialogue.RunSingle | main.py:153-212 | a session of one recording is exactly that recording's exchange |
| Dialogue.RunStep | main.py:153-212 | after a recording that does not crash, the loop handles the remaining recordings from the state that recording left |
| Dialogue.RunConcat | main.py:153-212 | each recording is handled against the state the previous one left: a crash-free session over `a` followed by `b` is the session over `a`, then the session over `b` from where `a` ended |
| Dialogue.RunKeepsStoreConsistent | main.py:153-206 | from any persisted start, over any session the store stays persisted, the log only grows, and it grows by two records per reply plus at most one orphaned user turn; a start whose index and log have the same size keeps them the same size |
| Dialogue.FreshStartIsConsistent | main.py:70-86 | with no files on disk the loaded store is empty, aligned, and agrees with the empty disk |

## Findings

| source | as written | input that shows it | evidently intended | confidence | as-written member | corrected member |
|---|---|---|---|---|---|---|
| main.py:177-181 | on silence `record_voice` returns `None`, and `is_math_expression(None)` then raises `TypeError` in `re.search`; only `sr.UnknownValueError` is caught, so the main loop ends | no speech within the listening timeout, so `record_voice` returns `None` | the utterance is skipped and the loop goes back to waiting for the wake word | high; not executed | Dialogue.ExchangeAsWritten (shown by Dialogue.SilenceCrashesAsWritten) | Dialogue.Exchange (used by Dialogue.Run and Dialogue.RunKeepsStoreConsistent) |

## Left out

- Audio capture, wake-word detection, speech recognition and `speak_text`: hardware and shell I/O. A recording is an `Option<string>` input.
- The embedding and chat-completion services: remote calls, modelled as the oracle fields `embed` and `complete` of `Services`. Each is deterministic; a failure is `None`.
- FAISS internals: L2 distances over float32 vectors, ranking and dimension assertions are not modelled. Only the label sequence returned by `search` is. `Vector` is an opaque sequence of reals.
- On-disk formats of `faiss.write_index` and `json.dump`: persistence is modelled as each file holding exactly the saved value. Write failures, and a crash between the two writes, are not modelled.
- `evaluate_math_expression`: Python `eval` cannot be modelled. The calculator outcome records only the expression handed to it.
- Classifier.IsMathExpression: Python's `\d` matches every Unicode decimal digit; the model accepts only ASCII `0`-`9`.
- Consistency checks on load, rollback and dimension validation: the code has none, so the model has none.
- `Silent` as the outcome of a `None` recording is the corrected behaviour (see Findings); the loop as written is `Dialogue.ExchangeAsWritten`.
