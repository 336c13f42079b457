# Finance assistant turn: a Dafny model

This project models one turn of the voice/text finance assistant in
`Infy_Internship`. In `FinancierApp.run_cycle`, a turn does the following:

1. It takes the user's text, or transcribes an audio file.
2. It asks a language model to classify the text (`FilterAgent.sift_input`).
3. It logs the interaction.
4. It appends a ledger row when the classification carries structured data.
5. It merges profile ("bio") updates.
6. It asks a second model for advice, giving it the last five ledger rows (`RiskEngine.probabilistic_reasoning`).
7. It writes a decision record to the audit log and voices the advice (`APIBridge`).

The model also covers the file operations of `MemoryManager`, the standalone
amount extraction of `RiskEngine.calculate_risk_score`, and the formatting of
decision-log entries.

Everything outside the program is a parameter. A `World` holds:

- the language-model replies, given as HTTP outcomes;
- `json.loads` and `str()` of a JSON value, as functions;
- the transcription and speech-synthesis outcomes;
- whether the ledger file can be read;
- what the advisor's reads of the market file and of the profile raise, when the file exists but cannot be opened or decoded;
- the three `datetime.now()` stamps of a turn.

The files form an abstract `Store` with these parts:

- the ledger, as rows of typed cells;
- the profile, as a JSON `Value`;
- the interaction and decision logs, as sequences of appended texts;
- the market file;
- the audio file.

A turn is the pure function `Cycle.RunCycle`. It returns the text it worked
on, the writes it made in order (an `Effect` trace) and how it ended: with
advice, or with the exception that stopped it. `Cycle.After` replays the
trace on the store.

Modules, one per source file plus three shared ones:

- `Values`: Python/JSON values, truthiness, `dict.get`
- `Text`: `str.replace`, `str.strip`, substring search, line joining and splitting
- `ModelReply`: `raise_for_status` and the `candidates[0].content.parts[0].text` path
- `FilterAgent`: `engines/filter_agent.py`
- `RiskEngine`: `engines/risk_engine.py`
- `MemoryManager`: `memory_manager.py`
- `Bridge`: `utils.py`
- `Cycle`: `main.py`

Where the documented behaviour and the code disagree, the model follows the code:

- Any status outside 400..599 passes `raise_for_status`. A 201 or 302 reply is therefore read like a 200 one, not treated as a failure (`ModelReply.RaisesForStatus`).
- A successful classification is returned exactly as the model parsed it. Missing keys are not filled in, so "all four keys present" holds only for the fallback record.
- A truthy profile update that is neither a dict nor a string still rewrites the profile, with the same contents.
- Some absent or ill-typed data stops the turn instead of being coerced to a default. The model makes each of these a `Crashed` ending, with the writes done so far:
  - a missing profile file when there is an update to apply;
  - a non-dict classification;
  - a truthy non-dict `structured_data`;
  - a non-dict profile, when the update is a dict or a string;
  - a `notes` that is not a list;
  - a market file or profile that exists but that the advisor cannot open or decode: `probabilistic_reasoning` catches only `FileNotFoundError`, so the turn stops after its row and profile writes and logs no decision.
- A truthy non-numeric amount makes `calculate_risk_score` raise; it is not skipped.
- `run_cycle` returns `None` and only prints the advice. The model exposes the advice as the `Advised` ending.
- The advisor's market default has no final period (`"No market data available"`). The default of `get_market_trends` has one.

## Model

| member | source | states |
|---|---|---|
| Values.Truthy | Infy_Internship/main.py:66-79 | A value is falsy exactly when it is one of `None`, `False`, `0`, `0.0`, `""`, `[]`, `{}` |
| Cycle.RawText | Infy_Internship/main.py:50-54 | Typed input passes through unchanged; voice input becomes whatever `capture_voice` returns |
| Cycle.RunCycle | Infy_Internship/main.py:46-134 | A turn works on the captured or typed text, and its first write, crash or not, is the `USER` interaction line holding that text |
| Values.FieldOf | Infy_Internship/main.py:69-71 | A field takes the capitalised key's value whenever that key is present (even if null), else the lower-case key's value, else null |
| Cycle.NewRow | Infy_Internship/main.py:68-73 | The appended row has the fallback-read Type, Category and Amount, the description `"Extracted from: " + raw_text`, the transaction stamp, and `necessary = not fluff` with absent fluff read as false |
| Cycle.LedgerEffects | Infy_Internship/main.py:66-75 | Step 2a asks for at most one ledger write, and it is a row append |
| Cycle.FrontStages | Infy_Internship/main.py:64-91 | Step 2 as a whole asks for at most one row append and at most one profile save, and a crash in it saves no profile |
| Cycle.FrontLedger | Infy_Internship/main.py:66-75 | A non-dict classification or a truthy non-dict `structured_data` stops the turn with no row. A falsy `structured_data` writes no row. A truthy dict writes exactly one row with the stamp, the fallback-read fields, the description and the negated fluff |
| Cycle.CycleLedger | Infy_Internship/main.py:66-75 | After a whole turn the ledger gains exactly the new row when `structured_data` is a truthy dict. It is unchanged otherwise, and the two error cases end in the matching crash |
| Cycle.AppendNewRow | Infy_Internship/main.py:68-74 | Replaying the row write appends exactly `NewRow` to the existing (or absent) ledger |
| Cycle.LedgerGainsRow | Infy_Internship/main.py:66-75 | The truthy-dict case of the ledger step: exactly one new row after the old ones |
| Cycle.MergeBio | Infy_Internship/main.py:84-88 | A dict update overwrites its keys and keeps every other key. A string update is appended at the end of `notes` (created as a one-element list when absent), other keys unchanged. A non-list `notes` or a non-dict profile raises. Any other update leaves the contents as they were |
| Cycle.BioEffects | Infy_Internship/main.py:78-91 | Step 2b asks for at most one profile write, and it is a save |
| Cycle.FrontBio | Infy_Internship/main.py:78-91 | A falsy update writes nothing. A missing profile file raises the load error. A successful merge saves the merged profile. A failed merge stops the turn before any save |
| Cycle.CycleBio | Infy_Internship/main.py:66-91 | After a whole turn the profile is unchanged when step 2a stops the turn (non-dict classification or truthy non-dict `structured_data`). Otherwise it is unchanged for a falsy update, replaced by the merge for a mergeable one, and unchanged on each crash of step 2b. In the non-crash cases of step 2b the turn advises whenever the advisor's reads raise nothing but `FileNotFoundError` |
| Cycle.BioAfterLedgerStage | Infy_Internship/main.py:78-91 | The step 2b cases of `Cycle.CycleBio`, for a turn whose ledger step went through |
| Cycle.ProfileMerged | Infy_Internship/main.py:82-91 | When the merge succeeds, the saved profile is the merged one, and the turn goes on to advise whenever the advisor's reads raise nothing but `FileNotFoundError` |
| Cycle.AdvisesWithoutProfileUpdate | Infy_Internship/main.py:78-79 | A falsy `updates_to_bio` leaves the profile as it was, and the turn advises whenever the advisor's reads raise nothing but `FileNotFoundError` |
| Cycle.StringUpdateAddsNote | Infy_Internship/main.py:87-88 | A string update on a profile with a `notes` list adds exactly that string at its end and changes no other key |
| Cycle.Recent | Infy_Internship/main.py:124 | The context is the last min(5, n) rows, in ledger order |
| Cycle.LedgerRows | Infy_Internship/main.py:115-122 | The rows the advisor can see: nothing for a missing or unreadable ledger; otherwise everything after the header line |
| Cycle.RecentEndsWithLast | Infy_Internship/main.py:124 | A non-empty row list gives a context that ends with its last row |
| Cycle.LedgerRowsAfterAppend | Infy_Internship/main.py:114-120 | Reading back a ledger that gained a row gives the old data rows (header dropped) followed by the new one |
| Cycle.AdvisorStats | Infy_Internship/main.py:114-124 | When the turn advises, the rows the advisor sees are the last five data rows of the ledger as the turn left it |
| Cycle.NewRowInContext | Infy_Internship/main.py:66-124 | For a readable ledger that already holds its header line, when the turn advises, a row appended in this turn is the last row of the advisor's context. The context is the old rows plus that row, cut to the last five |
| Cycle.UnreadableLedgerNoContext | Infy_Internship/main.py:116-122 | When the turn advises from a ledger that cannot be read, the advisor gets no rows |
| Cycle.MissingLedgerNoContext | Infy_Internship/main.py:66-122 | A turn that starts without a ledger file gives the advisor no rows, even when it appends one: the file is created without a header, so the reader takes that row as the header |
| Cycle.DecisionPacket | Infy_Internship/main.py:127-132 | The packet has exactly the keys trigger, advice, rationale and impact: the user's text, the advice, and the two fixed strings |
| Cycle.Advise | Infy_Internship/main.py:124-134 | Steps 3–4 advise exactly when the advisor's context reads succeed or find no file. Then the first write is the decision record holding that same advice, and the audio write, if any, comes after it. A read error ends the turn with no write |
| Cycle.AdvisedFiles | Infy_Internship/engines/risk_engine.py:36-42 | `Cycle.Advise` advises exactly when the reads of the given market file and profile succeed, and otherwise ends in that read error with no write |
| Cycle.SpeechEffects | Infy_Internship/utils.py:45-48 | `speak_advice` writes the audio file at most once |
| Cycle.SpeechMatches | Infy_Internship/utils.py:31-54 | The audio write in the trace leaves the audio file exactly as `speak_advice` would |
| Cycle.CycleAdvice | Infy_Internship/main.py:124-134 | When the turn advises, the advisor gets the user's text, the recent ledger and the profile as the turn leaves them. The decision log gains exactly one entry holding that advice, and the audio file and returned path are those of `speak_advice`. A crash logs no decision and writes no audio |
| Cycle.AdvisorContextStage | Infy_Internship/main.py:124-126 | After step 2, the turn advises exactly when the advisor's reads of the market file and of the profile the turn leaves succeed or find no file. A read error of an existing file ends the turn with only the interaction line, row and profile writes |
| Cycle.CycleLogsInteraction | Infy_Internship/main.py:62 | Every turn adds exactly one `USER` line holding the raw text to the history, crash or not |
| Cycle.CycleEffectOrder | Infy_Internship/main.py:50-134 | A turn's writes come in pipeline order: the interaction line first, then at most one row, at most one profile save, the decision, the audio. A decision is logged exactly when the turn advises |
| Cycle.TurnShape | Infy_Internship/main.py:59-134 | A turn's trace is the interaction line, the ledger and profile writes of step 2, and a tail. The tail is empty exactly on a crash, and is the decision followed by the audio write otherwise |
| Cycle.StagesOrdered | Infy_Internship/main.py:62-134 | Stage segments of those shapes join into an ordered trace, which holds a decision exactly when the tail is non-empty |
| Cycle.StagedReplay | Infy_Internship/main.py:62-134 | Replaying a turn's trace changes each file only through its own stage. The history gains one line, the market file is untouched, and the decision log gains at most one entry |
| Cycle.ApplyFrame | Infy_Internship/memory_manager.py:36-65 | Each write touches only its own file, in the way its store operation describes |
| Cycle.ReplayFrame | Infy_Internship/memory_manager.py:36-65 | A trace without writes of some kind leaves that kind's file as it was, and no trace touches the market file |
| Cycle.ReplayConcat | Infy_Internship/main.py:62-134 | Replaying two traces one after the other is replaying their concatenation |
| Cycle.ClassifierFailureStillAdvises | Infy_Internship/engines/filter_agent.py:58-67 | A failed classification leaves ledger and profile as they were. Whenever the advisor's reads raise nothing but `FileNotFoundError`, it still ends in advice and logs exactly one decision |
| Cycle.GroceriesExample | Infy_Internship/main.py:66-75 | "I spent $50 on groceries", classified as a necessary grocery expense of 50, appends exactly that row, and advises whenever the advisor's reads raise nothing but `FileNotFoundError` |
| Cycle.GroceriesRow | Infy_Internship/main.py:68-73 | The row built from that classification is `[ts, Expense, Groceries, 50, "Extracted from: I spent $50 on groceries", True]` |
| Cycle.AdvisorTimeoutLogged | Infy_Internship/engines/risk_engine.py:88-91 | When the turn advises and the advisor cannot be reached, the advice is the labelled error text, and that text is what the decision log records |
| ModelReply.ReplyText | Infy_Internship/engines/filter_agent.py:40-50 | An unreachable endpoint or a 400..599 status is an error with its message. A body that is not JSON is an error. A text is produced only for a non-error status with a JSON body |
| ModelReply.Field | Infy_Internship/engines/filter_agent.py:50 | Subscripting by key succeeds exactly on a dict holding the key, and gives its value |
| ModelReply.First | Infy_Internship/engines/filter_agent.py:50 | `[0]` succeeds exactly on a non-empty list or string, and gives a list's first item |
| ModelReply.RaisesForStatus | Infy_Internship/engines/filter_agent.py:47 | `raise_for_status` raises exactly for the 4xx and 5xx statuses |
| ModelReply.ReplyTextHeld | Infy_Internship/engines/filter_agent.py:47-50 | A successful reply whose body holds a text at `candidates[0].content.parts[0].text`, with any other keys and items, yields exactly that text |
| ModelReply.ReplyTextOnlyHeld | Infy_Internship/engines/filter_agent.py:47-50 | A text is extracted exactly when the reply is a non-error response with a JSON body holding a text at the path, and the extracted text is the one held there. Every other reply raises |
| ModelReply.Envelope | Infy_Internship/engines/filter_agent.py:50 | The minimal answer body holds its text at the lookup path |
| ModelReply.ReplyTextOfEnvelope | Infy_Internship/engines/filter_agent.py:50 | A minimal reply holding only the text at `candidates[0].content.parts[0].text` is read back as that text |
| ModelReply.ReplyTextWithoutCandidates | Infy_Internship/engines/filter_agent.py:50 | A reply without `candidates` fails with the `KeyError` text |
| ModelReply.ReplyTextNoCandidate | Infy_Internship/engines/filter_agent.py:50 | A dict body whose `candidates` is an empty list fails with the `IndexError` text, whatever other keys it has |
| FilterAgent.Unfence | Infy_Internship/engines/filter_agent.py:55 | The two `replace` calls leave no fence behind |
| FilterAgent.StripKeepsNoFence | Infy_Internship/engines/filter_agent.py:55 | `strip` cannot create a fence |
| FilterAgent.CleanFences | Infy_Internship/engines/filter_agent.py:55 | The cleaned text holds no fence and neither begins nor ends with whitespace |
| FilterAgent.NoFenceAfterRemoval | Infy_Internship/engines/filter_agent.py:55 | After `replace('```', '')` no fence is left |
| FilterAgent.CleanFencesIdempotent | Infy_Internship/engines/filter_agent.py:55 | Cleaning twice is cleaning once |
| FilterAgent.CleanFencesPlain | Infy_Internship/engines/filter_agent.py:55 | Text with no backtick and no surrounding whitespace is unchanged by the cleanup |
| FilterAgent.CleanFencedJson | Infy_Internship/engines/filter_agent.py:55 | A JSON text wrapped in a json fence, newlines and a closing fence cleans back to itself |
| FilterAgent.SiftInput | Infy_Internship/engines/filter_agent.py:34-67 | Any failure on the way to the text, or an unparsable text, gives exactly the fallback record. A parsed text is returned verbatim; non-string content is returned as it is |
| FilterAgent.ErrorStatusFallsBack | Infy_Internship/engines/filter_agent.py:44-67 | A client or server error status always gives the fallback record |
| FilterAgent.SiftFencedAnswer | Infy_Internship/engines/filter_agent.py:50-67 | A fenced JSON answer is classified as what parsing the bare JSON gives, or the fallback when that fails |
| RiskEngine.AmountOf | Infy_Internship/engines/risk_engine.py:21 | The amount is read from `Amount` when present, else `amount`, else null |
| RiskEngine.Kept | Infy_Internship/engines/risk_engine.py:19-23 | The kept amounts are truthy and never outnumber the transactions |
| RiskEngine.KeptOnlyTruthy | Infy_Internship/engines/risk_engine.py:19-23 | When no transaction has a truthy amount nothing is kept |
| RiskEngine.AmountsAreKeptFloats | Infy_Internship/engines/risk_engine.py:19-23 | Extraction succeeds exactly when every kept amount converts. It then yields their float values in transaction order; otherwise it stops at the first kept amount that does not convert |
| RiskEngine.AmountsErrorPersists | Infy_Internship/engines/risk_engine.py:19-23 | Once a conversion has raised, later transactions do not change the outcome |
| RiskEngine.Amounts | Infy_Internship/engines/risk_engine.py:18-23 | The loop keeps at most one amount per transaction, and when it raises, the offending value is a truthy amount that `float` rejects |
| RiskEngine.ToFloat | Infy_Internship/engines/risk_engine.py:23 | `float` maps booleans to 1.0 and 0.0, floats to themselves and strings through the parser. It raises on `None`, lists and dicts, and on integers of magnitude at least 2**1024 - 2**970, which round past the largest double. Other integers keep their value |
| RiskEngine.HugeAmountRaises | Infy_Internship/engines/risk_engine.py:18-23 | An integer amount of magnitude at least 2**1024 - 2**970, met before any other failure, makes the score computation raise on exactly that amount, whatever follows |
| RiskEngine.CalculateRiskScore | Infy_Internship/engines/risk_engine.py:13-27 | The score is 0 exactly when no amount is kept. It raises exactly when a kept amount fails to convert. Otherwise it is taken over exactly the extracted amounts |
| RiskEngine.NothingKeptScoresZero | Infy_Internship/engines/risk_engine.py:18-25 | An empty list, or one with no truthy amount, extracts no amounts (score 0) |
| RiskEngine.ContextFiles | Infy_Internship/engines/risk_engine.py:33-42 | A missing market file keeps both defaults and reads no profile. An existing market file that cannot be read raises its error; otherwise it is read, the profile default is kept only when the profile file is missing, and an existing profile that cannot be read raises its error |
| RiskEngine.ProbabilisticReasoning | Infy_Internship/engines/risk_engine.py:29-91 | A read error of an existing context file escapes it. Otherwise the prompt carries the query, the context rows and the file contents or defaults, and any request or reply failure returns `"Error computing risk logic: "` plus the error instead of raising; a string reply is returned as the advice |
| RiskEngine.AdvisorTimeout | Infy_Internship/engines/risk_engine.py:88-91 | An unreachable advisor returns the labelled error message whenever the context files are read |
| MemoryManager.InitializeFiles | Infy_Internship/memory_manager.py:18-34 | An absent ledger is created holding only the header row, and an absent profile with the default document. Existing files and all other files are untouched |
| MemoryManager.InitializeFilesIdempotent | Infy_Internship/memory_manager.py:18-34 | Initialising twice is initialising once |
| MemoryManager.DefaultBioShape | Infy_Internship/memory_manager.py:28-33 | The default profile has exactly name, risk_profile {score 5, label Moderate}, interests and financial_goals, and no notes |
| MemoryManager.InteractionLine | Infy_Internship/memory_manager.py:40 | The history line is `[ts] speaker: text` followed by a newline |
| MemoryManager.LogInteraction | Infy_Internship/memory_manager.py:36-40 | Exactly one line is appended to the history; earlier lines and every other file are unchanged |
| MemoryManager.InteractionIsOneLine | Infy_Internship/memory_manager.py:40 | An interaction with no newline in its parts reads back as that one line |
| MemoryManager.ColumnIndex | Infy_Internship/memory_manager.py:24 | A column name maps to its position in the header row, or to none |
| MemoryManager.TransactionRow | Infy_Internship/memory_manager.py:42-47 | The row holds stamp, type, category, amount, description and flag under the header's column names |
| MemoryManager.AddTransaction | Infy_Internship/memory_manager.py:42-47 | Exactly one row is appended; earlier rows and every other file are unchanged |
| MemoryManager.NecessaryByDefault | Infy_Internship/memory_manager.py:42 | Without an explicit flag the row is recorded as necessary |
| MemoryManager.DecisionBlock | Infy_Internship/memory_manager.py:52 | The block is the stamp line, TRIGGER, DECISION and REASONING lines and a blank line, each newline-terminated |
| MemoryManager.SaveDecision | Infy_Internship/memory_manager.py:49-54 | Exactly one block is appended to the decision log; nothing else changes |
| MemoryManager.DecisionBlockLines | Infy_Internship/memory_manager.py:52 | A block with one-line parts reads back as its four lines and a blank one |
| MemoryManager.MarketTrends | Infy_Internship/memory_manager.py:56-61 | The market text is the file's contents, or `"No market data available."` when it is absent |
| MemoryManager.SaveJson | Infy_Internship/memory_manager.py:63-65 | Saving replaces the whole profile document and nothing else |
| MemoryManager.LoadJson | Infy_Internship/memory_manager.py:67-69 | Loading returns the stored document, and fails when the file is absent |
| MemoryManager.LoadAfterSave | Infy_Internship/memory_manager.py:63-69 | Loading right after saving returns the saved document |
| MemoryManager.SaveOverwrites | Infy_Internship/memory_manager.py:63-65 | Saving twice keeps only the second document |
| Bridge.CaptureVoice | Infy_Internship/utils.py:16-29 | With no client the text is `"No Audio Transcription"`. A failed transcription gives the empty string; otherwise the transcribed text |
| Bridge.ClientPresent | Infy_Internship/utils.py:9 | The speech client exists exactly when the key is truthy |
| Bridge.Shown | Infy_Internship/utils.py:65-68 | A packet value is shown as it is, and a missing key shows as `None` |
| Bridge.SpeakAdvice | Infy_Internship/utils.py:31-54 | With no client, or a refused request, nothing is written and nothing returned. A stream writes the audio chunks in order, and the path is returned exactly when the stream completed |
| Bridge.StampId | Infy_Internship/utils.py:63 | For a `%Y-%m-%d %H:%M:%S` stamp the ID is the date, a dash, and the time without colons |
| Bridge.DecisionId | Infy_Internship/utils.py:63 | The ID holds no space and no colon, and is never longer than the stamp |
| Bridge.DecisionIdWithoutSeparators | Infy_Internship/utils.py:63 | A stamp with neither a space nor a colon is its own ID |
| Bridge.SpaceToDash | Infy_Internship/utils.py:63 | `replace(' ', '-')` turns the stamp's one space into a dash and keeps everything else |
| Bridge.DropColons | Infy_Internship/utils.py:63 | `replace(':', '')` removes the two colons and keeps everything else |
| Bridge.DecisionIdShape | Infy_Internship/utils.py:61-63 | For a well-formed stamp the ID is 17 characters with no space or colon, and the stamp can be rebuilt from it |
| Bridge.DecisionIdOneLine | Infy_Internship/utils.py:63 | The ID of a one-line stamp is one line |
| Bridge.DecisionEntry | Infy_Internship/utils.py:62-70 | The entry is its seven lines, each newline-terminated |
| Bridge.DecisionEntryLayout | Infy_Internship/utils.py:62-70 | With one-line parts, the entry reads back as exactly seven lines: ID, DATE, CONTEXT/TRIGGER, ADVICE, RATIONALE, PROBABILITY/IMPACT, and 40 `=`. A missing packet key shows as `None` |
| Bridge.EntryLinesAreLines | Infy_Internship/utils.py:62-70 | Each of the seven lines holds no newline when the stamp and packet values hold none |
| Bridge.LogDecisionToFile | Infy_Internship/utils.py:56-72 | Exactly one entry is appended to the decision log; earlier entries and every other file are unchanged |
| Text.Strip | Infy_Internship/engines/filter_agent.py:55 | `strip()` removes exactly the leading and trailing whitespace: what it drops is whitespace and what it keeps begins and ends with non-whitespace |
| Text.StripIdempotent | Infy_Internship/engines/filter_agent.py:55 | Stripping twice is stripping once |
| Text.Replace | Infy_Internship/engines/filter_agent.py:55 | `replace` leaves a text without the pattern as it is. A replacement no longer than the pattern never lengthens the text, and one of equal length keeps its length. A one-character pattern absent from the replacement is absent from the result |
| Text.ReplaceAddsNothing | Infy_Internship/utils.py:63 | `replace` brings in no character that neither the text nor the replacement holds |
| Text.SplitJoinLines | Infy_Internship/utils.py:62-70 | Lines without newlines, joined with newline terminators, split back into the same lines |

## Left out

- HTTP requests, prompt and payload text, and `json.loads` are not modelled. A reply is an HTTP outcome value, and JSON parsing is a function parameter of the world.
- The ElevenLabs client calls are not modelled. A transcription is a result value. Speech is a refusal or a stream of chunks with a flag for whether it completed, so only the guard and return behaviour of `capture_voice`/`speak_advice` is modelled.
- CSV quoting, the text form of cells and `csv.DictReader` are not modelled. Ledger cells are typed values and read back as written. A ledger that cannot be read is a flag in the world.
- The context is passed as the rows themselves, not as the `str(...)` of the list. The prompt is a record of its inputs rather than the formatted template text.
- Every `datetime.now()` reading is a parameter (`Clock`), so stamps are not constrained to be increasing.
- The `np.std / np.mean` quotient is not modelled: it is floating point and divides by zero on a zero mean. `RiskEngine.CalculateRiskScore` returns the extracted amounts instead of the quotient.
- RiskEngine.CalculateRiskScore: states which amounts the score is taken over, but not the score's value. `calculate_risk_score` is not called by `run_cycle`, so the model keeps it standalone.
- `float()` of a string and `str()` of a non-string value are parameters, because both are library behaviour.
- RiskEngine.ToFloat: Python floats are modelled as exact reals, so the rounding of integers above 2**53, infinities and NaN are not modelled. Only the overflow of `float(int)` is.
- A profile file that holds invalid JSON is not modelled, and neither is a `load_json` decode error. The profile is a parsed value or absent.
- Printing, the REPL loop, dotenv and configuration checks, and `test_run_core.py` are left out: they do not affect the files or the outcome.
- `planning_engine.py` is not part of this model, because the turn never calls it.
- The branch at `main.py:94` is not modelled, because its result is always replaced at line 115.
- The `is_important_decision` key is carried in the fallback record and the classifications, but no behaviour of the turn reads it.
- Directory creation (`os.makedirs`) and file modes are not modelled.
