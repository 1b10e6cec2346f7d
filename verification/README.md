# A verified model of the lob-codex core

This project models the parts of lob-codex that keep state and could silently go wrong, and
proves what they promise, for all inputs and all runs:

- the **turn engine** (`internal/session`): one submission loop and the goroutines of its turns,
  as a state machine whose steps are the places where they touch shared state. Clients submit
  input, steer, interrupt and shut down; a turn compacts, samples, runs tools in parallel, takes
  steer input and ends; the recorder may fail at any write; the process may end at any moment
  and another one resume from the log. A run is any sequence of these steps.
- the **history and the rollout log**: the live history, the append-only log and its four
  readers, and the prompt that is built from a history;
- **approvals**: tool calls that wait for a client's decision;
- the **patch engine**: the line grammar, the fuzzy search, and the in-place splice;
- the **bounded output collector**: a head/tail buffer, draining, and live deltas;
- the **command policy**: the shell tokenizers and the growing set of rules.

Code that changes things step by step is modelled by classes and loops (`HeadTailBuffer`,
`SynchronizedBuffer`, `DeltaEmitter`, `ExecPolicy`, `RolloutRecorder`, `ConversationHistory`,
`RunningTask`, and the parsing, searching, splicing, reading and sampling loops), each proved
against a function of its inputs; the theorems are about these functions. What runs
concurrently is a transition function (`TurnEngine.Next`, `Approvals.Next`) with invariants that
every step keeps. The statements in `SessionTheorems` are about every state of every run that
starts on any readable log; `SessionTheorems.ReachableIsConsistent` brings the invariants there.

Verify everything with `dafny verify dfyconfig.toml`.

| files | subject |
|---|---|
| `Seqs`, `Numbers`, `Wrappers`, `Text` | sequences, numbers, optional results, white space and lines |
| `HeadTail`, `ProcessOutput` | bounded output, drains, live deltas |
| `Seek`, `LineLevels`, `Replace`, `ChunkPlaces`, `Splice`, `SpliceLimits` | finding and replacing the lines of a patch; where chunks land; what happens when the windows are out of order |
| `PatchGrammar`, `PatchLayout`, `PatchRoundTrip`, `PatchNormalForm`, `PatchSpans` | parsing patches, the language accepted, printing them, how they divide |
| `ShellWords`, `LiveSyntax`, `SimpleWords`, `SimpleSyntax`, `ExecPolicy`, `PolicyLaws` | tokenizers and what they call plain; rules, verdicts |
| `Protocol`, `History`, `PromptShape` | items, events, log payloads; history and prompt |
| `Rollout`, `RolloutReads`, `RolloutTurns`, `RolloutFlow`, `RolloutFork` | the log, its writer and its readers |
| `TurnTask`, `TurnSampling`, `TurnAccounting` | one turn: its program, its sampling loop, its accounts |
| `TurnEngine`, `SessionInvariant`, `SessionTheorems`, `LoopEffects`, `PromptTheorems`, `SessionProgress`, `LostSteer` | the session and what all its runs keep |
| `Approvals`, `SessionApprovals` | approval requests and decisions, alone and together with the session |

## Findings

Where a natural expectation, or the documentation, does not hold of the code, the code was kept
and the exact condition proved:

- A chunk that only inserts is placed at the end of the file without moving the search, so chunks
  after it can land before it. The splice then runs past the end of the shortened lines, which
  stops the program. For any chunks without an End-of-File mark, `SpliceLimits.InsertionPanicsIff`
  says exactly when, and `SpliceLimits.CountsTellPanic` says it in line counts of the chunks.
- An End-of-File chunk searches from the end whatever came before. An earlier window can take its
  edit out again (`SpliceLimits.EndOfFileEditCanBeLost`), and one that leaves too few lines stops
  the program (`SpliceLimits.EndOfFileChunkCanPanic`). `SpliceLimits.EndOfFileEditIff` says exactly
  when each happens after searched chunks; for any list of replacements,
  `SpliceLimits.PanicsIffTooShort` and `SpliceLimits.NewLineSurvivesIff` do.
- A final blank line of an update is absorbed by the newline rule (`Splice.DerivedBytes`).
- The tokenizer drops empty words and widens bytes above 127, so quoting survives it exactly for
  non-empty ASCII words (`ShellWords.QuotingRoundTripIff`). The tokenizer for one command copies
  runes instead, so the two agree exactly on ASCII commands (`SimpleWords.SimpleAgreesIff`).
- An interrupt that finds its turn already ended does not change how it ended; one that comes
  before makes it end as aborted (`LoopEffects.AbortTakesEffect`).
- Outputs that precede their calls in a history precede them in the prompt as well; the repair
  moves nothing (`PromptShape.PromptOrderIff`).
- No rule is proposed for a command of one word, so approving it "from now on" stores nothing
  (`ExecPolicy.StoringProposalAdmitsCommand`), and the amendment that patches offer always ends
  in an error (`ExecPolicy.PatchAmendmentAlwaysFails`).
- The error recorded for a tool call without an identifier is dropped from every prompt, so the
  model never reads it, unless some call happens to have the stand-in identifier
  (`History.ErrorReachesPromptIff`). A compaction drops it in any case
  (`TurnTask.CompactionDropsOutputs`).
- Steer input is still accepted after a turn's loop has returned with an error, and then lost
  (`SessionTheorems.LateSteerAcceptedIffFailed`, `SessionTheorems.UntakenInputIsLost`;
  `LostSteer.SteerCanBeLost` is such a run).
- A second approval request with the same call identifier takes over the first one's entry in the
  table, and the first one deletes the second one's when it leaves (`Approvals.SharedCallOrphans`,
  `Approvals.LeavingOrphans`; `Approvals.BothCanBeOrphaned` is such a run). All open requests stay
  in the table exactly when none is registered while another for the same call is open
  (`Approvals.EveryRequestStaysInTableIff`). All waiting requests stay answerable exactly when no
  entry is taken over or deleted while another request waits about the same call with no decision
  on its way (`Approvals.EveryRequestStaysAnswerableIff`; `Approvals.AnswerableIff` says what
  answerable means, and `Approvals.RivalsCanBothBeAnswered` is a run that tells the two apart).
- A log line of 4 MiB or more is written without complaint and makes the log unreadable
  (`Rollout.OverlongLineBlocksReaders`).

## Model

| member | source | states |
|---|---|---|
| HeadTail.HeadTailBuffer.PushChunk | internal/tools/head_tail_buffer.go:18-37 | the buffer's stream grows by the chunk, and head, tail and omission count stay the view of the whole stream |
| HeadTail.WindowAccountsForEveryByte | internal/tools/head_tail_buffer.go:18-41 | every byte is kept or counted, at most the capacity is kept, and something is omitted only when the stream exceeds the capacity |
| HeadTail.PushExtendsStream | internal/tools/head_tail_buffer.go:18-37 | one incremental push on the ends of a stream gives the ends of the longer stream |
| HeadTail.ChunkingIsInvisible | internal/tools/head_tail_buffer.go:18-37 | however a stream is cut into chunks, the buffer ends in the same state |
| HeadTail.HeadTailBuffer.TotalBytes | internal/tools/head_tail_buffer.go:39-41 | the total is the length of everything ever pushed |
| HeadTail.HeadTailBuffer.BytesWithOmissionMarker | internal/tools/head_tail_buffer.go:43-53 | the bytes shown are the whole stream if it fits the capacity, otherwise its two ends, cut at half the capacity, around a marker whose digits denote the bytes left out |
| HeadTail.DecimalDenotes | internal/tools/head_tail_buffer.go:49 | the digits of the marker denote the number of omitted bytes, without a leading zero |
| HeadTail.LongStreamRendered | internal/tools/head_tail_buffer.go:43-53 | what is shown of a long stream: its first half capacity, the marker, and as many last bytes as the other half holds |
| HeadTail.RelimitWindow | internal/tools/head_tail_buffer.go:55-64 | pushing what a buffer kept into a smaller one shows the same ends of the stream, with the right omission count |
| HeadTail.FittingWindow | internal/tools/head_tail_buffer.go:55-58 | a buffer already under the limit shows, counts and omits what the smaller one would |
| HeadTail.EffectiveComposes | internal/tools/head_tail_buffer.go:55-64 | re-limiting twice is re-limiting once to the smaller limit, negative limits included |
| HeadTail.HeadTailBuffer.WithLimit | internal/tools/head_tail_buffer.go:55-64 | the limited buffer shows, counts and omits exactly what a fresh buffer of the smaller capacity fed the whole stream would |
| ProcessOutput.SynchronizedBuffer.Write | internal/tools/process_manager.go:37-45 | what is written joins the undrained stream, and nothing drained changes |
| ProcessOutput.SynchronizedBuffer.Drain | internal/tools/process_manager.go:47-56 | a drain hands out exactly the undrained stream; all drains together are everything written |
| ProcessOutput.SynchronizedBuffer.Collect | internal/tools/process_manager.go:352-362 | a tool call reports the drained stream under its own limit, with the true total and omission count |
| ProcessOutput.DrainTotalsAddUp | internal/tools/process_manager.go:47-56 | the totals of successive drains add up to the bytes written |
| ProcessOutput.DeltaEmitter.EmitOutputDeltas | internal/tools/process_manager.go:97-109 | the deltas of each stream are a prefix of it, in pieces of 8192 bytes and a shorter last one, at most 10000 of them, and all of it while that budget lasts |
| Text.SplitJoin | internal/tools/apply_patch_format.go:58 | splitting joined lines gives the lines back |
| Seek.LineMatchWeakens | internal/tools/apply_patch_format.go:248-315 | exact, right-trimmed, trimmed and punctuation-normalised matching are nested |
| Seek.SeekSequence | internal/tools/apply_patch_format.go:236-275 | the four passes compute the specified search, empty and over-long patterns included |
| Seek.SoughtIsBest | internal/tools/apply_patch_format.go:248-273 | a hit is the least matching index at the strictest level that matches anywhere |
| Seek.BestIsUnique | internal/tools/apply_patch_format.go:248-273 | that promise determines index and level |
| Seek.SoughtFailsExactly | internal/tools/apply_patch_format.go:236-275 | the search fails exactly when no window from its start matches at the weakest level |
| LineLevels.TrimSpaceIff | internal/tools/apply_patch_format.go:260-266 | trimming leaves what stands between the white space at both ends |
| LineLevels.LevelsOverlook | internal/tools/apply_patch_format.go:248-315 | what each level overlooks, character by character: white space at the end, at both ends, and the kind of dash, quote or blank |
| Replace.LocateChunk | internal/tools/apply_patch_format.go:336-367 | one chunk's replacement and the next search position, with context, insertion, End-of-File and final-blank cases and both errors |
| Replace.ComputeReplacements | internal/tools/apply_patch_format.go:333-369 | the loop computes the chunks' replacements in order, or the first error |
| ChunkPlaces.StepIffLands | internal/tools/apply_patch_format.go:337-366 | one chunk gets a replacement exactly where the best match says: behind its context, on all its old lines or else on those before a final blank one, at the end of the file if tied to it, or at the insertion place |
| ChunkPlaces.StepIffFails | internal/tools/apply_patch_format.go:338-363 | it fails exactly when no line from the search position on matches its context even loosely, or no place its lines |
| ChunkPlaces.ContextMovesSearch | internal/tools/apply_patch_format.go:338-343 | a found context moves the search behind its best match, for the chunk itself or, if it only inserts, for the next one |
| ChunkPlaces.ReplacementsIff | internal/tools/apply_patch_format.go:333-369 | an update gets exactly the replacements that its chunks land on, searched one after the other |
| ChunkPlaces.UpdateFailsIff | internal/tools/apply_patch_format.go:333-369 | and fails exactly with the error of the first chunk that does not land |
| Replace.StepLands | internal/tools/apply_patch_format.go:337-366 | every kind of chunk lands in bounds, on lines that match it, where its kind says |
| Replace.SearchedWindowsOrdered | internal/tools/apply_patch_format.go:333-369 | chunks with old lines and no End-of-File mark get in-bounds, ordered, disjoint windows that match them |
| Replace.LastChunkOrderedIff | internal/tools/apply_patch_format.go:344-354 | an insertion-only or End-of-File chunk at the end keeps the windows ordered exactly when its place is not before the last window's end |
| Splice.RemoveAt | internal/tools/apply_patch_format.go:382-386 | removing one line at a time removes what there is of the window, and nothing beyond the end |
| Splice.ApplyReplacements | internal/tools/apply_patch_format.go:377-392 | the in-place loop is the right-to-left splice, including the out-of-range stop |
| Splice.SpliceOrdersAgree | internal/tools/apply_patch_format.go:377-392 | on ordered windows the right-to-left splice is the plain left-to-right one and never stops |
| Splice.UpdatedLength | internal/tools/apply_patch_format.go:377-392 | the result has as many lines as the original plus what the replacements add |
| Splice.UntouchedLineSurvives | internal/tools/apply_patch_format.go:377-392 | every line outside the windows is found in the result, moved by what was added before it |
| Splice.SearchedUpdateIsPlainSplice | internal/tools/apply_patch_format.go:317-392 | an update whose chunks are all found is the left-to-right splice over ordered, disjoint windows |
| SpliceLimits.PanicsIffTooShort | internal/tools/apply_patch_format.go:377-392 | for any replacements, the splice stops exactly when one starts beyond the lines that those applied before it leave |
| SpliceLimits.InsertionPanicsIff | internal/tools/apply_patch_format.go:344-351 | for any chunks without End-of-File marks, the splice stops exactly when some insertion is followed by chunks that leave fewer lines than its place needs |
| SpliceLimits.CountsTellPanic | internal/tools/apply_patch_format.go:344-366 | for chunks without optional blanks, that condition in the line counts of the chunks |
| SpliceLimits.InsertionFirstCanPanic | internal/tools/apply_patch_format.go:387-388 | a one-line file and two chunks for which it does |
| SpliceLimits.LastEditPanicsIff | internal/tools/apply_patch_format.go:377-392 | after ordered windows, one more replacement anywhere stops the splice exactly when the last window starts beyond the lines it leaves |
| SpliceLimits.NewLineSurvivesIff | internal/tools/apply_patch_format.go:377-392 | for any replacements, a new line is in the result exactly when no later applied replacement takes out the place where it then is |
| SpliceLimits.MarksAreInvisible | internal/tools/apply_patch_format.go:377-392 | following a line by a mark does not change what the splice does |
| SpliceLimits.EndOfFileEditIff | internal/tools/apply_patch_format.go:244-246 | for searched chunks and then an End-of-File chunk: exactly when the splice stops, and exactly when all new lines of the End-of-File chunk are in the result |
| SpliceLimits.EndOfFileEditCanBeLost | internal/tools/apply_patch_format.go:244-246 | a two-line file and two chunks whose second edit disappears |
| SpliceLimits.EndOfFileChunkCanPanic | internal/tools/apply_patch_format.go:387-388 | a three-line file and two chunks whose second one makes the splice stop |
| Splice.DeriveUpdatedContents | internal/tools/apply_patch_format.go:317-331 | the derived file is the closed splice of the original lines, or the error of the first chunk not found |
| Splice.OriginalLinesIff | internal/tools/apply_patch_format.go:317-321 | the lines of a file: terminating each gives the file back, but for a missing newline after a last line that is not blank |
| Splice.DerivedBytes | internal/tools/apply_patch_format.go:317-331 | the file is the spliced lines, each terminated, exactly when the last one is not blank; otherwise one newline shorter |
| PatchGrammar.ParseUpdateChunk | internal/tools/apply_patch_format.go:178-234 | the chunk and the number of lines it takes, or the specified error |
| PatchGrammar.ParseOneHunk | internal/tools/apply_patch_format.go:122-176 | the hunk under a header and the number of lines it takes, or the specified error |
| PatchGrammar.ParsePatch | internal/tools/apply_patch_format.go:57-120 | the hunks of a patch, through boundaries and here-documents, or the specified error |
| PatchLayout.ParsedChunkIff | internal/tools/apply_patch_format.go:178-234 | a chunk is read exactly where lines write one: a marker that only the first may lack, signed or empty lines, as many as there are, and perhaps an end-of-file mark |
| PatchLayout.ParsedChunkFailsIff | internal/tools/apply_patch_format.go:178-234 | and refused exactly for the reason told, with its line number |
| PatchLayout.ParsedHunkIff | internal/tools/apply_patch_format.go:122-176 | a hunk is read exactly where lines write one, white lines between chunks and white space around headers included |
| PatchLayout.ParsedHunkFailsIff | internal/tools/apply_patch_format.go:122-176 | and refused exactly for the reason told |
| PatchLayout.PatchIff | internal/tools/apply_patch_format.go:57-120 | which patches are accepted, and as which hunks: inside a here-document or not, all leniencies included |
| PatchLayout.PatchFailsIff | internal/tools/apply_patch_format.go:57-120 | and with which error each other patch is refused |
| PatchRoundTrip.BodyReadsEdits | internal/tools/apply_patch_format.go:200-232 | an edit script parses to its old-line and new-line projections |
| PatchRoundTrip.HunkReadsSection | internal/tools/apply_patch_format.go:122-176 | a printed section parses to its hunk and takes exactly its own lines, before any further header or the end |
| PatchRoundTrip.ParseUndoesPrint | internal/tools/apply_patch.go:15-29 | printing any well-formed hunk list in the documented grammar and parsing it gives the hunks back |
| PatchNormalForm.PrintingNormalizes | internal/tools/apply_patch_format.go:57-234 | conversely, printing the hunks of any patch that parses gives a patch in the documented grammar with the same hunks |
| PatchNormalForm.SomePatchIff | internal/tools/apply_patch_format.go:57-234 | exactly the non-empty lists of printable hunks are the hunks of some patch |
| PatchRoundTrip.HeredocIsTransparent | internal/tools/apply_patch_format.go:84-120 | a here-document with any of the accepted openings around lines that start and end as a patch changes nothing, whether they parse or not |
| PatchSpans.HunkIsLocal | internal/tools/apply_patch_format.go:122-176 | a hunk is determined by the lines it takes |
| PatchSpans.EveryLineInExactlyOneHunk | internal/tools/apply_patch_format.go:66-77 | the body of a parsed patch is cut into one span per hunk, each of which parses on its own to that hunk |
| ShellWords.ParsePlainShellCommands | internal/tools/exec_policy.go:122-205 | the byte loop with its quote and escape state computes the specified commands, opacity or error |
| LiveSyntax.ParsedIff | internal/tools/exec_policy.go:122-205 | by a scan of quotes and escapes alone, what each command is called: opaque exactly when something live comes first, bad when an operator dangles first, something stays open or the last command is empty, else plain, with the words that the scan keeps |
| LiveSyntax.PlainIsQuiet | internal/tools/exec_policy.go:161-182 | a plain command has no live expansion, redirection, group, new line or background job in it |
| LiveSyntax.WidenedDecodes | internal/tools/exec_policy.go:147-150 | a widened byte is the UTF-8 form of the character with its code |
| LiveSyntax.TrimmedEnds | internal/tools/exec_policy.go:123 | only white space at both ends of a command is dropped |
| SimpleWords.ParseSimpleCommand | internal/tools/exec_policy.go:255-308 | the loop over runes of the tokenizer for one command computes the specified words, opacity or error |
| SimpleSyntax.SimpleIff | internal/tools/exec_policy.go:255-308 | by the same scan, what each simple command is called, and with which words |
| ShellWords.QuotedCommandsParse | internal/tools/exec_policy.go:122-205 | quoted words joined by safe operators parse to the same commands, up to widened bytes and dropped empty words |
| ShellWords.QuotingRoundTripIff | internal/tools/exec_policy.go:122-205 | the round trip is exact if and only if all words are non-empty ASCII |
| SimpleWords.SimpleAgreesIff | internal/tools/exec_policy.go:122-205 | whenever the byte tokenizer yields one plain command, the rune tokenizer yields its words unwidened: the same words exactly when the command is ASCII |
| ShellWords.LexedWords | internal/tools/exec_policy.go:132-146 | parsed words are never empty, and ASCII for ASCII commands |
| ExecPolicy.ExecPolicy.constructor | internal/tools/exec_policy.go:42-63 | a policy starts with the stored rules of two words or more, or with a load error |
| ExecPolicy.ExecPolicy.Evaluate | internal/tools/exec_policy.go:66-116 | a command needs no approval exactly when it is plain and all read-only, or single, plain and under a stored rule; the first rule that matches, the proposal and both errors as specified |
| ExecPolicy.ExecPolicy.AddSessionRule | internal/tools/exec_policy.go:240-253 | a non-empty rule is added once |
| ExecPolicy.ExecPolicy.AddPersistentRule | internal/tools/exec_policy.go:208-237 | a rule of two words or more is added once, to file and memory together, or neither |
| ExecPolicy.PlainCommandsNonEmpty | internal/tools/exec_policy.go:88 | the first command and its first word exist whenever they are looked at |
| PolicyLaws.PassesIff | internal/tools/exec_policy.go:66-104 | what passes: a plain line of read-only commands, or of one command that starts with the words of a stored rule |
| PolicyLaws.LiveSyntaxNeverPasses | internal/tools/exec_policy.go:118-121 | nothing with a live expansion, redirection, group, new line or background job passes, whatever the rules |
| PolicyLaws.ProgramOfPath | internal/tools/exec_policy.go:311 | the program of a path is its last name |
| PolicyLaws.SafeArgumentIff | internal/tools/exec_policy.go:349-357 | an argument is refused exactly when, without the quotes at its ends, it is absolute or climbs to a parent directory |
| PolicyLaws.ReadOnlyIff | internal/tools/exec_policy.go:310-347 | the read-only commands: ten programs whose arguments do not climb, and git with harmless options, subcommand and arguments |
| PolicyLaws.ReadOnlyStaysInside | internal/tools/exec_policy.go:349-357 | no command that passes as read-only, git included, names an absolute path or a parent directory |
| PolicyLaws.MatchIff | internal/tools/exec_policy.go:81-102 | the reason named: read-only programs, else the first persistent rule that covers the command, else the first of the session |
| PolicyLaws.LoadedRulesAre | internal/tools/exec_policy.go:57-61 | a stored policy brings back its rules of two words or more, in order |
| PolicyLaws.RulesStayDistinct | internal/tools/exec_policy.go:208-253 | no rule is stored twice, and stored rules stay in place |
| ExecPolicy.SessionRuleEffect | internal/tools/exec_policy.go:98-102 | a session rule admits exactly the single plain commands it prefixes, and takes nothing away |
| ExecPolicy.PersistentRuleEffect | internal/tools/exec_policy.go:93-97 | so does a persistent rule that could be stored |
| ExecPolicy.RulesOnlyEnlarge | internal/tools/exec_policy.go:207-253 | no sequence of additions, failed ones included, takes a permission away |
| ExecPolicy.ProposalFits | internal/tools/exec_policy.go:359-376 | a proposal is a storable prefix of its command, and missing exactly for commands of one word |
| PolicyLaws.ProposedWords | internal/tools/exec_policy.go:359-376 | what is proposed: the requested prefix if it is one of two words or more, else three words of an npm, pnpm or yarn script, else two |
| ExecPolicy.StoringProposalAdmitsCommand | internal/tools/exec_policy.go:109-115 | storing the proposal makes the prompted command pass exactly when it has a second word |
| ExecPolicy.PatchAmendmentAlwaysFails | internal/tools/apply_patch.go:100-108 | the patch rule works for the session and is always refused for the file |
| ExecPolicy.RulesSurviveRestart | internal/tools/exec_policy.go:207-237 | after any additions, on any stored file, an unreadable one included, a restarted policy has the same persistent rules |
| ExecPolicy.QuotingKeepsVerdict | internal/tools/exec_policy.go:66-205 | an ASCII command and its fully quoted form get the same verdict |
| History.NormalizeForPrompt | internal/session/history.go:51-82 | the two loops drop outputs without a call and answer calls without an output |
| PromptShape.PromptLayout | internal/session/history.go:48-82 | the prompt is the history in its order, without the outputs nobody asked for, and with an output "aborted" directly behind every call nobody answered |
| PromptShape.LayoutIsPrompt | internal/session/history.go:48-82 | and no other sequence is |
| PromptShape.UnansweredCallIsAborted | internal/session/history.go:74-78 | a call of the prompt that no recorded output answers is followed at once by the output "aborted" |
| PromptShape.PromptOrderIff | internal/session/history.go:67-80 | in a prompt every output stands behind its call exactly when, in the history, every output of a recorded call does |
| History.PromptAnswersCalls | internal/model/fake.go:31-45 | every call of a prompt has an output, for any history |
| History.PromptMatchesOutputs | internal/session/history.go:69-73 | every output of a prompt belongs to a call |
| History.PairedHistoryUnchanged | internal/session/history.go:51-82 | a history whose calls and outputs are paired is left alone |
| History.NormalizationIdempotent | internal/session/history.go:51-82 | preparing a prompt twice is preparing it once, for any history |
| History.RepairKeepsTheRest | internal/session/history.go:67-80 | all other items, and recorded outputs of recorded calls, stay in order |
| History.ErrorReachesPromptIff | internal/session/turn.go:206-214 | whatever items are recorded after it, short of a compaction, the error of an unroutable call reaches the prompt exactly when the call has an identifier, or another call has the stand-in |
| TurnTask.CompactionDropsOutputs | internal/session/turn.go:136-146 | after a compaction no output, and so no such error, is in the prompt |
| History.ConversationHistory.RecordItems | internal/session/history.go:29-38 | the history grows by the items of the four known types |
| PromptShape.RecordedKinds | internal/session/history.go:29-38 | items of the four kinds are kept, in order, and no others |
| PromptShape.UserMessageCarries | internal/protocol/response_item.go:58-71 | a user message carries its text and its images, in order, and nothing else |
| History.ConversationHistory.Restore | internal/session/history.go:86-96 | the history becomes the replacement's items of those types |
| History.ConversationHistory.ForPrompt | internal/session/history.go:41-47 | the prompt is the repaired history and leaves it as it is |
| Rollout.RolloutRecorder.RecordItem | internal/session/rollout.go:418-441 | a payload becomes the next numbered line, or the recorder fails and stays failed |
| Rollout.RolloutRecorder.RecordEvent | internal/session/rollout.go:403-410 | events are recorded but for streaming deltas |
| Rollout.RolloutRecorder.RecordSessionMeta | internal/session/rollout.go:385-394 | only a new log gets a session line |
| Rollout.ReadRollout | internal/session/rollout.go:202-243 | the replayed items, compactions included, and the next ordinal, or the error of an over-long line |
| RolloutReads.ReplayedUncompacted | internal/session/rollout.go:225-230 | the conversation of a log that was never compacted is all its items |
| RolloutReads.ReplayedSinceCompaction | internal/session/rollout.go:231-237 | and else what its newest compaction left and the items since |
| RolloutReads.NextOrdinalIs | internal/session/rollout.go:221-223 | the next number is the least one beyond all numbers of any log |
| Rollout.ReplayedAppend | internal/session/rollout.go:225-237 | replaying one more line changes the filtered replay as the live history changes |
| Rollout.ReadRolloutEvents | internal/session/rollout.go:97-124 | the readable lines from the cursor on and the next cursor, also beside the error of an over-long line |
| RolloutReads.PageHolds | internal/session/rollout.go:111-119 | a page of any log holds the lines from the cursor on, in order |
| RolloutReads.CursorIs | internal/session/rollout.go:106-122 | the next cursor is the least one beyond them and not before the last |
| RolloutReads.ReadableIs | internal/session/rollout.go:108-123 | a reader gets to the first line of four megabytes or more |
| Rollout.PageIsTheRest | internal/session/rollout.go:115-121 | on a numbered log a page is the rest of the log |
| Rollout.ReopenKeepsNumbers | internal/session/rollout.go:171-184 | reopening goes on with the number after the last line |
| Rollout.EveryLineReceivedOnce | internal/session/rollout.go:97-124 | over all runs of writes, failures, reopenings and polls a client receives every line once, in order, and numbers have no gaps |
| Rollout.EveryLineFromTheStart | internal/session/rollout.go:97-124 | from an empty log on, the client holds exactly the lines before its cursor, and polling a readable log brings the rest |
| Rollout.OverlongLineBlocksReaders | internal/session/rollout.go:214-216 | after an over-long line nothing can be read or resumed, whatever follows |
| RolloutTurns.ReadRolloutTurns | internal/session/rollout.go:126-169 | the loop computes the fold of the log's payloads into turns |
| RolloutReads.AnyLogReads | internal/session/rollout.go:126-169 | the turns of any log, also of one no session would write: one per start event, with all items up to the next, the last closing event's ending and the last completion's report |
| RolloutReads.ItemsInOrder | internal/session/rollout.go:159-165 | the items of a log, in order and nothing else |
| RolloutTurns.ReadingBlocks | internal/session/rollout.go:126-169 | reading any sequence of blocks gives one turn per block, with its items and its closing event's status |
| RolloutTurns.ForkHasNoTurns | internal/session/rollout.go:140-143 | a log without start events shows no turns |
| RolloutFlow.ReadRolloutFlow | internal/session/rollout.go:247-350 | the one-pass summary is its declarative meaning: counts, durations, and exact token sums if any turn reported usage, else estimates |
| RolloutFlow.FlowGrows | internal/session/rollout.go:261-342 | how each kind of line changes counts and token sums, and when estimates give way to exact usage |
| RolloutFlow.DurationOfFlow | internal/session/rollout.go:345-347 | the duration is what completed turns report, or else the time between the first and the last item with a readable time |
| RolloutFlow.DurationReported | internal/session/rollout.go:270-272 | only completed turns count towards it |
| RolloutFlow.EstimateIsCeiling | internal/session/rollout.go:369-374 | an estimate is a quarter of the bytes, rounded up |
| RolloutFlow.BytesOfText | internal/session/rollout.go:373 | the bytes of a text are those of its characters in UTF-8 |
| RolloutFlow.ResumedTotals | internal/session/rollout.go:273-279 | once either part of a log has exact usage, the whole has exact sums only |
| RolloutFork.WriteRollout | internal/session/rollout.go:187-199 | a fork without error replays to exactly its items and shows no turns; with items already there it writes nothing; a failed one leaves a beginning |
| TurnTask.RunningTask.EnqueueInput | internal/session/session.go:770-778 | input is appended exactly while it is accepted |
| TurnTask.RunningTask.TakePendingInput | internal/session/session.go:780-789 | taking empties the inbox, and closes it exactly when it was empty and need not stay open |
| TurnTask.RunningTask.Abort | internal/session/session.go:757-762 | aborting records the reason and cancels the turn |
| TurnTask.BuildReplacement | internal/session/turn.go:136-142 | a compacted history is the summary and the newest user message |
| TurnTask.CompactionSettles | internal/session/turn.go:87-89 | a compacted history passes every filter unchanged, keeps the newest user message, and is too short to be compacted again |
| TurnTask.CompactionIsNotRepeated | internal/session/turn.go:87-135 | a history that was just compacted is not compacted again, and no compaction leaves a blank summary |
| TurnTask.SchedulingIsInvisible | internal/session/turn.go:239-258 | in whatever order the tools of a batch finish, the records are, call by call, the output of its own tool and the report of it |
| TurnSampling.RunSamplingRequest | internal/session/turn.go:154-279 | told by the events of the stream alone: every call with a name and an identifier is started and, if the response completes, completed, in order, with the output of its own tool directly before; errors answer the other calls; the other items are those of the stream and the text no item told; the model is asked again exactly if it called; and the request fails exactly if the response did not complete. The loop does to the turn what the turn's steps do |
| TurnAccounting.InboxStep | internal/session/turn.go:65-76 | accepted input is taken or pending, in order, and the inbox is closed exactly when the loop has returned without an error |
| TurnAccounting.UsersStep | internal/session/turn.go:65-84 | for all streams: the user messages recorded interleave the input taken, in order, with what the stream itself held |
| TurnAccounting.SteerAccount | internal/session/turn.go:65-76 | at every moment accepted input is taken or pending, and what is recorded or about to be are the inputs taken, in order, among what the streams held |
| TurnAccounting.SteerDelivered | internal/session/turn.go:65-76 | a turn that completes without an error has recorded every accepted input once, in order of acceptance |
| TurnAccounting.CallsStep | internal/session/turn.go:206-258 | completed calls are the started ones, in order, but for those of the current response |
| TurnAccounting.BroughtStep | internal/session/turn.go:239-256 | the outputs reported so far are what the tools of those calls brought, and the slots of the running ones hold what theirs have |
| TurnAccounting.SlotsMove | internal/session/turn.go:239-250 | a slot is filled by the end of its own tool, and by nothing else |
| TurnAccounting.ReportedStep | internal/session/turn.go:201-256 | each start and completion event directly follows the call or output it reports |
| TurnAccounting.OwingStep | internal/session/turn.go:198-258 | every output answers one earlier unanswered call; only calls of the current response are unanswered |
| TurnAccounting.OwingBalances | internal/session/turn.go:252-258 | the account of owed outputs is the difference between calls and outputs |
| TurnAccounting.OutputsFollowCalls | internal/session/turn.go:252-258 | at no point are there more outputs for an identifier than calls before them |
| TurnAccounting.CallsAnswered | internal/session/turn.go:239-258 | a turn that completes without an error has completed every call once, in order, and owes no output |
| TurnAccounting.BlockStep | internal/session/task.go:44-90 | a turn records one block, closed exactly once, by the event that tells its outcome |
| SessionInvariant.LogRecorded | internal/session/session.go:627-630 | recording keeps log, history and snapshot in agreement, whether or not the write succeeds |
| SessionInvariant.StepConsistent | internal/session/session.go:328-379 | every step of loop, turns, recorder and restarts keeps log, history, blocks and loop in agreement |
| SessionInvariant.BootConsistent | internal/session/session.go:179-191 | a session opened on any readable log starts in agreement |
| SessionInvariant.RunConsistent | internal/session/session.go:328-379 | so does every state of every run |
| SessionInvariant.RestartedBlocks | internal/session/rollout.go:171-184 | what the log holds when a process ends are its blocks, of which only the newest can be cut |
| SessionTheorems.ReachableIsConsistent | internal/session/session.go:328-379 | every state of every run from any readable log is consistent |
| SessionTheorems.LogOnlyGrows | internal/session/rollout.go:418-441 | the log only grows, over all runs, failures and restarts included |
| SessionTheorems.LogIsIntroduced | internal/session/rollout.go:385-394 | a new log starts with the session line, if it can be written, and a log that goes on gets none |
| SessionTheorems.LogReplaysToHistory | internal/session/session.go:627-630 | the filtered replay of the log is the live history as of the last successful write |
| SessionTheorems.ResumeRestoresHistory | internal/session/session.go:179-188 | a resumed process starts from exactly that history, whenever the last one ended |
| SessionTheorems.FailureFreezesLog | internal/session/rollout.go:424-440 | after a failed write log and snapshot stay as they are, over any run, until reopened |
| SessionTheorems.LogIsBlocks | internal/session/rollout.go:126-169 | the log is a sequence of blocks, only the last of a process can be open, and its turns are theirs, one each |
| SessionTheorems.HealthyLogIsComplete | internal/session/task.go:20-30 | while the recorder works the log holds every block, complete |
| SessionTheorems.StatusTellsOutcome | internal/session/rollout.go:140-158 | the stored status, error and items are the turn's outcome and items |
| SessionTheorems.TurnInLog | internal/session/rollout.go:126-169 | reading the turns of the log shows every turn of the process in its place, with its identifier, items and outcome |
| SessionTheorems.OneTurnRuns | internal/session/task.go:10-42 | at most one turn runs, and it is the active one |
| SessionTheorems.ToolsRunInActiveTurn | internal/session/session.go:632-637 | a tool call that asks for approval does so in the name of its own turn |
| SessionTheorems.StartReplacesNothing | internal/session/session.go:697-717 | a new turn starts only when all others are over and closed |
| SessionTheorems.ShutdownClosesTurns | internal/session/session.go:368-370 | after a shutdown every turn is over and closed |
| SessionTheorems.SteerHitsNamedTurn | internal/session/session.go:697-710 | input is accepted only by the turn the loop found, never by another than the one named, though turns can end in between |
| SessionTheorems.InterruptHitsNamedTurn | internal/session/task.go:33-42 | only the turn that the loop found active is aborted, never another than the one named, though it can end in between |
| LoopEffects.InterruptIsCarriedThrough | internal/session/session.go:348-354 | over all runs, after an interrupt that names the active turn or none, the loop does nothing else before that turn is over |
| LoopEffects.AbortTakesEffect | internal/session/task.go:33-63 | over all runs, after a turn is aborted the loop waits until it is gone; if it had not ended before, it ends as aborted for that reason, and its block is closed by an event that says so; else it keeps its outcome |
| LoopEffects.InterruptWithoutTurn | internal/session/session.go:350-353 | an interrupt changes nothing exactly when it names a turn that is not active, and one that names none is over once the loop has found no turn |
| LoopEffects.InputRefusedIff | internal/session/session.go:692-715 | input is refused, and changes nothing, exactly if it is empty or names a turn that is not the active one |
| LoopEffects.SteerIsDelivered | internal/session/session.go:697-711 | over all runs, input for the active turn is kept until it is delivered, at the end of what waits there, if the turn still accepts input |
| LoopEffects.InputStartsTurn | internal/session/session.go:716-718 | over all runs, after input that finds no active turn the loop does nothing else before the next turn is the one with its identifier and input |
| LoopEffects.ShutdownIsFinal | internal/session/session.go:368-370 | in no run after a shutdown does the loop take another submission |
| SessionTheorems.BlockInLog | internal/session/task.go:20-30 | where in the log each turn's block is |
| SessionTheorems.AcceptedSteerIsLogged | internal/session/session.go:770-789 | once a turn has completed without an error, its block in the log holds every accepted input once, in order, among what the streams held |
| SessionTheorems.CallsAnsweredInLog | internal/session/turn.go:239-258 | and there every started call is completed, in order, with the output its own tool brought; calls and outputs balance, and outputs follow their calls |
| SessionTheorems.ToolBringsOwnOutput | internal/session/turn.go:239-250 | in every reachable state, what a finished tool brings is noted for its own call, which had nothing noted before |
| SessionTheorems.OnlyToolsBring | internal/session/turn.go:239-250 | nothing else changes what is noted |
| SessionTheorems.UntakenInputIsLost | internal/session/turn.go:52-55 | after a turn's loop has returned, no run makes it take or record more input |
| SessionTheorems.LateSteerAcceptedIffFailed | internal/session/session.go:705-710 | input that arrives then is accepted exactly when the loop returned with an error |
| LostSteer.SteerCanBeLost | internal/session/session.go:697-710 | a run from an empty log to such a delivery; the input is accepted, and no run from there takes it |
| SessionTheorems.ToolOrderIsInvisible | internal/session/turn.go:239-258 | for every order in which the tools finish, the turn records, call by call, the output of its own tool and the report of it, and then streamed text that no item told |
| SessionProgress.TurnNeverStuck | internal/session/turn.go:35-78 | whatever the history, a turn that is not over and has made its records can act |
| SessionProgress.TurnCanEnd | internal/session/task.go:20-30 | from any consistent state a turn can come to its end without the loop |
| SessionProgress.ShutdownCanFinish | internal/session/session.go:328-379 | from every reachable state some run of the process shuts it down, so no wait is for ever |
| PromptTheorems.PromptKeepsLast | internal/session/history.go:67-80 | preparing a prompt keeps the newest user message the newest |
| PromptTheorems.GroundedStep | internal/session/turn.go:44-55 | every step keeps the newest user message of the history the newest the turn has recorded |
| PromptTheorems.EveryPromptIsGrounded | internal/session/turn.go:44-55 | in all runs every prompt sampled is non-empty, paired, and has the turn's newest user message, across compactions |
| Approvals.SafeStep | internal/session/session.go:632-684 | every step keeps decisions with the call and turn they were submitted for, one request each |
| Approvals.DecisionsReachTheirCall | internal/session/session.go:669-684 | in all runs a received decision was submitted with the request's own call and turn, and no other request received it |
| Approvals.ReceivedOnce | internal/session/session.go:650-655 | what a request has received stays what it received |
| Approvals.SubmittedDecisionArrives | internal/session/session.go:650-684 | over all runs, a decision submitted for a waiting request in the table is the one it receives, unless it is cancelled first |
| Approvals.OrphanIsNeverAnswered | internal/session/session.go:638-655 | a request that waits outside the table never receives one, in any run |
| Approvals.AnswerableIff | internal/session/session.go:632-684 | a waiting request can still receive a decision exactly when it is in the table or one is on its way |
| Approvals.SharedCallOrphans | internal/session/session.go:635-642 | a second request for the same call puts the first outside the table |
| Approvals.LeavingOrphans | internal/session/session.go:638-642 | a request that leaves takes the entry of another one for the same call along |
| Approvals.BothCanBeOrphaned | internal/session/session.go:635-642 | a run of two requests for one call that orphans the first, and then the second |
| Approvals.StepKeepsRegisteredIff | internal/session/session.go:635-642 | a step keeps all open requests in the table exactly when it registers none for a call that has an open one |
| Approvals.RunKeepsRegisteredIff | internal/session/session.go:632-642 | so does a run, from any such state |
| Approvals.EveryRequestStaysInTableIff | internal/session/session.go:632-642 | and every run from the start |
| Approvals.StepStrandsNoneIff | internal/session/session.go:635-642 | a step keeps all waiting requests answerable exactly when it touches no entry that another one waiting about the same call still needs |
| Approvals.RunStrandsNoneIff | internal/session/session.go:632-684 | so does a run, from any such state |
| Approvals.EveryRequestStaysAnswerableIff | internal/session/session.go:632-684 | and every run from the start |
| Approvals.RivalsCanBothBeAnswered | internal/session/session.go:632-684 | a run that takes over an entry, strands nobody and answers both requests |
| SessionApprovals.DecisionsReachTheirTurn | internal/session/session.go:632-684 | in all runs of session and desk together, a received decision was submitted with the call and the very turn of the tool that asked |

## Left out

- HTTP handlers, GUI, notifications, thread metadata, extensions, MCP, elicitations, hooks and the exec server: plumbing, network and file system.
- Model networking: a stream is any sequence of deltas, items, completions and one error; retries are not modelled.
- The bounded event channel to clients, and the replies to submissions: what happened is stated on the turns and the log.
- Sandboxes, pseudo-terminals, path resolution, and applying hunks to the file system.
- The process id table, yield times, and the terminal clean-up of collected text.
- JSON: a log line is a record with its length in bytes; torn and undecodable lines, and lines a reader skips because they do not decode, are not modelled.
- Time and identifiers are inputs; nothing depends on identifiers of turns being distinct.
- The token threshold of compaction: a turn may compact whenever its prompt is long enough, which covers every threshold. The instructions that extensions add to an input are a parameter, and the stream of the summary is reduced to its result.
- Which last message, usage and times a closing event carries: they are inputs of the step; its error, reason and turn are not.
- Records of a turn are made one at a time, but live history and log change in one step: only the turn's own goroutine writes either.
- The timeline nodes of the flow reader, and summaries of messages: presentation.
- Commands are bytes of valid UTF-8: other bytes, and Unicode white space at the ends of commands are not modelled, and paths are Unix paths.
- ProcessOutput.SynchronizedBuffer.Collect: the terminal clean-up of the text and the rounding of the total to tokens are not modelled.
- ShellWords.ParsePlainShellCommands: the words returned for commands with other syntax are not modelled.
- Rollout.ReadRollout: lines that do not decode, and their errors, are not modelled.
- RolloutTurns.ReadRolloutTurns: it starts from the payloads, so the reader's errors are not modelled; they are those of Rollout.ReadRolloutEvents.
- RolloutFlow.ReadRolloutFlow: timeline nodes and read errors are not modelled.
- RolloutFork.WriteRollout: failures of syncing and closing the file are not modelled.
- TurnSampling.RunSamplingRequest: one uninterrupted stream; errors and cancellation of a stream are steps of the turn in TurnTask.Records, and the last message and usage are not modelled.
- Approvals.DecisionsReachTheirCall: the turn a request names is an input; in SessionApprovals.DecisionsReachTheirTurn it is the asking tool's own.
- SimpleWords.ParseSimpleCommand: the words returned for commands with other syntax are not modelled.
- Rollout.ReadRolloutEvents: lines that do not decode are not modelled.
- TurnAccounting.CallsAnswered: that nothing is owed assumes streams that hold no tool outputs of their own.
- TurnAccounting.OwingStep: stated for streams that hold no tool outputs of their own, which nothing in the original rules out.
