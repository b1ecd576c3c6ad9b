# CppOptimizer: a verified model of its state machines and codecs

CppOptimizer observes a Windows machine and applies small, reversible optimisations. Its calls into
the operating system sit behind replaceable backends; behind them are codecs, reference counts,
crash protocols and queues that can be reasoned about from the text. This project models those
parts in Dafny and proves what they promise over whole runs.

- **Audit trail** (`AuditLines`, `AuditSummaryCodec`, `AuditFold`, `AuditTrail`): audit lines are
  aggregated into summary lines and summary lines folded into one. Over every run of appends,
  compactions and folds the counts per operation are conserved and no unparsable line is lost.
- **Agent protocol** (`IpcProtocol`, `IpcFacts`, `IpcSession`, `IpcLockstep`, `ReportPacing`): the
  16-byte header, the CPOPFACTS/1 text, the server loop against every backend behaviour, client
  and server in lockstep over byte streams, and the saturating report pacing.
- **Power scheme** (`PowerSchemeRecord`, `PowerSchemeRecovery`): a write-ahead record around a global
  switch, with a crash possible after every state change.
- **Leases** (`PriorityBooster`, `PowerLocker`, `PolicyExecutor`, `PolicyEngine`): priority leases,
  power requests, the executor that reconciles both with a desired state, and the debounced policy.
- **Log queue** (`AsyncLogQueue`): the bounded queue with priority eviction, as atomic steps at the
  borders of its mutex.
- **Processes and cooldowns** (`ProcessDiff`, `GameIds`, `CooldownLedger`): the diff of process tables,
  unique game ids, and the ledger behind the cooldown gate.

`Text` holds what the codecs share: searching, decimal numbers with the overflow guard of the
source, and lines.

Where the source changes things step by step, the model is a method with the same loops or a class
with the same fields, proved equal to a function on values; the theorems are about those functions
and about runs of them. Every answer of the operating system is a parameter, so a theorem without a
condition on it holds for every backend. Strings of bytes are `seq<char>`, unsigned counters wrap at
2^64 where the audit code adds them, and clock readings are plain integers. For every main
operation some lemmas say what its outcome is in terms of files, bytes, numbers and answers, without
the functions it is built from: limits, codes, classes and formats appear in them as they are. Lemmas carry
`{:induction false}`: what a proof needs is written in its body.

Where the code does not do what one would expect, the model follows the code, shows the failing
case and states the exact condition:

- A compaction whose summary flush or crash comes after the summary text reached the file counts the
  old records twice. A failed replacement is rolled back, but when the size query before it failed
  the rollback cuts the summary to length 0 although the comment there promises no rollback
  (`AuditTrail.CompactConservesIffSafe`).
- With the default options only the line count can trigger a compaction, because the 10 MiB size
  trigger lies above the 8 MiB read cap (`AuditTrail.DefaultsTriggerByLinesOnly`).
- The facts summary can be 481 bytes long, one more than its own limit. It is so exactly when the
  first entry that does not fit finds 477 bytes written (`IpcFacts.SummaryExceedsIff`).
- The apply command skips the recovery when the record cannot be read; if it then writes its own
  record over an open one, the way back is lost (`PowerSchemeRecovery.OrderMattersExactly`).
- Acquiring a boost for another process under a lease with a count above 1 leaks the old handle
  (`PriorityBooster.AcquireKeepsHandlesIff`). Processes that are no longer leased always have their
  pre-boost class exactly when all games ask for one level (`PriorityBooster.AlwaysRestoresIffOneLevel`),
  and even then a process may lose its boost while a lease on it is left
  (`PriorityBooster.ReleaseKeepsLeasedBoostedIff`).
- The executor takes the empty game id for "nothing held" (`PolicyExecutor.InStepIffNamed`).
- An eviction raises the pushed number for good, so a flush of a drained queue returns exactly when
  its target leaves room for the evictions (`AsyncLogQueue.FlushReturnsIff`).
- An unknown creation time between two processes with one pid hides the restart. A generation keeps
  one creation time exactly when no tracked process that is found again changes between a known and an
  unknown time (`ProcessDiff.OneTimePerGenerationIffSteady`).
- Ids with '=', ranges that open with dots and sums beyond the parser's limit are outside the summary
  format. A completed compaction keeps every count exactly when no id of the compacted lines holds '='
  and their first time stamp is neither a dot nor begins with two, provided that the summary file ends
  in a newline and no stamp hides a summary's marker (`AuditTrail.CompactConservesIffReadable`). A fold
  keeps every sum exactly when none reaches the limit (`AuditTrail.FoldConservesIffNoOverflow`).
- An oversized request is refused by its header, and its payload stays unread beside the error. The
  channels of a session carry bytes in at most one direction exactly when no request that can be
  reached is oversized (`IpcLockstep.OneWayIffNothingOversized`).
- The transitions of a restart do not fit each other: it goes from its exit straight to a start that
  claims to come from "not running" (`ProcessDiff.StrictReplayIff`).
- A log record that evicts one overtakes what was queued behind its victim, so order is kept exactly
  when the victim stood last (`AsyncLogQueue.OrderIsKeptIff`).
- A capability id with a space or a line break is never remembered by the cooldown ledger
  (`CooldownLedger.RecordedRunIsRememberedIff`), and one with a space may overwrite the entry of another
  capability (`CooldownLedger.UncleanRecordReads`).

## Model

| member | source | states |
|---|---|---|
| `AuditLines.Sanitized` | source/audit/audit_log.cpp:52-56 | a sanitized field has the same length, no control characters, a blank where the field has one, and every other character as it was |
| `AuditLines.AppendSanitized` | source/audit/audit_log.cpp:52-56 | the loop appends exactly the sanitized field |
| `AuditLines.WrittenLineParses` | source/audit/audit_log.cpp:91-106 | every line written for a record with a one-word id and a timestamp parses back to its timestamp, id and outcome |
| `AuditLines.LineText` | source/audit/audit_log.cpp:91-106 | the text of an audit line, word by word |
| `AuditLines.UnstampedLineIsUnparsable` | source/audit/audit_log.cpp:183-220 | a line written without a timestamp never parses |
| `AuditLines.ParsedIdIsAWord` | source/audit/audit_log.cpp:183-220 | whatever line parses, its id is one non-empty word and its timestamp is not empty |
| `AuditLines.SummarizeAuditLines` | source/audit/audit_log.cpp:222-260 | the loops over lines and entries compute the summary of the lines |
| `AuditLines.SummarizeCounts` | source/audit/audit_log.cpp:222-260 | the summary counts, for every id and outcome, exactly the parsable lines with it; its totals add up |
| `AuditLines.SummarizeFields` | source/audit/audit_log.cpp:222-260 | the four totals are the numbers of parsable lines with that outcome and of the others |
| `AuditLines.SummarizeRange` | source/audit/audit_log.cpp:222-260 | the range runs from the stamp of the first parsable line to that of the last |
| `Text.ParseDigits` | source/audit/audit_log.cpp:560-576 | the guarded digit loop accepts exactly the digit strings whose value is below 18446744073709551610 |
| `Text.DecimalParses` | source/audit/audit_log.cpp:560-576 | a printed number is read back exactly when it is below that limit |
| `AuditSummaryCodec.ReadDigits` | source/audit/audit_log.cpp:60-84 | the digit loop inside a line reads the maximal run of digits under the same limit |
| `AuditSummaryCodec.ExtractCountLoop` | source/audit/audit_log.cpp:60-84 | the count after a key is that run after the key's first occurrence |
| `AuditSummaryCodec.FormatAuditSummaryLine` | source/audit/audit_log.cpp:272-295 | the printing loop produces the summary line of the codec |
| `AuditSummaryCodec.SummaryText` | source/audit/audit_log.cpp:272-295 | the text of a summary line up to its operations, word by word |
| `AuditSummaryCodec.OpsTextOf` | source/audit/audit_log.cpp:287-293 | the text of each operation |
| `AuditSummaryCodec.ParseAuditSummaryLine` | source/audit/audit_log.cpp:615-667 | the parsing loops accept and return what the parser on values does |
| `AuditSummaryCodec.SummaryRoundTrip` | source/audit/audit_log.cpp:272-295 | a printable summary is read back exactly when all counts are below the limit and no id holds '='; otherwise it is refused |
| `AuditSummaryCodec.LooseRoundTrip` | source/audit/audit_log.cpp:615-667 | with any stamps that hide no marker the counts are read back exactly when they fit and the range does not open with dots |
| `AuditSummaryCodec.OpWithEqualsIsRefused` | source/audit/audit_log.cpp:579-598 | the entry of an operation whose id holds '=' is refused whatever its counts |
| `AuditSummaryCodec.ParsedIsPrintable` | source/audit/audit_log.cpp:615-667 | every line that parses, whoever wrote it, yields a summary that prints and reads back |
| `AuditSummaryCodec.LineIsAcceptedIff` | source/audit/audit_log.cpp:615-667 | any line is accepted exactly when it holds the marker, a range or none, four counts below the limit and then only well-formed entries |
| `AuditFold.AnalyzeAuditSummaryLines` | source/audit/audit_log.cpp:669-691 | the loop computes the totals over the parsable lines |
| `AuditFold.MergeSummaryLines` | source/audit/audit_log.cpp:904-972 | the merge loop yields the merged record, the unparsable lines in order and the number of merged lines |
| `AuditFold.KeptIffUnreadable` | source/audit/audit_log.cpp:904-918 | a line is kept, in its place, exactly when it cannot be read as a summary |
| `AuditFold.MergedRange` | source/audit/audit_log.cpp:944-950 | the merged range starts with the first summary that has a range and ends with the last one that has |
| `AuditFold.MergedFieldsAreSums` | source/audit/audit_log.cpp:904-972 | without overflow each field of the merged record is the sum over the lines |
| `AuditFold.MergedTalliesAreSums` | source/audit/audit_log.cpp:904-972 | without overflow the merged counts of every operation are the sums over the lines |
| `AuditFold.MergedLineParses` | source/audit/audit_log.cpp:904-972 | the merged line re-parses to exactly the merged record |
| `AuditFold.FoldKeepsMerged` | source/audit/audit_log.cpp:904-972 | folding keeps the merged record and the unparsable lines and leaves at most one range |
| `AuditFold.FoldKeepsTotals` | source/audit/audit_log.cpp:860-1027 | folding changes no field of the analysis but the number of ranges |
| `AuditFold.FoldKeepsCounts` | source/audit/audit_log.cpp:860-1027 | folding keeps the sums per operation and outcome |
| `AuditFold.FoldIsIdempotent` | source/audit/audit_log.cpp:860-1027 | folding twice is folding once |
| `AuditFold.FoldKeepsSumsIff` | source/audit/audit_log.cpp:904-972 | on lines: every true sum survives a rewriting fold if and only if none reaches the limit |
| `AuditFold.FoldedFileSays` | source/audit/audit_log.cpp:904-972 | a folded file says what the merged record says if its counts fit, and nothing otherwise |
| `AuditTrail.AuditStore.AppendAuditLine` | source/audit/audit_log.cpp:414-444 | the line is in the file exactly if it was written, and success is reported only if the flush confirms it |
| `AuditTrail.AuditStore.CompactAuditFile` | source/audit/audit_log.cpp:700-858 | the two files and the whole report for every point of failure, and exactly when it fails; the rows from `AuditTrail.CompactsIff` on say what they are |
| `AuditTrail.CompactsIff` | source/audit/audit_log.cpp:262-270 | a compaction rewrites exactly when the file is at most 8 MiB, a threshold other than 0 is reached and some line before the kept tail is parsable |
| `AuditTrail.CompactionKeepsTheTail` | source/audit/audit_log.cpp:751-786 | of n lines the last min(keepTailLines, n) stay as they are, behind the unparsable ones before them and followed by the own record; the summary file gets one line for the part before the tail |
| `AuditTrail.CompactionRecordIs` | source/audit/audit_log.cpp:773-785 | the record a compaction writes about itself |
| `AuditTrail.CompactionNumbersAre` | source/audit/audit_log.cpp:778-784 | its numbers: lines before and after, aggregated and kept |
| `AuditTrail.CompactionReports` | source/audit/audit_log.cpp:747-772 | the reported numbers of lines before, after, aggregated and kept, for any options |
| `AuditTrail.DefaultsKeepTwoThousand` | include/audit/audit_log.hpp:103-108 | with the default options and 20000 readable lines 18000 are aggregated and the last 2000 stay |
| `AuditTrail.CompactFailsIff` | source/audit/audit_log.cpp:700-858 | when a compaction is reported as failed |
| `AuditTrail.FailedCompactionLeaves` | source/audit/audit_log.cpp:788-850 | what each point of failure leaves of the two files |
| `AuditTrail.UnparsableIffUnreadable` | source/audit/audit_log.cpp:758-763 | a line of the compacted part stays, in its place, exactly when it cannot be parsed |
| `AuditTrail.AuditStore.FoldAuditSummaryFile` | source/audit/audit_log.cpp:860-1027 | the two files and the whole report: left alone below the limit, refused over the cap, folded and recorded, folded without a record when the name leads to no audit file, or failed; the rows from `AuditTrail.FoldsIff` on say which |
| `AuditTrail.FoldsIff` | source/audit/audit_log.cpp:892-977 | a fold rewrites exactly when the limit is not 0 and reached, the file is at most 64 MiB and two lines can be read |
| `AuditTrail.FoldLeavesOneSummary` | source/audit/audit_log.cpp:970-1026 | one line for all summaries, then every other line; the reported numbers; the record where there is an audit file |
| `AuditTrail.FoldRecordIs` | source/audit/audit_log.cpp:1007-1019 | the record a fold writes about itself, with its numbers |
| `AuditTrail.FoldFailsIff` | source/audit/audit_log.cpp:860-1027 | when a fold is reported as failed, when it changes nothing, and the report when there is nothing to fold |
| `AuditTrail.SummaryLeadsBack` | source/audit/audit_log.cpp:600-611 | the name of an audit file's summary leads back to that audit file |
| `AuditTrail.OnlySummariesLeadBack` | source/audit/audit_log.cpp:600-611 | only a name with the suffix behind something else leads to an audit file |
| `AuditTrail.KeepUnparsable` | source/audit/audit_log.cpp:700-858 | the retained lines of the compacted part are its unparsable lines in order |
| `AuditTrail.SummaryLineStandsForHead` | source/audit/audit_log.cpp:700-858 | for a well-formed trail the appended summary line is read back with every count of the compacted lines, and whole if their first stamp has no dot |
| `AuditTrail.CompactBalance` | source/audit/audit_log.cpp:700-858 | for every point of failure, how many records are counted twice or erased |
| `AuditTrail.CompactConservesIffSafe` | source/audit/audit_log.cpp:808-858 | a rewriting compaction conserves all counts exactly under the outcomes named safe |
| `AuditTrail.CompactConservesIffReadable` | source/audit/audit_log.cpp:700-858 | for any ids and stamps that hide no summary marker, a completed compaction conserves all counts if and only if no id of the compacted lines holds '=' and their first stamp is neither a dot nor begins with two |
| `AuditTrail.FoldConserves` | source/audit/audit_log.cpp:860-1027 | a fold conserves all counts and every unparsable line, its own record included |
| `AuditTrail.FoldConservesIffNoOverflow` | source/audit/audit_log.cpp:860-1027 | a fold keeps every sum of the summary file if and only if none reaches the parser's limit |
| `AuditTrail.StepConserves` | source/audit/audit_log.cpp:700-1027 | every append, compaction or fold adds to the trail exactly what it wrote |
| `AuditTrail.NothingIsLost` | source/audit/audit_log.cpp:700-1027 | over every run, live lines plus summaries count for each id and outcome exactly the records written, and unparsable lines survive verbatim and in order |
| `AuditTrail.DefaultsTriggerByLinesOnly` | include/audit/audit_log.hpp:103-108 | with the default options and a readable file, compaction triggers exactly from 20000 lines on |
| `IpcProtocol.ParseMessageType` | source/ipc/ipc_protocol.cpp:41-53 | a byte is accepted as a type exactly when it is the byte of that type |
| `IpcProtocol.ValidHeaderIff` | source/ipc/ipc_protocol.cpp:65-86 | the magic, version, types, reserved field and length that are accepted, by number |
| `IpcProtocol.HeaderLayout` | source/ipc/ipc_protocol.cpp:88-97 | the place and byte order of every field |
| `IpcProtocol.WriteU32LE` | source/ipc/ipc_protocol.cpp:19-23 | writes the four little-endian bytes and touches no other |
| `IpcProtocol.ReadU32LE` | source/ipc/ipc_protocol.cpp:8-16 | the loop reads the little-endian number |
| `IpcProtocol.SerializeHeader` | source/ipc/ipc_protocol.cpp:88-97 | the buffer holds the 16 header bytes |
| `IpcProtocol.HeaderRoundTrip` | source/ipc/ipc_protocol.cpp:88-117 | serialized headers parse back exactly when they are valid |
| `IpcProtocol.HeaderUnique` | source/ipc/ipc_protocol.cpp:99-117 | accepted bytes are the only serialization of a valid header |
| `IpcFacts.ValidateFacts` | source/ipc/ipc_facts.cpp:38-87 | the nested loops accept exactly the valid lists: keys, values, number, no key twice |
| `IpcFacts.FactsAreValidIff` | source/ipc/ipc_facts.cpp:38-87 | the limits on number, keys and values, by number and character |
| `IpcFacts.SerializeFactsV1` | source/ipc/ipc_facts.cpp:188-203 | the loop produces the joined lines, or nothing for an invalid list |
| `IpcFacts.PayloadLines` | source/ipc/ipc_facts.cpp:188-203 | the payload line by line |
| `IpcFacts.ParseFactsV1` | source/ipc/ipc_facts.cpp:114-186 | the character and line loops accept and return what the parser on values does |
| `IpcFacts.FactsRoundTrip` | source/ipc/ipc_facts.cpp:114-203 | parsing the serialization of any valid list gives the list |
| `IpcFacts.AcceptedPayloadIsCanonical` | source/ipc/ipc_facts.cpp:114-203 | every accepted payload is the serialization of what was parsed |
| `IpcFacts.FormatFactsSummary` | source/ipc/ipc_facts.cpp:205-241 | the loop produces the summary text |
| `IpcFacts.SummaryShows` | source/ipc/ipc_facts.cpp:205-241 | the summary is the number of facts without the credential and as many of their lines, from the first on, as fit with three bytes to spare, then an ellipsis |
| `IpcFacts.LeftOutIff` | source/ipc/ipc_facts.cpp:205-241 | a fact is left out of the summary exactly when it is the credential |
| `IpcFacts.SummaryIgnoresToken` | source/ipc/ipc_facts.cpp:205-241 | the summary is the same with the agent token removed |
| `IpcFacts.SummaryIsShort` | source/ipc/ipc_facts.cpp:205-241 | no summary is longer than 481 bytes |
| `IpcFacts.SummaryExceedsIff` | source/ipc/ipc_facts.cpp:205-241 | a summary passes 480 bytes if and only if the first echoed entry that does not fit finds exactly 477 |
| `IpcFacts.SummaryReaches481` | source/ipc/ipc_facts.cpp:231-232 | the case happens: a valid list whose summary has 481 bytes |
| `IpcFacts.ParseUint32Loop` | source/ipc/ipc_facts.cpp:90-106 | the loop accepts exactly the digit strings of 32-bit numbers |
| `IpcFacts.ValidateFactsV1Schema` | source/ipc/ipc_facts.cpp:258-337 | accepts exactly the lists whose known keys have suitable values and whose memory numbers agree |
| `IpcFacts.SchemaOfKeys` | source/ipc/ipc_facts.cpp:258-322 | for every key and value, known or not, whether the schema takes it |
| `IpcFacts.SchemaHoldsIff` | source/ipc/ipc_facts.cpp:258-337 | a list is accepted exactly when every fact suits its key, one is no credential, and no more memory is available than there is |
| `IpcSession.FrameCut` | source/ipc/ipc_session.cpp:19-31 | a frame is cut into its header, which parses if its payload is not too long, and its payload |
| `IpcSession.DefaultReplyIsValid` | source/ipc/ipc_session.cpp:414-463 | every reply of the default handler, as `IpcSession.DefaultAnswers` gives it, fits a valid header |
| `IpcSession.DefaultAnswers` | source/ipc/ipc_session.cpp:414-463 | the answer to every request: with an expected token, accepted facts are acknowledged exactly when some agent_token fact equals it in ASCII, and otherwise answered with code 8 |
| `IpcSession.AckRevealsNoToken` | source/ipc/ipc_session.cpp:414-463 | the acknowledgement of a facts snapshot does not depend on the agent token it carried |
| `IpcSession.ServeTurn` | source/ipc/ipc_session.cpp:192-374 | one frame for every backend behaviour: the end, the reply, and a sound continuation of the trace |
| `IpcSession.FrameIsAnsweredSo` | source/ipc/ipc_session.cpp:244-358 | exactly when the handler is asked, its answer written, and each error code sent, by gate, SID list, handler and size |
| `IpcSession.SessionEndsIff` | source/ipc/ipc_session.cpp:192-242 | exactly when a session ends for its budget, for idleness or because the client left |
| `IpcSession.LastFrameEnds` | source/ipc/ipc_session.cpp:360-374 | a frame that is not answered ends the session as failed, and the last one allowed as served |
| `IpcSession.ServeFrames` | source/ipc/ipc_session.cpp:187-374 | the frame loop reads, asks, replies and ends as the turns say |
| `IpcSession.ServeLoop` | source/ipc/ipc_session.cpp:148-386 | at most one verdict, one disconnect per accepted client, closing exactly unless persistent, AuthFailed exactly on success after such a reply, which with the default handler means after an answered snapshot without the token; a failed call reports exactly a client turned away; a sound trace whose headers, handler calls and writes are those of the turns |
| `IpcSession.HandledOnlyIfAuthorized` | source/ipc/ipc_session.cpp:279-321 | in a sound trace the handler is called only for an identity that the gate, if any, lets pass and whose SID is on the list, if that is not empty |
| `IpcSession.AuthFailuresAreLackingTokens` | source/ipc/ipc_session.cpp:323-333 | with the default handler an authentication failure is answered if and only if some answered snapshot lacked the token |
| `IpcSession.VerdictSaysWhatHappened` | source/ipc/ipc_session.cpp:286-384 | a reported verdict says what was done: turned away with code 7, answered with an authentication failure, or neither |
| `IpcSession.WritesCarryTheFrameId` | source/ipc/ipc_session.cpp:244-358 | every write comes after a header was read and carries the request id of the last one, 0 for a bad one |
| `IpcSession.RepliesComeFromTheHandler` | source/ipc/ipc_session.cpp:315-358 | every reply written directly follows a call of the handler and is what that call gave |
| `IpcSession.NothingAfterDisconnect` | source/ipc/ipc_session.cpp:148-386 | nothing is read, handled or written on a connection that is not open |
| `IpcLockstep.StepKeepsInv` | source/ipc/ipc_session.cpp:527-608 | every step of client or server, giving up included, keeps the lockstep invariant |
| `IpcLockstep.SuccessMeansAnswered` | source/ipc/ipc_session.cpp:527-608 | a client that succeeds has one reply per request, each the handler's own for that request, and the server served that many frames |
| `IpcLockstep.ClientTakesOnlyPairedReplies` | source/ipc/ipc_session.cpp:553-603 | from any server, the client takes a frame over exactly when it carries the id of its request and is no error, and ends otherwise |
| `IpcLockstep.ClientRefusesBadHeaders` | source/ipc/ipc_session.cpp:553-566 | bytes that are no header end the client |
| `IpcLockstep.OneFrameAtATime` | source/ipc/ipc_session.cpp:527-608 | in every reachable state the channels hold at most the one frame of the exchange under way; an oversized request may leave its unread payload beside the error |
| `IpcLockstep.OversizedFillsBothWays` | source/ipc/ipc_session.cpp:244-252 | for every oversized request that can be reached there is a run that leaves its payload unread beside the error |
| `IpcLockstep.OneWayIffNothingOversized` | source/ipc/ipc_session.cpp:527-608 | every run keeps the channels one-way if and only if no request that can be reached is oversized |
| `IpcLockstep.ServerIsTheServeLoop` | source/ipc/ipc_session.cpp:192-374 | whatever bytes arrive, the steps of the lockstep server write what the serve loop writes for the frame, or end where it fails |
| `IpcLockstep.ServerSendsTheDeeds` | source/ipc/ipc_session.cpp:192-374 | the bytes the lockstep server sends for a frame, errors included, are those of the writes of the serve loop |
| `IpcLockstep.ClientGetsTheScript` | source/ipc/ipc_session.cpp:527-608 | in every reachable state the client's replies are the first that the serve loop writes for these requests; a client that succeeds has them all |
| `ReportPacing.DoubleUpTo` | source/ipc/ipc_session.cpp:720-741 | the doubling loop yields min(cap, base * 2^n) without an intermediate above the cap |
| `ReportPacing.IpcReportGapAfterFailures` | source/ipc/ipc_session.cpp:720-741 | the gap after n failures, unusable caps included |
| `ReportPacing.FailureDoubles` | source/ipc/ipc_session.cpp:720-741 | every failure doubles the gap up to the cap, from the first on |
| `ReportPacing.IpcReportGapAfterUserIdle` | source/ipc/ipc_session.cpp:743-772 | the gap for an idle time: one doubling per step away |
| `ReportPacing.AwayDoublesOnce` | source/ipc/ipc_session.cpp:743-772 | a present user leaves the base, and the moment that counts as away doubles it |
| `ReportPacing.AwayStepDoubles` | source/ipc/ipc_session.cpp:743-772 | from then on the gap stays for one step and doubles with the next |
| `ReportPacing.IpcReportNextGap` | source/ipc/ipc_session.cpp:774-793 | the next gap, between the base and the largest of base and caps |
| `ReportPacing.NextGapBounds` | source/ipc/ipc_session.cpp:774-793 | never below the base, never above the largest of base and caps |
| `ReportPacing.NextGapMonotoneInFailures` | source/ipc/ipc_session.cpp:774-793 | more failures never shorten the gap |
| `ReportPacing.NextGapMonotoneInIdle` | source/ipc/ipc_session.cpp:774-793 | a longer idle time never shortens the gap, and knowing it never does |
| `ReportPacing.NextGapDoubles` | source/ipc/ipc_session.cpp:774-793 | one failure, or the moment the user counts as away, already doubles the next gap |
| `PowerSchemeRecord.NormalizeSchemeGuid` | source/power/power_scheme.cpp:86-115 | the loop normalizes exactly the texts that denote a GUID |
| `PowerSchemeRecord.NormalizeIff` | source/power/power_scheme.cpp:97-115 | a text denotes a GUID exactly when what is left of it has the form 8-4-4-4-12 |
| `PowerSchemeRecord.CleanedCharacter` | source/power/power_scheme.cpp:86-96 | which characters are skipped, made capital or left |
| `PowerSchemeRecord.GuidIsNormal` | source/power/power_scheme.cpp:86-115 | a normalized GUID normalizes to itself |
| `PowerSchemeRecord.ParseSavedSchemeRecord` | source/power/power_scheme.cpp:223-278 | the line loop accepts and returns what the record parser does |
| `PowerSchemeRecord.AcceptedIff` | source/power/power_scheme.cpp:223-278 | any content is accepted exactly when it begins with the envelope, says nothing wrong, and gives a state and a saved scheme |
| `PowerSchemeRecord.LaterLineCounts` | source/power/power_scheme.cpp:240-262 | of two lines that say the same thing the later one counts, and other lines are ignored |
| `PowerSchemeRecord.CarriageReturnIsIgnored` | source/power/power_scheme.cpp:236-238 | a carriage return at the end of a line does not count |
| `PowerSchemeRecord.RecordRoundTrip` | source/power/power_scheme.cpp:280-341 | every valid record is read back from its text |
| `PowerSchemeRecord.RecordLines` | source/power/power_scheme.cpp:317-322 | the file of a record line by line |
| `PowerSchemeRecord.ParsedRecordIsValid` | source/power/power_scheme.cpp:223-278 | whatever content parses, the record holds normalized GUIDs |
| `PowerSchemeRecovery.PowerSchemes.SaveRecord` | source/power/power_scheme.cpp:280-341 | the file is replaced by the whole record or not at all |
| `PowerSchemeRecovery.PowerSchemes.ApplySchemeWithRecord` | source/power/power_scheme.cpp:404-454 | the states passed through by a switch for every point of failure, and the reported outcome; `PowerSchemeRecovery.SwitchTakesEffect` and `PowerSchemeRecovery.RecordComesFirst` say what they are |
| `PowerSchemeRecovery.SwitchTakesEffect` | source/power/power_scheme.cpp:431-453 | a switch reported done has put the normalized target in force, under an applied record that names it and the scheme before |
| `PowerSchemeRecovery.RecordComesFirst` | source/power/power_scheme.cpp:420-431 | no state of a switch has another scheme in force unless the pending record was written before |
| `PowerSchemeRecovery.SwitchOkIff` | source/power/power_scheme.cpp:404-454 | a switch is reported done exactly when both schemes are GUIDs and every call on the way succeeded |
| `PowerSchemeRecovery.PowerSchemes.RestoreSchemeWithRecord` | source/power/power_scheme.cpp:456-487 | the states passed through by a restore, and the reported outcome |
| `PowerSchemeRecovery.RestoreTakesEffect` | source/power/power_scheme.cpp:456-487 | done exactly when there is a record and every call succeeds, and then the saved scheme is in force under a restored record |
| `PowerSchemeRecovery.PowerSchemes.RecoverPendingScheme` | source/power/power_scheme.cpp:489-539 | the states passed through by a recovery, and exactly when it reports success |
| `PowerSchemeRecovery.RecoveryTakesEffect` | source/power/power_scheme.cpp:388-539 | from any state: nothing is done without a pending record or with an unknown scheme; otherwise exactly when it succeeds, and then the saved scheme is in force under a restored record |
| `PowerSchemeRecovery.PowerSchemes.ApplyCommand` | source/main.cpp:3137-3162 | recover first, then switch, with the reported outcome; the recovery is skipped when the record cannot be read |
| `PowerSchemeRecovery.ApplyTakesEffect` | source/main.cpp:3137-3162 | done, the target is in force and the record names the scheme an open switch had saved, if one was found, else the one before |
| `PowerSchemeRecovery.RecoverCompletes` | source/power/power_scheme.cpp:489-539 | a completed recovery ends not pending, at the saved scheme if a switch was open, and changes nothing otherwise |
| `PowerSchemeRecovery.RunKeepsInv` | source/power/power_scheme.cpp:388-539 | every state of every run with crashes keeps the record and the scheme consistent |
| `PowerSchemeRecovery.TheWayBackIsKnown` | source/power/power_scheme.cpp:388-539 | over every run with a crash after any step, an active scheme other than the one before the last switch is accompanied by a record naming that one |
| `PowerSchemeRecovery.ReadableRunsAreOrdered` | source/main.cpp:3137-3162 | when the record can always be read, every sequence of commands and crashes keeps the order recover-then-switch |
| `PowerSchemeRecovery.RecoveryReturnsToSettled` | source/power/power_scheme.cpp:489-539 | from every reachable state a recovery without failures returns to the settled scheme |
| `PowerSchemeRecovery.SkippedRecoveryLosesTheWayBack` | source/main.cpp:3137-3162 | an apply that skips the recovery of a real open switch and writes its record forgets the scheme to return to |
| `PowerSchemeRecovery.OrderMattersExactly` | source/main.cpp:3137-3162 | a command keeps the way back at every crash point if and only if it is not such an apply |
| `PriorityBooster.Booster.AcquireBoost` | source/priority/priority_booster.cpp:106-186 | leases, classes and handles after an acquisition, for every answer of the system |
| `PriorityBooster.FirstLease` | source/priority/priority_booster.cpp:106-186 | exactly when a first lease is taken, by level, maximum and answers, and the class by number, the lease and the handle it leaves |
| `PriorityBooster.FurtherLease` | source/priority/priority_booster.cpp:121-124 | a further lease on the process is only counted |
| `PriorityBooster.Booster.ReleaseBoost` | source/priority/priority_booster.cpp:188-211 | the same after a release |
| `PriorityBooster.LeaseGivenBack` | source/priority/priority_booster.cpp:188-256 | exactly when the class is written back, left alone or kept for another try, and what remains of the lease |
| `PriorityBooster.NothingGivenBack` | source/priority/priority_booster.cpp:190-201 | without a lease, or under another process id, nothing changes |
| `PriorityBooster.Booster.RestoreLastLease` | source/priority/priority_booster.cpp:213-256 | the same after the last release of a lease |
| `PriorityBooster.Booster.ForceCleanLease` | source/priority/priority_booster.cpp:258-273 | in any state closes exactly the lease's handle, and restores its process exactly when the boosted class is in force and the set succeeds |
| `PriorityBooster.Booster.ReleaseAll` | source/priority/priority_booster.cpp:275-281 | in any state no lease remains and exactly the handles of the leases are closed; each process is in the original class of one of its leases that could be restored, or as before if none could |
| `PriorityBooster.HandlesCoverOpen` | source/priority/priority_booster.cpp:275-281 | where nothing has leaked, closing the handles of all leases closes everything |
| `PriorityBooster.LeakSurvivesReleaseAll` | source/priority/priority_booster.cpp:275-281 | the handle of an overwritten lease stays open even then |
| `PriorityBooster.ReleaseKeepsHandles` | source/priority/priority_booster.cpp:188-256 | a release keeps one open handle per lease |
| `PriorityBooster.AcquireKeepsHandlesIff` | source/priority/priority_booster.cpp:106-186 | an acquisition keeps one open handle per lease if and only if it does not overwrite a lease counted more than once |
| `PriorityBooster.OverwritingLeaks` | source/priority/priority_booster.cpp:125-184 | the overwriting case leaks a handle |
| `PriorityBooster.UnleasedProcessesAreRestored` | source/priority/priority_booster.cpp:106-256 | over every interleaving with truthful answers by games of one level, open and set failures included, a process without leases has the class it had at the start |
| `PriorityBooster.ReleaseRespectsOutsideChanges` | source/priority/priority_booster.cpp:213-256 | a release changes a class only on its last count, only while the boosted class is in force, and back to the original |
| `PriorityBooster.TwoLevelsLeaveABoostBehind` | source/priority/priority_booster.cpp:106-256 | for any two games at different levels, any process and base class: the crossed order of release leaves the first boost behind |
| `PriorityBooster.AlwaysRestoresIffOneLevel` | source/priority/priority_booster.cpp:106-256 | every honest run restores every unleased process if and only if no two games ask for different levels, or there is no process to boost |
| `PriorityBooster.ReleaseKeepsLeasedBoostedIff` | source/priority/priority_booster.cpp:188-256 | a release takes the boost from a process that is still leased exactly when it restores another class while a second lease remains |
| `PriorityBooster.FirstHolderTakesTheBoost` | source/priority/priority_booster.cpp:188-256 | the case happens at one level, for any two games, process and base class |
| `PowerLocker.Locker.AcquireLock` | source/power/power_locker.cpp:121-145 | counts and handles after an acquisition |
| `PowerLocker.Locker.ReleaseLock` | source/power/power_locker.cpp:147-165 | counts and handles after a release; a failed clear changes nothing |
| `PowerLocker.Locker.ReleaseAll` | source/power/power_locker.cpp:167-184 | both locks are gone and their handles closed |
| `PowerLocker.AcquireKeepsHandles` | source/power/power_locker.cpp:121-145 | one open handle per held lock; exactly when it succeeds; success counts one more, failure nothing |
| `PowerLocker.ReleaseKeepsHandles` | source/power/power_locker.cpp:147-165 | one open handle per held lock; exactly when it succeeds; success counts one less, failure nothing |
| `PowerLocker.CountIsTheBalance` | source/power/power_locker.cpp:121-165 | over every run the count is what was taken and not given back, with one open handle per held lock |
| `PowerLocker.BalancedUseEndsUnlocked` | source/power/power_locker.cpp:121-184 | after any interleaving of acquisitions and releases with any answers, a lock is gone exactly when it was given back as often as it was taken, and its request with it |
| `PolicyExecutor.Executor.ReconcilePriorityStep` | source/policy/policy_executor.cpp:61-125 | the boost after reconciling with the desired state |
| `PolicyExecutor.Executor.ReconcilePowerLock` | source/policy/policy_executor.cpp:127-154 | the lock after reconciling with the desired state |
| `PolicyExecutor.Executor.ApplyDecision` | source/policy/policy_executor.cpp:19-59 | the whole stack after a round, the failure count and the halt included; what a round may and must do is said by `PolicyExecutor.DisabledPriorityNeverBoosts` to `PolicyExecutor.SuccessReachesDesired` |
| `PolicyExecutor.Executor.ReleaseAll` | source/policy/policy_executor.cpp:174-199 | everything marked as held is released once, the marks are cleared, and handles still match leases and locks |
| `PolicyExecutor.AllReleasedIsEmptyIff` | source/policy/policy_executor.cpp:174-199 | afterwards leases and locks are gone exactly where the release succeeded or nothing was held |
| `PolicyExecutor.Executor.Destroy` | source/policy/policy_executor.cpp:15-17 | destroying the stack leaves no handle open |
| `PolicyExecutor.ApplyKeepsInStep` | source/policy/policy_executor.cpp:19-172 | a round on a named game keeps flags, leases, counts and handles in step for every answer of the system |
| `PolicyExecutor.RunStaysInStep` | source/policy/policy_executor.cpp:19-172 | so does every run of rounds: counts at most 1, one handle per held lease or lock |
| `PolicyExecutor.InStepIffNamed` | source/policy/policy_executor.cpp:61-125 | a round stays in step if and only if it does not boost a game without a name |
| `PolicyExecutor.UnnamedBoostIsForgotten` | source/policy/policy_executor.cpp:61-125 | a boost for the empty id is acquired and taken for not held |
| `PolicyExecutor.IdleGameIsNeverBoosted` | source/policy/policy_executor.cpp:61-125 | no handle is opened and no lease added when the target is not running, whatever the decision says |
| `PolicyExecutor.DisabledPriorityNeverBoosts` | source/policy/policy_executor.cpp:61-66 | no handle is opened and no lease added when the priority feature is off |
| `PolicyExecutor.NoSuggestionNoBoost` | source/policy/policy_executor.cpp:61-67 | no handle is opened and no lease added when the decision suggests no boost |
| `PolicyExecutor.NothingToBoost` | source/policy/policy_executor.cpp:68-77 | the booster is left alone when there is no process id or the boost is held already |
| `PolicyExecutor.NewBoostIsAtTheLevel` | source/policy/policy_executor.cpp:92-109 | a newly taken boost has its process in the class of the configured level |
| `PolicyExecutor.FailedBoostSkipsPower` | source/policy/policy_executor.cpp:19-45 | a round whose boost fails leaves the power requests alone |
| `PolicyExecutor.SuccessReachesDesired` | source/policy/policy_executor.cpp:19-172 | a successful round reaches exactly the wanted locks, and the boost if the feature is on, the game runs and the decision suggests it |
| `PolicyExecutor.HaltsOnTheStreak` | source/policy/policy_executor.cpp:19-59 | the executor is halted exactly when some streak of failed rounds reached the threshold |
| `PolicyExecutor.NoThresholdNoHalt` | source/policy/policy_executor.cpp:19-59 | with threshold 0 no run halts |
| `PolicyExecutor.HaltedIsHandsOff` | source/policy/policy_executor.cpp:19-59 | a halted executor changes nothing any more |
| `PolicyEngine.EvaluatePolicy` | source/policy/policy_engine.cpp:81-143 | each action and each reason code exactly by its condition on game, user, foreground and pressure |
| `PolicyEngine.Lifetime` | source/policy/policy_engine.cpp:201-206 | a suggestion lives for one cooldown, anything else for none |
| `PolicyEngine.HysteresisFilter.Update` | source/policy/policy_engine.cpp:151-170 | the filter after an update; the answer is its state |
| `PolicyEngine.FilterSwitchesIff` | source/policy/policy_engine.cpp:151-170 | the filter changes exactly on the first wish, or on another one a cooldown after the last change |
| `PolicyEngine.PolicyEvaluator.Evaluate` | source/policy/policy_engine.cpp:201-231 | the evaluator's memory and answer after a sample |
| `PolicyEngine.PolicyEvaluator.Reset` | source/policy/policy_engine.cpp:233-237 | the evaluator is as new |
| `PolicyEngine.PolicyEvaluator.IsActing` | source/policy/policy_engine.cpp:239-241 | reports the state of the filter |
| `PolicyEngine.SameDecisionIsEqual` | source/policy/policy_engine.cpp:185-188 | decisions that count as the same are equal in every field |
| `PolicyEngine.AnswersAreDebounced` | source/policy/policy_engine.cpp:201-231 | every answer of a run is the rules' decision unless that would flip the status within a cooldown of the latest flip, and then exactly the previous answer |
| `PolicyEngine.ReportedStatusIsTheAnswer` | source/policy/policy_engine.cpp:239-241 | the reported status is that of the answer just given |
| `PolicyEngine.FlipsAreACooldownApart` | source/policy/policy_engine.cpp:145-231 | on every run, whatever the clock does, two flips lie at least a cooldown apart |
| `PolicyEngine.FlipsTakeTime` | source/policy/policy_engine.cpp:145-231 | k flips take at least k cooldowns |
| `AsyncLogQueue.SharedQueue.PushRecord` | source/logger/logger.cpp:384-415 | queue and counters after a push, as `AsyncLogQueue.PushOutcome` gives them |
| `AsyncLogQueue.PushOutcome` | source/logger/logger.cpp:380-415 | exactly when a record is refused, dropped, appended or put in the place of the oldest one below the level of an error, and the queue and counters afterwards |
| `AsyncLogQueue.SharedQueue.TakeNext` | source/logger/logger.cpp:439-450 | the worker takes the oldest record |
| `AsyncLogQueue.StepKeepsInv` | source/logger/logger.cpp:384-465 | every atomic step keeps numbers, records and order consistent |
| `AsyncLogQueue.CountersBalance` | source/logger/logger.cpp:384-465 | in every interleaving pushed = written + in flight + queued + evicted, dropped = evicted + dropped on arrival, and the capacity holds |
| `AsyncLogQueue.ProtectedRecordsReachTheSinkOnce` | source/logger/logger.cpp:312-327 | once nothing waits, every record of level 4 or 5 reached the sink as often as it was offered |
| `AsyncLogQueue.LostIsBelowError` | source/logger/logger.cpp:380-414 | in every interleaving only records below level 4 are lost |
| `AsyncLogQueue.FinishedMeansDrained` | source/logger/logger.cpp:417-465 | a finished worker leaves an empty queue |
| `AsyncLogQueue.FifoWithoutEvictions` | source/logger/logger.cpp:384-465 | without evictions the sink sees the records in their order |
| `AsyncLogQueue.SinkSeesPlaces` | source/logger/logger.cpp:384-465 | in every interleaving, evictions included, the sink sees enqueued records, each at most once |
| `AsyncLogQueue.OrderIsKeptIff` | source/logger/logger.cpp:396-406 | a push keeps the order of the line if and only if it does not evict a record that has others behind it |
| `AsyncLogQueue.FifoWithoutOvertaking` | source/logger/logger.cpp:384-465 | over every run without such an eviction the records are in the order in which they were enqueued |
| `AsyncLogQueue.FlushReturnsIff` | source/logger/logger.cpp:431-437 | in every state and for every target a flush is over exactly when what is on its way and what was evicted leave room for it, or the worker ended |
| `AsyncLogQueue.FlushReturnsIffNothingEvicted` | source/logger/logger.cpp:431-437 | on a drained queue a flush returns exactly when nothing was evicted or the worker ended |
| `AsyncLogQueue.EvictionBlocksFlush` | source/logger/logger.cpp:399-437 | a concrete run after which a flush waits on a drained queue |
| `AsyncLogQueue.WorkerDrains` | source/logger/logger.cpp:439-465 | as many worker turns as records drain the queue and, without evictions, satisfy a flush |
| `AsyncLogQueue.StopDrainsEverything` | source/logger/logger.cpp:417-429 | stopping writes out what is queued and ends the worker |
| `ProcessDiff.FindTracked` | source/process/process_watcher.cpp:73-82 | the first entry under the key, or none if there is none |
| `ProcessDiff.PresenceHas` | source/process/process_watcher.cpp:85-93 | whether the key is present |
| `ProcessDiff.DiffProcessPresence` | source/process/process_watcher.cpp:255-330 | the two passes compute the poll of the specification |
| `ProcessDiff.FoundIsListed` | source/process/process_watcher.cpp:262-301 | every process found is listed with the details just observed, goes on as running or starts under a new generation, and is reported so |
| `ProcessDiff.GoneIsReported` | source/process/process_watcher.cpp:304-327 | a tracked process that is not found stays for one round as exiting and is gone the next time, and is reported so |
| `ProcessDiff.OnlyChangesAreReported` | source/process/process_watcher.cpp:262-327 | nothing is reported about a process whose state stays, save for the exit that a restart repeats |
| `ProcessDiff.PollKeys` | source/process/process_watcher.cpp:255-330 | the new table lists the processes found in order, then those that stay for a last round |
| `ProcessDiff.KeysStayDistinctIff` | source/process/process_watcher.cpp:255-330 | keys stay distinct if and only if no process was found twice |
| `ProcessDiff.ReplayGivesTheNewTable` | source/process/process_watcher.cpp:255-330 | for every key the transitions lead from the old table's state to the new one's, a restart going from its exit straight to its new start |
| `ProcessDiff.StrictReplayIff` | source/process/process_watcher.cpp:278-292 | each transition starts in the state the last one led to if and only if no process found under the key is a restart |
| `ProcessDiff.PollKeepsSound` | source/process/process_watcher.cpp:255-330 | a poll keeps distinct keys and generations and real entries, and numbers new lifecycles from the next generation on |
| `ProcessDiff.ProcessWatcher.PollOnce` | source/process/process_watcher.cpp:680-760 | the table, the count and the reported transitions after a poll; nothing changes if enumeration fails |
| `ProcessDiff.ProcessWatcher.Start` | source/process/process_watcher.cpp:633-649 | starting clears the table and keeps the count |
| `ProcessDiff.ProcessWatcher.SetRules` | source/process/process_watcher.cpp:610-623 | new rules clear table and count; rules that cannot be built change nothing |
| `ProcessDiff.RunIsSound` | source/process/process_watcher.cpp:255-330 | the table stays sound over every run of polls, failures and restarts of the watcher |
| `ProcessDiff.GenerationNamesOneLifecycle` | source/process/process_watcher.cpp:255-330 | over every run entries with one generation have one key, and one creation time if times are always known |
| `ProcessDiff.ArriveKeepsTimeIff` | source/process/process_watcher.cpp:262-301 | the entry of a found process keeps the creation time of the lifecycle it carries on exactly when both times are known or both unknown |
| `ProcessDiff.PollKeepsTimesIffSteady` | source/process/process_watcher.cpp:255-330 | a poll keeps the creation time of every lifecycle that goes on if and only if that holds for all found processes |
| `ProcessDiff.OneTimePerGenerationIffSteady` | source/process/process_watcher.cpp:255-330 | over every run each generation has one creation time throughout if and only if that holds at every poll |
| `ProcessDiff.UnknownTimeHidesARestart` | source/process/process_watcher.cpp:279-281 | with an unknown time in between two processes share a generation |
| `GameIds.FindConflict` | source/process/process_watcher.cpp:60-70 | finds an id equal up to ASCII case exactly when there is one |
| `Text.SameUpToCaseIff` | source/process/process_watcher.cpp:52-70 | two texts are equal up to case exactly when they differ only between a capital ASCII letter and its small one |
| `GameIds.CandidatesDiffer` | source/process/process_watcher.cpp:459-480 | candidates with different suffixes never fold to the same id |
| `GameIds.MakeUniqueGameId` | source/process/process_watcher.cpp:459-480 | ends after at most one suffix more than there are ids, with the first candidate that clashes with none |
| `CooldownLedger.EvaluateCooldownGate` | source/policy/safety_gates.cpp:69-82 | the gate opens only a cooldown after the entry, and stays shut only for an entry that is later or too recent |
| `CooldownLedger.LedgerStore.ReadCooldownLedger` | source/policy/safety_gates.cpp:84-136 | the line loop reads the ledger the text denotes, or fails with the file |
| `CooldownLedger.LedgerStore.WriteCooldownLedger` | source/policy/safety_gates.cpp:138-189 | the file spells exactly the ledger, its entries in ascending order, or is left as it was |
| `CooldownLedger.LedgerLines` | source/policy/safety_gates.cpp:155-166 | the file of a ledger with clean ids line by line |
| `CooldownLedger.LedgerStore.RecordCooldownRun` | source/policy/safety_gates.cpp:207-225 | the run enters the ledger on disk, and an unreadable ledger is not overwritten |
| `CooldownLedger.LedgerRoundTrip` | source/policy/safety_gates.cpp:84-189 | a written ledger is read back the same if and only if no id holds a space or a line break |
| `CooldownLedger.ReadLedgerIsClean` | source/policy/safety_gates.cpp:84-136 | from any file only ids without spaces and line breaks and 64-bit values are read |
| `CooldownLedger.RunHoldsLatest` | source/policy/safety_gates.cpp:191-225 | over every run the ledger on disk holds the latest recorded reading of each capability, or an even later one it started with |
| `CooldownLedger.PermittedRunsAreApart` | source/policy/safety_gates.cpp:69-225 | for any clock, jumps back included, a permitted run comes a cooldown after every recorded run of its capability |
| `CooldownLedger.RefusalHasACause` | source/policy/safety_gates.cpp:69-82 | a refusal by the gate names a run on record that is later or too recent |
| `CooldownLedger.RecordedRunIsRememberedIff` | source/policy/safety_gates.cpp:191-225 | within the cooldown the gate refuses after a record if and only if the id can be read back |
| `CooldownLedger.UncleanRecordReads` | source/policy/safety_gates.cpp:112-136 | recording an id with a space leaves the ledger on disk as it was, or sets the entry of the capability named before the space to the number that follows it |
| `CooldownLedger.SpacedNumberIsRead` | source/policy/safety_gates.cpp:112-136 | the case happens for every capability and number |

## Left out

- Win32, DXGI, PDH, COM, spdlog and toml++ calls: answers of the system are parameters; what the calls do is not modelled.
- Real time and thread scheduling: clocks are values handed in, concurrency is interleaving of atomic steps.
- Command line, console output and the rest of source/main.cpp: only the recover-then-apply order of the power scheme command is modelled.
- MatchRulesToEntries, BuildGameRules, DeriveGameId and the queries behind PollOnce: the matched processes are an input; thin filters that would add only easy members.
- RunConcurrentServer and RunPeriodicReporter: loops around ServeLoop and around the pacing functions, which are modelled.
- ReadAuditTail, the in-memory AuditLog and the journal: no part of the compaction protocol.
- Configuration, metrics, disk, GPU and working-set observers, EvaluateGates, the environment gate and the JSON report: field copying and finite tables.
- ComputeMemoryMarginPercent and ClassifyPressure: one-line classifiers.
- Torn writes: text reaches a file completely or not at all, whatever the flush reports; a missing file counts as an empty one, except for the saved scheme and the ledger.
- Case folding of SIDs uses ASCII letters only; towlower also folds others.
- WriteU32LE and SerializeHeader fill a character array whose elements are bytes; shifts are arithmetic on unbounded integers.
- IpcSession.ServeLoop: the backend's answers are a finite list of turns, after which the client is gone; the handler is a function of the request and the gate one of the identity (DefaultClientGate is one such); the result leaves out the summary of the last frame, whose parts are in the trace.
- IpcLockstep: the client loop is a state machine, not a method, so that both sides can be interleaved; connect, close and the one-byte drain after the last frame are not steps of it.
- AuditTrail.NothingIsLost: holds for files that end in a newline, stamps that neither hide a summary's marker nor open with dots, plain ids, no overflow, no crash or flush failure between the summary text and the replacement and no failed size query before a failed replacement; AuditTrail.CompactConservesIffSafe, AuditTrail.CompactConservesIffReadable and AuditTrail.FoldConservesIffNoOverflow say what happens without the last five, and what a hidden marker or an unterminated file does is not modelled.
- PriorityBooster.UnleasedProcessesAreRestored: assumes truthful answers, processes that keep their pid, and that no game changes its process while it holds more than one lease; the one level is exactly what it takes (PriorityBooster.AlwaysRestoresIffOneLevel), and outside changes are the subject of PriorityBooster.ReleaseRespectsOutsideChanges.
- PowerSchemeRecovery.TheWayBackIsKnown: assumes a faithful backend, no outside changes of the scheme and the order recover-then-switch; PowerSchemeRecovery.OrderMattersExactly shows what happens without the order.
- PolicyEngine: reason texts are English renderings; times are integers in one unit.
- ProcessDiff: generations do not wrap at 2^64; the four descriptive fields of a process are one record.
- CooldownLedger.UncleanRecordReads: ids with a line break are covered only by CooldownLedger.RecordedRunIsRememberedIff.
- CooldownLedger.PermittedRunsAreApart: covers the gates that refuse when the ledger cannot be read; the service registration command goes on in that case (source/main.cpp:4811-4812).
- GameIds.MakeUniqueGameId: requires fewer ids than the range of an int.
