# Proofs about the agent runtime

A Dafny model of the parts of the repository that are hard to get right by testing: the line
diff engine, the agent loop with its tool batches, history compaction, event delivery and
permissions of the ACP adapter, and the bounded byte-stream code around them. Check it with
`dafny verify dfyconfig.toml`.

## What is modelled

**Line diffs** (`EditScripts`, `LineDiff`, `UnifiedDiff`). `EditScripts` says what an edit script
means and defines the distance of two line sequences on the whole plane, past the grid as well,
because the search walks there. `LineDiff` is the greedy search over one array that every round
overwrites, the trace, and the walk back. `UnifiedDiff` turns a script into hunks, and proves
the hunks against `Apply`, a patch tool that believes nothing but the hunks.

**Transcripts** (`Transcript`, `Compaction`, `CompactHistory`, `SummaryReserve`,
`ForkedTranscript`). `WellFormed` is what every provider demands: each assistant call is answered
by exactly one result, in call order, before any other message. Compaction, its summary reserve,
and the forking of a transcript in the middle of a batch are proved to keep it, or are given the
exact condition under which they do.

**The run** (`Journal`, `Protocol`, `StreamReading`, `ToolBatch`, `HistoryRebuild`, `BatchReplay`,
`RunReplay`, `StoredSteers`, `Recall`, `RunLaws`, `Preparation`, `AgentLoop`, `CompactionCursor`,
`RunRebuild`). The journal is everything that passes between a run and the outside: what it does
(events, model requests, checkpoints, tool starts) and what it meets (drained steers, answers to its
questions for a summary, opened streams with all they will deliver, provider errors, refused
reservations, tool results, a cancel), all of it arbitrary. `Protocol` is an automaton that says
which effect may follow which; `StreamReading` what a run has to make of a stream; `Lawful` when a
request, an answer, a compaction or a failure is allowed by what came before it; `Recall` what a
live transcript holds of everything said, across compactions; `Current` holds between any two
effects, and `RunRecord` is what a finished run has to show. `RunReplay`, `StoredSteers` and
`RunRebuild` relate it to the rows of the store, which also takes the messages submitted to the run
but no image parts and of a failed tool only its code, and `CompactionCursor` to the row that a
summary covers up to.

**The ACP adapter and its client** (`EventDelivery`, `Permissions`, `PendingRequests`). A
subscriber of a bounded broadcast ring that can be overrun and pages through a durable log, while
several tasks append and broadcast; the permission requests; and the table of pending client
requests. All three are state machines whose steps interleave freely, each with a class whose
methods take those steps.

**The shared tool registry** (`SharedRegistry`, `RegistryConnect`, `McpAdmin`, `QualifiedNames`).
Connects and disconnects of operator MCP servers, one registry operation a step, interleaved with
each other and with foreign registrations; the class runs each operation with any steps of others in
between; and when two servers want the same name.

**Bytes** (`Bytes`, `StreamCapture`, `OutputBudget`, `SseFraming`, `SseEvents`, `BoundedLine`).
Stream capture, the output budget that stdout and stderr share, the framing of SSE lines, the events
a provider's stream is read as, and bounded lines, for every way the bytes can be cut into chunks.

## What the proofs turned up

Where the code does not do what one would expect, the model keeps the code and the theorem says
exactly when it does:

- A forked snapshot becomes well-formed after `close_open_tool_calls` if and only if no call of
  its last message reuses an id that is already answered (`ForkIsClosedExactly`). The Gemini
  driver restarts its numbering in every stream, so its second turn breaks it (`RestartedNumbering`).
- Events reach a prompt without gaps, in every interleaving, if and only if the run's events enter
  the ring in log order up to the first terminal one (`GapFreeExactly`). The server does not keep
  that order: an approval is committed, the run is woken, and only then is the approval's event
  sent, so the run's next event can overtake it and it is never sent (`ApprovalOvertaken`). The
  strict order of what is sent holds all the same (`RunKeepsInv`).
- The adapter's own client keeps a sender of the ring alive, so the ring never closes under a
  prompt. A prompt always ends, while the log can be read, if and only if a terminal event of the
  run is broadcast after smaller numbers of the run only (`NeverStuckExactly`). Otherwise, as when
  the client's reader task ends before the run, it can wait for ever (`WaitsForEver`).
- The truncation of a summary counts characters and the estimate counts bytes. For a given system
  message and budget nothing is ever dropped unsummarised if and only if the injected message costs
  at most the reserve of the tokens left, or none are left (`NothingLostExactly`). One byte a
  character fits from 28 available tokens on; below 28 no non-empty summary fits
  (`SmallReserveOverflows`); and from 28 on some summary does not fit if and only if 36 or more
  tokens are available (`MultiByteOverflows`).
- The fallback without a summary keeps the earlier summaries but does not count them against the
  groups. It always fits, or leaves only the newest group, if and only if the system message fits
  the limit and there are no earlier summaries (`FallbackFitsExactly`).
- A history rebuilt from the store answers a batch in the order of completion, and holds a message
  that the user submits to an active run where it was accepted, not where the run said it. After a
  run it is well-formed if and only if no report is due where the covered rows end, the reports
  after every answer name the calls in call order, and no user item is stored before the last of
  them (`RebuiltRunWellFormedExactly`). A batch that completes out of order breaks it
  (`OutOfOrderBatch`), and so does a steer that is accepted while a tool runs (`SteerInsideBatch`,
  `SteerBreaksRebuild`).
- The comment at `crates/cool-app-server/src/lib.rs:5545-5549` takes the rows behind the covered
  one for the transcript after the compaction. With every steer said where it is stored, that holds
  if and only if the real cost of the summary keeps the very groups the reserve was to keep
  (`CompactedRowsReplayExactly`, and after a restart `RestartAfterCompaction`): a dear summary keeps
  fewer and a cheap one can keep more.
- The comment at `crates/cool-agent/src/loop_runtime.rs:1370-1373` puts each summary right after
  the leading system message. No rebuilt message is a system message, so they always come first.
- The captured body equals the stream if and only if the stream fits both caps or the part cut out
  happens to spell the marker that replaces it (`BodyIsStreamExactly`, `MarkerCanBeReal`).
- A configured prompt or an instruction section that starts like a summary is not taken for the
  transcript's system message: the next section is put in front of it (`PreparedExactly`).
- The coarse fallback of the diff places both sides at line 1. As a patch it is correct if and only
  if neither side is empty (`CoarsePatchesExactly`).
- When the client's reader task ends, every pending request has its answer on the way, but a request
  made afterwards is never answered: it waits for its timeout unless its own write fails
  (`AfterTheReader`).
- A tool call whose arguments are not JSON is sent as an error, and the stream still goes on to its
  Finish; every other failure is the last event (`StreamEndsOnce`).
- `mcp_{server}_{tool}` is ambiguous. Equal digests aside, two servers can want the same name if and
  only if one's name and an underscore start the other's (`ServersCollideExactly`,
  `PlainNamesCollideExactly`), as with `git` and `git_hub` (`ValidServersCollide`). Ownership
  survives it (`OwnershipHolds`, `ForeignNeverUnregistered`).
- A stream between the head's cap and both caps is flagged as truncated although nothing of it is
  missing (`FlaggedWholeExactly`).

## Model

| member | source | states |
|---|---|---|
| EditScripts.DistanceIsLcs | crates/cool-agent/src/tools.rs:1799-1837 | inside the grid the distance is the number of lines minus twice a longest common subsequence |
| EditScripts.ScriptsCostDistance | crates/cool-agent/src/tools.rs:1799-1871 | no script of the remaining lines is cheaper than the distance that remains |
| EditScripts.DistanceIsOptimal | crates/cool-agent/src/tools.rs:1799-1871 | the distance is a lower bound for every script |
| EditScripts.DiagonalMonotone | crates/cool-agent/src/tools.rs:1820-1825 | the distance never shrinks along a diagonal, so a furthest point is well defined |
| EditScripts.BeyondTheGoal | crates/cool-agent/src/tools.rs:1827-1830 | past both ends every step costs: a walk off the grid never comes back cheaper |
| LineDiff.EntryWithin | crates/cool-agent/src/tools.rs:1815-1819 | the entry chosen from the previous round is within this round's distance |
| LineDiff.EntryBlocks | crates/cool-agent/src/tools.rs:1815-1825 | from the entry on only equal lines keep the next point within the distance, so greedy snakes reach the furthest point |
| LineDiff.Advance | crates/cool-agent/src/tools.rs:1814-1826 | one diagonal of one round: the furthest point, with both neighbours of the array in range |
| LineDiff.RoundMissesGoal | crates/cool-agent/src/tools.rs:1827-1833 | a round without a hit proves that the goal is further away |
| LineDiff.GoalIsExact | crates/cool-agent/src/tools.rs:1827-1830 | the first point that meets the inequality test is the goal itself, at exactly this distance |
| LineDiff.SearchRound | crates/cool-agent/src/tools.rs:1810-1834 | overwriting the array in place leaves what the rest of the round reads; the array then holds the furthest point of every diagonal |
| LineDiff.Search | crates/cool-agent/src/tools.rs:1799-1837 | reaches the goal in round d exactly when the distance is d, at the latest for d = n + m; fails exactly when it exceeds 1024; every index is in range |
| LineDiff.SnakeMatches | crates/cool-agent/src/tools.rs:1851-1855 | between the entry of a diagonal and its furthest point the search ran over equal lines |
| LineDiff.BackStep | crates/cool-agent/src/tools.rs:1851-1862 | one round of the walk back keeps a script of the rest and adds one to its cost |
| LineDiff.Predecessor | crates/cool-agent/src/tools.rs:1841-1850 | the walk back makes the forward choice again from the trace alone |
| LineDiff.Backtrack | crates/cool-agent/src/tools.rs:1838-1871 | the reversed ops consume all of a, produce exactly b, keep only equal lines, and cost the number of rounds |
| LineDiff.LineOps | crates/cool-agent/src/tools.rs:1799-1871 | a cheapest script, of cost n + m - 2 LCS; None exactly for more than 20000 lines or when every script costs more than 1024 |
| UnifiedDiff.JoinSplit | crates/cool-agent/src/tools.rs:1889-1898 | the lines hold no line feed and rejoin to the text |
| UnifiedDiff.LinesExactly | crates/cool-agent/src/tools.rs:1889-1898 | the lines are the only list that has none for the empty text and otherwise one more than its line feeds, holds no line feed and rejoins to the text |
| UnifiedDiff.CoarseSides | crates/cool-agent/src/tools.rs:1900-1919 | the fallback hunk holds all of both sides |
| UnifiedDiff.CoarsePatchesExactly | crates/cool-agent/src/tools.rs:1900-1919 | as a patch the fallback hunk gives the new side exactly when neither side is empty |
| UnifiedDiff.BuildEntries | crates/cool-agent/src/tools.rs:1920-1938 | the entries carry the script's ops and read as the old text on one side and as the new one on the other |
| UnifiedDiff.BuildPositions | crates/cool-agent/src/tools.rs:1939-1952 | each position is the true count of old and new lines before the entry |
| UnifiedDiff.BuildRanges | crates/cool-agent/src/tools.rs:1953-1964 | ranges cover exactly the entries within three of a change, in order, with an entry between any two |
| UnifiedDiff.BuildHunks | crates/cool-agent/src/tools.rs:1965-2000 | header starts and lengths are the true line counts of both sides |
| UnifiedDiff.HunksPatch | crates/cool-agent/src/tools.rs:1965-2000 | from any entry on, hunks that cover the later changes patch the old lines into the new ones |
| UnifiedDiff.DiffTexts | crates/cool-agent/src/tools.rs:1876-2001 | the entries read as the lines of before and of after; the hunks patch the former into the latter, over an optimal script, holding the changes and their context only, and place and count nothing on the side of an empty text; the fallback appears exactly past the limits |
| Transcript.WellFormedConcat | crates/cool-agent/src/context.rs:263-265 | appending to a well-formed transcript: the whole is well-formed exactly when the rest is |
| Compaction.EstimateExactly | crates/cool-agent/src/context.rs:229-261 | a message costs a quarter of the bytes of its text, its text parts and its calls, at least 1 for a text, 20 more for a call, 1500 for an image and 10 more for a result |
| Compaction.FlattenGroups | crates/cool-agent/src/context.rs:266-292 | grouping loses, adds and reorders nothing |
| Compaction.RegroupSuffix | crates/cool-agent/src/context.rs:266-292 | regrouping a suffix of groups gives the same groups |
| Compaction.SuffixWellFormed | crates/cool-agent/src/context.rs:263-292 | in a well-formed transcript a group is an exchange, so no suffix of groups orphans a call or a result |
| Compaction.NonSystemWellFormed | crates/cool-agent/src/context.rs:271-275 | taking the system messages out keeps a transcript well-formed |
| Compaction.FirstFitIsLongest | crates/cool-agent/src/context.rs:380-388 | the drop loop ends at the longest suffix that fits, or at the newest group |
| Compaction.KeepMonotone | crates/cool-agent/src/context.rs:215-227 | a larger budget keeps at least as many groups |
| CompactHistory.HistoryGroups | crates/cool-agent/src/context.rs:266-292 | the loop computes the first system message and the groups |
| CompactHistory.RetainedGroupCount | crates/cool-agent/src/context.rs:215-227 | the running total of the loop keeps the newest groups that fit, up to the cap and at least one |
| CompactHistory.SummaryDropCandidates | crates/cool-agent/src/context.rs:299-318 | the candidates the later proofs speak about |
| CompactHistory.CompactMessages | crates/cool-agent/src/context.rs:326-411 | the compaction the later proofs speak about, on all three branches |
| CompactHistory.CompactWellFormed | crates/cool-agent/src/context.rs:319-411 | compaction with or without a summary keeps a transcript well-formed |
| CompactHistory.DropKeepsLongestSuffix | crates/cool-agent/src/context.rs:380-411 | without a summary: system message, other summaries, and the longest suffix of whole groups that fits, at least one; the estimate is their sum |
| CompactHistory.KeepCountIsLargest | crates/cool-agent/src/context.rs:215-227 | the groups kept are as many of the newest as the cap of four and the budget allow, the newest one in any case |
| CompactHistory.SummarisedExactly | crates/cool-agent/src/context.rs:344-378 | with a summary: the first system message, the summary behind its marker, cut with an ellipsis to four characters for each reserved token but eight, and as many of the newest groups as fit what it leaves; dropped and estimate count the result |
| CompactHistory.UnsummarisedCounts | crates/cool-agent/src/context.rs:326-411 | without one nothing is put in, a history that fits is left as it is, and dropped counts what is no longer there |
| CompactHistory.CompactIdempotent | crates/cool-agent/src/context.rs:326-411 | compacting twice without a summary changes nothing more and reports nothing dropped |
| SummaryReserve.SummaryCostFormula | crates/cool-agent/src/context.rs:205-261 | what the injected message costs, from the bytes of the truncated text |
| SummaryReserve.OneByteFitsReserve | crates/cool-agent/src/context.rs:184-210 | one byte a character and 28 available tokens: the message costs at most the reserve |
| SummaryReserve.SmallReserveOverflows | crates/cool-agent/src/context.rs:184-210 | below 28 tokens every non-empty summary costs more than the reserve |
| SummaryReserve.ThreeByteSummary | crates/cool-agent/src/context.rs:205-261 | a summary one character longer than the truncation keeps, three bytes each, exceeds the reserve exactly from 36 available tokens on |
| SummaryReserve.MultiByteOverflows | crates/cool-agent/src/context.rs:205-261 | from 28 available tokens on, some summary exceeds the reserve exactly when 36 are available |
| SummaryReserve.NothingDroppedUnsummarised | crates/cool-agent/src/context.rs:299-378 | if the real budget is not below the one the candidates were chosen with, every non-system message dropped was a candidate |
| SummaryReserve.NothingLostExactly | crates/cool-agent/src/context.rs:299-378 | for every leading system message, budget and summary: nothing is ever lost exactly when the message fits the reserve of what the system message leaves, or nothing is left |
| SummaryReserve.AsciiSummaryLosesNothing | crates/cool-agent/src/context.rs:299-378 | the case the reserve is meant for |
| SummaryReserve.SummarisedFits | crates/cool-agent/src/context.rs:344-378 | with a summary that fits, the result fits the limit unless a single newest group is left |
| SummaryReserve.SummaryCostsNoMoreExactly | crates/cool-agent/src/context.rs:184-210 | every summary costs at most what the system message leaves exactly when that is seven tokens |
| SummaryReserve.SummarisedAlwaysFits | crates/cool-agent/src/context.rs:344-378 | so from seven tokens on every summarised result fits the limit unless a single newest group is left |
| SummaryReserve.FallbackFits | crates/cool-agent/src/context.rs:380-411 | without a summary and without earlier ones to keep the result fits unless a single newest group is left |
| SummaryReserve.FallbackFitsExactly | crates/cool-agent/src/context.rs:380-411 | for every system message and earlier summaries: the result always fits, or only the newest group is left, exactly when the system message fits the limit and there are no earlier summaries |
| SummaryReserve.FallbackOverflows | crates/cool-agent/src/context.rs:389-411 | otherwise some history is left as it is, over the limit, although there was a group to drop |
| SummaryReserve.CompactedWithinWindow | crates/cool-agent/src/context.rs:326-411 | with or without a summary the result exceeds the limit by its summaries beyond the first system message at most, unless one group is left or that system message alone is too large |
| ForkedTranscript.CloseOpenToolCalls | crates/cool-app-server/src/subagents.rs:1433-1454 | only appends: one result for each unanswered call, in call order, with the fixed text of an unavailable one |
| ForkedTranscript.ForkIsClosedExactly | crates/cool-app-server/src/subagents.rs:1433-1454 | the mid-batch snapshot becomes well-formed exactly when no open call reuses an answered id |
| ForkedTranscript.ClosingIsIdempotent | crates/cool-app-server/src/subagents.rs:1433-1454 | closing twice appends nothing more, for every history |
| ForkedTranscript.UniqueIdsClose | crates/cool-app-server/src/subagents.rs:1433-1454 | call ids that are unique across the history are enough |
| ForkedTranscript.RestartedNumbering | crates/cool-agent/src/gemini.rs:449-458 | the second turn of a driver that restarts its numbering is not closed |
| ForkedTranscript.ForkSeedWellFormed | crates/cool-app-server/src/subagents.rs:599-624 | the child of a full-context fork starts on a well-formed transcript: its persona, what the parent was told, and the closed snapshot |
| Journal.TotalOneMore | crates/cool-agent/src/loop_runtime.rs:1193-1209 | adding one report with saturation keeps every total equal to the clipped true sum, and the cost known only while every report had one |
| Journal.EventsReplay | crates/cool-agent/src/loop_runtime.rs:1374-1436 | what is stored of a log replays to the same messages as the log |
| Protocol.AcceptedLifecycle | crates/cool-agent/src/loop_runtime.rs:438-735 | RunStarted, then the user's item, and exactly one terminal event, which is last |
| Protocol.AcceptedRequests | crates/cool-agent/src/loop_runtime.rs:476-637 | a request directly follows the drained steers, the question for a summary, a compaction, or a retryable error of a request from which nothing had come back |
| Protocol.AcceptedStream | crates/cool-agent/src/loop_runtime.rs:543-562 | a stream opens right after its request |
| Protocol.AcceptedCancel | crates/cool-agent/src/loop_runtime.rs:472-475 | a run that meets a cancel ends cancelled for that reason, with nothing but tool results in between |
| Protocol.NotCancelled | crates/cool-agent/src/loop_runtime.rs:1167-1178 | a run that meets no cancel does not end cancelled |
| Protocol.AcceptedCompletion | crates/cool-agent/src/loop_runtime.rs:668-684 | a completed run last answered without calls and then found no steers |
| ToolBatch.PassesExactly | crates/cool-agent/src/loop_runtime.rs:763-870 | a call passes exactly when it is visible and allowed by the winning rule (a session rule before a live one before one of the policy), the capability or the user; no rule lifts a denied capability; the user is asked exactly when the basis says so, and each refusal code has its exact condition |
| ToolBatch.PassingExactly | crates/cool-agent/src/loop_runtime.rs:763-870 | exactly the calls that pass are queued, in call order |
| ToolBatch.Gate | crates/cool-agent/src/loop_runtime.rs:755-871 | each call is requested once, and each refused one reported at once with its own error |
| ToolBatch.Launch | crates/cool-agent/src/loop_runtime.rs:872-934 | every checkpoint and announcement precedes the first execution |
| ToolBatch.Collect | crates/cool-agent/src/loop_runtime.rs:935-981 | for every completion order and cancel point each started call is reported exactly once, with what its tool returned or, after a cancel, the abort; nothing but results follows a cancel |
| ToolBatch.PermutedMultiset | crates/cool-agent/src/loop_runtime.rs:982-987 | reporting in any order reports the same results |
| ToolBatch.ExecuteToolBatch | crates/cool-agent/src/loop_runtime.rs:748-988 | one result for each call, in call order: its refusal, what its tool returned, or the abort; exactly one report for each in the log, completed exactly when the result is no error; a plan event right behind each report that names a plan; only calls that passed every gate are started |
| RunLaws.AnsweredTurn | crates/cool-agent/src/loop_runtime.rs:645-727 | an assistant message with calls and its batch keep the run's invariant |
| Recall.NothingDropped | crates/cool-agent/src/loop_runtime.rs:506-516 | a compaction that reports nothing dropped kept every non-system message |
| Recall.CompactionHolds | crates/cool-agent/src/loop_runtime.rs:506-519 | every compaction, with a summary or not, keeps a non-empty suffix of the live transcript |
| Recall.PushItem | crates/cool-agent/src/loop_runtime.rs:456-465 | a message said and pushed keeps what is held a suffix of what was said |
| Recall.ResultsRemembered | crates/cool-agent/src/loop_runtime.rs:707-727 | so do the results of a batch, reported in one order and pushed in another |
| RunLaws.AfterCompaction | crates/cool-agent/src/loop_runtime.rs:482-519 | compaction keeps the run's invariant |
| AgentLoop.OpenStream | crates/cool-agent/src/loop_runtime.rs:545-562 | a rejected request is sent again only while retryable and within the retry limit; the run ends only with the last error or with a cancel |
| AgentLoop.StreamBroke | crates/cool-agent/src/loop_runtime.rs:616-635 | a broken stream is replaced only before anything came back; otherwise the run ends with its error |
| AgentLoop.Converse | crates/cool-agent/src/loop_runtime.rs:563-637 | text and calls of the reply are those of the items that the last stream delivers up to its Finish or its end, all of them read and written down, in order; nothing of a stream that broke is in it; at most 1 + retries requests; totals follow the usage events |
| AgentLoop.Answer | crates/cool-agent/src/loop_runtime.rs:645-733 | an answer without calls ends the run unless a steer overtook it; one with calls is followed by its batch; the last iteration always ends the run |
| AgentLoop.RunTurn | crates/cool-agent/src/loop_runtime.rs:471-734 | one iteration: cancel check, steers, compaction, conversation, limits, answer; it does nothing but end the run if the cancel signal is set, keeps the invariant and adds exactly one answer, or ends the run with a stop that is due |
| Preparation.PrepareWellFormed | crates/cool-agent/src/loop_runtime.rs:366-437 | prompt and instruction sections keep the transcript well-formed |
| Preparation.PreparedPersona | crates/cool-agent/src/loop_runtime.rs:366-437 | with a system message that is not a summary, the sections become paragraphs of the first such message and nothing else changes |
| Preparation.PreparedExactly | crates/cool-agent/src/loop_runtime.rs:366-437 | without one the prompt, or else the first section, becomes the first message and the other sections its paragraphs; a text that reads like a summary is put in front and not added to |
| AgentLoop.Run | crates/cool-agent/src/loop_runtime.rs:359-736 | the automaton accepts the whole log, which starts with the user's text and parts; every request is well-formed, compacted and the compaction of the last one and everything said since, or that one again after a retryable error; requests are bounded in number; the summary is asked for exactly when due, about the candidates; every answer is what the stream delivered and within the limits; failures over the budget, the iterations or the retries happen only when due; no iteration starts once the cancel signal is set, and one that finds it set ends the run cancelled for that reason; the returned transcript is the last request and everything said since, the end of all that was said; the usage of a completed run is the clipped sum of the reports and within the limits |
| AgentLoop.AnswersAreDelivered | crates/cool-agent/src/loop_runtime.rs:563-637 | every answer of a run is what the provider delivered to the request before it: text, calls and usage reports of the items up to a Finish or the end of the stream, in order |
| AgentLoop.RequestsAreRenewed | crates/cool-agent/src/loop_runtime.rs:476-562 | after a retryable error a request is the last one again, with a retry left; any other is the compaction of the last one and everything said since, with the summary that was given |
| AgentLoop.RequestsWithinWindow | crates/cool-agent/src/loop_runtime.rs:506-542 | every request of a run is well-formed and exceeds the context window by its summaries beyond the first system message at most, unless it is down to one group or that system message alone is too large |
| RunReplay.ReplayWellFormedExactly | crates/cool-agent/src/loop_runtime.rs:1374-1445 | any log replays to a well-formed transcript exactly when every call has one result, the reports after every answer name its calls in call order, and no user item is stored before the last of them |
| RunReplay.OutOfOrderBatch | crates/cool-agent/src/loop_runtime.rs:942-983 | a batch of two calls that completes out of order, and whose rebuilt turn is not well-formed |
| StoredSteers.StoredAsSaidExactly | crates/cool-app-server/src/lib.rs:5629-5662 | what is stored of a run has the shape of what was said in it exactly when nothing is said between the moment a steer is stored and its drain, and none is left undrained |
| StoredSteers.SteerInsideBatch | crates/cool-state/src/lib.rs:1394-1443 | a steer accepted while the only tool of a batch runs: the report names the call in order, and what is stored replays to an ill-formed transcript |
| RunRebuild.SteerBreaksRebuild | crates/cool-app-server/src/lib.rs:5511-5523 | the same on the rows of the store, none of them covered |
| RunRebuild.RunCanBeStored | crates/cool-app-server/src/lib.rs:5629-5662 | whatever steers a run met, they can have been stored, each drain handing over what was stored since the last |
| RunRebuild.ReplayInvertsEmission | crates/cool-agent/src/loop_runtime.rs:1374-1482 | after a run without compaction the rows rebuild the live transcript, results permuted at most inside their batch and but for image parts and the texts of results, when every steer is said where it is stored; and only then, if none was stored before the user's own item |
| StoredSteers.RebuiltIsSpoken | crates/cool-agent/src/loop_runtime.rs:1374-1445 | one by one a rebuilt message is the one that was said but for its image parts, and the result of a failed tool its code |
| RunRebuild.RebuiltWellFormedExactly | crates/cool-agent/src/loop_runtime.rs:1374-1482 | for any log and any covering summaries the rebuilt history is well-formed exactly when in the uncovered rows every call has its result, in call order, with no user item in between |
| RunRebuild.RebuiltRunWellFormedExactly | crates/cool-agent/src/loop_runtime.rs:1374-1482 | the history rebuilt after a run and its earlier runs, steers stored anywhere in between, is well-formed exactly when no report is due where the covered rows end, and behind it the reports after every answer name the calls in call order with no user item stored before the last of them |
| CompactionCursor.RowsBehindCursor | crates/cool-app-server/src/lib.rs:5545-5569 | behind the row the sink takes for covered are the rows of the last messages, as many as are retained |
| CompactionCursor.CutReplaysExactly | crates/cool-app-server/src/lib.rs:5535-5569 | when what is held is the end of what is stored, those rows replay to the compacted transcript exactly when the real cost of the summary keeps the groups that the reserve was to keep |
| RunRebuild.CompactedRowsReplayExactly | crates/cool-agent/src/loop_runtime.rs:482-519 | so it is at every summarised compaction of a run whose steers are said where they are stored |
| RunRebuild.RestartAfterCompaction | crates/cool-agent/src/loop_runtime.rs:1374-1482 | once that compaction is written, a rebuild gives the injected summary behind the uncovered earlier ones, and then the messages the run goes on with, under the same exact condition |
| BatchReplay.RebuiltTurnWellFormedExactly | crates/cool-agent/src/loop_runtime.rs:1413-1445 | a rebuilt turn is well-formed exactly when the completion order names the same ids as the call order |
| HistoryRebuild.CoveredThroughIsGreatest | crates/cool-agent/src/loop_runtime.rs:1374-1398 | the covered cursor is the greatest that a summary with a text covers up to |
| HistoryRebuild.SummariesRowByRow | crates/cool-agent/src/loop_runtime.rs:1446-1482 | row by row, exactly the summaries with a text behind the covered rows come back, as the marker and their text |
| HistoryRebuild.HistoryFromEventRows | crates/cool-agent/src/loop_runtime.rs:1374-1482 | the summaries that nothing covers, in order, then the messages of the rows that no summary covers |
| EventDelivery.Connection.Recv | crates/cool-app-server/src/client.rs:98-167 | the next broadcast; an overrun receiver lands on the oldest retained entry; an empty ring closes, or blocks for ever |
| EventDelivery.Connection.RunEvents | crates/cool-app-server/src/lib.rs:5168-5219 | a page is at most the limit of the next events of the durable log, empty only at its end, and says whether more remain; a readable log always gives one |
| EventDelivery.PageContinues | crates/cool-acp/src/connection.rs:476-506 | while nothing is missing a page continues what was sent, and the last page reaches the end of the durable log |
| EventDelivery.Connection.CatchUpRun | crates/cool-acp/src/connection.rs:476-506 | what it sends is a stretch of the log after what was sent last, up to the first terminal event; without a failed read it holds all that was durable at the call |
| EventDelivery.Connection.Live | crates/cool-acp/src/connection.rs:424-438 | an event of another run or one not newer than what was sent leaves what was sent unchanged; any other is sent |
| EventDelivery.RunKeepsInv | crates/cool-acp/src/connection.rs:376-506 | over every interleaving and every order of broadcasts the numbers sent strictly increase, are events of the log, and nothing follows the first terminal one |
| EventDelivery.GapFreeInOrder | crates/cool-acp/src/connection.rs:376-506 | if the run's events reach the ring in log order and the log can be read, what is sent is a prefix of the log |
| EventDelivery.GapFreeExactly | crates/cool-acp/src/connection.rs:376-506 | that is so in every interleaving exactly when, up to the first terminal event, no event enters the ring before its predecessor in the log |
| EventDelivery.OvertakenForEver | crates/cool-acp/src/connection.rs:427-431 | an event overtaken by a later one is never sent, whatever comes after |
| EventDelivery.ApprovalOvertaken | crates/cool-app-server/src/lib.rs:2310-2366 | the approval event n committed, n + 1 appended and broadcast first: the subscriber sends n + 1 and never n, without overrun or failed read |
| EventDelivery.NeverStuckExactly | crates/cool-acp/src/connection.rs:398-443 | while the log can be read, no interleaving leaves the prompt listening to a silent ring exactly when some terminal event of the run is broadcast after smaller numbers of the run only |
| EventDelivery.WaitsForEver | crates/cool-acp/src/connection.rs:420-422 | once there, with a ring that is never closed, the prompt never ends |
| EventDelivery.Connection.Prompt | crates/cool-acp/src/connection.rs:376-443 | the numbers sent strictly increase; in log order and without a failed read they are a gap-free prefix of the run's log; it ends with the first terminal event sent, and answers with the stop reason of that event, unless the ring closes or stays silent; and always does when a terminal event is broadcast after smaller numbers only and no read fails |
| Permissions.ApplyKeepsInv | crates/cool-acp/src/connection.rs:509-625 | every step of every interleaving keeps the invariant |
| Permissions.DecidedOnce | crates/cool-acp/src/connection.rs:509-561 | a decision, once made, never changes |
| Permissions.AnswersAreResponses | crates/cool-acp/src/connection.rs:563-601 | what took a sender was a response of the run |
| Permissions.ApprovedOnlyByOwnReply | crates/cool-acp/src/connection.rs:509-625 | an approval comes only from a well-formed allow_once response with the request's own id; no table entry outlives its request |
| Permissions.CancelDenies | crates/cool-acp/src/connection.rs:603-625 | a cancel or the end of the prompt denies every unanswered request of the session, whatever comes later |
| Permissions.WaitingCanBeDecided | crates/cool-acp/src/connection.rs:509-561 | a waiting request always has its sender in the table or on its way |
| Permissions.ReplyDecides | crates/cool-acp/src/connection.rs:544-601 | undisturbed, a reply decides its request, and it is approved exactly when the reply is well-formed and allows it |
| Permissions.AcpServer.RegisterPermission | crates/cool-acp/src/connection.rs:518-528 | refines the registration step |
| Permissions.AcpServer.HandleClientResponse | crates/cool-acp/src/connection.rs:563-601 | refines the response step, with the lookup over all sessions |
| Permissions.AcpServer.CancelPendingPermissions | crates/cool-acp/src/connection.rs:615-625 | refines the cancel step |
| Permissions.AcpServer.Wake | crates/cool-acp/src/connection.rs:544-547 | refines the arrival of a decision or the timeout |
| Permissions.AcpServer.FinishPermission | crates/cool-acp/src/connection.rs:548-555 | refines the clean-up, which removes an emptied session |
| PendingRequests.ApplyKeepsInv | crates/cool-app-server/src/client.rs:114-208 | every step of every interleaving keeps the table live, no waiting request forgotten and every answer the request's own |
| PendingRequests.AnsweredByOwnFrame | crates/cool-app-server/src/client.rs:131-208 | a request gets the content of a response frame with its own id or the report that the transport ended; the result never changes; no entry outlives its request |
| PendingRequests.AfterTheReader | crates/cool-app-server/src/client.rs:150-208 | after the reader ended: earlier requests have their answer on the way, later ones are never answered |
| PendingRequests.FrameAnswers | crates/cool-app-server/src/client.rs:131-200 | undisturbed, a response frame is what its request gets |
| PendingRequests.AppClient.Register | crates/cool-app-server/src/client.rs:169-186 | refines the registration step, with ids from 1 on |
| PendingRequests.AppClient.TakePending | crates/cool-app-server/src/client.rs:509-514 | refines the response step: the named sender is taken, or none is |
| PendingRequests.AppClient.FailPending | crates/cool-app-server/src/client.rs:516-527 | refines the end of the transport: the table is empty and every sender in it reports the end with its message |
| PendingRequests.AppClient.Wake | crates/cool-app-server/src/client.rs:198-208 | refines the arrival of an answer or the timeout |
| SharedRegistry.ApplyKeepsInv | crates/cool-cli/src/mcp_admin.rs:374-430 | every step keeps: claimed names are present and exclusive, no tool of the admin leaks |
| SharedRegistry.OwnershipHolds | crates/cool-cli/src/mcp_admin.rs:374-430 | over every interleaving names recorded or pending removal are disjoint and in the registry as tools of their own server |
| SharedRegistry.ForeignNeverUnregistered | crates/cool-agent/src/tools.rs:560-580 | no run of steps removes or replaces a tool the admin did not insert |
| SharedRegistry.RecordsAreTheRegistry | crates/cool-cli/src/mcp_admin.rs:374-430 | at rest the records are exactly the admin's part of the registry |
| QualifiedNames.ValidateName | crates/cool-cli/src/mcp_admin.rs:854-874 | accepts exactly words of lower-case letters and digits with single separators, of at most 64 characters |
| QualifiedNames.RawNamesCollideExactly | crates/cool-cli/src/mcp_admin.rs:839-840 | two raw names are equal exactly for the same pair, or when one server's name continues the other's after an underscore and the tools make up for it |
| QualifiedNames.QualifiedExactly | crates/cool-cli/src/mcp_admin.rs:839-851 | for every digest two qualified names are equal exactly when the raw names are, or when neither is short and safe and their digests are equal |
| QualifiedNames.ServersCollideExactly | crates/cool-cli/src/mcp_admin.rs:839-851 | two servers can want the same name exactly when one's name and an underscore start the other's, or two digests of theirs are equal |
| QualifiedNames.PlainNamesCollideExactly | crates/cool-cli/src/mcp_admin.rs:839-847 | two servers can want the same undigested name exactly when one's name and an underscore start the other's, and the other's has at most 59 safe characters and so leaves room for an undigested one |
| QualifiedNames.ValidServersCollide | crates/cool-cli/src/mcp_admin.rs:839-874 | two names that the configuration accepts, and tools that collide under them |
| McpAdmin.CliMcpAdmin.RegisterServerTools | crates/cool-cli/src/mcp_admin.rs:374-415 | a connect with others in between keeps the invariant, takes every old name out of the registry, records only its own tools and every usable offered name that was not held at its turn, and leaves foreign tools alone; its own steps are those of a connect, so that alone it replaces exactly the server's tools |
| McpAdmin.CliMcpAdmin.UnregisterServerTools | crates/cool-cli/src/mcp_admin.rs:419-430 | a disconnect with others in between keeps the invariant, takes every name recorded for the server out of the registry, and leaves foreign tools alone; its own steps are those of a disconnect, so that alone it removes exactly the server's tools |
| RegistryConnect.ConnectReplacesExactly | crates/cool-cli/src/mcp_admin.rs:374-415 | an uninterrupted connect leaves the server with exactly the offered names that are usable and not somebody else's, and all others as they were |
| RegistryConnect.DisconnectRemovesExactly | crates/cool-cli/src/mcp_admin.rs:419-430 | an uninterrupted disconnect removes exactly the tools of its server |
| StreamCapture.DrainStream | crates/cool-agent/src/tools.rs:2591-2621 | for every chunking the head is the first bytes and the tail the last ones, up to the caps |
| StreamCapture.BodyOfCapture | crates/cool-agent/src/tools.rs:2564-2589 | within the caps the stream; beyond them the beginning, the exact omitted count and the true ending |
| StreamCapture.BodyIsStreamExactly | crates/cool-agent/src/tools.rs:2564-2589 | exactly when the body equals the stream |
| StreamCapture.MarkerCanBeReal | crates/cool-agent/src/tools.rs:2564-2589 | a stream beyond the caps whose body equals it all the same |
| StreamCapture.FlaggedWholeExactly | crates/cool-agent/src/tools.rs:2564-2589 | the flag is set exactly beyond the head's cap; from there to both caps, and nowhere else, it is set and nothing is missing |
| OutputBudget.SpillStem | crates/cool-agent/src/tools.rs:1120-1140 | 1 to 64 safe characters, the call id with every other character replaced |
| OutputBudget.SpillPathsDiffer | crates/cool-agent/src/tools.rs:2517-2543 | a spill path tells its stem, its stream and its suffix |
| OutputBudget.ViewMarkersDiffer | crates/cool-agent/src/tools.rs:1187-1201 | the marker tells the omitted count and the path |
| OutputBudget.HeadTailView | crates/cool-agent/src/tools.rs:1187-1201 | the longest beginning and end that end on character boundaries, around the exact count; its length bound |
| OutputBudget.ReserveSuffices | crates/cool-agent/src/tools.rs:2517-2543 | the longest path and any 64-bit count fit the 160-byte reserve |
| OutputBudget.BoundOutputs | crates/cool-agent/src/tools.rs:2517-2543 | both texts together never exceed the cap; stdout is fitted first and stderr into what is left, each whole exactly if it fits and as its head and tail otherwise; the spill paths are those of the call id |
| SseFraming.LinesOfConcat | crates/cool-agent/src/provider.rs:415-433 | decoding may stop at any byte and go on with the leftover |
| SseFraming.DecodeSseLines | crates/cool-agent/src/provider.rs:415-433 | drains exactly the complete lines, without LF or CRLF, or fails when one is not valid text |
| SseFraming.Reassembled | crates/cool-agent/src/provider.rs:621-641 | one call for each index, in index order, with all its fragments in order of arrival |
| SseFraming.WrittenLinesAreRead | crates/cool-agent/src/provider.rs:415-433 | lines written down with LF or CRLF are read back, and the start of one more is left over |
| SseFraming.EveryStreamIsWritten | crates/cool-agent/src/provider.rs:415-433 | and every stream can be written down so |
| SseEvents.EventsAreWhole | crates/cool-agent/src/provider.rs:536-644 | usage, content and reasoning of the lines in order; behind each finish reason, and at [DONE] or a clean end, one event for each index with fragments since the one before, in index order, the fragments joined; then one Finish with the last finish reason; an error line or a cut body ends in its error and drops what is pending |
| SseEvents.StreamOnce | crates/cool-agent/src/provider.rs:339-408 | the events are those of the chunks read, up to the line, the size limit, the invalid text, the broken connection or the end that stops it; any chunking of a valid stream within the limit gives those of the stream read whole; exactly one final event ends them |
| SseEvents.StreamEndsOnce | crates/cool-agent/src/provider.rs:339-408 | exactly one final event, a Finish or a failure of the stream, and it comes last; a call with broken arguments does not end the stream |
| BoundedLine.ReadBoundedLine | crates/cool-acp/src/connection.rs:805-852 | TooLarge exactly when the payload exceeds the limit, Eof exactly at the end, otherwise the payload; always one line consumed |

## Left out

- The message of a refused or aborted call is its code.
- Errors of the event sink and the store: a run that ends in `Err` has no outcome and no claim. One `emit` is atomic.
- JSON, secret masking, regexes, globs, rule subjects: arguments, outputs and rules are opaque texts and decisions. Masking is the identity in the replay.
- Wall-clock time: timeouts, backoff and the grace second are arbitrary choices.
- 32- and 64-bit overflow of the token estimates and of `d` and `k` in the diff; usage totals and the compaction trigger do model their saturation.
- A tool task that is lost without a result outside an abort: panics inside a tool are caught by the source.
- Plan events: their details are collapsed to one `PlanUpdated` for each successful `update_plan`.
- The text of a diff: hunks are data, and the cut at `max_len` is not modelled.
- RunRebuild.ReplayInvertsEmission: the texts of tool results are left out of the comparison, because a failed one is stored as its code; `StoredSteers.RebuiltIsSpoken` says what is stored of each. A steer that is accepted before the run reads its history is part of what it starts with; only those accepted later are drained.
- RunRebuild.CompactedRowsReplayExactly: steers said where they are stored only; another order of the rows is not related to the groups that are kept.
- The iteration order of hash maps: aborted calls and cancelled senders are handled in an arbitrary order.
- The content of the frames `client.rs` exchanges, a response whose id is not an integer, and a request that its caller drops before it returns; the adapter's table of active prompts.
- EventDelivery.Connection.RunEvents: the store's query is taken as the events after the cursor; which of them fit a frame is arbitrary.
- EventDelivery.Connection.Prompt: after a failed read of the log, or out of log order, only the strict order is claimed, because the source goes on with the ring and may have lost events.
- QualifiedNames.QualifiedExactly: the digest of long or unusual names is any function; how it is computed and cut to 40 digits is not modelled.
- Server configuration, sessions and auditing of the MCP admin: `connect_config`, `update_server`, `remove_server`, `disconnect` and `reconnect_all` appear as the registry steps they cause.
- OutputBudget.BoundOutputs: writing the spill file is not modelled, and the random suffix of its name is a parameter of eight characters.
- The `data:` prefix and JSON: what a line says, and whether a text of arguments is JSON, are functions that the model takes as given.
- `cool-store`, `cool-state`, `cool-security` and `cool-protocol`: only that an event is appended before it is broadcast, that sequence numbers grow along a run's log, and that a submitted message is an item of the active run.
- Git and manifest checkpoints: only their order before the tools is modelled.
- The scheduler, research pipeline, HTTP, OAuth, transports, process launching, frontend and SDK.
