# Verified core of the mistake agent

This project models the parts of the mistake agent whose correctness is not visible from any single
function, and proves what they promise:

- **Billing ledger** (`Ledger`, `Reconciliation`, `Confluence`, `SlidingWindows`, `BillingStore`): requests are
  reserved and settled against two tables. Every settlement charges a whole turn afresh and patches the counter
  of an entitlement by a difference. Transactions are steps of a state machine over the two tables, run one
  after the other; `reserve` takes a per-user lock and `settle` does not, so this is an assumption.
- **Session tree and compaction** (`SessionTree`, `SessionStore`, `TurnCommit`): messages with parent links, one
  active path, branches, and the splice that hangs a kept tail below a summary. Identifiers are numbers; a new
  message has an identifier that nothing stored bears or names as its parent.
- **Agent loop** (`StreamAssembly`, `AgentLoop`): rounds of a model stream and the tool calls it asks for, the
  guards that end a turn, compaction, and the agreement of the committed path with the conversation in memory.
- **Front-end view** (`SessionView`): the same tree with one chosen version per level.
- **Event-stream parsers** (`Sse`, `SseRoundTrip`): the relay's usage probe and the client's parser, which read the
  format of section 9.2.6 of the WHATWG HTML Living Standard with local deviations.
- **Reasoning replay** (`Replay`): the translation of a history into the input items of the responses protocol.
- **Rate limiting and lockout** (`RateLimit`, `Lockout`): a token bucket per key and a failure counter per key,
  both in bounded maps.
- **Sub-question splitter** (`Segments`).

Code that changes state step by step is written as classes and methods with loops. Each is proved equal to a
specification function on values, and the properties are lemmas about these functions, over every input, every
run or every reachable state. `dafny verify dfyconfig.toml` checks the project.

Where the code and its comments differ, the model follows the code:

- **Compaction.** Comments say that the original messages stay in the session log. Of the messages a turn has
  added, exactly those are stored that compaction has kept: all when it has not taken place, and otherwise the last
  ones (`NewMessageStoredIff`). `LongTurnLosesMessages` is a turn on which the loop compacts and two are lost.
- **Lockout window.** It does not slide. It stays at its anchor: the first failure that finds no current counter,
  or the failure that started the last block, if nothing has cleared the counter since. Three failures within less
  than a window need not block (`WindowDoesNotSlide`, `AnchorSurvivesBlock`). They do exactly under the condition of
  `BlocksIffThreshold`: the failure lies within the window of the anchor, still finds the counter, and is the
  threshold-th one counted from it.
- **Lockout at the cap.** A failure at the cap of keys first drops every counter that is not blocked, its own key's
  included. With a threshold of two or more, once all places but one are taken by blocked keys, no other key can be
  blocked until one of them ends, however often it fails (`FullMapBlocksNoOne`, `FullMapRun`).
- **Exhausted entitlements.** They are skipped when an entitlement is looked up, so `reserve` never answers that
  the uses are exhausted (`ExhaustedReadsAsNone`).
- **Windows and turn identifiers.** With turn identifiers the limit of a window can be exceeded: a free request
  may succeed after its head has failed and has stopped counting, and the head is then billed again
  (`TurnIdsCanExceedTheLimit`). A run stays within the limit at every instant if and only if no settlement bills a
  turn that carries no charge, on a head inside the window, while the window is full (`WithinLimitIff`). Guarding
  free requests is enough: when they join only turns that carry a charge, the limit holds (`WindowNeverOverrun`).
- **Counter and rows.** Once nothing is in flight, the counter of an entitlement exceeds the uses billed on its rows
  by exactly the repeated charges of turns that outgrew their free window, and the two agree if and only if there was
  none (`CounterFromScratch`). `OutgrownTurnCountsTwice` is such a turn.
- **Order of checks.** A check of the token bucket reads the clock before it waits for the lock, so a later check may
  carry an older time, which sets the refill back. Time stepped back then refills twice (`SteppingBackRefillsTwice`);
  the bound counts it (`RateBound`, `BurstPlusRate`).
- **Finished tool calls.** The end of any function-call item finishes the open call with the smallest index, which
  need not be the call that ended; its remaining arguments are then lost (`SecondEndsFirst`). The loop finishes the
  calls that end if and only if each is the smallest open one when it ends (`FinishesEndedIff`); on streams that open
  one call at a time it carries out exactly the calls spelled out (`CallsAreSpoken`).

The tolerance with which the token bucket evicts makes no difference: instants are whole nanoseconds and rates whole
numbers per minute, so a level that falls short of the capacity falls short by far more (`OnlyFullAreDropped`).

## Model

| member | source | states |
|---|---|---|
| Reconciliation.Reconciled | server/src/billing/store.rs:174-431 | over every run of reserve, settle and administrative changes, an entitlement's counter moves exactly with the uses billed on its rows plus the re-charges on non-head rows that settlements have zeroed |
| Reconciliation.CounterFromScratch | server/src/billing/store.rs:174-431 | from an empty table the counter equals the billed uses plus the repeated charges less those still on a row; once nothing is in flight none are, so the counter exceeds the rows by the repeated charges and the two agree if and only if there was none |
| Reconciliation.OutgrownTurnCountsTwice | server/src/billing/store.rs:174-431 | four steps after which a counter stands at two and its rows are billed one use |
| Reconciliation.RunKeepsLate | server/src/billing/store.rs:174-431 | over every run a row that does not open its turn carries a charge only while it is in flight |
| Reconciliation.WriteOffsAreRecharges | server/src/billing/store.rs:418-428 | what settlements have zeroed and what still stands on later rows are together exactly the charges made for turns that already had rows |
| Reconciliation.SettleBalances | server/src/billing/store.rs:341-431 | one settlement changes counter and billed uses by the same amount, up to what it zeroes on other rows |
| Reconciliation.ClampIsIdle | server/src/billing/store.rs:402-416 | in every covered state the counter holds at least the charge that is taken back, so the clamp at zero never takes effect |
| Confluence.SettlementIsConfluent | server/src/billing/store.rs:291-431 | settling all reserved rows of a turn, in any order and with any repetition, leads to one and the same state of both tables |
| Confluence.SettledCharge | server/src/billing/store.rs:387-428 | in that state the first row carries 0 if every request failed upstream and otherwise the ladder value of the turn's total tokens, and every other row carries 0 |
| Confluence.TurnIsBilledByTokens | server/src/billing/store.rs:291-431 | once its reserved rows have been settled, in any order and with any repetition, the first row of a turn is billed k + 1 uses if and only if the sum over its rows of the input and the output tokens reported, each clipped to i64, lies in tier k of the ladder, and nothing if all failed upstream; the other rows are billed nothing, and each row stores the input, the output and the status of its own settlement |
| Confluence.LoneRowIsBilledByTokens | server/src/billing/store.rs:291-431 | a request without turn id is billed the tier of its own input and output tokens, and nothing if it failed upstream; no other row changes |
| Confluence.AnswerIsTurnsBill | server/src/billing/store.rs:291-391 | a row that is not reserved is not settled; otherwise the answer is what the first row of the turn is then billed, and while another request of the turn is in flight that is the former charge, but at least one use |
| Confluence.OrderNeverMatters | server/src/billing/store.rs:291-431 | any two sequences of settlements of the same rows, of any turns, users and entitlements and with any repetitions, lead to the same state of both tables |
| Confluence.SettlementsCommute | server/src/billing/store.rs:291-431 | any two settlements commute, in one turn or in two, of one entitlement or of two |
| SlidingWindows.WindowNeverOverrun | server/src/billing/store.rs:174-283 | with any turn identifiers, if free requests join only turns that carry a charge, then at every instant of every run at most `limit` charged rows lie in the window; the billed sum is at most limit × (tiers + 1), and at most the limit for an empty ladder |
| SlidingWindows.WithinLimitIff | server/src/billing/store.rs:174-431 | a run with any turn identifiers stays within the limit at every instant if and only if no settlement bills an uncharged turn, whose head lies in the window, while the window is full |
| SlidingWindows.StepWithinIff | server/src/billing/store.rs:174-431 | no other step of any kind takes a window over its limit, and that one does |
| SlidingWindows.SettlementRaisesIff | server/src/billing/store.rs:341-431 | a settlement raises the number of charged rows in a window if and only if the turn carries no charge, its head lies in the window and something in it is in flight, answered or aborted; it raises it by one |
| SlidingWindows.PlainRequestsJoinCharged | server/src/billing/store.rs:190-241 | requests without turn identifier always meet the guard of WindowNeverOverrun |
| SlidingWindows.TurnIdsCanExceedTheLimit | server/src/billing/store.rs:190-241 | a run of five steps with turn identifiers that bills two uses in a window limited to one |
| SlidingWindows.ViewMatchesGate | server/src/billing/store.rs:469-545 | a request that opens a turn is granted exactly when the view shows an entitlement and every limited window has something remaining |
| SlidingWindows.RemainingIsRequests | server/src/billing/store.rs:469-510 | what a window shows as remaining is a number of requests: the (n + 1)-th of several requests at one instant is granted exactly when every limited window showed more than n remaining |
| SlidingWindows.DenialNamesFirstSpent | server/src/billing/quota.rs:10-52 | a denial names the first window of the view in which nothing remains, with the limit and use shown there, or the lack of an entitlement |
| SlidingWindows.ResetIsFirstDrop | server/src/billing/store.rs:451-515 | resets_at is the first instant at which the used count of its window drops if nothing is recorded, and absent only when nothing counts |
| SlidingWindows.ExhaustedReadsAsNone | server/src/billing/store.rs:110-133 | reserve is never denied for exhausted uses |
| Ladder.Tier | server/src/billing/ladder.rs:21-28 | on an increasing ladder k + 1 uses are billed exactly for totals above the first k thresholds and not above the next; a total equal to a threshold stays below it |
| BillingStore.Store.FindEntitlement | server/src/billing/store.rs:110-133 | an effective entitlement that expires first is found, or none exists |
| BillingStore.Store.WindowUsageOf | server/src/billing/store.rs:139-159 | the three sums are the billed uses of the user's counted rows in the three sliding windows |
| BillingStore.Store.TurnHead | server/src/billing/store.rs:198-212 | the first row of the turn in the last fifteen minutes and how many rows there are |
| Ledger.ReservationIs | server/src/billing/store.rs:174-283 | a request rides free if and only if its turn has an oldest request from the last 15 minutes on an entitlement and fewer than 12 requests in that time; it is then put on that entitlement for 0 uses and moves no counter, and any other is charged 1 use on the entitlement found, whose counter alone moves by one, or is denied and changes nothing |
| BillingStore.Store.ReserveRequest | server/src/billing/store.rs:174-283 | both tables and the answer after a reservation are those of the specified transition for a legitimate choice of entitlement |
| BillingStore.Store.SettleEvent | server/src/billing/store.rs:291-332 | both tables and the charge after a settlement are those of the specified transition; a settled row is not settled again |
| BillingStore.Store.RecomputeTurnCharge | server/src/billing/store.rs:341-431 | the loops and updates charge the whole turn as specified and return the charge |
| BillingStore.Store.ReadTurn | server/src/billing/store.rs:357-385 | one pass over the rows finds the head, the statuses present and the token total of a turn |
| BillingStore.Store.ZeroOthers | server/src/billing/store.rs:418-428 | exactly the other rows of the turn lose their charge and nothing else changes |
| BillingStore.Store.QuotaViewOf | server/src/billing/store.rs:539-546 | the view is computed from the same figures as the admission decision |
| BillingStore.Store.FirstOf | server/src/billing/store.rs:451-466 | the creation time of the earliest row that counts in the window |
| SessionTree.RunKeepsTree | src/kernel/plugin/storage/mem.rs:65-204 | over every run of append, branch, switch, set-path and splice the parent relation stays acyclic with unique identifiers, and the active path is a duplicate-free chain from a message without stored parent to the active message |
| SessionTree.SpliceKeepsGood | src/kernel/plugin/storage/mem.rs:186-204 | a splice, after which a parent is stored behind its child, creates no cycle |
| SessionTree.ActiveChain | src/kernel/plugin/storage/core/chain.rs:18-39 | the parent walk, which keeps no visited set, terminates on an acyclic list and returns the path from root to active message, or the whole list when no stored message is active |
| SessionTree.ChainUnique | src/kernel/plugin/storage/core/chain.rs:18-39 | at most one parent-linked path from a message without stored parent ends at a given message |
| SessionTree.ActivePathIsSimple | src/kernel/plugin/storage/core/chain.rs:18-39 | the active path is such a path and visits no message twice |
| SessionTree.BranchingKeepsHistory | src/kernel/plugin/storage/mem.rs:114-184 | editing a user message on the active path stores one new user message with the new text, no display text, the attachments and the parent of the message edited and the given identifier and time; the path before the message and this message become the active path, all stored messages stay as they are, and switching back restores the former path; everything else is refused without effect |
| SessionStore.MemoryStorage.CreateSession | src/kernel/plugin/storage/mem.rs:41-53 | a new key gets the metadata and an empty list, a used key is refused and nothing changes |
| SessionStore.MemoryStorage.AppendMessage | src/kernel/plugin/storage/mem.rs:65-73 | any message is added at the end of one session's list and nothing else changes; an unknown session is refused |
| SessionStore.MemoryStorage.ReadPath | src/kernel/plugin/storage/mem.rs:75-87 | the active path of the session is returned |
| SessionStore.MemoryStorage.SetActivePath | src/kernel/plugin/storage/mem.rs:100-112 | only the active message of one session changes |
| SessionStore.MemoryStorage.Derive | src/kernel/plugin/storage/mem.rs:114-170 | the stored session becomes the specified branch, and all errors leave it alone |
| SessionStore.MemoryStorage.Switch | src/kernel/plugin/storage/mem.rs:172-184 | only the active message of the session changes, and only to a stored message |
| SessionStore.MemoryStorage.SpliceCompaction | src/kernel/plugin/storage/mem.rs:186-204 | for any summary, the tail start is hung below it and it is stored last; an unknown tail start changes nothing |
| SessionStore.MemoryStorage.Archive | src/kernel/plugin/storage/mem.rs:229-238 | one session becomes archived with the time of archiving |
| SessionStore.MemoryStorage.Activate | src/kernel/plugin/storage/mem.rs:240-249 | one session becomes active and loses its time of archiving |
| SessionStore.MemoryStorage.SetLastActivity | src/kernel/plugin/storage/mem.rs:271-283 | only the time of the last activity of one session changes |
| SessionStore.MemoryStorage.RemoveSession | src/kernel/plugin/storage/mem.rs:251-258 | exactly one session goes, with its messages |
| SessionStore.OneActiveSession | src/kernel/agent/session/scheduler.rs:93-310 | over every run of messages, new and opened sessions, tree writes, archiving and removals, at most one session is active, exactly the archived ones bear a time of archiving, and every list stays a tree |
| SessionStore.StoresHaveOneActive | src/kernel/agent/session/scheduler.rs:93-310 | in particular every store that began empty has at most one active session |
| SessionStore.UserExtendsPath | src/kernel/agent/session/scheduler.rs:134-158 | the new path is the old one followed by the user message, with its own identifier, content and time, below the end of the old path |
| SessionStore.SessionScheduler.AppendUser | src/kernel/agent/session/scheduler.rs:161-181 | the user message is stored below the active path, becomes active, and the new path is returned |
| SessionStore.SessionScheduler.OnNewMessage | src/kernel/agent/session/scheduler.rs:93-158 | the message goes to an active session, whose last activity is updated, or to a new session when none is active |
| SessionStore.SessionScheduler.ArchiveAllActive | src/kernel/agent/session/scheduler.rs:299-310 | exactly the active sessions are archived at the given time and nothing else has changed |
| SessionStore.SessionScheduler.CreateNewSession | src/kernel/agent/session/scheduler.rs:187-240 | all others are archived, an active one among them is reported, the new session is active, and the summary of the reported session, if asked for and not blank, is its first message and active end |
| SessionStore.SessionScheduler.OpenExisting | src/kernel/agent/session/scheduler.rs:246-253 | the opened session is the single active one; an unknown key changes nothing |
| TurnCommit.PersistTurnMessages | src/kernel/agent/rpc/handlers.rs:7-26 | all new messages but the summary are appended in order and the last of them is reported |
| TurnCommit.AppendsAreLegal | src/kernel/agent/rpc/handlers.rs:7-26 | messages that are new and refer only to earlier ones are stored by a run of appends that keeps the tree |
| TurnCommit.CommitTurn | src/kernel/agent/rpc/mod.rs:651-699 | persisting, splicing and advancing the active path lead to the specified session and touch no other |
| TurnCommit.CommitWithoutCompaction | src/kernel/agent/rpc/mod.rs:651-699 | reading the path back gives the old path followed by the new messages |
| TurnCommit.CommitWithCompaction | src/kernel/agent/rpc/mod.rs:651-699 | reading the path back gives exactly the summary and the kept tail, wherever the tail begins |
| TurnCommit.CompactedCanCommit | src/kernel/agent/rpc/mod.rs:651-682 | a compacted turn meets the conditions under which its commit keeps the tree |
| TurnCommit.CompactedAwayIsNotStored | src/kernel/agent/loop_mod/mod.rs:459-498 | a new message is stored exactly when it lies in the kept tail |
| AgentLoop.NewMessageStoredIff | src/kernel/agent/rpc/mod.rs:603-699 | for what the loop reports, with or without compaction, an added message is stored if and only if no compaction took place or the message is among the last ones it kept |
| AgentLoop.LongTurnLosesMessages | src/kernel/agent/loop_mod/mod.rs:459-521 | a turn of seventeen replies to a long question, which the loop compacts with its own limits whenever the summariser answers; the first two replies are never stored |
| AgentLoop.StoredPathIsConversation | src/kernel/agent/rpc/mod.rs:603-699 | whenever a turn starts from the stored active path and nothing else writes, committing what the loop reports makes the stored path the loop's final conversation, the session-id message left aside |
| AgentLoop.AgentLoop.RunTurn | src/kernel/agent/loop_mod/mod.rs:109-457 | for all model streams the loop ends within max_tool_calls + 1 rounds and max_tool_calls calls; every pass before the last is neither cancelled nor out of time, reads its stream to the end and is asked for calls; the turn stops as aborted by the user, out of time, aborted internally, with an error or naturally if and only if the last pass does so by its own conditions, and has then carried out exactly the calls of the earlier passes; the tool messages appended are exactly the answers to the first calls asked for, one each, in order and under the call identifiers asked for, and the other messages are those that the streams write; it stops for consecutive failures exactly when the last results fail with one code, and at the limit only when one call was left over |
| AgentLoop.AgentLoop.ExecuteCalls | src/kernel/agent/loop_mod/mod.rs:382-436 | the calls of a round are answered in order up to the call that trips a guard, each with one message that bears its call identifier |
| AgentLoop.AgentLoop.ReadStream | src/kernel/agent/loop_mod/mod.rs:223-361 | assembling a stream chunk by chunk gives the specified messages and calls; the conversation only grows by new messages below its end |
| AgentLoop.AgentLoop.OpenStream | src/kernel/agent/loop_mod/mod.rs:159-216 | the stream opens at once or after exactly one transient failure that the user waits out; a cancelled, a systemic and a second transient failure end the turn as aborted by the user, aborted internally and with an error |
| AgentLoop.AgentLoop.MaybeCompact | src/kernel/agent/loop_mod/mod.rs:461-521 | compaction happens exactly when the UTF-8 length of the messages reaches three quarters of the window, there is something to summarise and one of two attempts gives a summary that is not blank; it leaves the summary and the last messages |
| AgentLoop.FailureRunIs | src/kernel/agent/loop_mod/mod.rs:408-431 | the failure counter reaches n exactly when the last n results are errors with the same code |
| StreamAssembly.CallsDependOnChunks | src/kernel/agent/loop_mod/mod.rs:223-361 | which calls a stream finishes depends on the stream alone, not on the conversation or on open bubbles |
| StreamAssembly.MessagesAreWritten | src/kernel/agent/loop_mod/mod.rs:223-342 | reading a stream appends one message for each item finished before its end: an answer with all the text sent for it, unless that is empty, or reasoning with all that was sent for it under the identifier announced last; nothing else is appended |
| StreamAssembly.EndIs | src/kernel/agent/loop_mod/mod.rs:325-361 | reading a stream breaks off exactly at a failure that comes before every end mark, and reports whether that failure is systemic |
| StreamAssembly.FinishesEndedIff | src/kernel/agent/loop_mod/mod.rs:281-324 | on every stream, noting which call each end ends, the loop finishes the calls that end if and only if each is the open call with the smallest index; it then assembles what the stream means |
| StreamAssembly.SecondEndsFirst | src/kernel/agent/loop_mod/mod.rs:281-324 | a stream on which the loop finishes the wrong call and loses arguments |
| AgentLoop.CallsAreSpoken | src/kernel/agent/loop_mod/mod.rs:223-361 | on a stream that opens one call at a time, the calls taken are its finished calls in order, each with its name, all its arguments and its identifier |
| AgentLoop.AskedAreSpoken | src/kernel/agent/loop_mod/mod.rs:223-436 | so the calls of a turn are those that its streams spell out |
| SessionView.ViewExtendsServerPath | web/src/lib/messages.js:55-94 | for unique identifiers and acyclic parents, the chain shown by a fresh view begins with exactly the server's active path, goes on parent-linked and ends at a message without children |
| SessionView.NavigateAndBack | web/src/lib/messages.js:100-114 | choosing another version keeps all versions and keeps every pointer in range, and going back by the same number restores the view |
| SessionView.NavigateGoesRound | web/src/lib/messages.js:100-114 | choosing shows the version that stands dir places further in order of time on the level of the message, going round at either end, and moves no other pointer |
| SessionView.ChainAfterNavigation | web/src/lib/messages.js:83-114 | after any choices of versions the chain shown runs from a root along parent links to a message without children |
| SessionView.ByTimeSorts | web/src/lib/messages.js:39-53 | versions stand in order of time, and versions of the same time in list order |
| SessionView.ByTimeKeeps | web/src/lib/messages.js:39-53 | sorting keeps the versions of a level |
| SessionView.BranchView.constructor | web/src/lib/messages.js:33-80 | for any list the view has one node per identifier with all its versions, all pointers are in range, and exactly the pointers on the way to the active message lead along it |
| SessionView.WalkIsPath | web/src/lib/messages.js:56-67 | without cycles of parents, walking up with a visited set collects exactly the server's path |
| SessionView.BranchView.ActiveChain | web/src/lib/messages.js:83-94 | the loop follows the pointers from the root until it leaves the tree or comes back |
| SessionView.BranchView.NavigateBranch | web/src/lib/messages.js:100-114 | only the pointer of the message's level moves, around the list in either direction |
| Sse.ChunkIndependence | server/src/relay/sse.rs:60-69 | however a stream is cut, the parser ends in the same state with the same events |
| Sse.UnfinishedLineIsSilent | server/src/relay/sse.rs:72-75 | bytes after the last line feed dispatch nothing |
| Sse.CrlfAndCommentsAreInvisible | server/src/relay/sse.rs:60-95 | turning line feeds into CRLF and inserting comment lines, anywhere and any number of times, changes no event of either parser |
| Sse.ProbeDependsOnLinesOnly | server/src/relay/sse.rs:60-110 | the probe's result is the same for any two chunkings of streams that differ only in such edits and in what follows the last line feed |
| Sse.ParsersAgree | src/kernel/plugin/model/responses.rs:78-105 | on every byte stream and for any chunking on either side both parsers dispatch as many events, with the same names and with data equal line by line up to trailing white space |
| SseRoundTrip.WrittenIsRead | server/src/relay/sse.rs:60-110 | written as an event line, if it has a name, a data line for each line of its data and a blank line, every sequence of events is read back by both parsers as exactly that sequence, however the text is cut |
| SseRoundTrip.EventsAreRead | src/kernel/plugin/model/responses.rs:78-105 | the lines of such a text leave no unfinished event and dispatch the events written, in order, also in the client |
| Sse.UsageProbe.Push | server/src/relay/sse.rs:60-69 | draining complete lines in a loop leaves the unfinished line and observes the specified events |
| Sse.UsageProbe.Line | server/src/relay/sse.rs:77-95 | one line updates the fields or dispatches as specified |
| Sse.UsageProbe.Dispatch | server/src/relay/sse.rs:97-110 | dispatching observes the pending event and clears the fields |
| Sse.UsageProbe.Finish | server/src/relay/sse.rs:72-75 | finishing drops the unfinished line and returns the result |
| Sse.SseParser.PushChunk | src/kernel/plugin/model/responses.rs:79-104 | draining complete lines in a loop yields the specified events and leaves the unfinished line |
| Replay.MessagesToResponsesInput | src/kernel/plugin/model/mod.rs:105-206 | the loop with pending reasoning and calls since it builds the specified items |
| Replay.NoReasoningInput | src/kernel/plugin/model/mod.rs:93-103 | dropping the reasoning items from the full input gives exactly the fallback input |
| Replay.InputIsReadBack | src/kernel/plugin/model/mod.rs:105-206 | from either input, with reasoning or without, every text, every picture, every call and every result of the conversation can be read back, in order |
| Replay.BuildPaired | src/kernel/plugin/model/mod.rs:164-202 | from any state of the loop, every function call is followed at once by the output with its call identifier, and no output stands alone |
| Replay.CallCarriesThought | src/kernel/plugin/model/mod.rs:154-202 | before every call stands, with only assistant items between, an item of the latest reasoning of the same exchange, and no reasoning item when there is none |
| RateLimit.RateBound | server/src/security/ratelimit.rs:63-86 | from any sane state and for times in any order, the checks of a key admitted in an interval without a full reset are at most its level plus rate × (duration + time stepped back) |
| RateLimit.BurstPlusRate | server/src/security/ratelimit.rs:63-86 | in any interval of any run of a new limiter without a full reset in the interval, at most capacity + rate × (duration + time stepped back) checks of a key are admitted, and nothing is stepped back when the times ascend |
| RateLimit.NewKeyHasBurst | server/src/security/ratelimit.rs:51-86 | a key without a bucket may make n checks at once if and only if n is at most the burst, which counts as one when it is zero |
| RateLimit.RateIsPerMinute | server/src/security/ratelimit.rs:51-86 | a key without tokens is admitted again exactly when the time since its last refill, multiplied by the rate per minute, makes a minute; a rate of zero counts as one |
| RateLimit.SteppingBackRefillsTwice | server/src/security/ratelimit.rs:63-86 | with one token a second and room for one, three checks within a second are admitted when one carries an older time |
| RateLimit.RetryAfterIsLeast | server/src/security/ratelimit.rs:75-86 | a refusal's wait is between 0 and 60 seconds and exactly the least delay after which the next check of the key passes, whatever other keys are checked and evicted in between |
| RateLimit.KeysStayBounded | server/src/security/ratelimit.rs:63-68 | after a check the map holds at most its cap of keys |
| RateLimit.ForgettableIffFull | server/src/security/ratelimit.rs:104-113 | dropping a bucket goes unnoticed by all later checks if and only if it has refilled to capacity |
| RateLimit.EvictionIsInvisible | server/src/security/ratelimit.rs:104-113 | without a full reset, the capped map of a new limiter answers every check of every run as an unbounded map does |
| RateLimit.OnlyFullAreDropped | server/src/security/ratelimit.rs:104-113 | evict drops a bucket if and only if it has refilled to its capacity: the tolerance never matters |
| RateLimit.EvictionKeepsLevels | server/src/security/ratelimit.rs:104-113 | an eviction without a reset changes no level, then or later |
| RateLimit.RunsStaySane | server/src/security/ratelimit.rs:63-86 | over every run levels stay non-negative whole multiples of what a nanosecond refills |
| RateLimit.TokenBucket.constructor | server/src/security/ratelimit.rs:51-60 | the capacity is the burst and the rate per second a sixtieth of the rate per minute, both taken as at least one; at most 50 000 keys are tracked, at first none |
| RateLimit.TokenBucket.CheckKey | server/src/security/ratelimit.rs:63-86 | the map and the answer after a check are the specified ones |
| RateLimit.TokenBucket.Available | server/src/security/ratelimit.rs:89-101 | the level shown is the one a check would find, and nothing changes |
| RateLimit.TokenBucket.EvictFull | server/src/security/ratelimit.rs:104-113 | exactly the refilled buckets go, or all of them when that frees nothing |
| Lockout.BlockIsBacked | server/src/security/lockout.rs:70-96 | over every run a block that starts is backed by exactly threshold failures of its key inside one window with no success in between |
| Lockout.CountsStayBelow | server/src/security/lockout.rs:88-94 | between calls every stored count is below the threshold |
| Lockout.TriggeredBlockHolds | server/src/security/lockout.rs:50-96 | a block holds for its whole length against any continuation without a success of the key; neither eviction nor later failures end it early |
| Lockout.RefusedIffBlockStands | server/src/security/lockout.rs:50-96 | over every run in order a check is refused if and only if some failure of the run has started a block of the key that is not over, with no success of the key since; the wait is exactly what is left of the last such block |
| Lockout.LastBlockStands | server/src/security/lockout.rs:70-101 | the block found by looking back from the end of a run to the last success of the key is the last one that stands |
| Lockout.ThresholdTriggers | server/src/security/lockout.rs:70-95 | for a key without a counter, the next failure blocks if and only if it lies within one window of the first, does not evict and is the threshold-th since |
| Lockout.BlocksIffThreshold | server/src/security/lockout.rs:70-95 | for any stored counter, also one left over from a block and also at the cap, a failure blocks if and only if it lies within the window of the anchor, still finds the counter and is the threshold-th counted from it, or else one failure is enough |
| Lockout.FailureAnchors | server/src/security/lockout.rs:70-88 | a failure that finds no counter, an evicted or an expired one becomes the anchor |
| Lockout.FullMapBlocksNoOne | server/src/security/lockout.rs:70-96 | while all places of the map but one are taken by blocked keys and threshold is at least two, no failure of another key starts a block, over any run without successes |
| Lockout.FullMapRun | server/src/security/lockout.rs:70-96 | a run of a new guard after which any number of failures of a key at one instant block nothing |
| Lockout.BlocksShareNoFailure | server/src/security/lockout.rs:88-94 | between two failures that block a key lie at least threshold failures of it, the second one included |
| Lockout.WindowDoesNotSlide | server/src/security/lockout.rs:84-87 | a run with threshold failures within less than a window that does not block, because the first was counted in an older window |
| Lockout.AnchorSurvivesBlock | server/src/security/lockout.rs:84-94 | a run with threshold failures within less than a window that does not block, because the window of the blocking failure ends in between |
| Lockout.FailureGuard.CheckKey | server/src/security/lockout.rs:50-67 | the map and the verdict after a check are the specified ones |
| Lockout.FailureGuard.RecordFailure | server/src/security/lockout.rs:70-96 | the map and whether a block starts are the specified ones |
| Lockout.FailureGuard.RecordSuccess | server/src/security/lockout.rs:99-101 | the key has no counter afterwards, and all other keys keep theirs |
| Segments.FindCuts | web/src/lib/segments.js:22-45 | the scan finds exactly the markers outside math and code that open a sentence, in order |
| Segments.WalkIffTiled | web/src/lib/segments.js:27-45 | the flags of the scan say text at a position if and only if the text before it divides into plain characters and complete math and code spans |
| Segments.CutByMarkers | web/src/lib/segments.js:22-57 | the result is the trimmed, non-empty slices between the cuts |
| Segments.PiecesJoin | web/src/lib/segments.js:47-57 | the pieces of a trimmed line concatenate to exactly the line, each a slice between neighbouring cuts |
| Segments.PiecesIdempotent | web/src/lib/segments.js:22-57 | cutting a piece again gives that piece alone |
| Segments.SplitSubQuestions | web/src/lib/segments.js:59-69 | the pieces of all lines, or nothing for fewer than two |
| Segments.SplitLosesNothing | web/src/lib/segments.js:59-69 | the parts joined have the same characters other than white space in the same order as the text |
| Segments.SplitIdempotent | web/src/lib/segments.js:59-69 | splitting a returned part again finds that part alone |

## Left out

- Isolation of database transactions: they are taken to run one after the other.
- SQL and row decoding; a row's identifier is its position in the table, and columns that billing never reads are missing.
- Integer widths in billing other than the clipping of token counts to i64; sums do not overflow in the model.
- Which of several entitlements that expire together is found: any of them, as the query leaves it open.
- The per-protocol usage observers (server/src/relay/sse.rs:112-236) and JSON: the probe is proved for every observer.
- UTF-8 decoding: any decoding of a line that keeps ASCII characters in place and adds none; in the round trip, any encoding of the lines that it undoes.
- Rounding of f64 and Duration in the token bucket: instants are whole nanoseconds, tokens and waits exact reals.
- RateLimit.EvictionIsInvisible: the times of the checks ascend; a check with an older time may find a bucket dropped that would not have been full then.
- RateLimit.BurstPlusRate: does not cover intervals with a full reset of the map, after which the code starts over with full buckets.
- Clocks, random identifiers and locks: times and fresh identifiers are inputs, and calls run one after the other; in the lockout and in RateLimit.RetryAfterIsLeast times ascend.
- File storage, settings, audit records, events, titles, goals, and the text of summaries and prompts.
- Storage failures inside a commit: the store of the model accepts every message of a turn.
- SessionStore.MemoryStorage.ReadPath: requires a list without cycles of parents; on a cycle the walk of the code does not end.
- Forced tools, reasoning effort and token usage of a turn (src/kernel/agent/loop_mod/mod.rs:125-158).
- Tool lookup, policies, dispatch and JSON parsing: arbitrary functions that resolve a name, parse arguments and answer the n-th call.
- Model streams are finite sequences of chunks.
- JavaScript strings as code units and Date parsing: strings are characters and creation times are integers.
- SessionView.BranchView.constructor: nodes are values in a map, so nodes shared with other objects are not captured.
- Rendering of bubbles, attachments and markdown.
- The splitter splits lines at every line feed and skips blank lines; the code splits at runs of line feeds, with the same result.
