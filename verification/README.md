# Playroom server: a verified model

The server of Playroom keeps an append-only event log and a few projection rows beside it. These modules model the
state machines over that log and prove what they keep over every run: a SQL statement (or one `BEGIN..COMMIT`) is one
step, statements of different callers interleave, and callers may die between two of theirs. Where the source changes
rows in place, a class does so too. A method that is one statement is tied to the function that specifies its step; one
that makes several is tied to the steps it takes when nothing comes between them (`Turns.AgentRunner.RunAgentTurn`,
`Tasks.TaskStore.TransitionTask`, `Summaries.UninterruptedRunMaintains`), and the lemmas are about the steps, whatever
comes between.

| file | what it models |
|---|---|
| `Audit.dfy` | hash chain over commitment events, numbers assigned at INSERT and visible at COMMIT, anchor runs, verification |
| `Receipts.dfy` | detached receipts, their stand-alone verification, comparison of two machines' chains |
| `Scrub.dfy` | the log scrubber as sequential replacement passes over strings |
| `Orders.dfy` | standing orders: claim, summon, start, count, status writes and edits, interleaved |
| `Turns.dfy` | agent turns and summariser calls under the daily ceiling |
| `RoomLog.dfy`, `Summaries.dfy` | a room's log, its rolling summary and window, folded by any number of processes |
| `Convergence.dfy`, `Floors.dfy` | what repeated maintenance comes to, and where the floor goes when several processes fold |
| `History.dfy` | history paging |
| `Assembly.dfy` | what a summoned turn is given, and the assertion in front of it |
| `OAuth.dfy` | codes, token families, rotation, replay, revocation |
| `Throttle.dfy`, `Push.dfy` | the sliding-window throttles and the push volume limit |
| `Interrupts.dfy`, `Tasks.dfy` | rows that follow the log, and the interrupt budget counted from it |
| `Socket.dfy` | replay plus live tail of a room's socket |
| `Prelude.dfy` | an optional value, white space, counting facts |

Nine promises of the source or its comments turned out not to hold as stated; the code is modelled as it is, and each
comes with a run or an input that breaks it and the exact condition under which it holds.

- A terminal order status can be left (apps/api/src/orders.ts:13): `setOrderStatus` does not re-check the row, so a
  status decided on earlier lands over it. `Orders.RevokedOrderRunsAgain`, `Orders.TerminalIsFinalIffNothingPends`.
- The cycle that reaches the cap is not always the last (apps/api/src/commands/runOrders.ts:40-44, 292-308): an order
  nobody edits or revives passes it exactly when one of its cycles is counted while the stop an earlier count left is
  not yet written, or died with its process. With at most n cycles between start and stop it passes it by at most
  n - 1, and one more for each such death. The first run takes two processes or a freed slot, since one process refuses
  a member's second start; the second takes one cycle at a time and a death. `Orders.CapOfOneCountsTwo`,
  `Orders.LostStopCountsTwo`, `Orders.CapIsPassedIffCountedUnstopped`, `Orders.OvershootIsBounded`.
- One turn per member and room is not kept by the slot: `finally` frees it again, and by then it can be another turn's.
  It is lost exactly when a turn past its answer leaves while another holds its slot. `Turns.TwoTurnsRunOnOneSlot`,
  `Turns.SlotIsLostOnlyByEviction`, `Turns.ExclusiveIffNoEviction`. What the database index keeps instead is one answer
  per summon: `Turns.OneSummonOneAnswer`.
- The floor of the rolling summary can drop when two processes fold: exactly when one writes a batch that ends below it
  at a point nobody covered. `Floors.TwoProcessesDropTheFloor`, `Floors.WriteMovesFloor`,
  `Floors.FloorRisesIffNoLateWrite`.
- The tail does not always come back to 36 or less (apps/api/src/summary.ts:48-51). After a drop a fold can be refused
  because its batch ends where a summary already stands; while the room stays quiet every later one is, and the next
  message can free it, as in the run of `Floors.TwoProcessesDropTheFloor`. It is never freed, whatever is posted
  and whoever folds, exactly when a summary stands at every point from the present batch's end through the fortieth
  message past the floor, and two processes can bring that about. `Floors.TwoProcessesBlockTheRoom`,
  `Convergence.NeverFoldsAgainIffBlocked`, `Convergence.NextFoldComesUnlessBlocked`; for a quiet room
  `Convergence.MaintenanceConverges`; for one folding process `Floors.TailStaysInBand`.
- Every change appends its event first, says apps/api/src/tasks.ts:15-19; `ensureTask` inserts the row before
  `task.created`, and is the only one that does. `Tasks.RowNobodyRecorded`, `Tasks.EveryRowChangeButTheInsertIsLogged`.
- A task row whose writes are all done can still contradict its log, when two writers overlapped or one moved a task
  before its creation was logged: it cannot exactly when every write still owed is for the state the log will imply once
  an owed `task.created` is in. `Tasks.OverlapContradictsTheLog`, `Tasks.MovedBeforeItsCreation`,
  `Tasks.PaysOutIffOwingOnlyTheLog`, `Tasks.OrderlyRowIsTheLog`.
- `budget_remaining` on an event is the limit less the spend only while the spend is within the limit; a downgrade can
  take it past. `Interrupts.DowngradedPastTheLimit`, `Interrupts.RemainingIsLimitLessSpend`.
- A configured secret can stand in a scrubbed line: one the stamp spells, in every line anything was redacted from, and
  no other among those without NUL whose ends cannot meet an end of the stamp. One whose end can may be spelt across
  the edge. `Scrub.SecretSurvivesIffStampSpellsIt`, `Scrub.BracketedSecretIsSpelt`.

The branch of apps/api/src/assembly.ts:255-261 for more than one principal cannot be reached, which
`Assembly.AssertOwnPrincipalOnly` states.

## Model

| member | source | states |
|---|---|---|
| Audit.VerifyAuditChain | apps/api/src/audit.ts:130-215 | ok exactly when every row links, recomputes, and matches a source event in envelope and body; else the first row that does not, and why; the root is the last hash |
| Audit.RootBinding | apps/api/src/audit.ts:122-128 | two stores that verify to one root hold the same rows in the same order with the same source payloads and envelopes, so an edit, insertion, removal or reorder under a sent root is caught |
| Audit.HeadIsRoot | apps/api/src/audit.ts:242-247 | the newest entry hash of a holding chain is the root verification reports, absent only for an empty chain |
| Audit.PrefixHolds | apps/api/src/audit.ts:146-214 | every prefix of a holding chain holds |
| Audit.TruncationVerifiesUnderAnotherRoot | apps/api/src/audit.ts:130-215 | a cut tail still verifies, but to a different root: only a root held elsewhere shows it |
| Audit.PendingIsExact | apps/api/src/audit.ts:71-77 | the anti-join returns exactly the visible commitments no row chains, in number order |
| Audit.ExtendKeeps | apps/api/src/audit.ts:79-100 | appending any set of unchained visible commitments, late low numbers included, keeps the chain verifying and each source chained once |
| Audit.AnchorKeeps | apps/api/src/audit.ts:44-109 | an anchor run keeps the chain sound and only lengthens it |
| Audit.AnchorCovers | apps/api/src/audit.ts:54-60 | after a run every visible commitment is chained |
| Audit.RunKeeps | apps/api/src/audit.ts:44-109 | every interleaving of inserts, commits out of order, rollbacks and anchors keeps the chain sound and extends it |
| Audit.NoCommitmentLostOrDoubled | apps/api/src/audit.ts:36-43 | from an empty store, over every interleaving: the chain verifies, its rows are numbered as chained, no event is chained twice, after an anchor the chained set is the visible events of type decision or decision.resolved, a second run changes nothing, nothing chained is ever lost |
| Audit.FirstDecisionIsChained | apps/api/src/audit.ts:79-100 | an insert, its commit and an anchor leave one row linked to the genesis marker with the payload's hash and the event's envelope; before the commit an anchor chains nothing |
| Audit.AuditStore.ChainCommitmentEvents | apps/api/src/audit.ts:44-109 | appends the rows of one anchor step, counts them, returns the new root |
| Audit.AuditStore.InsertEvent | apps/api/src/audit.ts:54-60 | takes the next number at once, in flight and visible to nobody |
| Audit.AuditStore.CommitEvent | apps/api/src/audit.ts:54-60 | makes exactly that event visible, in number order, however late |
| Receipts.VerifyDetachedReceipt | packages/receipt/src/receipt.ts:68-163 | ok exactly when body, entry, path to the root and outcome all agree; each check reported as far as it got |
| Receipts.ReceiptsAreComplete | apps/api/src/audit.ts:345-409 | from a verifying chain a member gets a receipt if and only if it is enrolled in the room of the decision's newest resolution and that is chained; it is self-consistent, reaches the chain's root and carries that resolution's payload |
| Receipts.WalkIsSuffix | packages/receipt/src/receipt.ts:115-134 | a path that recomputes link by link to a chain's root is a suffix of that chain |
| Receipts.ReceiptsAreSound | packages/receipt/src/receipt.ts:62-67 | any receipt that verifies against the root of a verifying chain carries a recorded event's payload and outcome |
| Receipts.Reconcile | packages/reconcile/src/reconcile.ts:54-85 | the length of the agreed prefix, who is ahead and by how much, and the fork point |
| Receipts.EqualHashMeansEqualHistory | packages/reconcile/src/reconcile.ts:48-53 | an equal hash at one place of two verifying chains means equal histories up to it |
| Scrub.Scrubber.ReplaceAll | apps/api/src/scrub.ts:84-85 | the pattern loops compute the passes in order, counting redactions |
| Scrub.Scrubber.Scrub | apps/api/src/scrub.ts:74-92 | the scrubbed line and count, all passes and the final stamping |
| Scrub.PassClears | apps/api/src/scrub.ts:84-85 | a pass leaves no occurrence of a word its pattern always matches, none arising across its replacements |
| Scrub.GeneralClears | apps/api/src/scrub.ts:31-37 | the general pass leaves no forty token characters that are not lowercase hex |
| Scrub.PassKeepsTheRest | apps/api/src/scrub.ts:79-86 | a pass takes its literal, or a prefix and the whole run behind it, counts each, marks each, and keeps everything between as it was |
| Scrub.StampingKeepsTheRest | apps/api/src/scrub.ts:88-89 | stamping turns markers into stamps and keeps everything between as it was |
| Scrub.CountIsHalfTheNuls | apps/api/src/scrub.ts:79-86 | for a line and secrets without NUL the count is exactly the number of marks made, over all passes |
| Scrub.ScrubbedIsClean | apps/api/src/scrub.ts:10-15 | over every line: no secret without NUL survives that the stamp spells neither whole nor across an edge; nowhere stands plr_cnry_ before a letter or digit, prm_ before 16, sk- before 20, sk-ant- or sk-proj- before 6 token characters; every run of forty or more token characters is lowercase hex |
| Scrub.RedactionIsStamped | apps/api/src/scrub.ts:88-89 | every line something was redacted from carries the stamp, whose digits read as the count |
| Scrub.SecretSurvivesIffStampSpellsIt | apps/api/src/scrub.ts:83-89 | a configured secret without NUL, no end of which meets an opposite end of the stamp and which holds no stamp, brackets or not, stands in the scrubbed line if and only if something was redacted and the stamp spells it |
| Scrub.ForeignEndsAreGone | apps/api/src/scrub.ts:10-15 | a secret that begins and ends with a character no stamp holds, a URL with a bracketed host for one, never stands in a scrubbed line, unless it was written around a stamp |
| Scrub.BracketedSecretIsSpelt | apps/api/src/scrub.ts:83-89 | a secret that begins with a bracket can be spelt by the stamp and the text behind it, where the line held none |
| Scrub.CountIsZeroIffClean | apps/api/src/scrub.ts:76-90 | something is redacted exactly when the line was not clean; a clean line comes back unchanged |
| Scrub.ScrubbingTwiceIsScrubbingOnce | apps/api/src/scrub.ts:74-92 | a scrubbed line scrubs to itself if and only if no secret stands in it, which for secrets that cannot straddle the stamp is when nothing was redacted or the stamp spells none |
| Orders.StepKeeps | apps/api/src/orders.ts:235-260 | every step, whatever it lands between, keeps: claims rise and the row holds the last; own summons are claimed and unique; each count has a started row; each cycled row has a count |
| Orders.CountedCyclesMeanTurns | apps/api/src/orders.ts:235-260 | over every interleaving: claims strictly increase, and streak <= count <= started own summons <= own summons <= claims, cycled rows <= count |
| Orders.CountersCountCycles | apps/api/src/orders.ts:159-189 | over every run from an empty store: the count is the number of the order's cycles counted, the streak the number counted since it was created, set active, or had a message in its room while active |
| Orders.LimitsOweStops | apps/api/src/commands/runOrders.ts:292-321 | over every such run: the next cycle counted leaves the end of the order if it makes the count reach the cap, else the pause if it makes as many cycles as the dial allows with nobody there, else no stop |
| Orders.OneCompletionOneSummon | apps/api/src/events.ts:780-834 | orders racing one completion for one member cause one summon at most and one count at most, of one order |
| Orders.ClaimTakesNewCompletions | apps/api/src/orders.ts:271-283 | a claim is taken if and only if the completion is of the order's trigger member in its room, the order active and the completion newer than any it claimed; then a summon is to be fired |
| Orders.DecisionsNeedTheRow | apps/api/src/commands/order.ts:256-301 | a status is decided on if and only if the row read allows it: ACTIVE from PAUSED, REVOKED from what is not over, PAUSED or EXPIRED from ACTIVE |
| Orders.SummonRowIsWrittenOnce | apps/api/src/events.ts:794-834 | a summon row is written if and only if the log holds none of its room, cause and member |
| Orders.TerminalIsFinalIffNothingPends | apps/api/src/orders.ts:12-18 | a terminal order stays terminal over every continuation if and only if no write of ACTIVE or PAUSED is pending for it |
| Orders.RevokedOrderRunsAgain | apps/api/src/commands/order.ts:256-301 | from any active order: a pause and a revoke that both read it, the stale pause landing last, then a resume, make a revoked order active |
| Orders.CapIsPassedIffCountedUnstopped | apps/api/src/commands/runOrders.ts:292-308 | over every interleaving from an empty store in which nobody edits or revives the order: it passes its cap if and only if one of its cycles is counted while a stop for the cap is owed, re-read or not, or was lost to a death |
| Orders.OvershootIsBounded | apps/api/src/commands/runOrders.ts:40-44 | over the same runs, with at most n of its cycles between started row and stop at any moment: at most n - 1 cycles past the cap, and one more for each stop lost; one at a time and none lost, the cap holds |
| Orders.CapOfOneCountsTwo | apps/api/src/commands/runOrders.ts:260-308 | from an empty store, two cycles under way at once in two processes: an order capped at one counts two |
| Orders.LostStopCountsTwo | apps/api/src/commands/runOrders.ts:351-368 | from an empty store, one cycle at a time: a death between count and stop leaves the order active, and a cap of one counts two |
| Orders.SeamRuns | apps/api/src/commands/runOrders.ts:260-321 | the seam's statements with nothing between: both counters one up, the cycle's row, and the stop a limit asks for, with its reason |
| Orders.OrderStore.ClaimTrigger | apps/api/src/orders.ts:271-283 | succeeds exactly on an active order whose claimed trigger is older, and the same trigger cannot be claimed again |
| Orders.OrderStore.CountCycleStarted | apps/api/src/orders.ts:290-299 | on an active order alone both counters go up by one and the numbers written come back |
| Orders.OrderStore.SetOrderStatus | apps/api/src/orders.ts:159-172 | writes the status and the reason whatever the row says now; ACTIVE alone resets the streak |
| Orders.OrderStore.ResetUnattended | apps/api/src/orders.ts:183-189 | clears the streaks of a room's active orders and touches nothing else |
| Orders.OrderStore.UpdateOrderConfig | apps/api/src/orders.ts:191-217 | changes the cap, the dial and the expiry, and no counter, status or wiring |
| Orders.OrderStore.AppendSummonRow | apps/api/src/events.ts:794-834 | one summon per room, cause and member: written exactly when there was none |
| Orders.OrderStore.AppendOrderCycled | apps/api/src/events.ts:739-756 | one cycled row per room, order and trigger |
| Orders.OrderStore.OrderCycleStarted | apps/api/src/commands/runOrders.ts:260-321 | with nothing between its statements the cycle that reaches a limit is the last to run: the cap ends the order, the dial pauses it, each with its reason, and an order still active is inside both |
| Orders.OrderStore.StopOrder | apps/api/src/commands/runOrders.ts:351-367 | a self-stop writes its event, status and reason exactly on an order still active |
| Turns.OneSummonOneAnswer | apps/api/src/agent.ts:907-920 | over every interleaving a summon has at most one successful completed row, of the turn whose started row won |
| Turns.SpendIsBilled | apps/api/src/spend.ts:71-90 | over every run the spend read from the log is what the day's answers and folds were billed, each its own price |
| Turns.AdmittedWhileUnderCeiling | apps/api/src/spend.ts:84-90 | a turn or fold is let past its check exactly while less than the ceiling has been billed that day |
| Turns.OvershootIsBounded | apps/api/src/spend.ts:27-34 | if at most n calls are past their check and unfinished at any moment and none costs more than c, no more than ceiling + n*c is billed to turns and folds on any day, calls begun the day before included |
| Turns.ReachedMeansClosed | apps/api/src/spend.ts:71-90 | once the day's calls have been billed the ceiling no turn and no fold is admitted for the rest of the day |
| Turns.UnreadableCeilingAdmitsNothing | apps/api/src/spend.ts:38-52 | a ceiling that does not read as one is not the absence of one: over every run no turn and no fold begins |
| Turns.SlotIsLostOnlyByEviction | apps/api/src/agent.ts:985-989 | from any state where slots exclude, a step breaks that if and only if it is a turn past its answer leaving while another holds its slot |
| Turns.ExclusiveIffNoEviction | apps/api/src/agent.ts:544-557 | over any run, however turns race: at most one turn holds a slot at every moment, and the set says so, if and only if no step evicts a holder |
| Turns.TwoTurnsRunOnOneSlot | apps/api/src/agent.ts:985-989 | a run of three turns from an empty log that ends with two running on one slot |
| Turns.AgentRunner.RunAgentTurn | apps/api/src/agent.ts:529-988 | refusals in order, each saying so in the room but the loser of a start; else started, one delta row a text piece, and one completed row, priced only on success; the slot as before; the whole is the machine's run of the call's steps |
| Turns.AnsweredCallRuns | apps/api/src/agent.ts:587-988 | the steps of an admitted call, run by the machine with nothing between, add exactly those rows and leave no turn and no slot behind |
| Turns.AgentRunner.Listen | apps/api/src/agent.ts:665-711 | the assembled text is what the stream said before it ended or broke off |
| Turns.LoneTurnKeepsRows | apps/api/src/agent.ts:587-604 | the rows one turn writes keep one start a summon and one answer a turn |
| RoomLog.BatchAdvances | apps/api/src/events.ts:344-362 | a batch read at a floor is exactly the messages between the floor and the batch's last, and leaves the rest of the tail |
| RoomLog.MessagesSplit | apps/api/src/events.ts:268-275 | messages at or below a number, then those past it, are all messages |
| Summaries.EverySummaryIsFaithful | apps/api/src/summary.ts:109-190 | whatever processes fold at once, every summary was made from, and counts, exactly the messages at or below its coverage point, in order; no point is covered twice; coverage lies below the summary's own number |
| Summaries.CoverageAndWindowPartition | apps/api/src/assembly.ts:406-425 | covered messages then the window are the whole message log if and only if at most 36 follow the floor; else exactly the messages just past the floor are in neither |
| Summaries.LateMessageIsLostIffCovered | apps/api/src/summary.ts:109-140 | a message that becomes visible late: covered messages and tail are still all messages if and only if its number is past the coverage point; at or below it, it is in neither, whatever follows |
| Summaries.UninterruptedRunMaintains | apps/api/src/summary.ts:109-190 | a run whose statements nothing comes between is one maintenance, whatever other processes are in the middle of |
| Summaries.Maintainer.MaintainRoomSummary | apps/api/src/summary.ts:109-222 | asks exactly when the room is free, its tail past 36, money and adapter there: with the newest summary's text first, as earlier-summary, then the first min(tail - 24, 40) of the tail, each as its author's; writes exactly when the stream was whole and not blank and the point uncovered, covering through the last of them; the guard is released however it ends |
| Summaries.Maintainer.ReadStream | apps/api/src/summary.ts:152-168 | the text of a stream that ended, nothing of one that broke off |
| Summaries.StreamIsRead | apps/api/src/summary.ts:155-168 | a stream's text is its text pieces in the order they came, and nothing else |
| Summaries.TrimTakesSpaceOff | apps/api/src/summary.ts:169 | trimming takes white space off both ends and nothing else |
| Convergence.FoldProgress | apps/api/src/summary.ts:116-190 | over every log the rows can be, a run on a tail past 36 appends if and only if no summary stands at its batch's end; then it strictly raises coverage and shortens the tail by min(tail - 24, 40) |
| Convergence.MaintenanceConverges | apps/api/src/summary.ts:46-60 | in a quiet room, over every log the rows can be: enough maintenance leaves a tail of 36 or less if and only if no summary stands at an end its folds will reach; then it folds exactly ceil((tail - 36) / 40) times and leaves 24 to 36; at 36 or below it does nothing |
| Convergence.NeverFoldsAgainIffBlocked | apps/api/src/summary.ts:109-190 | from every log the rows can be: no continuation, of messages and of any number of processes' runs interleaved, brings another summary if and only if one stands at every point from the present batch's end through the fortieth message past the floor |
| Convergence.NextFoldComesUnlessBlocked | apps/api/src/commands/postMessage.ts:130-140 | each maintenance followed by a message, once that would take the tail past 64: a new summary has come if and only if the room was not so blocked |
| Floors.WriteMovesFloor | apps/api/src/summary.ts:93-97 | whoever else is in the middle of a run, a write from a leading state lowers the floor if and only if its batch ends below it at a point nobody covered, and keeps the newest summary in the lead if and only if it does not; both readable before the insert |
| Floors.FloorRisesIffNoLateWrite | apps/api/src/summary.ts:93-97 | over every run of any number of processes from an empty room, the newest summary covers most at every moment if and only if no such write happens |
| Floors.OneProcessLeads | apps/api/src/summary.ts:93-97 | while one process folds, the newest summary covers most, whatever is posted in between |
| Floors.LeadingConverges | apps/api/src/summary.ts:46-60 | where the newest summary covers most no fold is refused and the tail comes back to 36 or less |
| Floors.TailStaysInBand | apps/api/src/summary.ts:46-51 | in a leading room, so in every room one process folds, each message followed by its maintenance: the tail is at most 36 after every maintenance, and once at 24 never below |
| Floors.TwoProcessesDropTheFloor | apps/api/src/summary.ts:93-97 | a run from an empty room for all m, n with 36 < m < n <= 64: two processes fetch at m and n messages, the later writes first, the floor drops from n - 24 to m - 24; where that leaves the tail past 36, every fold of the quiet room is refused, and the next message's leaves 24 |
| Floors.TwoProcessesBlockTheRoom | apps/api/src/summary.ts:93-97 | a run of two processes from an empty room after which, the floor at 13 and 64 messages past it, no continuation brings another summary |
| History.FirstPageIsSuffix | apps/api/src/server.ts:1598-1608 | the first page is the end of the log and is empty only for an empty room, since a summary is later than all it covers |
| History.PageBefore | apps/api/src/events.ts:201-227 | a page before a held event is exactly the asked number of events before it, 60 when none is asked, kept to 1 and 200, whatever the room gained since, and says whether more precede |
| History.PagingReadsTheWholeRoom | apps/api/src/server.ts:1597-1608 | paging back until nothing is older gives the whole log of the first request, each event once and in order, for all limits on the way, within as many requests as events |
| Assembly.AssertOwnPrincipalOnly | apps/api/src/assembly.ts:205-262 | passes exactly when every part is declared and every private part the summoned principal's; blames the first unreadable part; names the foreign principals; never reports more than one |
| Assembly.WindowFor | apps/api/src/assembly.ts:264-284 | a window only from a passing assembly, its messages source by source in table order |
| Assembly.WindowIsStableReorder | apps/api/src/assembly.ts:264-271 | that order lists every part once, sorted by table place and then as built, and what is private is the summoned principal's |
| Assembly.AssemblyShape | apps/api/src/assembly.ts:290-298 | one count per declared source |
| Assembly.ShapeSumsToWindow | apps/api/src/assembly.ts:286-298 | the counts sum to the window's length |
| Assembly.AssembleContext | apps/api/src/assembly.ts:347-496 | pushes the parts in order, each only when there is something to say, the recent window always |
| Assembly.AssembledPasses | apps/api/src/assembly.ts:447-476 | what it builds passes exactly when the store it opened, if it gave anything, was the summoned principal's |
| Assembly.TurnIsGiven | apps/api/src/assembly.ts:347-496 | the window is briefing, documents, summary, recent messages, recent turns, own notes and task state, whole and in this order |
| Assembly.PinnedRegionsSay | apps/api/src/assembly.ts:347-405 | the briefing under its own author, and a message a document with its purpose and content |
| Assembly.CommonRegionsSay | apps/api/src/assembly.ts:406-425 | the newest summary, and the newest 36 of the messages past it at most, each as its author's |
| Assembly.OwnRegionsSay | apps/api/src/assembly.ts:426-476 | the last eight turns, and a message an item of the principal's own, its summary or else its body |
| Assembly.TaskRegionSays | apps/api/src/assembly.ts:470-476 | the task's id, state, intent and opener, and its action if it has one |
| OAuth.OneFamilyPerCodeOneRefreshPerFamily | apps/api/src/oauth.ts:147-196 | over every run a code yields one family at most, a family has one live refresh token at most, and every token carries what the code was minted for (section 4.1.2 of RFC 6749) |
| OAuth.ExchangeTakesAPreimage | apps/api/src/oauth.ts:152-196 | an exchange issues tokens if and only if the code is known, not yet presented and in time, its challenge is the S256 of the verifier, its client the caller and its redirect the one named; then one access token for an hour and one refresh token for thirty days; in time it burns the code either way (section 4.6 of RFC 7636) |
| OAuth.EveryTokenHasAPreimage | apps/api/src/oauth.ts:181-182 | over every run, every token descends from an exchange whose caller was the code's client, named its redirect and presented a preimage of its challenge |
| OAuth.RefreshTakesALiveToken | apps/api/src/oauth.ts:207-252 | a refresh issues if and only if it presents the caller's own refresh token, unrevoked and in time, which it revokes; a revoked one severs its family; anything else changes nothing |
| OAuth.CodeLastsFiveMinutes | apps/api/src/oauth.ts:66-95 | a code is consumable for 300 seconds and not a second longer |
| OAuth.GrantAuthenticatesForAnHour | apps/api/src/oauth.ts:269-288 | from an empty store: a member with a live credential that mints a code and presents its preimage authenticates for 3600 seconds, and no longer |
| OAuth.CodeIsSingleUse | apps/api/src/oauth.ts:152-182 | a code presented in time, matching or not, is never exchanged again |
| OAuth.RevokeOrReplayEndsTheFamily | apps/api/src/oauth.ts:227-240 | after a revoke or a replay no token of the family authenticates or renews under any later calls or clock (section 2.1 of RFC 7009) |
| OAuth.ReplayAfterRotationEndsTheFamily | apps/api/src/oauth.ts:198-252 | a rotated refresh token presented at any later time by any client fails and ends the family, newest tokens included (section 4.14.2 of RFC 9700) |
| OAuth.TokensLapse | apps/api/src/oauth.ts:15-17 | no call prolongs a token: past its expiry it neither authenticates nor renews, whatever happens in between |
| OAuth.RevokedCredentialCascades | apps/api/src/oauth.ts:269-288 | after a credential is revoked no token it granted ever authenticates |
| OAuth.OAuthStore.CreateAuthCode | apps/api/src/oauth.ts:66-95 | a new code, consumable for five minutes |
| OAuth.OAuthStore.ExchangeCode | apps/api/src/oauth.ts:152-196 | grants exactly for a consumable code with matching client, redirect and verifier; burns it either way; the two tokens are live and of one family |
| OAuth.OAuthStore.ExchangeRefresh | apps/api/src/oauth.ts:207-252 | rotates exactly a live refresh token of that client; a replay revokes every token of the family |
| OAuth.OAuthStore.RevokeOAuthToken | apps/api/src/oauth.ts:290-300 | a known token of either kind revokes its family, an unknown one changes nothing |
| OAuth.OAuthStore.VerifyOAuthToken | apps/api/src/oauth.ts:276-288 | answers if and only if the access token, the granting credential and the member all stand, with the member's present principal |
| Throttle.AtMostMaxPerWindow | apps/api/src/server.ts:413-427 | no window of the configured length, wherever it starts, admits more than the limit for one key |
| Throttle.RefusedFromMaxOn | apps/api/src/server.ts:416-427 | a call is refused if and only if at least the limit of its key's calls, refused ones included, came within the window before it |
| Throttle.PushStands | apps/api/src/server.ts:419-421 | filtering and pushing the kept hits counts as the whole history does, for every cutoff to come |
| Throttle.DropStands | apps/api/src/server.ts:422-425 | dropping a key whose newest hit has left the window changes no count to come |
| Throttle.Throttler.Throttled | apps/api/src/server.ts:416-427 | whatever the clock does a refusal means that many calls of the full unpruned history lie in the window; while it has not run back it is refused exactly then |
| Throttle.SteppedBackClockForgets | apps/api/src/server.ts:416-421 | after the clock has run back, a filter at the later time has forgotten a hit the earlier window would count |
| Throttle.Throttler.Prune | apps/api/src/server.ts:443-446 | removes exactly the keys whose newest hit has left the window |
| Push.AtMostNineteenPlusOneLoop | apps/api/src/push-send.ts:122-130 | for calls that do not overlap, deliveries to one person in any rolling hour never exceed 19 plus the most subscriptions one call looped over |
| Push.CallWithinBound | apps/api/src/push-send.ts:188-209 | one call keeps that bound, because the limit is read once before the loop |
| Push.EachSubscriptionOnce | apps/api/src/push-send.ts:176-188 | the loop runs over each of the person's subscriptions as often as it is stored, and no other |
| Push.OnlyTheseGo | apps/api/src/push-send.ts:270-294 | forgetting endpoints removes exactly the subscriptions at them |
| Push.PushSender.NotifyPrincipal | apps/api/src/push-send.ts:176-306 | nothing for an FYI, without keys or without subscriptions; one refusal row when twenty were delivered in the hour before; else a row a subscription, refused, delivered, gone or failed as origin and vendor say, and exactly the endpoints reported gone are forgotten |
| Push.PushSender.SendOne | apps/api/src/push-send.ts:220-294 | a refused origin is never sent to; an address goes only on 404 or 410 |
| Push.PushSender.VapidConfigured | apps/api/src/push-send.ts:132-151 | the configuration is read once and remembered |
| Interrupts.InterruptsArePriced | apps/api/src/interrupts.ts:71-96 | over every run: BLOCKERs and DECISIONs raised by a member on a day stay within the limit; rows are what their events rebuild to; urgency only falls, one step, by the person claimed on, at most twice; one interrupt per thing and person |
| Interrupts.SpendCountsEvents | apps/api/src/interrupts.ts:71-96 | the spend is the number of BLOCKERs and DECISIONs raised and of downgrades charged that day |
| Interrupts.MidnightRestoresTheBudget | apps/api/src/interrupts.ts:98-130 | over every run, the next day begins with the whole limit |
| Interrupts.RemainingIsLimitLessSpend | apps/api/src/interrupts.ts:211-222 | the number an event carries is limit less spend if and only if the spend is within the limit |
| Interrupts.DowngradedPastTheLimit | apps/api/src/interrupts.ts:373-385 | a limit of one, a downgraded DECISION, then an FYI carrying 0 where limit less spend is -1 |
| Interrupts.InterruptDesk.RaiseInterrupt | apps/api/src/interrupts.ts:155-285 | refused exactly when a BLOCKER or DECISION finds the limit spent; else the existing row for a repeated claim, changing nothing; else a new row, its event, and a halt exactly for a BLOCKER naming a working task |
| Interrupts.InterruptDesk.DowngradeInterrupt | apps/api/src/interrupts.ts:350-392 | one step down by the recipient only, charged to the raiser |
| Interrupts.InterruptDesk.RebuildUrgency | apps/api/src/interrupts.ts:409-423 | the fold over an interrupt's events is its newest urgency |
| Tasks.RowIsSomePastOfTheLog | apps/api/src/tasks.ts:12-27 | with writers overlapping and dying anywhere, once creation is logged the row's state is what some prefix of the log rebuilds to |
| Tasks.EveryRowChangeButTheInsertIsLogged | apps/api/src/tasks.ts:12-19 | over every run from an empty store, a step that changes the row has the new state's event in the log before it if and only if it is not the inserting `ensureTask` |
| Tasks.RowNobodyRecorded | apps/api/src/tasks.ts:84-123 | a death between row and created event leaves a row no log explains |
| Tasks.OrderlyRowIsTheLog | apps/api/src/tasks.ts:267-274 | when writers do not overlap and none dies mid-write, a row nothing is owed to is, in every column, what the whole log rebuilds to |
| Tasks.OverlapContradictsTheLog | apps/api/src/tasks.ts:153-173 | for any two differing moves of a task: a run from an empty store, nobody dying, that ends with nothing owed and the row at one and the log at the other |
| Tasks.MovedBeforeItsCreation | apps/api/src/commands/summon.ts:296-331 | two frames of one summon: the second moves the row before the first logs its creation, and the log ends at the state the row has left |
| Tasks.PaysOutIffOwingOnlyTheLog | apps/api/src/tasks.ts:12-27 | from any reachable state with a row: what is owed, an owed created event included, leaves a row the log agrees with in every order if and only if each owed write is for the state the log will imply (and, none being owed, the row is at it) |
| Tasks.TransitionReadsTrue | apps/api/src/agent.ts:465-486 | an appended transition names the state the log implies if and only if the caller's copy is current |
| Tasks.HistoryReadsTrue | apps/api/src/tasks.ts:136-152 | in orderly runs whose callers re-read first, every transition names the state before it and never one to itself |
| Tasks.TaskStore.EnsureTask | apps/api/src/tasks.ts:84-123 | inserts once per cause, else returns the row already there; it is the machine's insert step |
| Tasks.TaskStore.TaskCreatedEvent | apps/api/src/tasks.ts:126-135 | once the created event is logged the row is settled; it is the machine's announcement |
| Tasks.TaskStore.TransitionTask | apps/api/src/tasks.ts:153-173 | nothing when the copy is there already; else event, state column, copy, which is the machine's two steps uninterrupted; a settled row stays settled |
| Tasks.TaskStore.HandoffTask | apps/api/src/tasks.ts:187-211 | event, then the row submitted to the receiver, then the copy, which is the machine's two steps uninterrupted; a settled row stays settled |
| Tasks.TaskStore.Rebuild | apps/api/src/tasks.ts:275-287 | the fold is the newest state an event carries |
| Socket.SocketMissesNothing | apps/api/src/server.ts:2065-2174 | for an open replayed socket, over every interleaving: frames past `after`, deduplicated, are exactly the published events plus the backlog read; each at most twice; all committed events once all are published |
| Socket.OpeningReplaysTheBacklog | apps/api/src/server.ts:2173-2174 | a socket that opens, reads and sends holds exactly the events committed past its cursor, in number order |
| Socket.NewEventGoesOut | apps/api/src/bus.ts:15-17 | a committed event takes its place by number and goes once to every open socket, to no closed one |
| Socket.ClosedSocketIsSilent | apps/api/src/server.ts:2553-2556 | nothing committed after its close reaches a socket |
| Socket.ResumeMissesOnlySkippedEvents | apps/api/src/server.ts:2065-2067 | a client that comes back with any cursor, over every interleaving: once all is published and replayed it misses nothing if and only if it had been sent every event published up to the cursor before it reopened; what is published later comes whatever its number |
| Socket.Connection.SendAll | apps/api/src/server.ts:2173-2174 | the backlog goes out whole and in order to an open socket |
| Socket.RoomBus.Publish | apps/api/src/bus.ts:15-17 | every listener of the room is handed the event once, no other connection changes |
| Socket.RoomBus.Subscribe | apps/api/src/bus.ts:19-22 | the listener joins its room's, last |
| Socket.RoomBus.Unsubscribe | apps/api/src/bus.ts:19-22 | exactly that listener goes, the others keep their order |

## Left out

- SHA-256, canonical JSON and the regular expression engine: hashes are free constructors (one-to-one, genesis apart), patterns are literals or a prefix and a run of one character class, strings are sequences of code units.
- Audit.TruncationVerifiesUnderAnotherRoot: shows a cut tail only against another root; nothing in the store alone can detect it.
- `receiptForDecision`, the polling form of a receipt, and a malformed receipt's type checks: fields are typed here.
- Scrub.ScrubbedIsClean: a secret holding NUL, or one the stamp spells wholly or across an edge, is excluded, because it can survive; which lines spell one across an edge is not characterised.
- Scrub.ScrubbingTwiceIsScrubbingOnce: an empty secret is excluded; the environment snapshot never yields one, and it matches nothing here but everywhere in a regular expression.
- `snapshotEnvSecrets`, the stream wrapper and the process guards of the scrubber: input collection and output around the function proved.
- Turns: one completed row per turn is not claimed, since a failed row can follow the successful one.
- Turns.OvershootIsBounded: costs are reals, and the bound on open calls and on one call's cost are assumptions, since nothing in the source enforces them.
- Turns.AgentRunner.RunAgentTurn: emitted summons and actions, the order count, the task's moves, latency spans and token counts are not modelled, and a throw outside the stream is modelled in the step machine only.
- Orders: whether a gate before the claim (expiry, budget, ceiling, a turn in flight) lets a cycle through is left open, so every outcome is covered.
- Orders.OvershootIsBounded: the terms a count is held against are the row's at the count, where the source read them one statement earlier; how many cycles are under way at once is an assumption, since nothing in the source bounds it across processes; a cap below one, which the HTTP route lets through, counts as one.
- Orders.OrderStore.OrderCycleStarted: the call runs with nothing between its statements; with others between them it is `Orders.OvershootIsBounded`.
- Orders.OrderStore.StopOrder: the re-read and the write are one step, as two they are `Orders.TerminalIsFinalIffNothingPends`; the owner's interrupt is left out.
- `activeOrdersForTrigger`, `ordersInRoom` and `orderById` as queries: what they return is what a step reads.
- Convergence.MaintenanceConverges: the room is quiet and each run succeeds; a run whose money, adapter or stream fails appends nothing and is left out, here and in `Convergence.NextFoldComesUnlessBlocked`.
- Summaries: between the steps, numbers are taken in the order rows become visible; one late commit is `Summaries.LateMessageIsLostIffCovered`.
- Summaries.Maintainer.MaintainRoomSummary: token counts, cost and the summary's id are left out; the ceiling's answer, the adapter registry and the stream are inputs.
- History.HistoryPage: a fractional limit or cursor, and the briefing field beside the events, are left out.
- OAuth.OAuthStore.ExchangeRefresh: the call is one step; its statements are separate in the source, and what falls between them is not modelled. Client registration and metadata documents are left out.
- Interrupts.InterruptDesk.DowngradeInterrupt: the budget read, the event and the row's update are one step.
- Interrupts.InterruptDesk.RaiseInterrupt: the budget read, the insert, the event and the halt are one step, and the notification it sends is `Push`.
- Assembly.AssemblyShape: keyed by source rather than by the telemetry spelling of its name, and the one-line summary of a shape is left out.
- Push.AtMostNineteenPlusOneLoop: overlapping calls for one person are outside the bound; URL parsing and the allow-list's environment override are inputs.
- Push.PushSender.NotifyPrincipal: the payload, the tone and exceptions outside the per-subscription handler are left out.
- Socket: tickets, membership, hello and the frames a client sends; frames of a refused socket are not claimed.
- Leases, tickets, room codes, briefings, documents, promotions, facts, routes, mentions and co-signatures: mostly one guarded statement each.
- HTTP routing, MCP transport, provider and push vendor calls, the web client, measurement and seed scripts.
