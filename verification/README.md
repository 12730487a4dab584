# Verification of ghosttree's protocols

A Dafny model of the parts of ghosttree whose correctness is hard to see from the code: the channel
poller that delivers coordination messages at most once, the stripper that takes base64 payloads out
of transcript lines, the resumable benchmark campaign, the pause mirror with its ack log, the send
limiter, the document worktree, the join command's race for its code, and the debounced tree writer.

Code that changes state is modelled by classes and methods with loops, each proved equal to a
specification function or to a stated property; what the code promises is proved about those
functions for every input, every answer of the world around, and every run.

## Reading guide

| modules | what they model |
|---|---|
| `Text`, `Json`, `JsonLayout` | strings and numerals; JSON texts (RFC 8259 sections 2 to 7) as concrete syntax trees that keep every byte |
| `BlobRules`, `BlobMarks`, `BlobScan`, `BlobTree`, `BlobWalk`, `BlobSplice`, `BlobStrip`, `BlobEdits`, `BlobAgain`, `BlobFilter`, `BlobTold`, `BlobExample` | blobstrip: decisions on literals, the scanner, the tree transformation, and the proof that the byte edits carry it out; then edits, second pass, the needle filter, what the written marks say of which payloads, and counterexamples |
| `WakeRule`, `LoopGuard`, `LoopRounds`, `PollerModel`, `Poller` | the wake rule, the loop guard and what its streak counts, and the poller as functions over a trace of steps and as a class |
| `PollerTrace`, `PollerHistory`, `PollerAccounts`, `PollerVerdicts`, `PollerProgress`, `PollerReports`, `PollerBooks`, `PollerTaken`, `PollerCursor`, `PollerForecast`, `PollerCursorRuns`, `PollerGuard`, `PollerExample` | the delivery order as an automaton; any number of interleaved, crashing pollers; accounting; why a message is passed, stalls or fails, how far a call comes and what a poll reports; how a message can be lost; the shared cursor after, before and across calls; guard and hook call; a counterexample |
| `Journal`, `Grading`, `Campaign`, `Handover`, `Resume`, `RawStreams`, `Rerun`, `Rescore`, `Recover` | the run journal and its file, grading and regrading, the run loop, what a segment leaves on disk for the next, resumption, the agent's raw streams, which runs are made again, regrading a whole campaign from its streams with old or new task definitions, and making lost records again |
| `AckLog`, `PauseModel`, `PauseSyncer`, `PauseRuns`, `PauseLogs`, `PauseReports`, `PauseNotices` | the ack log, one sync round, whole runs, how often a line is settled, what is reported and when a round fails, and when the resume notice is sent |
| `SendLimiter`, `LimiterRuns` | the limiter and its bounds |
| `DocPaths`, `Worktree` | free paths, and the commands that use them |
| `AwaitCode`, `JoinLoop`, `Debounce` | the wait for the join code, the loop around it beside the browser's requests, and the debounced writer |

What the model takes as given: base64 decoding, SHA-256, JSON unescaping and case folding are
functions that obey a few laws stated in `BlobMarks.Lawful` (RFC 4648 sections 4 and 5 for the
alphabet of a payload, RFC 2397 section 3 for data URLs); JSON coding of records obeys
`Journal.LawfulCoding` (a record is one object on one line, and RFC 8259 section 2 makes part of an
object, or two in a row, no JSON text); whether a message brings new content is a function of the messages before
it; the stream parser does not know where its stream lies (`RawStreams.Pathless`). Everything a program meets (errors, clocks, readiness, how much of an inbox is visible, how much
of a line reached the disk, how a server answered) is an arbitrary answer at each step, so a theorem
holds for every course of events. A room's log has strictly growing ids, of which any front part may
be visible; a claim is won at most once per message, and lost only behind one that was booked; a pause file is only appended to by hooks.

## Where the code and its documentation differ

- The shared cursor (`internal/claudechannel/doc.go:95-98`): a call that starts ahead of the cursor
  starts contiguous all the same (`poller.go:272`), so two calls can move the cursor past a message
  nobody was given (`PollerExample.TwoCallsBreakTheRule`). `PollerCursor.RuleKeptExactly` says for
  every call when the rule holds, `PollerForecast.RuleForecast` the same before the call; with a start value that compares position and cursor it holds over
  whole runs (`PollerCursorRuns.CursorSafety`).
- Stripping is not idempotent on every line (`BlobExample.NotIdempotent`): a media type that was
  itself a data URL becomes readable. `BlobAgain.SecondPass` gives the exact condition.
- The needles (`internal/blobstrip/blobstrip.go:30-33`) are said to stand in every line with a payload.
  That holds where names are written without escapes (`BlobFilter.FilterIsSafe`), not on every line
  (`BlobFilter.EscapeSlipsPast`); `BlobFilter.FilterExactly` says on which the filter errs.
- A journal line of 4 MiB or more is written but cannot be read back (`Journal.ReloadExactly`). A write
  that breaks off inside a line leaves a file that does not open; one that breaks off right before the
  line break, or whose sync fails, leaves a record that counts after a reload although `Emit` reported
  an error (`Journal.CutLoads`). In the first of these two cases the next record makes the file
  unreadable for good (`Journal.TornLine`). `Handover.HandOver` says exactly which segments leave a
  journal that opens, and what it holds; the resume theorems are about journals that open.
- A line of the ack log can be recorded twice in one process: where the file cannot be removed the offset
  goes back to its start all the same (`internal/agentpause/agentpause.go:287-292`,
  `PauseLogs.RecordedTwice`). `PauseLogs.OncePerGeneration` and `PauseLogs.TwiceExactly` give the exact
  conditions.
- A lost record is not always made again as it was (`internal/agentbench/recover.go:19-23`): regrading
  copies no tokens, and a run whose command failed without saying so in its stream comes back as a
  graded one. `Recover.RecoveredExactly` gives the exact condition.
- A rename whose server call takes effect and yet reports an error is not undone
  (`Worktree.AllOrNothing`).
- A callback code that arrives just behind a pasted one is dropped when the channel is drained, and
  the listener takes no second one (`AwaitCode.DrainedCodeIsLost`, `AwaitCode.DeliversOnce`). If the
  server then refuses the pasted code, the loop goes on without the approval it already had
  (`JoinLoop.ApprovalCanBeLost`); `JoinLoop.ApprovalExactly` says when that is so.
- The wait that a refusal reports can be too short once sends overlapped (`LimiterRuns.WaitExactly`).

## Model

| member | source | states |
|---|---|---|
| BlobStrip.Strip | internal/blobstrip/blobstrip.go:53-75 | on every line: one that is short, lacks every needle or is refused by json.Valid comes back as it is; any other becomes the text of the transformed tree, for every tree that prints to the line; the saved count is the difference in length |
| BlobTold.StripPayloads | internal/blobstrip/blobstrip.go:53-75 | the same with the source's own decisions: for every tree of the line the text written is that of a tree told of it, in the sense of the rows of BlobTold below |
| BlobStrip.Write | internal/blobstrip/blobstrip.go:65-74 | the copy loop writes exactly the line with the edits spliced in |
| BlobStrip.ScanFinds | internal/blobstrip/blobstrip.go:60-63 | on the text of any JSON document the scanner succeeds, ends where the value ends, and finds exactly the edits of its tree |
| BlobStrip.ScanDoc | internal/blobstrip/blobstrip.go:60-73 | sorted, the found edits are the tree's own in text order, and splicing them prints the transformed document with white space and key order untouched |
| BlobWalk.ValueScan | internal/blobstrip/blobstrip.go:97-123 | the scanner consumes exactly one JSON value and makes that value's edits |
| BlobWalk.ArrayScan | internal/blobstrip/blobstrip.go:159-182 | the same for the items of an array, up to its bracket |
| BlobWalk.ObjectScan | internal/blobstrip/blobstrip.go:191-249 | the same for an object; its payloads are decided at the closing brace, from members before and behind them |
| BlobWalk.StringScan | internal/blobstrip/blobstrip.go:137-157 | a well-formed string literal ends where the scanner says |
| BlobSplice.ValueBecomes | internal/blobstrip/blobstrip.go:66-73 | in text order the edits of a value turn its bytes into those of the transformed value and leave all others |
| BlobSplice.SortIsTextOrder | internal/blobstrip/blobstrip.go:64 | sorting by start turns the order in which the scanner finds edits into text order |
| BlobSplice.SameValue | internal/blobstrip/blobstrip.go:60-73 | both orders hold the same edits and save the same number of bytes |
| BlobScan.QuoteStep | internal/blobstrip/blobstrip.go:143-156 | at a quote, an even number of backslashes before it means exactly that the byte-by-byte escape automaton closes the string there |
| BlobScan.Scanner.StringEnd | internal/blobstrip/blobstrip.go:137-157 | jumping from quote to quote and counting backslashes gives the same end as the escape automaton of RFC 8259 section 7 on every input, also unterminated |
| BlobScan.Scanner.Value | internal/blobstrip/blobstrip.go:97-123 | the recursive method appends exactly the edits of its specification and counts what they save |
| BlobScan.Scanner.Array | internal/blobstrip/blobstrip.go:159-182 | the loop over items equals its specification on every text, valid or not |
| BlobScan.Scanner.Object | internal/blobstrip/blobstrip.go:191-249 | the loop over members equals its specification on every text, valid or not |
| BlobScan.Scanner.Replace | internal/blobstrip/blobstrip.go:240-244 | the loop over an object's payload candidates appends one edit per accepted payload |
| BlobMarks.CleanMime | internal/blobstrip/blobstrip.go:409-427 | a cleaned media type has a slash, at most a hundred bytes, and only harmless characters |
| BlobMarks.PlaceholderIsMark | internal/blobstrip/blobstrip.go:391-407 | every placeholder is a valid, unescaped JSON string of under 256 bytes that names a type |
| BlobMarks.DataUrlIsMark | internal/blobstrip/blobstrip.go:309-328 | what replaces a data URL is a shorter placeholder, and only long literals are replaced |
| BlobMarks.ObjectPayloadIsMark | internal/blobstrip/blobstrip.go:281-307 | what replaces an object's payload is a shorter placeholder |
| BlobMarks.DataUrlIsNoPayload | internal/blobstrip/blobstrip.go:284-328 | a literal edited as a data URL is never also accepted as a bare payload: it holds a colon |
| BlobMarks.RulesOfSound | internal/blobstrip/blobstrip.go:344-358 | all edits strictly shrink and no literal is edited twice |
| BlobEdits.EditsApart | internal/blobstrip/blobstrip.go:60-75 | the collected edits are in range and pairwise apart, each covers exactly one string literal and writes a shorter one, and together they save input length minus output length |
| BlobAgain.StripKeepsJson | internal/blobstrip/blobstrip.go:3-8 | the result is valid JSON with the same tree except at replaced string leaves |
| BlobAgain.PassShortens | internal/blobstrip/blobstrip.go:22-25 | a pass that changes a line leaves strictly fewer literals of 1024 bytes or more |
| BlobAgain.FixedPoint | internal/blobstrip/blobstrip.go:22-25 | after as many passes as there are long literals nothing changes any more |
| BlobAgain.PayloadReplaced | internal/blobstrip/blobstrip.go:344-358 | a long payload is replaced exactly when its object admits it and it reads as base64; the size guard never stops it |
| BlobAgain.MediumAfter | internal/blobstrip/blobstrip.go:219-231 | how one pass shifts what an object says about its medium: a replaced type or media type becomes readable |
| BlobAgain.SecondPass | internal/blobstrip/blobstrip.go:22-25 | a second pass changes the line exactly when it is looked into again and some object holds an unadmitted payload beside a replaced type or media type |
| BlobFilter.FilterIsSafe | internal/blobstrip/blobstrip.go:30-33 | a JSON line without needles whose keys, short strings and data URLs have no escapes would come out of the scanner unchanged |
| BlobFilter.FilterExactly | internal/blobstrip/blobstrip.go:30-33 | on a JSON line of the least length, Strip comes to what the scanner would make of it if and only if the line has a needle or holds no payload; without needles and escapes it holds none |
| BlobFilter.ValueChanges | internal/blobstrip/blobstrip.go:281-358 | the scanner changes exactly the values that hold, at some depth, a data URL it reads or a payload that its object admits and that digests, and makes them shorter |
| BlobFilter.NothingInMembers | internal/blobstrip/blobstrip.go:281-307 | without needles no object can declare itself a medium, so no payload in it is replaced, at any depth |
| BlobFilter.EscapeSlipsPast | internal/blobstrip/blobstrip.go:30-33 | a concrete line with an escaped name that the filter turns away although the scanner would shorten it |
| BlobTold.LineTold | internal/blobstrip/blobstrip.go:191-358 | on every line that is looked into, every string that is a readable data URL of 1024 bytes or more gets a mark with the size and hash of the text behind its comma and the medium of its header; every data, base64 or blob member whose object declares a medium for it gets one with the size and hash of its own text and that medium; and every other byte stays. What an object declares is its last short "type" and its first media type with a slash, in text order |
| BlobTold.StripTold | internal/blobstrip/blobstrip.go:191-358 | the same for any value at any depth |
| BlobTold.UrlTold | internal/blobstrip/blobstrip.go:309-328 | a long literal that reads as data:header,payload with a header of at most 251 bytes that ends in ;base64 and has no comma is replaced by the mark of that payload |
| BlobTold.OwnTold | internal/blobstrip/blobstrip.go:281-307 | a long member that its object declares a medium for and that digests is replaced by the mark of its own text |
| BlobTold.ObjectSays | internal/blobstrip/blobstrip.go:219-278 | the type and media type that decide are the last "type" and the first media type with a slash among the members' short texts |
| BlobTold.CleanIsRight | internal/blobstrip/blobstrip.go:409-427 | the medium written is the normalized part before the first semicolon if that is 1 to 100 allowed characters with exactly one slash, else application/octet-stream |
| BlobTold.KindIsRight | internal/blobstrip/blobstrip.go:393-407 | the kind word goes with the medium |
| BlobTold.TellsOne | internal/blobstrip/blobstrip.go:391-407 | a mark reads back: its text determines kind, medium, size and hash |
| BlobTold.MarkReadsBack | internal/blobstrip/blobstrip.go:359-407 | two payloads can have the same mark only if they have the same digest and the same medium |
| BlobExample.NotIdempotent | internal/blobstrip/blobstrip.go:219-231 | a concrete line on which a second pass changes something |
| WakeRule.ChainEnds | internal/claudechannel/doc.go:57-65 | a reply to a reply, from an agent and without an intent, wakes nobody, whatever it mentions |
| WakeRule.NoticeWakesNobody | internal/claudechannel/poller.go:421-425 | the guard's own notice wakes nobody in any room |
| WakeRule.WakesExactly | internal/store/coordwake.go:20-113 | who is woken, exactly: the recipient of somebody else's unexpired message in a known room that mentions him where needed and comes from a human, is urgent, or is no bare acknowledgement and, where it answers his own message, answers a request to its sender |
| LoopGuard.SoloNeverCounts | internal/store/coordloop.go:106-137 | one sender alone never builds a streak |
| LoopGuard.StreakCountsRounds | internal/store/coordloop.go:106-137 | a streak never exceeds the changes of sender in the conversation |
| LoopGuard.RetriesDoNotCount | internal/claudechannel/poller.go:134-140 | over any sequence of handled messages with retries the room's memory is the fold of Add over the distinct ones |
| LoopGuard.DistinctGrows | internal/claudechannel/poller.go:411-414 | the distinct messages come in growing order of id |
| LoopRounds.StreakExactly | internal/store/coordloop.go:106-137 | over any conversation: the streak is the number of changes of sender since the last message that was a human's, brought something new against the six before it, or broke ten minutes of silence; the guard's own notices count for nothing |
| LoopRounds.OneRun | internal/store/coordloop.go:106-137 | there is exactly one place where that stretch starts |
| Poller.Poller.LoopState | internal/claudechannel/poller.go:400-419 | feeding the tracker updates room memory and notice flag as specified |
| Poller.Poller.LoopHolds | internal/claudechannel/poller.go:421-444 | a wake is held exactly at hold streak in enforce mode, with one notice attempt per hold |
| Poller.Poller.LookUp | internal/claudechannel/poller.go:316-339 | parent and mentions are fetched only where needed, and any failed read ends the decision |
| Poller.Poller.DeliverNow | internal/claudechannel/poller.go:346-397 | readiness, budget, claim and write happen in the specified order with the specified outcomes |
| Poller.Poller.HandleMessage | internal/claudechannel/poller.go:306-398 | one message is handled as specified, and is own post exactly when it is passed as such; when it is passed, stalls or fails is what PollerVerdicts.VerdictExactly says of that specification |
| Poller.Poller.MoveOn | internal/claudechannel/poller.go:287-301 | position, shared cursor and contiguity after a message was passed |
| Poller.Poller.SweepOne | internal/claudechannel/poller.go:273-302 | one message of a batch: alive, handled, moved on, and whether the loop goes on |
| Poller.Poller.SweepOver | internal/claudechannel/poller.go:268-303 | the loop over a batch equals its specification |
| Poller.Poller.PollOne | internal/claudechannel/poller.go:249-304 | pollRoom equals its specification |
| Poller.Poller.PollAll | internal/claudechannel/poller.go:215-247 | Poll equals its specification over all rooms; it reports progress exactly if a message was delivered, and an error exactly if something answered with one |
| Poller.HookPoll | cmd/ctx/hook_coord.go:169-183 | a hook call is one poll of a fresh poller from the saved positions |
| PollerAccounts.HandleDecides | internal/claudechannel/poller.go:310-398 | however many lookups are skipped, the verdict is the wake rule on complete knowledge, then the loop guard, then the delivery |
| PollerAccounts.StallsBeforeTheClaim | internal/claudechannel/doc.go:28-33 | a stalled delivery has claimed nothing; a failed one that won its claim failed in the write right behind it |
| PollerAccounts.SweepPasses | internal/claudechannel/poller.go:273-302 | a sweep passes a front part of its batch, each message once and in order |
| PollerAccounts.StallEndsTheSweep | internal/claudechannel/poller.go:280-286 | a message that stalls or fails is not passed in that call, nor is any later one, and the position stays |
| PollerVerdicts.VerdictExactly | internal/claudechannel/poller.go:306-398 | every verdict, exactly: failed if and only if the last word on the message is an error; else own post, unwoken, held, or delivered, taken or stalled as the last words of its delivery say, by the wake rule on complete knowledge and the guard; every event tells what was answered |
| PollerVerdicts.LooksUp | internal/claudechannel/poller.go:316-339 | handling looks up exactly the parent and the mentions that can matter, in order, up to the first that fails |
| PollerProgress.ReadsExactly | internal/claudechannel/poller.go:250-266 | a call reads the shared cursor, then the inbox behind the cursor or its own position, whichever is ahead: a stretch of the log that starts right there, as far as it is visible, at most a hundred messages |
| PollerProgress.CallStops | internal/claudechannel/poller.go:249-304 | a call passes the messages of its inbox up to some point, its position ends there, and its last event says why it went no further: dead context, error, stalled delivery of a due message, or a cursor that could not be set |
| PollerProgress.GoodCall | internal/claudechannel/poller.go:249-304 | a call whose answers are all good fails nowhere and passes every message its inbox showed, or every one up to the first that is due, not held and has no text |
| PollerReports.PollReports | internal/claudechannel/poller.go:215-247 | a poll reports progress if and only if it delivered something, and an error if and only if something answered with one |
| PollerReports.LifeTrue | internal/claudechannel/poller.go:189-247 | over any life, with restarts and crashes, every event tells what the world answered at that step |
| PollerReports.GoodPoll | internal/claudechannel/poller.go:225-247 | in a poll whose answers are all good every room of the list has its call and catches up |
| PollerTrace.PollKeeps | internal/claudechannel/poller.go:345-397 | every poll, whatever it is answered, keeps the order of the delivery protocol and ends between two deliveries |
| PollerTrace.WriteAfterClaim | internal/claudechannel/doc.go:23-26 | a write comes right after its own won claim |
| PollerTrace.ClaimAfterBudget | internal/claudechannel/doc.go:28-33 | a claim comes right after its budget reservation, and that right after the notifier was ready |
| PollerTrace.PassedAfterWrite | internal/claudechannel/poller.go:383-397 | a message is passed as delivered only behind its successful write, as taken only behind its lost claim |
| PollerTrace.BudgetBalances | internal/hookbudget/budget.go:125-160 | every reservation is given back or followed by one write attempt, except the open one |
| PollerHistory.LifeKeeps | internal/claudechannel/poller.go:189-213 | the protocol's order holds over any life of polls, restarts from own, no or any other positions, and crashes at any step |
| PollerHistory.AtMostOnce | internal/claudechannel/doc.go:23-26 | over any interleaving of any number of pollers, with failures, restarts and crashes, no message is written twice |
| PollerHistory.WriteHasClaim | internal/claudechannel/doc.go:23-26 | each write is the writer's own step right behind winning the claim |
| PollerHistory.ClaimIsPaidFor | internal/claudechannel/doc.go:28-33 | no claim in any interleaving without a ready notifier and a reservation by the same poller right before it |
| PollerBooks.LifeKeepsBooks | internal/claudechannel/poller.go:252-303 | positions, passed messages and read cursors fit together over any life |
| PollerBooks.BatchExactly | internal/claudechannel/poller.go:263-275 | a batch is the log from the first message behind the position on, as far as it is visible, at most a hundred messages |
| PollerBooks.Accounted | internal/claudechannel/poller.go:252-303 | after any life, even with crashes inside calls, every message at or below a room's position was passed, or had been read past by the shared cursor, or lay below a position that a parallel process had saved |
| PollerBooks.OneOutcome | internal/claudechannel/poller.go:273-302 | after any life, whatever died before: the process now alive passes no message twice, and only such as lie above the position it started from, up to the present one; so across a loss only messages above the saved position are passed again |
| PollerBooks.OneOutcomeWhole | internal/claudechannel/poller.go:273-302 | in a life that lost nothing no message is passed twice, and passed ids grow up to the position |
| PollerTaken.TakenWasClaimed | internal/claudechannel/doc.go:40-49 | over any interleaving, with a server that answers lost only behind a claim it booked: every message passed as taken had been claimed before; if the poller itself had won that claim, its write failed or its process ended in between; if every answer comes through, the claim had been won |
| PollerTaken.ClimbInProcess | internal/claudechannel/poller.go:273-302 | within one process of any life, in the middle of calls too, the ids passed in a room grow |
| PollerCursor.OneCall | internal/claudechannel/poller.go:269-301 | a call that starts at the shared cursor never moves it past a message that is neither delivered nor own post |
| PollerCursor.RuleKeptExactly | internal/claudechannel/poller.go:257-301 | for every call of the code: the cursor rule holds in it exactly when the gap between cursor and position was settled before, or the first message it passes that is no own post is not delivered |
| PollerCursor.MovesExactly | internal/claudechannel/poller.go:287-301 | a call of the code moves the shared cursor if and only if the first message it passes that is no own post is delivered |
| PollerForecast.RuleForecast | internal/claudechannel/poller.go:257-301 | before a call: it will keep the cursor rule whatever it is answered if and only if the gap between cursor and position is settled, or the first message ahead that is no own post cannot be delivered (it wakes nobody in time, has no text, is held by the guard, or lies behind a full batch of own posts) |
| PollerForecast.DeliveryWasAhead | internal/claudechannel/poller.go:273-301 | if the first telling pass of a call is a delivery, the first message ahead that is no own post could be delivered |
| PollerForecast.BestDelivers | internal/claudechannel/poller.go:273-301 | where it could, some course of answers delivers it and moves the cursor |
| PollerCursorRuns.LifeGrounded | internal/claudechannel/doc.go:95-98 | with the start value that compares position and cursor, every cursor move of a life is backed from a cursor value read before |
| PollerCursorRuns.CursorSafety | internal/claudechannel/doc.go:95-98 | over whole runs of any number of such pollers, everything at or below the moved cursor was delivered, is own post, or was read by the agent itself |
| PollerExample.TwoCallsBreakTheRule | internal/claudechannel/poller.go:269-301 | two calls of the code as it is that move the cursor past a message nobody was given |
| PollerGuard.TrackerIsFold | internal/claudechannel/poller.go:402-419 | after any life the room's tracker is the fold of Add over the distinct messages handled since the process started |
| PollerGuard.OneNoticePerHold | internal/claudechannel/poller.go:426-444 | between two notice attempts of one process in a room, some message was judged to be no hold |
| PollerGuard.HeldIsAnnounced | internal/claudechannel/poller.go:426-444 | over any life, where the source can post notices, a message is passed as held only behind an attempt of this process to post the notice of that hold |
| PollerGuard.CollectingBounds | cmd/ctx/hook_coord.go:113-123 | with the collecting notifier, writes never exceed five and won claims equal writes, at every step |
| PollerGuard.HookCallBounded | cmd/ctx/hook_coord.go:169-184 | in a hook call the won claims are exactly the returned notes, at most five |
| Journal.LatestRunRecords | internal/agentbench/journal.go:152-164 | the two loops return one record per key, the newest, in journal order |
| Journal.OnePerKey | internal/agentbench/journal.go:141-150 | no key twice among the newest records |
| Journal.LatestKeepsNewest | internal/agentbench/journal.go:138-150 | every key has the same newest record in Records as in the journal, or none in both |
| Journal.LatestIdempotent | internal/agentbench/journal.go:152-164 | taking the newest again changes nothing |
| Journal.RunJournal.Open | internal/agentbench/journal.go:47-91 | loading succeeds exactly when every line fits and is a record, and then the ledger answers from those records |
| Journal.RunJournal.Emit | internal/agentbench/journal.go:117-136 | a record counts exactly when its whole line and the sync succeeded; the file grows by exactly the bytes that landed |
| Journal.RunJournal.Done | internal/agentbench/journal.go:111-115 | Done holds exactly when the key has a record and its newest is not one of an agent that failed without leaving a stream |
| Journal.ReloadExactly | internal/agentbench/journal.go:62-136 | closing and reloading after any emits gives the same records exactly when every line fits the reader |
| Journal.ReloadAnswers | internal/agentbench/journal.go:107-150 | a reopened journal gives the same Done for every key and the stored form of the same Records |
| Journal.AppendReloads | internal/agentbench/journal.go:62-91 | what a record appended to any file that loads comes to: it loads again if and only if the file ended with whole lines or the text behind the last line break reads as one line with the record |
| Journal.CutLoads | internal/agentbench/journal.go:80-86 | a journal cut at any point of the line being written loads if and only if the line had not begun, or was there up to its line break and fits |
| Journal.TornLine | internal/agentbench/journal.go:80-86 | for every file that ends in a record without its line break: the next record, or any part of it, makes the file unreadable for good |
| Grading.TasksById | internal/agentbench/regrade.go:21-24 | the definition of each id is the last one given |
| Grading.RegradeRecord | internal/agentbench/regrade.go:33-90 | one record is scored again as specified: it needs its task and, if it was judged, its stream; only a judged one changes, and then its failure and score are those of the stream's texts under the definition of now |
| Grading.Regrade | internal/agentbench/regrade.go:20-93 | the loop scores exactly the newest records again, each as the row above says, and succeeds if and only if each can be scored |
| Grading.GradingAgrees | internal/agentbench/runner.go:163-204 | for every record of a run, stored and regraded with the same definitions and with a raw stream that parses again to what the run parsed (the path is filled in behind the parser), nothing changes |
| Grading.RegradeIdempotent | internal/agentbench/regrade.go:20-93 | regrading twice is regrading once, and the keys are exactly those of the newest records, in order |
| Grading.RegradeUnchanged | internal/agentbench/regrade.go:20-93 | a campaign whose records all agree comes back unchanged |
| Grading.RegradeFollowsTask | internal/agentbench/regrade.go:9-19 | regrading a run's stored record with another definition of its task gives what the run would have recorded under that definition, development mark included; a run that was never judged stays as it is |
| Grading.RegradeForgets | internal/agentbench/regrade.go:33-90 | two judged records of one run that differ in score, failure, message or effort regrade to the same |
| Grading.RunClassified | internal/agentbench/runner.go:163-204 | what becomes of every attempt: failure, message and score by environment, error and the forms in its texts |
| Grading.TaskOfIsLast | internal/agentbench/regrade.go:21-24 | the definition that counts is the last with the id |
| RawStreams.ScoredIsArchived | internal/agentbench/claudecode.go:170-192 | whatever command, parser and disk answer, an attempt that reaches scoring has left its stream at its path, where it parses again to what was scored |
| RawStreams.LayoutApart | internal/agentbench/claudecode.go:236-249 | in the layout of the benchmark command no two runs of a plan share a file, whatever the task ids hold, if arm names hold no slash |
| Rerun.RerunExactly | internal/agentbench/journal.go:93-115 | a segment that opens the journal and comes to a slot adds exactly one record of that run if there is none yet or the newest comes from an agent that failed and left no stream, and none otherwise: not for a missing environment, nor for a run that left its stream |
| Rerun.LeftNothingExactly | internal/agentbench/claudecode.go:152-201 | that is so for the runs whose command ran and whose stream could not be written, or had nowhere to go and told of an error |
| Rescore.SlotBacked | internal/agentbench/claudecode.go:236-249 | a run that writes over its file spoils no record in the journal: every record there still regrades to itself |
| Rescore.CampaignRegrades | internal/agentbench/regrade.go:20-93 | with raw files that every run of a key writes over: however a campaign is cut, whatever fails and whatever runs are lost and made again, what a journal that opens reads regrades from the files on disk by then to its newest records, unchanged |
| Rescore.CampaignRescores | internal/agentbench/regrade.go:9-19 | however a campaign is cut and whatever fails: as long as the journal opens, regrading it from its streams with any later definitions of its tasks succeeds and gives, record by record, what it would have recorded under them |
| Rescore.BenchmarkIsSound | cmd/agentbench/main.go:474-475 | the conditions of that hold for every campaign with distinct task ids and arm names without a slash |
| Recover.RecoveredExactly | internal/agentbench/recover.go:29-75 | a lost record is made again from its stream, but for its tokens, if and only if its command did not fail silently; a stream that does not parse stops the recovery; what is made again counts as attempted and regrades to itself |
| Campaign.ShuffleKeeps | internal/agentbench/runner.go:39-45 | a shuffle is a permutation, whatever the random source |
| Campaign.ShuffleDistinct | internal/agentbench/runner.go:39-45 | a block has distinct arms exactly when the campaign has |
| Campaign.BlockOrder | internal/agentbench/runner.go:39-45 | the in-place shuffle of the copy equals its specification |
| Campaign.AnyOrder | internal/agentbench/runner.go:36-45 | the orders that some random source can shuffle a block into are exactly the permutations of its arms |
| Campaign.PlanAt | internal/agentbench/runner.go:128-131 | the plan goes repetition by repetition through the tasks, and in each through the arms in the order shuffled for it |
| Campaign.StartupGuard.Observe | internal/agentbench/runner.go:90-105 | the guard's state and when it stops |
| Campaign.StopsAtThird | internal/agentbench/runner.go:80-105 | a segment whose arms stay clean stops exactly when a record cannot be written, or with its third record when all three are failures; none goes on behind three failures at its start |
| Campaign.StopsExactly | internal/agentbench/runner.go:80-156 | a segment stops if and only if a record could not be written, its first three records are failures, or the arm of its last record was left unclean |
| Campaign.RunArm | internal/agentbench/runner.go:131-156 | one slot: skipped when done, else run, recorded and watched; what reaches the ledger and the file |
| Campaign.Run | internal/agentbench/runner.go:122-161 | the three nested loops make the records of the plan, in plan order, up to the first stop; ledger and journal file are those of that course |
| Handover.SlotsWrite | internal/agentbench/runner.go:131-156 | a segment's file grows by the lines of the records it added and by some front part of the one it could not record |
| Handover.HandOver | internal/agentbench/journal.go:47-91 | exactly when the file a segment leaves opens again, and that the next segment then reads its ledger, with the record whose write failed if all of it landed |
| Handover.StaysClosed | internal/agentbench/journal.go:50-55 | a journal that does not open stays as it is: no later segment runs |
| Handover.ReadsOnlyMade | internal/agentbench/journal.go:62-91 | what holds of every record a campaign can make holds of every record a resumed journal reads |
| Resume.AttemptedOnce | internal/agentbench/journal.go:33-39 | however a campaign is cut, whatever fails and whatever of a record reached the file: as long as the journal opens, each run's history in it is unattempted records and then at most one attempted |
| Resume.ResumedHolds | internal/agentbench/journal.go:33-35 | with a steady agent that always answers, any cuts and failed writes leave, as long as the journal opens, the file of the uninterrupted run after some front part of the plan, byte for byte but perhaps the last line break |
| Resume.ResumeEqualsOneStretch | internal/agentbench/journal.go:33-35 | when the last segment opens the journal and comes to the end of the plan, its ledger holds exactly the records of the uninterrupted run; its file opens again exactly when what it wrote fits and started on its own line, and then is that run's file |
| Resume.PlanDistinct | internal/agentbench/runner.go:128-130 | with distinct arms and ids the shuffled plan schedules every run once |
| AckLog.ReadAcks | internal/agentpause/agentpause.go:252-285 | the read loop yields the acks of the whole lines from the offset on, and the offset behind them |
| AckLog.ReadExactly | internal/agentpause/agentpause.go:252-285 | a read finds the acks on all whole lines behind its offset and no other, in the order of the lines, and leaves no whole line behind |
| AckLog.ReadOn | internal/agentpause/agentpause.go:252-253 | appending whole lines or parts of one never changes what was read before |
| AckLog.PiecesMakeTheWhole | internal/agentpause/agentpause.go:252-285 | incremental reads yield, joined, exactly what one read of the final file yields |
| AckLog.FrontReads | internal/agentpause/agentpause.go:252-285 | a read splits at any line boundary into the reads before and behind it |
| PauseSyncer.Syncer.Report | cmd/ctx/channel_pause.go:137-163 | the report loop moves the offset behind each recorded or rejected line and stops behind a failure |
| PauseSyncer.Syncer.AnnounceResume | cmd/ctx/channel_pause.go:101-135 | the notice goes out as specified, and a failure leaves it to the next round |
| PauseSyncer.Syncer.SyncOnce | cmd/ctx/channel_pause.go:66-99 | a failed query changes nothing; a good round with a control leaves its flag, one without leaves the offset at 0 and the flag gone where the disk allows |
| PauseRuns.AckLogSettled | cmd/ctx/channel_pause.go:137-163 | over any rounds, failures and appends: the offset is a line boundary, and the lines with a control before it are exactly those recorded or rejected in this pass over the log, each once and in order |
| PauseLogs.OncePerGeneration | cmd/ctx/channel_pause.go:86-99 | over any rounds and for every generation of the log file: no line is recorded or rejected twice if and only if no clear that failed stands between two lines that were |
| PauseLogs.RecordedTwice | cmd/ctx/channel_pause.go:86-99 | a concrete run of three rounds that records a line twice over one file |
| PauseLogs.TwiceExactly | cmd/ctx/channel_pause.go:86-99 | over any run: a line is recorded twice while the log is not cleared if and only if it is recorded on both sides of a clear that failed |
| PauseRuns.ReportKeeps | cmd/ctx/channel_pause.go:137-163 | one report round keeps that |
| PauseReports.ReportsExactly | cmd/ctx/channel_pause.go:137-163 | every line behind the offset that names a control is reported, in order and no other, each with the server's answer, up to the first that breaks, and only that fails |
| PauseReports.FailsExactly | cmd/ctx/channel_pause.go:66-99 | a round fails if and only if the server did not answer, the flag could not be written, a report broke or the notice could not be sent |
| PauseReports.WritesExactly | cmd/ctx/channel_pause.go:73-85 | the flag is written exactly in the rounds in which the server has an active control that the flag does not name, once, right behind the server's answer |
| PauseRuns.GateFollowsServer | cmd/ctx/channel_pause.go:66-99 | after a good round the gate denies exactly while the server has an active control; a failed query changes nothing |
| PauseRuns.NoticeSeen | cmd/ctx/channel_pause.go:101-135 | every notice attempt, the first one too, is for a control this process saw active before |
| PauseRuns.NoticeOnce | cmd/ctx/channel_pause.go:101-135 | behind a successful resume notice there is not even another attempt for that control, and every attempt is for a control this process saw active |
| PauseNotices.NoticeComes | cmd/ctx/channel_pause.go:101-135 | in every round of every run: if the server says that a control is lifted which this process saw active and has not announced, the channel is asked and, if ready, the notice is tried; otherwise the channel is not even asked |
| SendLimiter.Limiter.Check | cmd/ctx/channel.go:311-336 | pruning in place, the answer is that of the full history |
| SendLimiter.Limiter.Prune | cmd/ctx/channel.go:316-322 | the compaction keeps exactly the sends of the quarter, in order |
| SendLimiter.Limiter.Record | cmd/ctx/channel.go:338-342 | a send is appended to the history |
| SendLimiter.PrunedIsOld | cmd/ctx/channel.go:311-322 | what an earlier, wider window dropped is outside every later, narrower one |
| SendLimiter.AdmittedExactly | cmd/ctx/channel.go:298-336 | a send is admitted if and only if fewer than ten lie in the last minute and fewer than thirty in the last quarter of an hour |
| LimiterRuns.SendsAreSpaced | cmd/ctx/channel.go:298-304 | sequential sends: each comes a minute behind the tenth before it and a quarter behind the thirtieth before it |
| LimiterRuns.InFlightBounds | cmd/ctx/channel.go:298-304 | with at most k calls in flight, any minute holds at most 9 + k sends and any quarter 29 + k |
| LimiterRuns.AdmitsAgain | cmd/ctx/channel.go:329-334 | when a refusing limit admits again |
| LimiterRuns.WaitExactly | cmd/ctx/channel.go:329-334 | the reported wait is the least that helps exactly when the window's first send is as old as its limit-th newest |
| LimiterRuns.SequentialWaitExact | cmd/ctx/channel.go:329-334 | in the sequential case every refusal reports the exact wait of the refusing limit |
| DocPaths.FindFreePath | cmd/ctx/doc.go:159-200 | the search loop ends for any state and files; the path is free or the slug's own, and the specified one where no two slugs share a path |
| DocPaths.SearchShrinks | cmd/ctx/doc.go:194-199 | each taken candidate leaves fewer taken paths to try: the numbered ones are all different |
| DocPaths.FreeMeansFree | cmd/ctx/doc.go:159-164 | the path is no other slug's, and no file lies there that the slug does not own |
| DocPaths.FreePathIsFirst | cmd/ctx/doc.go:159-200 | it is the preferred path if that can be had, else the dated one, else the one with the least number |
| DocPaths.RelPathExactly | internal/doc/worktree.go:60-80 | the preferred name is the slug itself if it starts with a date, else the first ten characters of the creation date and the slug |
| DocPaths.StaysInside | internal/doc/worktree.go:60-87 | for every slug a caller gives, the path found is one name without a slash in the directory of its kind |
| Worktree.KindIsDir | internal/doc/worktree.go:43-58 | the kind read off a path is the one whose directory it lies in |
| Worktree.KindComesBack | cmd/ctx/doc.go:293-297 | a path that was found for a kind is read back as that kind |
| DocPaths.IsTaken | cmd/ctx/doc.go:170-181 | the closure's scan over any state file answers membership in the taken paths, except that a path two slugs claim may be seen as the slug's own |
| Worktree.Tree.New | cmd/ctx/doc.go:122-157 | a new document gets a path nobody owned and overwrites no file; slug-to-path stays injective |
| Worktree.Tree.Pull | cmd/ctx/doc.go:223-271 | the steps of a pull equal their specification for every answer, and succeed exactly when no edit is guarded, the document is there, its kind and slug give a path and the disk obeys; slug-to-path stays injective |
| Worktree.PullSettles | cmd/ctx/doc.go:223-271 | a good pull leaves exactly the server's text and head at the slug's old path or at nobody's; no file of another is touched, and without force no local edit is overwritten |
| Worktree.PullExactly | cmd/ctx/doc.go:223-271 | a pull succeeds if and only if the document was found, its kind and slug give a path, the write and the save worked, and not: force is off, something was pulled before and the file is there but unreadable or edited; one that cannot save leaves the text it wrote, any other failure nothing |
| Worktree.Tree.Push | cmd/ctx/doc.go:273-339 | the steps of a push equal their specification for every answer, and succeed exactly as the row on PushExactly says; slug-to-path stays injective |
| Worktree.PushSettles | cmd/ctx/doc.go:273-339 | a good push leaves the text as it was and the copy settled at the new head, or neither file nor entry when cleaning; other slugs and files never notice |
| Worktree.PushExactly | cmd/ctx/doc.go:273-339 | a push succeeds if and only if there is a readable copy that is unchanged, or one with a message, a known directory if it is new, the server's consent and a saved entry that, where asked for, is cleaned away; what could not be committed changes nothing |
| Worktree.SettledIsQuiet | cmd/ctx/doc.go:229-239 | a settled copy has nothing to push, and a pull without force does what a forced one does |
| Worktree.Tree.MoveTo | cmd/ctx/doc.go:471-545 | a rename is refused cleanly or runs the specified steps; slug-to-path stays injective |
| Worktree.AllOrNothing | cmd/ctx/doc.go:517-537 | a rename that fails behind the file move leaves everything as before exactly when its compensations work and the server's refusal was true |
| Worktree.MoveExactly | cmd/ctx/doc.go:471-545 | a local rename succeeds if and only if its file is there, its target is not, the server agrees where it is asked and the disk obeys |
| AwaitCode.Await | cmd/ctx/join.go:1125-1147 | the loop takes every message off the channel and ends with the first that decides |
| AwaitCode.DecidesExactly | cmd/ctx/join.go:1132-1145 | every message decides but a failed input while the callback can come and the context lives |
| AwaitCode.LastDecides | cmd/ctx/join.go:1142-1145 | some message always decides, so the branch for a last undecided one is never taken |
| AwaitCode.NobodyLeftBehind | cmd/ctx/join.go:1086-1147 | over any interleaving the count is exactly the messages not yet taken, and on return no sender is left working or blocked although the channel holds two |
| AwaitCode.AlwaysAMove | cmd/ctx/join.go:1086-1147 | until the return some move is always possible and each comes closer to it |
| AwaitCode.InputAloneNeverEnds | cmd/ctx/join.go:1140-1145 | a failed input does not end the wait while the callback can still come |
| AwaitCode.DrainedCodeIsLost | cmd/ctx/join.go:1125-1131 | a callback code that arrives just behind a pasted one is dropped |
| AwaitCode.DeliversOnce | cmd/ctx/join.go:374-378 | the listener delivers at most one result over its life, and that send never blocks |
| JoinLoop.JoinBrowser | cmd/ctx/join.go:1206-1246 | it ends with the first round that is no pasted code refused as foreign with time left: denied if the browser was, connected with a token, given up otherwise; Finish is called at most once, at the end and with the truth, and always when there is a token; Settle comes with a pasted token only |
| JoinLoop.OneToken | cmd/ctx/join.go:1219-1245 | over any interleaving with requests at most one exchange gives a token, the last one, exactly when the loop connects; Finish never finds its channel full |
| JoinLoop.PagesTellTheTruth | cmd/ctx/join.go:351-403 | a browser is shown success only with a token and failure only without one; one still waiting when there is a token will be shown success |
| JoinLoop.OnlyPasteIsLeft | cmd/ctx/join.go:1125-1131 | once the browser's code was taken or drained, whatever follows, only pasted codes are exchanged |
| JoinLoop.ApprovalExactly | cmd/ctx/join.go:1206-1246 | in every reachable state of the running loop, some course of events exchanges the browser's code if and only if no request has won yet or the one that has still brings a code |
| JoinLoop.ApprovalCanBeLost | cmd/ctx/join.go:1235-1240 | a run that loses an approval that way and goes on |
| JoinLoop.LateBrowserSeesSuccess | cmd/ctx/join.go:1229-1234 | in every run: behind the token of a pasted code a browser that comes late is shown success |
| JoinLoop.SettledExactly | cmd/ctx/join.go:1229-1234 | the listener is settled exactly where the exchange that connected was of a pasted code |
| Debounce.Debounced | cmd/ctx/mcp.go:156-172 | runs never overlap, are at most as many as calls, and once all is quiet one has started behind the last call |
| Debounce.ComesToRest | cmd/ctx/mcp.go:156-172 | without further calls it always becomes quiet |
| Debounce.Debouncer.Trigger | cmd/ctx/mcp.go:164-171 | a call stops the pending timer and arms a new one |

## Left out

- Poller.Poller.PollAll: does not report the heartbeat and the backoff of `Run`, which depend only on whether a room was read and whether a call made progress.
- Poller.Poller.DeliverNow: takes the budget's answer as given; how receipts count characters and windows (`internal/hookbudget/budget.go`) is not modelled, nor the content of a notification and its `loop_streak` field.
- LoopGuard.StreakCountsRounds: what counts as new content (regular expressions, stop words, token overlap) is an abstract function of message and window.
- BlobStrip.Strip: json.Valid's limit on nesting is its answer alone; lemmas about whole passes take every JSON text as valid.
- Journal.RunJournal.Open: reading stops at the first error, and a file that cannot be read at all is not told from one that does not parse; what a person does with a file that does not open is outside the model.
- Grading.Regrade: forms, slots and scores are abstract values, so the weight sums of Grade are not modelled; the tokens of a transcript are kept as they are.
- Campaign.Run: a run without a ledger and the fields of Validate are not modelled, Validate only as its answer.
- Resume.ResumeEqualsOneStretch: asks only that the last segment and the uninterrupted run are not stopped by the guard, a failed write or an unclean arm; the start time of a record is not part of it.
- Rescore.CampaignRegrades: asks that no two runs of the plan share a raw file and that the tasks are defined as before, CampaignRescores only that they are defined for the same repositories; paths are compared as strings, so a task id that leaves its directory is not covered.
- Resume.AttemptedOnce: is about Run on a journal; the command's `--resume` first emits the records that RecoverFromTranscripts makes (`cmd/agentbench/main.go:177-184`), which is modelled for one stream (`Recover.RecoveredExactly`) and not as part of a campaign, nor is the parse of file names.
- PollerTaken.TakenWasClaimed: a delivery that was marked as acknowledged without a claim is not modelled as a reason for a lost claim.
- PauseSyncer.Syncer.SyncOnce: the flag file is one value that only the syncer changes after its start; the text of notices, the fields of a flag besides its control, and the periodic loop are not modelled.
- PauseRuns.GateFollowsServer: that the flag and the ack file go when a control ends is stated for rounds in which the disk removed them, because the code ignores those errors.
- SendLimiter.Limiter.Check: instants are integers and do not run backwards between checks; the mutex is the atomicity of the methods. Which messages count as waking is decided before the limiter and not modelled.
- Worktree.Tree.Pull: a failed file write leaves the file as it was in the model, while the disk may truncate it; paths are compared as strings, and a creation date holds no slash.
- Worktree.Tree.MoveTo: the parse of command lines, the texts printed, and the commands import, diff, list and close are not modelled.
- AwaitCode.Await: the retries of one input reader are one message here.
- JoinLoop.PagesTellTheTruth: an exchange and the Settle and Finish behind it are one step, so requests in between count as before or behind it; the checks a request passes before its state is compared, the 60 seconds of patience and the claim of the pairing code are not modelled.
- HTTP clients, SQL, the file system's own behaviour, Docker, git, terminals and browsers appear only as answers that may succeed or fail.
