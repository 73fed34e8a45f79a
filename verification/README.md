# Verification of the task bot's core

A Dafny model of the parts of the bot where a mistake costs money, work or a
message, and proofs about it:

1. **Payout settlement.** A payout row goes `pending -> proposed -> paid` while an
   append-only DAO votes on, expires, fails, deletes or executes `Transfer`
   proposals, and an unreliable gateway submits them: it may report failure and
   still land, or answer with a wrong id. `Settlement` is the step machine: any
   number of concurrent `/pay` calls and reconciles, each with the row it read at
   its start, one step per chain read and one per locked transaction, and an
   environment that may land, drop, vote, expire, delete, fail, re-finalize, add
   proposals and move both clocks between any two steps. `Reconciling` holds the
   same code as methods over the payout table.
2. **The task workflow.** `Workflow` says what each mutator does alone;
   `WorkflowService` is the code over tables it changes in place; `Locking` runs the
   mutators as PostgreSQL does, statement by statement at READ COMMITTED with row
   locks.
3. **The notification queue** and its one worker: `Queue`, `Worker`, and `Delivery`
   for the worker among producers, erasures, prunings, chat moves and crashes.
4. **Messages.** Escaping, cutting and splitting HTML over UTF-16 code units, against
   the validator and the decoder of the test harness; and the exact yoctoNEAR printer
   and parser.

## How it is laid out

| module | holds |
|---|---|
| `Wrappers`, `Decimal`, `Utf16` | options and results, decimal numerals, UTF-16 texts |
| `Amount`, `Dao`, `Payouts` | amounts, proposal status and descriptions, row writers and guards |
| `Settlement` | the settlement step machine |
| `SettlementLedger`, `SettlementLaws` | what every step keeps, and what follows with no timing assumption |
| `SettlementPins` | a dropped pin is dead, with clocks in the grace and nothing else assumed |
| `SettlementSafety`, `SettlementMoney`, `SettlementPrompt` | the money results under timing assumptions |
| `SettlementLimits`, `SettlementGuards` | two runs that each lack one of those assumptions and pay twice; when exactly a pin is safe, and the guards that would see to it |
| `Reconciling`, `ReconcilingLaws`, `ReconcilingRuns` | one reconcile and one `/pay` as methods, their laws, and their place in the machine |
| `ReconcilingExact` | what either comes to, said by the row, the proposals on the chain and the clock alone |
| `Workflow`, `WorkflowInvariant`, `WorkflowLaws`, `WorkflowAudit` | the mutators, what they keep, erasure, the audit log |
| `WorkflowExact` | when each mutator is accepted, why it is refused, and every table it leaves |
| `WorkflowService` | the mutators over tables changed in place |
| `Locking`, `LockingFits`, `LockingLaws`, `LockingRuns` | transactions at READ COMMITTED; each commit is the mutator run alone |
| `Deadlock`, `LateErasure`, `WorkflowTheorems` | lock order, where erasure escapes it, and the results over whole runs |
| `Queue`, `Worker`, `WorkerExact`, `WorkerLaws`, `Delivery` | the queue, the worker, what one attempt and one pass do, draining, and order under interference |
| `Html`, `HtmlGrammar` | validator and decoder, and the grammar of what is valid |
| `Format`, `FormatLaws`, `Composing` | the message code and its laws, and messages composed of fields and tags |
| `CutPlaces` | where a message is cut, said by the marks in it |
| `ClampLaws`, `ClampExact`, `ClampLimits` | the clamp: what it keeps, exactly when it stays valid, and four texts of which it does not |

## What the money results assume

`SettlementSafety.Assumed` says it of one step, `SettlementMoney.AssumedRun` of a run.
None of it is used in `SettlementLaws`, and only the clocks in `SettlementPins`.

- A submission lands within `landingMs` of its claim or never, a pass lasts at most
  `passMs`, and the two fit the graces: `passMs` in the abandoned-claim grace, both
  together in that grace plus the claim memory. `SettlementPrompt` asks that both fit
  in the grace alone, and then needs no assumption about who runs `/pay` when;
  `SettlementMoney` instead asks that nobody claims over an unresolved claim.
- The bot's clock leads the chain's by at most `leadMs`, which with the rounding of
  each proposal's window stays inside the expiry grace. A status and the clock it is
  judged by are read in one step, so what passes between the two must fit in there too.
- Nobody else posts a proposal with the full identity of a payout somebody asked to pay.
- A pass that pins a proposal did not begin before a reset of its row that a newer
  claim came after, or the pin is harmless: the proposal still reads as alive when it is
  pinned, or nothing can come of the payout's newest claim any more.
- An answered id that is pinned, having read back as the claim's own identity, is that
  claim's own proposal, or the pin is harmless.

The last two only matter where the guard of the locked write lets the pin through. No
weaker condition would do for a step: a pin keeps the invariant behind the money results
if and only if it is harmless (`SettlementGuards.PinIsSafeExactly`).

## Findings

- **The read-back check accepts a dead predecessor.** A payout proposed again carries
  the identity of its earlier proposal, and the check (src/core/service.ts:1788-1795)
  compares the identity only, so an answer that names the dead one passes; the next
  reconcile then resets the row and clears its claim. A run that meets every other
  assumption pays twice (`SettlementLimits.DeadAnswerPaysTwice`). The missing guard is
  to read the answered proposal's status there: with it nothing has to be assumed of
  the answers (`SettlementGuards.NoDoublePayWhenChecked`).
- **A reconcile that straddles a reset and a newer claim adopts a dead proposal.** It
  saw the earlier claim's proposal alive; the newer claim has the same identity, and
  the adopt guard (src/core/service.ts:1375-1383) compares status, null pin and identity
  but not `updated_at`. A run that meets every other assumption pays twice
  (`SettlementLimits.StraddlePaysTwice`). The pin of a live proposal and that of an
  answer (src/core/service.ts:1709-1721 and 1802-1806) have the same gap. If all three
  also asked for the `updated_at` that the pass saw, or a pending row without a claim,
  and the read-back for the status, nothing would have to be assumed of straddling or
  of answers, as long as no two writes of a row bear the same `updated_at`
  (`SettlementGuards.NoDoublePayWhenGuarded`).
- **Erasure can outrun money behind its own guard.** The guard counts the payouts that
  exist when it counts (src/core/service.ts:848-878). Somebody who applies, is
  assigned, delivers, is approved and paid for between that count and the
  contributor's lock is erased with a payout in flight
  (`LateErasure.ErasureOutrunsMoney`). An erasure commits over money in flight if and
  only if some of it is for an application that it had not locked when it counted
  (`WorkflowTheorems.ErasureOutrunsMoneyExactly`).
- **Erasure can deadlock.** Its DELETE locks an application that came late out of the
  lock order (`LateErasure.ErasureDeadlocks`); while no erasure wants such a row the
  modelled locks admit no cycle of waiting transactions (`Deadlock.NoWaitCycle`).
- **A chat moved behind the worker's back lets a message overtake an earlier one**
  (`Delivery.MoveLetsOvertake`), if and only if a row queued for the chat that moves
  comes before a claimed row of the chat it moves to that is still to be sent
  (`Delivery.MoveKeepsOrderExactly`, `Delivery.UnfitMoveOvertakes`); between two passes
  never.
- **clampMessage can break a valid message**: when a tag name goes on with a digit,
  when '<' or '&' stands inside a tag, or when an entity is torn more than twelve units
  before the cut (`ClampLimits`). `ClampExact.ClampStaysValidExactly` says of every valid
  message whether it does: what is kept must end between two tokens, with the tags that
  openTags finds open being those the validator has open, or inside a tag that the first
  closer then ends.

## Model

| member | source | states |
|---|---|---|
| Amount.FormatIsCanonical | src/near/dao.ts:131-136 | the printed amount has no leading zero, no trailing fractional zero and at most 24 decimals, and means exactly the amount: nothing is rounded |
| Amount.AmountRoundTrip | src/near/dao.ts:131-149 | parsing a printed amount gives it back for exactly the amounts above zero and below 10^36, and null for the rest |
| Amount.CanonicalTextRoundTrip | src/near/dao.ts:143-149 | a canonical text that is accepted is what its amount prints as |
| Amount.ParseIsExact | src/near/dao.ts:143-149 | any numeral with at most 12 and at most 24 digits that is not zero, canonical or not, is read for exactly what it says; and longer ones and zeros are refused |
| Amount.AcceptedIsTyped | src/near/dao.ts:143-149 | nothing but such numerals is accepted |
| Amount.FormatInjective | src/near/dao.ts:131-136 | two amounts never print alike |
| Dao.DescriptionInjective | src/near/dao.ts:123-125 | equal descriptions name the same payout and task |
| Dao.ShutIsForGood | src/near/dao.ts:171-200 | a proposal the bot reads as dead can never be executed afterwards while clock lead and rounding stay in the grace |
| Payouts.ResetMeansShut | src/core/service.ts:1133-1162 | the settlement rule resets a payout exactly when its proposal is read as dead |
| Payouts.Adoptable | src/core/service.ts:1253-1279 | the scan hands over the newest proposal of the page that is safe to pin, or none if there is none |
| Payouts.EligibleUnlessShut | src/core/service.ts:1236-1246 | a reconcile adopts exactly identity matches it would not call dead; a /pay only a subset |
| SettlementLedger.StepKeeps | src/core/service.ts:1116-1128 | every step of every pass and of the environment keeps the untimed invariant of rows, claims, proposals and stale snapshots |
| SettlementLedger.RunKeeps | src/core/service.ts:1336-1815 | the invariant holds in every reachable state |
| SettlementLaws.StepMovesRows | src/core/models/payout.ts:111-158 | a row appears pending, disappears only by its contributor's erasure, and otherwise moves along the four edges of the ledger |
| SettlementLaws.PaidIsSound | src/core/service.ts:1178-1191 | a paid row is pinned to an executed proposal with exactly its description, receiver, amount and the native token |
| SettlementLaws.PinsAreDistinct | src/core/service.ts:1178-1191 | no proposal is ever pinned by two payouts, be it at different moments of the run |
| SettlementLaws.PaidIsFinal | src/core/service.ts:1501-1528 | a paid row never changes again; erased, it never comes back |
| SettlementLaws.PaidNoticeOnce | src/core/service.ts:1513-1524 | the paid notice is enqueued at most once per payout over the whole run, and exactly for rows that are paid |
| SettlementLaws.PinDiscipline | src/core/service.ts:1714-1720 | a pin is never replaced by another, and a pending row has none |
| SettlementPins.DroppedPinIsDead | src/core/service.ts:1464-1514 | a pin is dropped only for a proposal that is dead then and not executed in the rest of the run, in every run whose clock lead and rounding stay in the grace |
| SettlementLaws.SubmissionsAreSerialized | src/core/service.ts:1756-1774 | two submissions for one payout are separated by a reset of its row |
| SettlementLaws.SubmitsOwnClaim | src/core/service.ts:1749-1774 | add_proposal is called only by the pass that made the claim, which no other pass can submit |
| SettlementLaws.OneSubmitPerClaim | src/core/service.ts:1756-1774 | two add_proposal calls of a run are for different claims |
| SettlementSafety.NothingFoundMeansSpent | src/core/service.ts:1403-1422 | a complete window that shows nothing of a claim, read after its submission could last land, proves the claim spent |
| SettlementSafety.MatchIsOurs | src/core/service.ts:1178-1191 | a proposal with a requested identity came from a claim of that payout, for that identity |
| SettlementSafety.ErasedIsSettled | src/core/service.ts:853-882 | the erasure's two backstops let a row go only when its newest claim is spent or was executed as the recorded payment |
| SettlementSafety.StepSafe | src/core/service.ts:1336-1555 | every step that meets the assumptions keeps: only a payout's newest claim can still move money, and a row without claim has nothing out |
| SettlementMoney.NoDoublePay | src/core/service.ts:1625-1815 | of all the proposals the bot ever submits for a payout at most one is executed |
| SettlementMoney.OnePaymentOnChain | src/core/service.ts:1178-1191 | two executed proposals with one payout's requested identities are the same proposal |
| SettlementMoney.ErasureNeverOutrunsMoney | src/core/service.ts:833-882 | when an erasure commits nothing of the contributor's payouts is live or can still land, and nothing is executed later that was not before |
| SettlementPrompt.PromptRunIsResolved | src/core/service.ts:1424-1461 | when landing and pass fit in the abandoned-claim grace no /pay ever claims over an unresolved claim |
| SettlementPrompt.PendingHasNothingOut | src/core/service.ts:1440-1461 | whenever a payout is pending no proposal of the bot's for it is live, executed or able to land |
| SettlementPrompt.NoDoublePayWhenPrompt | src/core/service.ts:1336-1815 | no double payment, assuming only timing, clocks, straddling, the gateway and outsiders |
| SettlementLimits.NothingElseIsDropped | src/core/service.ts:1336-1815 | the straddling and the answer assumption are exactly what separates the two runs below from the assumed ones |
| SettlementLimits.StraddlePaysTwice | src/core/service.ts:1375-1383 | a run paid twice because the adopt guard does not compare updated_at |
| SettlementLimits.DeadAnswerPaysTwice | src/core/service.ts:1788-1799 | a run paid twice because the read-back check accepts a dead predecessor's id |
| SettlementGuards.PinIsSafeExactly | src/core/service.ts:1375-1383 | a pin that passes its guard keeps the invariant behind the money results if and only if the proposal still reads as alive or nothing of the payout's newest claim is out |
| SettlementGuards.UntouchedIsUnstraddled | src/core/service.ts:1375-1383 | an adoption over a row whose updated_at is unchanged, and older than the pass, straddles no newer claim |
| SettlementGuards.NoDoublePayWhenGuarded | src/core/service.ts:1375-1383 | no double payment whatever the gateway answers and whichever passes straddle, if all three pins also compare updated_at and the read-back also checks the status |
| SettlementGuards.NoDoublePayWhenChecked | src/core/service.ts:1788-1799 | no double payment whatever the gateway answers, if the read-back goes on only over a proposal that reads as alive |
| Reconciling.PayoutTable.LockedApply | src/core/service.ts:1116-1128 | the compare-and-set writes only while its guard holds of the locked row, and hands the row back otherwise |
| Reconciling.PayoutTable.Reconcile | src/core/service.ts:1336-1461 | one reconcile leaves the rows, notices and report its specification names |
| Reconciling.PayoutTable.FollowPin | src/core/service.ts:1464-1552 | the same for the half that follows a pin, from whatever status the row is known to have |
| Reconciling.PayoutTable.ProposePayout | src/core/service.ts:1625-1694 | one /pay leaves the rows, answer and refusal its specification names |
| Reconciling.PayoutTable.ProposeAfresh | src/core/service.ts:1695-1815 | the same for its scan, claim, submit and pin |
| ReconcilingLaws.OkReportIsExact | src/core/service.ts:1099-1104 | an ok report of a reconcile that read the row itself names exactly the status and pin the row stores |
| ReconcilingLaws.SecondReconcileWritesNothing | src/core/service.ts:1336-1552 | against a frozen chain and clock a second reconcile writes nothing, whatever it reads, when no read of the first failed or the first reports ok |
| ReconcilingLaws.SameReadsComeToRest | src/core/service.ts:1336-1552 | with the same reads in both it writes nothing, whichever of them fail |
| ReconcilingLaws.PaySubmitsOnlyItsOwnClaim | src/core/service.ts:1695-1815 | a /pay submits only over a pending row with no conflicting claim, off a complete window with nothing live under the description, and leaves the row claimed for what was asked |
| ReconcilingLaws.NextPayDoesNotSubmit | src/core/service.ts:1756-1774 | after a submit the next /pay does not submit, whatever it reads |
| ReconcilingLaws.RefusalLeavesTheRow | src/core/service.ts:1690-1700 | a /pay refused before its claim leaves what its reconcile left |
| ReconcilingLaws.PayNamesThePin | src/core/service.ts:1709-1728 | any id a /pay answers is the one its row is pinned to |
| ReconcilingExact.PinnedExactly | src/core/service.ts:1464-1528 | a pinned row: an executed proposal pays it with one notice; an open or failed one leaves it; a dead one puts it back to pending without pin or claim; one that is gone does so past the grace only |
| ReconcilingExact.UnreadPinIsLeft | src/core/service.ts:1464-1493 | a pinned row whose status cannot be read is left alone and nothing is claimed of it |
| ReconcilingExact.TwinIsFlagged | src/core/service.ts:1486-1500 | a reconcile of a pinned row flags a duplicate if and only if the window holds another open proposal that pays the same |
| ReconcilingExact.LookupExactly | src/core/service.ts:1253-1279 | the scan finds the newest proposal of the window that pays the claim and is not dead, or nothing if there is none |
| ReconcilingExact.ClaimedIsAdopted | src/core/service.ts:1366-1390 | a claimed row is pinned to that proposal, and paid at once with its notice if it was executed |
| ReconcilingExact.AdoptedTwinIsFlagged | src/core/service.ts:1366-1367 | and flags a duplicate if and only if another open one pays the same |
| ReconcilingExact.AdoptedUnread | src/core/service.ts:1375-1390 | or, with its status unread, pinned and no more |
| ReconcilingExact.ClaimedWithoutProposal | src/core/service.ts:1391-1461 | a claimed row without one waits, expires or heals by its age; and is left alone when the window was not read or does not reach the first proposal |
| ReconcilingExact.NothingToReconcile | src/core/service.ts:1336-1461 | a paid row, and a pending one that was never claimed, are reported as they are |
| ReconcilingExact.MovedOnFromPin | src/core/service.ts:1502-1530 | a reconcile that read a row before another pass moved it on from its pin writes nothing, and reports that row |
| ReconcilingExact.MovedOnFromClaim | src/core/service.ts:1375-1385 | the same for a claim that is not the one that was read |
| ReconcilingExact.PositiveIntegerExactly | src/core/service.ts:1638-1641 | the amount pattern accepts exactly the decimal numerals of positive numbers |
| ReconcilingExact.PayChecksFirst | src/core/service.ts:1630-1642 | a /pay that is not configured, of no positive amount or to no payable account leaves the ledger as it is and says which |
| ReconcilingExact.PaySubmitsExactly | src/core/service.ts:1625-1774 | a /pay submits if and only if it passes those checks, its row is pending with no claim in the way, and a complete window shows nothing open under its description |
| ReconcilingExact.SubmitLeaves | src/core/service.ts:1749-1815 | what a submit leaves and answers: the row claimed for what was asked, pinned exactly to an answered id that reads back as that |
| ReconcilingExact.PayOfProposed | src/core/service.ts:1700-1728 | a /pay of a proposed row answers its pin, or pins the open proposal that pays what is asked |
| ReconcilingExact.PayAdoptsOpen | src/core/service.ts:1700-1728 | a pending payout nobody claimed is pinned to an open proposal that pays what is asked |
| ReconcilingExact.PayOverEarlier | src/core/service.ts:1658-1681 | a /pay over an earlier claim with something alive on the chain pins that and answers what became of it |
| ReconcilingExact.PayStopsAtTheChain | src/core/service.ts:1695-1748 | otherwise what the window shows refuses it: unread, something else open under the description, or too many proposals; or the payout is being proposed already |
| ReconcilingExact.PayStopsAtTheRow | src/core/service.ts:1749-1774 | another claim within its memory refuses it; an unreadable bond leaves the row claimed and nothing submitted |
| ReconcilingExact.NothingToPay | src/core/service.ts:1645-1648 | a payout that is gone or paid is refused as such |
| ReconcilingRuns.UninterruptedReconcile | src/core/service.ts:1336-1552 | from every reachable state the reconcile method's outcome is a run of the step machine, without giving up whenever it reports ok |
| Workflow.AppFor | src/core/models/application.ts:48-61 | the application of a contributor to a task, or none if there is none |
| Workflow.LatestBelow | src/core/models/submission.ts:67-68 | the submission of an application with the greatest version |
| Workflow.EraseActor | src/core/models/history.ts:73-81 | every entry is scrubbed on its own and none is dropped |
| WorkflowInvariant.ReviewLandsOnAssigned | src/core/service.ts:481-500 | a submission in review is the latest of an assigned application |
| WorkflowInvariant.MoveKeeps | src/core/service.ts:319-408 | assign, decline, unassign, withdraw and re-apply keep counters, slots, versions, review states and payouts in step |
| WorkflowInvariant.ReviewKeeps | src/core/service.ts:481-531 | so does every review decision, with the payout it may create |
| WorkflowInvariant.SubmitKeeps | src/core/service.ts:446-462 | so does a new version |
| WorkflowLaws.PerformKeeps | src/core/service.ts:88-531 | so does every mutator that is not refused |
| WorkflowLaws.EraseKeeps | src/core/service.ts:892-923 | so does an erasure, with or without its money guard |
| WorkflowLaws.ApplyAccepts | src/core/service.ts:197-227 | what an accepted apply found: open task, free slot, registered contributor below the cap, nothing but a declined or withdrawn application |
| WorkflowExact.ApplyExactly | src/core/service.ts:197-292 | an apply is accepted if and only if the task is open with a free slot, and the contributor registered, below the cap, and without an application to it but a declined or withdrawn one |
| WorkflowExact.ApplyLeaves | src/core/service.ts:279-300 | it adds a row and a count, or takes the declined or withdrawn row up again with the new pitch |
| WorkflowExact.ApplyRefused | src/core/service.ts:197-227 | and is refused for the first reason that holds |
| WorkflowExact.CreateExactly | src/core/service.ts:88-98 | a new task is accepted if and only if its bound is between one and the maximum, and is a draft |
| WorkflowExact.EdgesExactly | src/core/service.ts:101-176 | approve, close and reopen are accepted from exactly one status each |
| WorkflowExact.DiscardExactly | src/core/service.ts:129-143 | a discard is accepted of drafts only, and takes the draft and its log entries and nothing else |
| WorkflowExact.AssignExactly | src/core/service.ts:319-343 | an assign is accepted if and only if the application is undecided and its task open with a free slot; the row, counter and entry |
| WorkflowExact.DeclineExactly | src/core/service.ts:346-356 | a decline is accepted if and only if the application is undecided; the row and entry |
| WorkflowExact.InReviewIsLatest | src/core/service.ts:362-462 | what unassign, withdraw and submit ask of the latest version is whether anything is in review |
| WorkflowExact.UnassignLeaves | src/core/service.ts:362-373 | an unassign is accepted if and only if the application is assigned with nothing in review; the row, counter and entry |
| WorkflowExact.WithdrawLeaves | src/core/service.ts:394-408 | a withdraw is accepted of the contributor's own undecided or assigned application with nothing in review; the row, counter and entry |
| WorkflowExact.SubmitLeaves | src/core/service.ts:446-462 | a submission is accepted of the contributor's own assigned application with nothing in review; the row and entry |
| WorkflowExact.NextVersionExactly | src/core/service.ts:446-462 | its version is one more than the greatest there is |
| WorkflowExact.ReviewAccepted | src/core/service.ts:481-500 | a review is accepted if and only if the submission is there and in review |
| WorkflowExact.ReviseLeaves | src/core/service.ts:481-531 | what a revision asks for |
| WorkflowExact.RejectLeaves | src/core/service.ts:481-531 | what a rejection leaves |
| WorkflowExact.ApproveLeaves | src/core/service.ts:481-531 | what an approval leaves: the completed application, its counters, both entries, and the reward owed to the contributor, if the task has one |
| WorkflowExact.NotPaidYet | src/core/service.ts:504-515 | no submission in review has a payout already |
| WorkflowExact.ForgetExactly | src/core/service.ts:833-892 | an erasure is accepted if and only if none of the contributor's money is in flight and there is something to erase |
| WorkflowExact.ForgetLeaves | src/core/service.ts:892-923 | it takes exactly the contributor's rows |
| WorkflowExact.ForgetScrubs | src/core/service.ts:892-923 | scrubs every entry of the contributor and of nothing else |
| WorkflowExact.ForgetLogs | src/core/service.ts:892-923 | and logs one entry for each application |
| WorkflowAudit.PerformTells | src/core/models/history.ts:34-46 | every mutator's entries say what it did |
| WorkflowAudit.EraseTells | src/core/models/history.ts:73-81 | an erasure takes nothing out of anybody else's trail and all of its own contributor's |
| WorkflowService.Database.Apply | src/core/service.ts:229-300 | accepted or refused as specified, with the re-applied or new row, counter and entry; and sound tables, in step and accounted for by their log, stay sound |
| WorkflowService.Database.Assign | src/core/service.ts:319-343 | the same for assign |
| WorkflowService.Database.Decline | src/core/service.ts:346-356 | the same for decline |
| WorkflowService.Database.Unassign | src/core/service.ts:362-373 | the same for unassign |
| WorkflowService.Database.Withdraw | src/core/service.ts:394-408 | the same for withdraw |
| WorkflowService.Database.SubmitWork | src/core/service.ts:446-462 | the same for a submission, with the next version |
| WorkflowService.Database.ReviewSubmission | src/core/service.ts:481-531 | the same for a review, with counters, application status, entries and payout |
| WorkflowService.Database.CreateTask | src/core/service.ts:88-98 | the same for a new task |
| WorkflowService.Database.TransitionTask | src/core/service.ts:163-176 | a task takes one edge from its one status, with an entry, or is refused |
| WorkflowService.Database.ApproveTask | src/core/service.ts:101-115 | the same as for apply, for approve |
| WorkflowService.Database.CloseTask | src/core/service.ts:150-152 | the same for close |
| WorkflowService.Database.ReopenTask | src/core/service.ts:157-159 | the same for reopen |
| WorkflowService.Database.DiscardDraft | src/core/service.ts:129-143 | the same for a discarded draft |
| WorkflowService.Database.ForgetContributor | src/core/service.ts:833-923 | the same for an erasure |
| WorkflowService.Database.EraseActor | src/core/models/history.ts:73-81 | the scrubbing loop scrubs the whole log |
| WorkflowService.Database.CreateSubmission | src/core/models/submission.ts:40-57 | the version after the greatest one |
| LockingFits.FitsStays | src/core/models/application.ts:34-71 | what a transaction has read under its locks stays true whoever commits beside it |
| LockingLaws.CommitIsAtomic | src/core/service.ts:229-531 | a commit does what the mutator does alone on the tables as committed at that moment |
| LockingLaws.CommitWrites | src/core/service.ts:229-531 | a commit changes nothing but under a lock it held, and no count grows but under the lock its counter holds |
| LockingLaws.StepSysOk | src/core/service.ts:229-531 | every statement of every transaction keeps the workflow invariant, the audit and everybody's knowledge |
| LockingRuns.RunsAlone | src/core/service.ts:88-531 | any mutator but an erasure that alone would not be refused can run through and does what it does alone |
| WorkflowTheorems.InterleavingsAreAtomic | src/core/service.ts:229-531 | in every run the committed tables change only by mutators run alone, but for an erasure behind whose count of the money more has come |
| WorkflowTheorems.ErasureOutrunsMoneyExactly | src/core/service.ts:848-923 | an erasure that found its contributor commits over money in flight, and otherwise than alone, if and only if a payout in flight is for an application it had not locked when it counted |
| WorkflowTheorems.NoOversell | src/core/service.ts:325-335 | no task is ever oversold |
| WorkflowTheorems.ApplyRespectsCap | src/core/service.ts:250-277 | no committed apply lifts its contributor's undecided applications past the cap |
| WorkflowTheorems.ReviewsLandOnAssigned | src/core/service.ts:487-500 | every committed review decision lands on an assigned application and its latest version |
| WorkflowTheorems.WorkMatchesApplication | src/core/workflow.ts:7-30 | versions are 1 to n; only the latest is not sent back; in review means assigned; completed and rejected exactly when the latest was approved or rejected |
| WorkflowTheorems.CountersCount | src/core/models/contributor.ts:108-130 | the four counters are the counts of the application rows |
| WorkflowTheorems.OnePayoutPerCompletedWork | src/core/service.ts:504-515 | exactly one payout for each completed application to a rewarded task, for its contributor, task and reward, and none otherwise |
| WorkflowTheorems.AuditLogReplays | src/core/models/history.ts:34-46 | folding the log gives every application's status, versions and latest decision, nothing for anybody else, and every task's status |
| WorkflowTheorems.ErasureLeavesNoTrace | src/core/service.ts:892-923 | after an erasure no row, authorship, subject or written detail names the contributor, and nothing else is gone |
| WorkflowTheorems.DetailNamesOne | src/core/models/history.ts:52-54 | the pattern over details selects exactly the one contributor's |
| Deadlock.NoWaitCycle | src/core/service.ts:231-286 | every cycle of waiting transactions runs through an erasure that wants the lock of a row that came late |
| Deadlock.SomebodyCanRun | src/core/models/application.ts:63-71 | while no erasure wants such a lock, some open transaction can run its next statement |
| LateErasure.ErasureOutrunsMoney | src/core/service.ts:840-923 | a run in which an erasure commits over a payout in flight, because its contributor applied after the guard had counted |
| LateErasure.ErasureDeadlocks | src/core/service.ts:840-923 | a run in which an erasure and an assignment of a late application wait for each other |
| Queue.FanOutAddsEachKeyOnce | src/core/models/notification.ts:104-121 | a fan-out keeps what was there, leaves every key once, and adds one queued row per new key, due at once, with what the first of that key says |
| Queue.Notifications.EnqueueMany | src/core/models/notification.ts:104-121 | adding in chunks adds what adding one by one adds, and counts the new rows |
| Queue.Notifications.EnqueueOne | src/core/models/notification.ts:88-90 | a row is added exactly when its key is not there |
| Queue.ClaimableBelow | src/core/models/notification.ts:132-143 | exactly the due heads of their chats, oldest first |
| Worker.Courier.DeliverOne | src/bot/worker.ts:253-289 | one claimed row: pace, check, send, and record what came of it |
| Worker.Courier.ProcessDueRows | src/bot/worker.ts:225-292 | a pass over the claimed rows, skipping chats that got a redirect |
| Worker.Courier.DrainNotifications | src/bot/worker.ts:296-304 | passes until one claims nothing |
| Worker.Courier.PaceSend | src/bot/worker.ts:214-218 | the clock and the slot after pacing |
| WorkerExact.SettleExactly | src/bot/worker.ts:259-289 | delivered is sent; a permanent failure gives up at once; a transient one waits 5, 10, 20, 40, 80 seconds and gives up after the sixth; a flood changes nothing |
| WorkerExact.MigrationExactly | src/core/models/notification.ts:177-183 | a migration takes the queued rows of the chat along and nothing else |
| WorkerExact.AttemptExactly | src/bot/worker.ts:253-289 | a queued row is sent once, to the chat it was claimed for, when its slot has come |
| WorkerExact.FloodIsWaitedOut | src/bot/worker.ts:262-268 | after a flood the next send is what it asked for and the interval away |
| WorkerExact.ClaimDueExactly | src/core/models/notification.ts:132-143 | at most as many due heads as asked for, and left out only newer ones |
| WorkerExact.PassSendsAll | src/bot/worker.ts:225-292 | without migrations a pass sends every row it claimed once, in order |
| WorkerExact.PassSkipsRedirected | src/bot/worker.ts:225-292 | nothing is sent to a chat that got a redirect in the pass |
| WorkerExact.PrunedExactly | src/core/models/notification.ts:218-226 | a queued row is never pruned, a finished one exactly past the cutoff |
| WorkerExact.DeletedExactly | src/core/models/notification.ts:228-235 | an erasure takes exactly the rows to the contributor or about them |
| WorkerLaws.SettleCounts | src/core/models/notification.ts:155-192 | a flood or a redirect takes no attempt from any row; every other outcome takes one from its own row and leaves the others alone |
| WorkerLaws.AttemptUsesUp | src/bot/worker.ts:254-289 | every send uses up a disturbance of the sender's or an attempt |
| WorkerLaws.DrainEmptiesTheQueue | src/bot/worker.ts:296-304 | for a sender that floods and migrates finitely often draining ends with nothing queued, every queued row delivered exactly once or failed, failed if and only if a send of it failed permanently or six attempts went by undelivered, and all sends paced |
| Delivery.NoOvertaking | src/core/models/notification.ts:132-143 | with the worker's own redirects, erasures, crashes, chat moves between passes and moves that fit, no row is sent while an earlier one of its chat is queued |
| Delivery.MoveKeepsOrderExactly | src/core/service.ts:564-585 | a chat move keeps the order if and only if no row queued for the chat that moves comes before a claimed row of the other chat that is still to be sent |
| Delivery.UnfitMoveOvertakes | src/core/service.ts:564-585 | every move that does not fit, while no send waits for its record, can be followed by a send that overtakes |
| Delivery.ArrivesInOrder | src/bot/worker.ts:225-292 | without chat moves rows arrive in each chat in order, whatever is added or erased and wherever the process dies |
| Delivery.ErasedIsNotSent | src/core/models/notification.ts:145-153 | an erased row is never sent afterwards unless it was already past its check |
| Delivery.MoveLetsOvertake | src/core/service.ts:564-585 | a run in which a chat moved behind the worker's back lets a row overtake an earlier one |
| Html.AssertValidHtml | scripts/harness.ts:30-58 | the loop accepts exactly the texts that parse, token by token, to an empty stack |
| HtmlGrammar.ValidExactly | scripts/harness.ts:22-58 | a text is accepted if and only if it can be read as plain units, entities and properly nested elements of allowed tags |
| HtmlGrammar.AllowedIsListed | scripts/harness.ts:16-20 | an allowed name is one of the fifteen listed |
| Html.TakeToken | scripts/harness.ts:32-55 | one turn of it |
| Format.OpenTags | src/bot/format.ts:102-114 | the search leaves the stack of the pattern's matches |
| Format.AppendClosers | src/bot/format.ts:122-127 | the closers in reverse order |
| Format.Clamp | src/bot/format.ts:136-143 | the cut, the two drops, the ellipsis and the closers |
| Format.ChunkMessage | src/bot/format.ts:302-319 | the loop takes off the heads one by one |
| Format.ChunkHead | src/bot/format.ts:306-315 | a head is never empty, fits a message and is a beginning of the rest |
| Utf16.SafeSlice | src/bot/format.ts:62-67 | a beginning of at most the length asked for, one unit shorter only at a high surrogate |
| Utf16.SafeSliceWellFormed | src/bot/format.ts:62-67 | the slice of well-formed UTF-16 is well formed |
| FormatLaws.EscIsUnitwise | src/bot/format.ts:49-51 | the three replacements in turn escape each character once |
| FormatLaws.EscReadsBack | src/bot/format.ts:49-51 | what was escaped decodes to what was written, whatever it was |
| FormatLaws.EscParses | scripts/harness.ts:30-58 | escaped text is valid wherever it is put |
| FormatLaws.FieldIsAPrefix | src/bot/format.ts:75-86 | a field is the escaped text, or a beginning of it escaped and an ellipsis, at most five units short of the budget, with surrogates and entities whole |
| FormatLaws.FieldReadsBack | src/bot/format.ts:75-86 | a field is valid wherever it is put and decodes to the text, or to a beginning of it and an ellipsis |
| FormatLaws.ChunksConserve | src/bot/format.ts:302-319 | the parts of any text put together are the text, none is empty and each fits a message |
| FormatLaws.ChunksOfEscaped | src/bot/format.ts:288-319 | every part of an escaped text is a piece of the text escaped, decoding and joining gives the text back |
| Composing.ComposedReadsBack | src/bot/format.ts:42-99 | a message composed of escaped texts, fields and structural tags is valid HTML and decodes to its words, each field cut to its budget, whatever they are |
| Composing.ComposedIsNotCut | src/bot/format.ts:45-143 | and, if its budgets fit a message, is sent as it was composed |
| CutPlaces.ShortIsKept | src/bot/format.ts:137 | the clamp leaves a text of at most 4096 units alone |
| CutPlaces.LongIsCut | src/bot/format.ts:138-142 | a longer one is a beginning, an ellipsis and closers; the beginning ends at 4040, or 4039 at a high surrogate, or before that only at the tag or the short entity torn there |
| CutPlaces.ClosersAre | src/bot/format.ts:122-127 | one closer for each open tag, the last opened first |
| CutPlaces.PartEnds | src/bot/format.ts:306-315 | a part ends at 4096, or 4095 at a high surrogate, or before that only at the tag and then the entity torn there |
| CutPlaces.PartsAre | src/bot/format.ts:302-319 | a text that fits is one part; a longer one is its head and the parts of the rest |
| CutPlaces.PartsEndOutside | src/bot/format.ts:287-315 | so no part ends inside a tag or an entity, where none begins inside another, but one that would have been empty |
| ClampExact.ClampStaysValidExactly | src/bot/format.ts:102-143 | for every accepted text the clamp is accepted if and only if the text is short enough or the closers fit what the validator has open where the kept part ends |
| ClampExact.ClampStaysValid | src/bot/format.ts:136-143 | for an accepted text with plain tags the clamp is accepted if and only if no entity begins more than twelve units before the cut and ends after it |
| ClampLaws.ClampFits | src/bot/format.ts:129-143 | the clamp fits a message whenever the closers it appends fit in 55 units |
| ClampLaws.ClampIsWellFormed | src/bot/format.ts:136-143 | the clamp of well-formed UTF-16 is well formed |
| ClampLimits.DigitAfterTagName | src/bot/format.ts:104-111 | a valid text whose clamp closes a tag that was closed |
| ClampLimits.LtInsideTag | src/bot/format.ts:139 | a valid text whose clamp leaves a tag torn at an inner '<' |
| ClampLimits.AmpInsideTag | src/bot/format.ts:140-141 | a valid text whose clamp takes an '&' inside a tag for a torn entity |
| ClampLimits.LongEntityAtTheCut | src/bot/format.ts:140-141 | a valid text whose clamp keeps half a numeric entity |

## Left out

- SettlementMoney.ErasureNeverOutrunsMoney: the erasure is one step that counts and deletes at once; what can happen between its count and its delete is in `LateErasure`.
- Reconciling.PayoutTable.Reconcile: rows and chain stand still during the call; `Settlement` lets them move.
- Reconciling.PayoutTable.FollowPin: the same.
- Reconciling.PayoutTable.ProposePayout: the same.
- Reconciling.PayoutTable.ProposeAfresh: the same.
- Deadlock.NoWaitCycle: covers SELECT FOR UPDATE, the counter updates, the settlement compare-and-set with its notice, and the erasure's deletes; not the share locks of foreign keys nor the erasure's update of created_by. The history entry of an unassign or a withdraw takes such a share lock on the task after the contributor's row (db/migrations/001_initial.sql:64), so that two assigns and two unassigns over two tasks and two contributors can form a ring.
- Deadlock.SomebodyCanRun: the same locks.
- WorkflowService.Database.SubmitWork: without the submission's content, type and times.
- WorkflowService.Database.CreateTask: without the task's text, deadline and room.
- WorkflowService.Database.DiscardDraft: without the signals that point at the draft.
- WorkflowService.Database.ReviewSubmission: keeps the note in the log only, not on the submission row.
- WorkflowService.Database.ForgetContributor: without the preflight; its notification and room-admin rows are one number.
- Delivery.UnfitMoveOvertakes: says nothing of a move between a send and its record, whose outcome may still redirect or finish the rows in question.
- Delivery.ArrivesInOrder: takes ids as growing at commit.
- The audit of paid rows for live twins before an erasure (`auditPaid`) and the preflight reconciles of the erasure: they only refuse more.
- An execution that bounces after it was read as approved (Approved then Failed): an approved proposal is taken as final.
- Deleting an executed proposal, a change of the DAO's voting period, and RPC nodes that lag behind each other.
- Rows from before amounts were stored (an account without an amount).
- A delay between reading a proposal's status and reading the clock it is judged by.
- Floating-point rounding of the expiry comparison is a fixed error per proposal.
- Policy caching, the proposal bond's amount, account checks, HTTP and RPC failures beyond "the read failed".
- Task text, deadlines, timestamps of workflow rows, submission content and types, rooms, signals and their locks; the order in which an erasure logs the tasks it touched (it is by application id).
- The composite transactions of the Mini App's callback mutation.
- The worker's plain-text resend after an HTML parse error, give-up alerts, leadership election (one worker is assumed), stale-assignment nudges.
- Delivery fairness across chats.
- Media captions, cards, keyboards, locales, the agent, the web app and authentication.
