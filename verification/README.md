# Verified model of the Envoy backend

Envoy is a bounty marketplace: clients post bounties whose prize sits in an on-chain escrow, AI
agents register and submit work, the client picks a winner, and a reputation engine keeps score.
This project models the parts of the backend where state, order and arithmetic interact, and proves
what they keep:

- **Reputation** (`AgentStats`, `AgentAccounting`, `AgentInterleaving`, `WriteChains`,
  `LostUpdates`, `StaleScores`, `LeaderboardRace`, `OwnerStats`, `OwnerInterleaving`,
  `ReputationStore`, `StoreHistory`, `Leaderboard`, `Ratings`, `ReputationService`). Agent and owner rows, XP, streaks, tiers, badges, rating averages, composite
  scores and the three leaderboards; both as serial runs and as interleavings of load, upsert,
  read-back, write and push on a shared row.
- **Lifecycle** (`Lifecycle`, `WinCredits`, `Refunds`, `Scheduler`, `BountyBackend`). The bounty table against the escrow:
  create, confirm, webhooks, deadline ticks, winner selection, refund and settlement.
- **Telegram submissions** (`Text`, `TelegramFooter`). The reply pattern, the footer expression as
  a backtracking matcher, the key/value lines, and the message format agents are told to print.
- **Registrations** (`Registrations`, `RegistrationServices`). The registration table shared by
  the dispatch queue and two submission channels.
- **Wire** (`Bytes`, `Wire`, `WebhookRoute`). The instruction encoders, the instruction identifier
  and the webhook that reads the job id back out of raw bytes and confirms agents' registry assets.

In each component a specification on values (`Apply`, `Run`) says what a call does; a class holds
the tables and its methods, written in the steps of the source, are proved to have that effect; and
lemmas prove what holds after every sequence of calls.

Check the whole project with `dafny verify dfyconfig.toml` (Dafny 4.11).

## Where code and documentation disagree

The model follows the code.

- The composite score is documented as lying in 0-1 (`src/common/entities/agent-stats.entity.ts:49-54`).
  With ratings up to Q it lies in [0, 0.4 Q + 0.6], and Q is 100 on one route and 5 on the other
  (`AgentAccounting.CompositeBounds`). The bound is reached by one delivery on time, one win and one
  top rating (`AgentAccounting.CompositeBoundReached`), so the documented range holds for every run
  if and only if Q is at most 1 (`AgentAccounting.CompositeInUnitIff`).
- The scheduler means to skip a bounty whose client cannot be found
  (`src/modules/bounties/bounties-scheduler.service.ts:88-92`), but the lookup throws instead of
  returning nothing (`src/modules/users/users.service.ts:24-32`), so the whole tick stops there. A
  tick completes if and only if no bounty that must be refunded has a missing client
  (`BountyBackend.Backend.HandleDeadlines`); a later complete tick makes up for it
  (`Scheduler.InterruptedTickIsHealed`).
- Confirming an escrow and its webhook are described as interchangeable, the later one being a
  no-op (`src/modules/bounties/bounties.controller.ts:66-74`). They do leave the same row, but the
  owner is credited for posting only when the confirm call comes first
  (`Lifecycle.FundingConfluence`). The webhook checks no state at all: delivered late it moves the
  state back to open, with a recorded winner left in place (`Lifecycle.LateFundedWebhook`).
- Confirming promises to check for a createEscrow instruction
  (`src/modules/bounties/bounties.service.ts:112-115`) but takes the first instruction of the program.
  A bounty that is open or under review has a funded escrow if and only if its create_escrow was
  broadcast (`Lifecycle.OpenIsFundedIff`), and it can be open without (`Lifecycle.OpenWithoutEscrow`).
- A win is counted at winner selection and again at settle confirmation: once per accepted selection
  whose settle transaction could be built, plus once per settle webhook. `WinCredits.WinCountedOnceIff`
  says when that makes one. A completed bounty has been credited at least twice unless no such
  selection was counted and one webhook was (`WinCredits.CompletedBountyCreditedTwice`), and completion
  is reached either way (`WinCredits.CompletionIsReached`). The client is credited per selection only
  (`WinCredits.ClientCreditedPerSelection`).
- A failed `update_escrow` is called non-fatal, but it decides the refund (`Refunds.RefundPaidIff`) and
  is never sent again: whatever follows, the client is not refunded, and only selecting a winner after
  all frees the escrow (`Refunds.FailedUpdateIsNeverRetried`). Such a bounty is reached
  (`Refunds.StuckIsReached`), and so is a refund (`Refunds.RefundIsReached`).
- The stored completion rate is not recomputed on registration, so it can be stale, and the badge
  for completing nine tenths can be earned with one delivery in ten
  (`AgentAccounting.CompletionRateExactIff`, `AgentAccounting.ConsistentBadgeOnStaleRate`).
  `AgentAccounting.ConsistentBadgeIff` gives, for every run, when it is stored and when deserved.
- Handlers load a row, then overwrite its columns, with nothing to keep two of them apart.
  Registrations, submissions, wins, XP and earnings count every committed upsert if and only if no
  upsert of that column commits between the load and the commit of another; the on-time counter has a
  weaker condition (`LostUpdates.NothingLostIff`, `LostUpdates.OnTimeRecovers`). Score, tier and badges
  can be those of an older row (`StaleScores.ScoreFitsIff`), a leaderboard can keep a stale score
  (`LeaderboardRace.BoardAgreesIff`), and a client can lose updates and badges in the same way
  (`OwnerInterleaving.OwnerNothingLostIff`, `OwnerInterleaving.OwnerBadgesFitIff`).
- The states `awaiting_refund` and `completed` are written by the code but missing from the state
  type (`src/common/entities/bounty.entity.ts:12-18`); `cancelled` is in the type and never written.

## Assumptions

- A database write succeeds, an upsert is one atomic write that keeps the columns it does not list,
  and a missing row reads as zeros. Rates and amounts are `real`, not floating point.
- Handlers run one at a time, except in `AgentInterleaving`, `LostUpdates`, `StaleScores`,
  `LeaderboardRace` and `OwnerInterleaving`, which are about handlers that do not.
- Bounties are keyed by their job id, which is fresh; registration and deliverable ids are fresh.
  An agent's categories and owner do not change during a run.
- The escrow program is present only through its guards: update while funded, settle when fulfilled
  (paying the agent's owner) or unfulfilled (paying the client), and nothing after it has paid
  (`src/common/program/generated/errors/arcadiumEscrow.ts:17-38`).
- The create_escrow webhook arrives while the bounty is draft or open and carries the escrow
  account; a settle webhook reports a settlement that took place.
- The clock, deadlines, RPC success, HTTP success and inserted row ids are parameters. SHA-256 is
  an arbitrary function of strings, and base58 data arrives already decoded.

## Model

| member | source | states |
|---|---|---|
| AgentStats.AgentTierLadder | src/modules/reputation/reputation.service.ts:64-70 | the score interval of every tier; no wins means unranked, and a score below the bronze threshold is still bronze |
| AgentStats.AgentBadgeMeaning | src/modules/reputation/reputation.service.ts:81-94 | each badge is held if and only if its counters reach the threshold |
| AgentStats.SubmitTouchesOnly | src/modules/reputation/reputation.service.ts:169-191 | a submission's upsert lists two counters, two rates and XP and no other column, whatever happened since its load; their values from the snapshot |
| AgentStats.WinTouchesOnly | src/modules/reputation/reputation.service.ts:204-232 | the same for a win: wins, streak, earnings, XP with its milestone, win rate |
| AgentStats.RegisterAndRateTouchOnly | src/modules/reputation/reputation.service.ts:149-160 | the same for a registration and for the stored average |
| AgentStats.RecalculateTouchesOnly | src/modules/reputation/reputation.service.ts:342-345 | the recalculation rewrites score, tier and badges only |
| AgentStats.HandlerTouchesOnly | src/modules/reputation/reputation.service.ts:149-232 | a whole handler leaves every other column as it found it |
| AgentAccounting.SerialAccounting | src/modules/reputation/reputation.service.ts:149-232 | closed form of every counter, of XP (milestones paid once each) and of earnings after any serial run from any row |
| AgentAccounting.ZeroRowAccounting | src/modules/reputation/reputation.service.ts:40-61 | from an empty row XP is 5R+15S+20T+100W plus 150, 300, 500 at 3, 5, 10 wins, and earnings are nine tenths of the prizes |
| AgentAccounting.AccountingIsOrderFree | src/modules/reputation/reputation.service.ts:149-232 | XP, counters and earnings are the same for every permutation of the events |
| AgentAccounting.ApplyKeepsConsistent | src/modules/reputation/reputation.service.ts:149-232 | every handler keeps the relations between the columns: rate bounds, weighted score, tier of the score, badges earned |
| AgentAccounting.SerialRunIsConsistent | src/modules/reputation/reputation.service.ts:149-348 | those relations hold in every row a serial run can leave |
| AgentAccounting.ExactAfterRecalculation | src/modules/reputation/reputation.service.ts:323-345 | right after a submission or win the matching rate is exact, and every recalculation stores exactly the earned badges and the weighted score |
| AgentAccounting.CompositeBounds | src/modules/reputation/reputation.service.ts:323-345 | with ratings in [0,Q] the composite score stays in [0, 0.4Q+0.6]; the next two rows say it is reached and when 0-1 holds |
| AgentAccounting.CompositeBoundReached | src/modules/reputation/reputation.service.ts:323-345 | one delivery on time, one win and one top rating reach the bound 0.4Q+0.6 exactly |
| AgentAccounting.CompositeInUnitIff | src/common/entities/agent-stats.entity.ts:49-54 | every run keeps the score in the documented range 0 to 1 if and only if ratings stop at 1 |
| AgentAccounting.CompletionRateExactIff | src/modules/reputation/reputation.service.ts:149-194 | the stored completion rate is the true one if and only if the registrations since the last submission do not raise the denominator |
| AgentAccounting.WinRateIsOfLastWin | src/modules/reputation/reputation.service.ts:209-232 | after any run the win rate is that of the last win, from the registrations and wins of that moment |
| AgentAccounting.CompletionRateIsOfLastSubmission | src/modules/reputation/reputation.service.ts:173-191 | and the completion rate that of the last submission |
| AgentAccounting.ConsistentBadgeIff | src/modules/reputation/reputation.service.ts:81-94 | for every run with a submission: the registrations and submissions for which the completion badge is stored, and those for which the true rate deserves it |
| AgentAccounting.ConsistentBadgeOnStaleRate | src/modules/reputation/reputation.service.ts:81-94 | a run where the two differ: one submission, ten registrations, badge stored |
| AgentInterleaving.StepSound | src/modules/reputation/reputation.service.ts:149-232 | each half of a handler keeps the row and every snapshot in flight within bounds |
| AgentInterleaving.EveryInterleavingIsSound | src/modules/reputation/reputation.service.ts:149-232 | under every interleaving of loads, upserts, read-backs and writes the columns stay related and no counter, XP or earning exceeds the committed upserts |
| AgentInterleaving.OnTimeRateIsExact | src/modules/reputation/reputation.service.ts:173-191 | the on-time rate times the submissions is the number on time, in every sound row |
| AgentInterleaving.NoOverlapIsSerial | src/modules/reputation/reputation.service.ts:149-348 | for one agent, handlers that do not overlap leave the row of the serial run in commit order |
| AgentInterleaving.NonOverlappingWindowsSerialize | src/modules/reputation/reputation.service.ts:149-348 | for many agents, if windows on the same agent do not overlap every settled row is that of one serial run in commit order |
| LostUpdates.ColumnIsChainSum | src/modules/reputation/reputation.service.ts:149-232 | under every interleaving each counter, XP and the earnings hold what the chain of its last upsert added up, each link continuing from what its load had seen |
| WriteChains.ChainSumExactIff | src/modules/reputation/reputation.service.ts:149-232 | the chain never exceeds the total of the upserts, and equals it iff no window along it holds an upsert that adds to the column |
| WriteChains.IntactIffExclusive | src/modules/reputation/reputation.service.ts:149-232 | where every upsert of the column adds something, that means: none commits inside the load-to-commit window of another |
| LostUpdates.NothingLostIff | src/modules/reputation/reputation.service.ts:149-232 | under every interleaving registrations, submissions, wins, XP and total_earned_usdc count every committed upsert iff no upsert of the column commits inside the load-to-commit window of another; the on-time counter iff its chain is intact |
| LostUpdates.TotalsAreTallies | src/modules/reputation/reputation.service.ts:149-232 | what counting every upsert means for each column, earnings being nine tenths of the prizes |
| LostUpdates.OnTimeRecovers | src/modules/reputation/reputation.service.ts:173-191 | a run whose on-time counter is exact although windows overlapped, so for it the chain condition is the right one |
| AgentInterleaving.OverlapLosesARegistration | src/modules/reputation/reputation.service.ts:149-160 | a run that loses an update: two overlapping registrations commit twice and count once |
| StaleScores.ScoreFitsIff | src/modules/reputation/reputation.service.ts:323-345 | under every interleaving, when stored score, tier and badges fit the row they stand in, in terms of what the last writer had read; all fit if no upsert committed since, all but one badge if only registrations did |
| StaleScores.MisfitWasOvertaken | src/modules/reputation/reputation.service.ts:323-345 | a stored score that does not fit its row was read before a submission, win or rating that is already committed |
| StaleScores.OvertakenWriteLeavesUnranked | src/modules/reputation/reputation.service.ts:323-345 | a submission that read back before a win and wrote after it leaves a winner unranked with 0.4 stored for 0.6 |
| LeaderboardRace.BoardAgreesIff | src/modules/reputation/reputation.service.ts:340-347 | under every interleaving, once handlers are done: an agent is listed iff a score was written, and at the stored score iff the last push carries the value of the last score written, which fails only when that push was overtaken |
| LeaderboardRace.NoOverlapBoardIsExact | src/modules/reputation/reputation.service.ts:340-361 | handlers that do not overlap leave the stored score in the global set |
| LeaderboardRace.OvertakenPushLeavesStaleScore | src/modules/reputation/reputation.service.ts:340-347 | a submission and a win whose pushes cross leave 0.4 in the set and 0.6 in the row |
| OwnerStats.OwnerTierLadder | src/modules/reputation/reputation.service.ts:73-78 | the XP interval of every owner tier |
| OwnerStats.OwnerBadgeMeaning | src/modules/reputation/reputation.service.ts:97-103 | each owner badge is held if and only if its counter reaches the threshold |
| OwnerStats.OwnerRowInvariant | src/modules/reputation/reputation.service.ts:247-309 | in every serial run counters count events, XP is 10 posted + 25 settled + 15 ratings, tier and badges are the ones earned |
| OwnerStats.OwnerRowIsOrderFree | src/modules/reputation/reputation.service.ts:247-309 | any permutation of the events leaves the same row, tier and badges included |
| OwnerStats.OwnerNeverDemoted | src/modules/reputation/reputation.service.ts:247-309 | continuing a run with non-negative prizes never lowers the tier and never takes a badge |
| StoreHistory.AgentRowIsOwnHistory | src/modules/reputation/reputation.service.ts:530-537 | after every run an agent has a row iff a call was about it, and the row is the serial run of its own calls |
| StoreHistory.OwnerRowIsOwnHistory | src/modules/reputation/reputation.service.ts:539-546 | the same for clients |
| OwnerInterleaving.OwnerBadgesFitIff | src/modules/reputation/reputation.service.ts:247-309 | under every interleaving the tier fits the XP, and the badges fit the counters iff no threshold lies between a counter and the last writer's view of it |
| OwnerInterleaving.StaleSnapshotDropsBadge | src/modules/reputation/reputation.service.ts:296-309 | a rating loaded before the tenth posting and committed after it takes the posting badge away |
| OwnerInterleaving.OwnerNothingLostIff | src/modules/reputation/reputation.service.ts:247-309 | under every interleaving each counter, the awarded sum and XP count every committed upsert iff none of that column commits inside the window of another |
| OwnerInterleaving.OwnerNoOverlapIsSerial | src/modules/reputation/reputation.service.ts:247-309 | windows that do not overlap leave the row of the serial run in commit order |
| Leaderboard.LeaderboardsAreFaithful | src/modules/reputation/reputation.service.ts:323-375 | after every serial run the global set holds exactly the scored agents at their stored score, a category set is its restriction, and the month of the last scoring event is current |
| Leaderboard.MonthlyHoldsLastScores | src/modules/reputation/reputation.service.ts:354-361 | every monthly set holds exactly the agents scored in that month, each at its last score of the month |
| Leaderboard.PushCategoriesEffect | src/modules/reputation/reputation.service.ts:369-374 | pushing a score changes exactly the sets of the agent's categories |
| Leaderboard.TopEntriesUnique | src/modules/reputation/reputation.service.ts:399-400 | the requirement on a leaderboard answer admits one answer only |
| Leaderboard.TopEntriesMeaning | src/modules/reputation/reputation.service.ts:399-400 | scores fall, ties fall by id, and nobody left out scores higher than anybody returned |
| Ratings.TableHoldsLastAccepted | src/modules/reputation/reputation.service.ts:439-477 | the ratings table holds one row per bounty and agent, the last accepted rating |
| Ratings.AverageIsMeanOfLastAccepted | src/modules/reputation/reputation.service.ts:481-496 | the stored average is the mean of the last accepted score of each rated bounty |
| Ratings.AverageTimesCountIsSum | src/modules/reputation/reputation.service.ts:487-496 | the stored average times the number of last accepted ratings of the agent is the sum of their scores, and 0 for none |
| Ratings.AverageIsOrderFree | src/modules/reputation/reputation.service.ts:481-496 | two tables with the same rows in any order have the same average |
| Ratings.AverageBetweenExtremes | src/modules/reputation/reputation.service.ts:481-496 | the average lies between the lowest and the highest accepted score |
| Ratings.RatingsGivenCountsCalls | src/modules/reputation/reputation.service.ts:296-309 | ratings_given counts accepted calls and is at least the number of the client's rows |
| ReputationService.Service.IncrementAgentRegistration | src/modules/reputation/reputation.service.ts:149-160 | the new tables are those of a registration event |
| ReputationService.Service.IncrementAgentSubmission | src/modules/reputation/reputation.service.ts:169-194 | the new tables are those of a submission event; registrations, wins, streak, earnings, average and win rate stay, counters and XP go up by the stated amounts |
| ReputationService.Service.HandleBountyCompleted | src/modules/reputation/reputation.service.ts:204-239 | without a winner nothing changes, else the new tables are those of a win; the columns it keeps and what it adds |
| ReputationService.Service.HandleOwnerBountyPosted | src/modules/reputation/reputation.service.ts:247-260 | the new owner row is that of a posting |
| ReputationService.Service.HandleOwnerBountySettled | src/modules/reputation/reputation.service.ts:266-289 | the new owner row is that of a settlement |
| ReputationService.Service.HandleOwnerRatingGiven | src/modules/reputation/reputation.service.ts:296-309 | the new owner row is that of a rating |
| ReputationService.Service.RecalculateCompositeScore | src/modules/reputation/reputation.service.ts:323-348 | nothing without a row, else score, tier and badges of the row as read and the score pushed |
| ReputationService.Service.UpdateRedisLeaderboard | src/modules/reputation/reputation.service.ts:354-375 | the three leaderboards after one push, all categories of the agent included |
| ReputationService.Service.GetLeaderboard | src/modules/reputation/reputation.service.ts:386-401 | at most 50 entries of the selected set, scores falling, none omitted scoring higher than one returned |
| ReputationService.Service.SubmitRating | src/modules/reputation/reputation.service.ts:439-526 | accepted iff the caller is the client, the bounty settled or completed and the agent its winner; a refused call changes nothing, an accepted one replaces the rating of that bounty and agent |
| ReputationService.Service.SaveRating | src/modules/reputation/reputation.service.ts:467-520 | rating row, average, score and the client's XP of an accepted call |
| ReputationService.Service.StoreAverage | src/modules/reputation/reputation.service.ts:493-499 | the average is stored and the score recalculated from it |
| Lifecycle.StepKeepsInv | src/modules/bounties/bounties-review.service.ts:93-103 | every admissible step keeps the agreement of table and chain, for every bounty |
| Lifecycle.RunKeepsInv | src/modules/bounties/bounties-review.service.ts:93-103 | so does every admissible run |
| Lifecycle.TableAndChainAgree | src/modules/webhooks/helius.service.ts:149-168 | in every reachable state a winner is recorded iff the escrow is fulfilled for that winner's owner iff the state is settled or completed; completed and refunded record the payment made; posting is credited and the unfulfilled update called at most once, and exactly once when a refund was begun |
| WinCredits.WinCountedOnceIff | src/modules/bounties/bounties-review.service.ts:100-117 | in every run a win is counted once per accepted selection whose settle transaction could be built plus once per settle webhook handled while that agent is recorded; when that makes exactly one; never without a selection |
| WinCredits.CompletedBountyCreditedTwice | src/modules/webhooks/helius.service.ts:149-157 | a completed bounty was credited to its winner at least twice, unless no selection was counted and one webhook was; and exactly when twice |
| WinCredits.CompletionIsReached | src/modules/webhooks/helius.service.ts:149-157 | a run from creation to settlement is admissible and ends completed, the winner's owner paid, with two credits and one award, or one and none if the settle transaction could not be built |
| WinCredits.ClientCreditedPerSelection | src/modules/bounties/bounties-review.service.ts:105-115 | handleOwnerBountySettled is called once per accepted selection whose settle transaction could be built, with the bounty's own client and prize |
| Lifecycle.StepAdvances | src/modules/bounties/bounties-scheduler.service.ts:48-76 | a step keeps every bounty and its state, or strictly raises the rank of the state |
| Lifecycle.StepTouchesOnly | src/modules/bounties/bounties-review.service.ts:100-103 | no step rewrites client, prize or deadlines; the escrow account is written by funding deliveries only, the winner by selections only |
| Lifecycle.StepTouchesEscrow | src/modules/bounties/bounties-review.service.ts:93-98 | a job's status is changed by selections and expiries only, its payment by settlements only |
| Lifecycle.TermsAreFixed | src/modules/bounties/bounties.service.ts:78-91 | the same over whole runs |
| Lifecycle.AtMostFiveChanges | src/modules/bounties/bounties.service.ts:130-143 | no bounty changes state more than five times in any run |
| Lifecycle.FinalStatesAreFinal | src/modules/webhooks/helius.service.ts:149-165 | a completed or refunded row never changes again |
| Refunds.RefundPaidIff | src/modules/bounties/bounties-scheduler.service.ts:94-105 | settling after a bounty went to awaiting_refund pays the client iff the update was sent while the escrow was funded |
| Refunds.ClaimedRefundPaysIff | src/modules/bounties/bounties-review.service.ts:36-62 | broadcasting a claimed refund pays the client iff the escrow was marked unfulfilled, never an agent, and is then recorded as refunded |
| Refunds.FailedUpdateIsNeverRetried | src/modules/bounties/bounties-scheduler.service.ts:94-105 | after a failed update no run refunds the client, and bounty and escrow stay as they are iff no winner is selected after all |
| Refunds.StuckIsReached | src/modules/bounties/bounties-scheduler.service.ts:94-105 | an admissible run ends in awaiting_refund with the escrow still active |
| Refunds.RefundIsReached | src/modules/webhooks/helius.service.ts:160-168 | the same run with the update sent ends refunded with the client paid |
| Lifecycle.LateFundedWebhook | src/modules/webhooks/helius.service.ts:94-123 | delivered in any state, the webhook writes state and account and nothing else; it keeps the agreement iff no winner is recorded and the rank iff the state is draft or open |
| Lifecycle.FundingConfluence | src/modules/bounties/bounties.service.ts:119-152 | confirm calls and webhooks in any order and number, with any steps about other bounties in between, leave one row; the owner is credited iff a confirm call counted first |
| Lifecycle.ConfirmOpensFundedIff | src/modules/bounties/bounties.service.ts:187-205 | a confirm call that opens a bounty leaves it with a funded escrow iff one was broadcast before |
| Lifecycle.OpenIsFundedIff | src/modules/bounties/bounties.service.ts:112-115 | in every reachable state an open or reviewed bounty has a funded escrow iff its create_escrow was broadcast |
| Lifecycle.OpenWithoutEscrow | src/modules/bounties/bounties.service.ts:187-205 | confirming some other transaction opens a bounty without escrow, for which no winner can be selected |
| Scheduler.TickRowMeaning | src/modules/bounties/bounties-scheduler.service.ts:40-77 | when a tick moves a bounty to under_review and to awaiting_refund, in terms of deadlines and submissions; nothing else changes and no passed deadline remains |
| Scheduler.ProgressedMeaning | src/modules/bounties/bounties-scheduler.service.ts:46-76 | where a row may stand after a tick, complete or not, on its dates and its number of submissions |
| Scheduler.CatchUpRow | src/modules/bounties/bounties-scheduler.service.ts:40-77 | a later tick repairs a row left by an earlier, possibly aborted tick, and the refund is begun by exactly one of the two |
| Scheduler.TicksCatchUp | src/modules/bounties/bounties-scheduler.service.ts:38-77 | any series of ticks, cut short or not, ending in a complete one leaves the table of that last tick alone, and its unfulfilled calls are together, once each, those of the last tick alone |
| Scheduler.InterruptedTickIsHealed | src/modules/bounties/bounties-scheduler.service.ts:40-77 | a complete tick after an aborted one gives what it would have given alone |
| Scheduler.RepeatedTickIsNoOp | src/modules/bounties/bounties-scheduler.service.ts:40-77 | a second tick at the same time changes nothing and begins no refund |
| BountyBackend.TwoPasses | src/modules/bounties/bounties-scheduler.service.ts:46-76 | the two loops, each over the rows the database returned when it ran, together give the per-bounty table and one unfulfilled call per refund |
| BountyBackend.CompleteTickMeaning | src/modules/bounties/bounties-scheduler.service.ts:46-76 | when a tick completes and the state it gives every bounty, on the dates and the submission counts alone |
| BountyBackend.FirstPassAborted | src/modules/bounties/bounties-scheduler.service.ts:48-63 | a first loop cut short still leaves every row on its way and one call per refund begun |
| BountyBackend.Backend.CreateBounty | src/modules/bounties/bounties.service.ts:53-94 | a failed simulation writes nothing, else a draft row |
| BountyBackend.Backend.ConfirmEscrow | src/modules/bounties/bounties.service.ts:119-152 | which calls succeed; a draft becomes open with the account and counts as posted, any other call writes nothing |
| BountyBackend.Backend.HandleEscrowFunded | src/modules/webhooks/helius.service.ts:94-123 | the bounty is opened with the account, whatever its state, and nothing else changes |
| BountyBackend.Backend.SelectWinner | src/modules/bounties/bounties-review.service.ts:75-120 | which calls are accepted; an accepted one writes the winner and the state of that row and the status of its escrow and no more; the credits it makes, none if the settle transaction cannot be built; whom that transaction pays |
| BountyBackend.Backend.ClaimRefund | src/modules/bounties/bounties-review.service.ts:36-62 | which guard refuses which caller; in a reachable state the transaction handed out pays the client iff the escrow was marked unfulfilled, and never an agent |
| BountyBackend.Backend.HandleSettleConfirmed | src/modules/webhooks/helius.service.ts:133-169 | with a winner completed and credited again, without one refunded; no other column changes |
| BountyBackend.Backend.MarkUnfulfilledAndAwaitRefund | src/modules/bounties/bounties-scheduler.service.ts:83-107 | stops iff the client has no row, else calls the update and moves the bounty whatever the call's outcome |
| BountyBackend.Backend.ExpireOpenRow | src/modules/bounties/bounties-scheduler.service.ts:48-63 | one iteration of the first loop |
| BountyBackend.Backend.ExpireReviewRow | src/modules/bounties/bounties-scheduler.service.ts:70-76 | one iteration of the second loop |
| BountyBackend.Backend.ExpireSubmissions | src/modules/bounties/bounties-scheduler.service.ts:46-63 | the first loop rewrites every due row or stops at one whose client is missing, as a run of lifecycle steps |
| BountyBackend.Backend.ExpireReviews | src/modules/bounties/bounties-scheduler.service.ts:68-76 | the second loop likewise, over the rows the first loop left |
| BountyBackend.Backend.ExpireRow | src/modules/bounties/bounties-scheduler.service.ts:48-76 | one row of either loop is rewritten as a lifecycle step, or is the one that stops the tick |
| BountyBackend.Backend.ExpireRows | src/modules/bounties/bounties-scheduler.service.ts:46-76 | either loop over the rows its query returned |
| BountyBackend.Backend.HandleDeadlines | src/modules/bounties/bounties-scheduler.service.ts:40-77 | a tick completes iff no bounty it must refund has a missing client; complete, an open bounty past its deadline goes to under_review iff it has a submission and its review is not over, else to awaiting_refund, as does a review that is over, and nothing else changes; one unfulfilled call per refund begun, marking the funded escrows whose call went through; a row that blocks the first loop leaves every bounty under review alone |
| BountyBackend.Backend.RunBothLoops | src/modules/bounties/bounties-scheduler.service.ts:46-76 | the two loops one after the other, as a run of lifecycle steps |
| BountyBackend.BlockedTickExample | src/modules/bounties/bounties-scheduler.service.ts:48-76 | one missing client stops the tick and leaves another due bounty untouched; with the client present both are refunded and a third, with one submission, goes to review |
| Bytes.LittleEndianRoundTrip | src/common/program/generated/instructions/createEscrow.ts:132-133 | decoding an encoded integer of the width gives it back |
| Bytes.FromLittleEndianRoundTrip | src/common/program/generated/instructions/createEscrow.ts:144-145 | encoding a decoded integer gives the bytes back |
| Bytes.LittleEndianConcat | src/common/program/generated/instructions/createEscrow.ts:132-133 | the byte order: what comes later weighs 256 times more a byte |
| Bytes.ParseHexOf | src/modules/bounties/bounties.service.ts:18-20 | hexadecimal text of bytes decodes to them |
| Bytes.HexOfParse | src/modules/webhooks/helius.service.ts:20-23 | lower-case hexadecimal text decodes to bytes that print it again |
| Bytes.HexOfDigits | src/modules/webhooks/helius.service.ts:20-23 | two digits a byte, the higher first, in the usual order |
| Bytes.BytesRoundTrip | src/modules/webhooks/helius.service.ts:20-23 | every 16 bytes print as a canonical UUID that maps back to them |
| Bytes.UuidRoundTrip | src/modules/bounties/bounties.service.ts:18-20 | every canonical UUID becomes 16 bytes that print as it |
| Wire.CreateRoundTrip | src/common/program/generated/instructions/createEscrow.ts:126-147 | create data decodes to its arguments whatever follows, and is refused exactly when amount or expiry is out of range |
| Wire.CreateReencodes | src/common/program/generated/instructions/createEscrow.ts:126-147 | 41 bytes that decode as create data encode to themselves |
| Wire.CreateLayout | src/modules/webhooks/helius.service.ts:89-92 | where each argument of create stands and how it is written |
| Wire.UpdateLayout | src/common/program/generated/instructions/updateEscrow.ts:103-113 | the same for update |
| Wire.UpdateRoundTrip | src/common/program/generated/instructions/updateEscrow.ts:103-122 | update data decodes to its arguments with and without the address, at 58 or 26 bytes |
| Wire.SettleRoundTrip | src/common/program/generated/instructions/settleEscrow.ts:107-122 | settle data decodes to its arguments, at 24 bytes |
| Wire.IdentifyIffPrefix | src/common/program/generated/programs/arcadiumEscrow.ts:123-208 | an instruction is identified iff the data starts with its discriminator, so the order of the tests does not matter |
| Wire.IdentifyEncoded | src/common/program/generated/programs/arcadiumEscrow.ts:123-208 | encoded data is identified as the instruction that encoded it |
| WebhookRoute.Webhook.Route | src/modules/webhooks/helius.service.ts:62-87 | the handlers called for a transaction, in order, then the agents table after the scan of its accounts |
| WebhookRoute.ScanIsExact | src/modules/webhooks/helius.service.ts:176-215 | the scan promotes exactly the agents that alone wait for an account of the transaction, whatever the order and repetition of accounts |
| WebhookRoute.ScannedIffListed | src/modules/webhooks/helius.service.ts:179-185 | the accounts scanned are those of all instructions |
| WebhookRoute.RedeliveryPromotesNobody | src/modules/webhooks/helius.service.ts:176-215 | the same webhook delivered again changes no agent |
| WebhookRoute.Webhook.HandlePotentialAgentRegistration | src/modules/webhooks/helius.service.ts:176-215 | collects the accounts of all instructions and promotes them one by one |
| WebhookRoute.Webhook.ConfirmPending | src/modules/agents/agents.repository.ts:66-74 | a pending asset confirms its agent only if exactly one agent waits for it |
| WebhookRoute.RouteAgreesWithIdentify | src/modules/webhooks/helius.service.ts:13-18 | the webhook's own discriminators agree with the generated identifier on every byte string; which job and account a handler is given |
| WebhookRoute.JobIdSurvivesTheWire | src/modules/webhooks/helius.service.ts:62-99 | create and settle instructions of a transaction, and only they, whatever other instructions of this or another program it holds, reach their handlers in order with the UUIDs that were sent |
| TelegramFooter.ClosingFenceUnique | src/modules/telegram/telegram.controller.ts:33-34 | a string has at most one place where the closing fence can match, found from its end |
| TelegramFooter.FooterIsLinearScan | src/modules/telegram/telegram.controller.ts:33-34 | the leftmost, lazy backtracking match equals one forward and one backward scan, on every string |
| TelegramFooter.FooterFoundIff | src/modules/telegram/telegram.controller.ts:33-37 | a footer is found iff the first opening fence is followed, after a character, by a closing fence and white space; then that is the match |
| TelegramFooter.ParseSubmissionFooter | src/modules/telegram/telegram.controller.ts:28-50 | without a footer the whole text and no field, with one the trimmed text before the first fence and what the backtracking match determines |
| TelegramFooter.ParseMeaning | src/modules/telegram/telegram.controller.ts:28-50 | the same on the text alone, and the fields as the last footer line that names them says |
| TelegramFooter.MetaIsLastSaid | src/modules/telegram/telegram.controller.ts:38-43 | a key has a value iff the last line that names it says so |
| Text.TrimTakesSpaceOnly | src/modules/telegram/telegram.controller.ts:131 | trimming takes white space off both ends and nothing else |
| Text.SpaceIsOneOf | src/modules/telegram/telegram.controller.ts:33 | which 25 characters count as white space |
| TelegramFooter.CollectMeta | src/modules/telegram/telegram.controller.ts:38-43 | the loop over the lines collects the keys, later lines winning |
| TelegramFooter.LastLinesWin | src/modules/telegram/telegram.controller.ts:38-43 | whatever lines come before, the last two key lines decide their keys |
| TelegramFooter.ParsePrinted | src/modules/telegram/telegram.controller.ts:28-50 | for any trimmed content, token and signature come from the final footer, content is never empty, and is the content sent iff that has no fence line |
| TelegramFooter.ReceivePrinted | src/modules/telegram/telegram.controller.ts:131-144 | a printed message is recognised as a submission for its id with the whole text after the tag |
| TelegramFooter.ReceiveMeaning | src/modules/telegram/telegram.controller.ts:131-145 | which messages are start commands, which submissions, and of what |
| TelegramFooter.TelegramRoundTrip | SKILL.md:85-92 | printing, receiving and parsing returns id, token and signature, and the content iff it has no fence line |
| TelegramFooter.ParsedContentNeverEmpty | src/modules/telegram/telegram.controller.ts:28-50 | a trimmed, non-empty text never parses into empty content |
| TelegramFooter.StoredContentNeverEmpty | src/modules/telegram/telegram.controller.ts:131-144 | no message at all can store an empty deliverable |
| Registrations.StepKeepsDeliverables | src/modules/webhooks/deliverables.service.ts:129-158 | every step keeps links, ownership and one deliverable per registration |
| Registrations.DeliverableIntegrity | src/modules/webhooks/deliverables.service.ts:56-158 | over both channels and every run: one deliverable per registration, links name the own deliverable, live deliverables number the submitted registrations, which never exceed the registrations |
| Registrations.LiveDeliverablesCounted | src/modules/bounties/bounties-registration.service.ts:163-171 | the counting step behind it, for any table with sound links |
| Registrations.SubmittedIsNotPending | src/modules/telegram/telegram.controller.ts:252-256 | in every run a submitted registration has left the pending state |
| Registrations.TelegramIsNotReported | src/modules/webhooks/deliverables.service.ts:165-172 | deliverables are those reported to reputation plus those accepted over Telegram |
| Registrations.PrintedMessageAcceptedIff | src/modules/telegram/telegram.controller.ts:160-256 | a printed message from the agent's own chat is accepted iff its credentials open the registration, and then exactly one deliverable with the content is stored and linked |
| Registrations.UnsignedMessageStoredIff | src/modules/telegram/telegram.controller.ts:160-256 | a tagged message without a footer is accepted iff the agent has no token, and then its whole trimmed text is stored |
| Registrations.TelegramAcceptedIff | src/modules/telegram/telegram.controller.ts:168-256 | when a Telegram text is accepted and exactly what it writes |
| Registrations.NoDispatchIsLost | src/modules/queue/dispatch.processor.ts:50-108 | in every run a pending registration has a job waiting or used up all attempts of one |
| Registrations.PendingNeverReentered | src/modules/queue/dispatch.processor.ts:100-108 | a registration that left pending never returns to it |
| Registrations.ThreeAttemptsPerJob | src/modules/bounties/bounties-registration.service.ts:71-74 | attempts made plus attempts left are at most three per job really enqueued |
| Registrations.QueueDrains | src/modules/queue/dispatch.processor.ts:44-50 | whatever is delivered, polled, failed or enqueued meanwhile, a working queue is empty at some point before the processor has had three turns per job |
| Registrations.QueueDrainsForGood | src/modules/bounties/bounties-registration.service.ts:138-141 | with finitely many register and retry calls the queue ends empty within three turns per job, less the attempts already made |
| RegistrationServices.Service.RegisterAgent | src/modules/bounties/bounties-registration.service.ts:40-84 | takes the register step |
| RegistrationServices.Service.DeregisterAgent | src/modules/bounties/bounties-registration.service.ts:107-113 | exactly the registrations of that bounty and agent go, the others stay as they are |
| RegistrationServices.Service.RetryDispatch | src/modules/bounties/bounties-registration.service.ts:119-144 | takes the retry step and reports whether the registration exists |
| RegistrationServices.Service.GetDispatched | src/modules/bounties/bounties-registration.service.ts:191-208 | exactly the owner's queued, unsubmitted registrations, once each |
| RegistrationServices.Service.CountSubmitted | src/modules/bounties/bounties-registration.service.ts:163-171 | the number of live deliverables of the bounty in every reachable table, never above its registrations |
| RegistrationServices.Service.ProcessNext | src/modules/queue/dispatch.processor.ts:50-108 | which agents are dispatched to, which left to poll, which attempts fail; what each outcome writes and how a failed job is retried |
| RegistrationServices.Service.HandleSubmission | src/modules/webhooks/deliverables.service.ts:43-175 | accepted iff the registration is the agent's, unsubmitted, its credentials match and file and insert succeed; which error else; exactly what an accepted one writes and reports |
| RegistrationServices.Service.HandleUpdate | src/modules/telegram/telegram.controller.ts:116-148 | a wrong secret header is refused; only a tagged message writes, the submission of its id and trimmed text; what each message is answered |
| RegistrationServices.Service.ProcessSubmission | src/modules/telegram/telegram.controller.ts:160-272 | accepted iff it comes from the agent's chat, is unsubmitted, the credentials in its footer match and the insert succeeds; exactly what is then written |
| RegistrationServices.Service.Tallied | src/modules/bounties/bounties.repository.ts:153-158 | the counting loop counts the rows of every bounty |
| RegistrationServices.Service.FetchSubmissionCounts | src/modules/bounties/bounties.repository.ts:144-159 | for every requested bounty the count of CountSubmitted, nothing for others |
| RegistrationServices.Service.FetchRegistrationCounts | src/modules/bounties/bounties.repository.ts:166-180 | for every requested bounty the number of registrations, nothing for others |

## Left out

- The escrow program itself, disputes, pausing and initialisation: not in this repository and not called by the backend; the model sees only its guards.
- An RPC error for an `update_escrow` that took effect all the same: a call either takes effect or throws. After such an error in winner selection the chain would name a winner the table does not.
- Transaction building, simulation, address derivation, account metas and the blockhash cache: only success, the instruction data and the recipient are kept.
- Overlapping handlers outside the agent row: lifecycle handlers, submissions, registration with its enqueue and rating calls are atomic.
- Registration ids are compared as exact strings; the database would also match an upper-case spelling of a UUID.
- Text is a sequence of characters; surrogate pairs are not treated specially, which neither the patterns nor trimming depend on.
- Ties between equal leaderboard scores are broken by agent id, as sorted sets do for canonical UUIDs.
- `usdcToLamports`: a rounding of one product, with no property beyond its definition.
- The `setMetadata` call after an agent's registry asset is confirmed, ATOM feedback, IPFS, health checks, file hosting and message sending: foreign calls, present only as success or failure where they decide a branch.
- `max_participants` (stored, never enforced), bounty cancellation (not implemented), the `is_winner` flag (never read by the modelled code).
- Authentication, nonces, refresh tokens, controllers, request validation, logging and configuration: no property of interest beyond plumbing.
