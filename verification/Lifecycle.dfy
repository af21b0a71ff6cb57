/**
 * The bounty lifecycle against the on-chain escrow, as steps of one system: the bounty table, the
 * escrow accounts, and the environment that broadcasts transactions and delivers webhooks.
 *
 * The escrow program appears only through its guards: an update needs a funded escrow, a
 * settlement needs a funded escrow whose job is fulfilled or unfulfilled and pays the agent
 * owner or the client accordingly. Bounties are keyed by their job id, a fresh random UUID.
 */
module Lifecycle {
  import opened Common

  type Pda = nat
  type Time = int

  datatype BountyState = Draft | Open | UnderReview | AwaitingRefund | Settled | Completed | Refunded {
    function Rank(): nat {
      match this
      case Draft => 0
      case Open => 1
      case UnderReview => 2
      case AwaitingRefund => 3
      case Settled => 4
      case Completed => 5
      case Refunded => 5
    }
  }

  datatype Bounty = Bounty(
    client: UserId,
    prize: real,
    submissionDeadline: Time,
    reviewDeadline: Time,
    state: BountyState,
    winner: Option<AgentId>,
    escrowPda: Option<Pda>)

  datatype JobStatus = Active | Fulfilled(agentOwner: Pubkey) | UnFulfilled

  datatype EscrowState = Funded | Released | RefundedToClient

  datatype Escrow = Escrow(clientKey: Pubkey, status: JobStatus, state: EscrowState, paidTo: Option<Pubkey>)

  datatype System = System(
    bounties: map<JobId, Bounty>,
    chain: map<JobId, Escrow>,
    posted: map<JobId, nat>,           // handleOwnerBountyPosted calls made for each bounty
    unfulfilledCalls: seq<JobId>,      // update_escrow(fulfilled = false) calls, in order
    credits: seq<(JobId, AgentId)>,    // handleBountyCompleted calls, in order
    awards: seq<Award>)                // handleOwnerBountySettled calls, in order

  /** One handleOwnerBountySettled call: whose counter goes up, and by which prize. */
  datatype Award = Award(job: JobId, owner: UserId, prize: real)

  const EMPTY_SYSTEM := System(map[], map[], map[], [], [], [])

  datatype Step =
    | Create(job: JobId, client: UserId, prize: real, submissionDeadline: Time, reviewDeadline: Time)
    | FundEscrow(job: JobId, clientKey: Pubkey)
    | Confirm(job: JobId, caller: UserId, pda: Option<Pda>)
    | FundedWebhook(job: JobId, webhookPda: Pda)
    | ExpireOpen(job: JobId, now: Time, submissions: nat, sent: bool)
    | ExpireReview(job: JobId, now: Time, sent: bool)
    | SelectWinner(job: JobId, caller: UserId, agent: AgentId, sent: bool, built: bool)
    | BroadcastSettle(job: JobId)
    | SettledWebhook(job: JobId)

  // ---- Escrow program -----------------------------------------------------------------------

  predicate CanUpdate(chain: map<JobId, Escrow>, job: JobId) {
    job in chain && chain[job].state.Funded?
  }

  function UpdateEscrow(chain: map<JobId, Escrow>, job: JobId, status: JobStatus): map<JobId, Escrow> {
    if CanUpdate(chain, job) then chain[job := chain[job].(status := status)] else chain
  }

  function SettleEscrow(e: Escrow): Escrow {
    if !e.state.Funded? then e
    else
      match e.status
      case Active => e
      case Fulfilled(owner) => e.(state := Released, paidTo := Some(owner))
      case UnFulfilled => e.(state := RefundedToClient, paidTo := Some(e.clientKey))
  }

  // ---- Handlers -----------------------------------------------------------------------------

  function PostedFor(s: System, job: JobId): nat {
    if job in s.posted then s.posted[job] else 0
  }

  /** How often the bounty was counted as a win of the agent. */
  function Credits(s: System, job: JobId, agent: AgentId): nat {
    multiset(s.credits)[(job, agent)]
  }

  function SetState(s: System, job: JobId, state: BountyState): System
    requires job in s.bounties
  {
    s.(bounties := s.bounties[job := s.bounties[job].(state := state)])
  }

  function MarkUnfulfilled(s: System, job: JobId, sent: bool): System
    requires job in s.bounties
  {
    SetState(s.(chain := if sent then UpdateEscrow(s.chain, job, UnFulfilled) else s.chain,
                unfulfilledCalls := s.unfulfilledCalls + [job]), job, AwaitingRefund)
  }

  predicate SubmissionsClosed(b: Bounty, now: Time) {
    b.state.Open? && b.submissionDeadline < now
  }

  predicate ReviewClosed(b: Bounty, now: Time) {
    b.state.UnderReview? && b.reviewDeadline < now
  }

  /** selectWinner gets past its checks and its update_escrow. */
  predicate WinnerAccepted(s: System, keys: map<AgentId, Pubkey>, job: JobId, caller: UserId, agent: AgentId,
                           sent: bool)
  {
    && job in s.bounties && s.bounties[job].client == caller
    && agent in keys && sent && CanUpdate(s.chain, job)
  }

  /**
   * `keys` gives the wallet of each agent's owner. A winner's row is settled before the settle
   * transaction is built; if that throws, nobody is credited.
   */
  function Apply(s: System, keys: map<AgentId, Pubkey>, step: Step): System {
    match step
    case Create(job, client, prize, sd, rd) =>
      s.(bounties := s.bounties[job := Bounty(client, prize, sd, rd, Draft, None, None)])
    case FundEscrow(job, clientKey) =>
      if job in s.chain then s else s.(chain := s.chain[job := Escrow(clientKey, Active, Funded, None)])
    case Confirm(job, caller, pda) =>
      if job in s.bounties && s.bounties[job].client == caller && s.bounties[job].state.Draft? && pda.Some? then
        s.(bounties := s.bounties[job := s.bounties[job].(state := Open, escrowPda := pda)],
           posted := s.posted[job := PostedFor(s, job) + 1])
      else s
    case FundedWebhook(job, pda) =>
      if job in s.bounties then
        s.(bounties := s.bounties[job := s.bounties[job].(state := Open, escrowPda := Some(pda))])
      else s
    case ExpireOpen(job, now, submissions, sent) =>
      if job !in s.bounties || !SubmissionsClosed(s.bounties[job], now) then s
      else if submissions == 0 then MarkUnfulfilled(s, job, sent)
      else SetState(s, job, UnderReview)
    case ExpireReview(job, now, sent) =>
      if job in s.bounties && ReviewClosed(s.bounties[job], now) then MarkUnfulfilled(s, job, sent) else s
    case SelectWinner(job, caller, agent, sent, built) =>
      if WinnerAccepted(s, keys, job, caller, agent, sent) then
        s.(chain := UpdateEscrow(s.chain, job, Fulfilled(keys[agent])),
           bounties := s.bounties[job := s.bounties[job].(winner := Some(agent), state := Settled)],
           credits := if built then s.credits + [(job, agent)] else s.credits,
           awards := if built then s.awards + [Award(job, caller, s.bounties[job].prize)] else s.awards)
      else s
    case BroadcastSettle(job) =>
      if job in s.chain then s.(chain := s.chain[job := SettleEscrow(s.chain[job])]) else s
    case SettledWebhook(job) =>
      if job !in s.bounties then s
      else if s.bounties[job].winner.None? then SetState(s, job, Refunded)
      else SetState(s.(credits := s.credits + [(job, s.bounties[job].winner.value)]), job, Completed)
  }

  function Run(s: System, keys: map<AgentId, Pubkey>, steps: seq<Step>): System {
    if steps == [] then s else Apply(Run(s, keys, steps[..|steps| - 1]), keys, steps[|steps| - 1])
  }

  /**
   * What the environment promises: job ids are fresh, a transaction is broadcast only for a
   * bounty that was created, a settle webhook reports a settlement that happened, and the
   * create_escrow webhook arrives while the bounty is draft or open.
   */
  ghost predicate Admissible(s: System, step: Step) {
    match step
    case Create(job, _, _, _, _) => job !in s.bounties && job !in s.chain
    case FundEscrow(job, _) => job in s.bounties
    case FundedWebhook(job, _) =>
      job in s.chain && (job in s.bounties ==> s.bounties[job].state.Draft? || s.bounties[job].state.Open?)
    case SettledWebhook(job) => job in s.chain && !s.chain[job].state.Funded?
    case _ => true
  }

  ghost predicate AdmissibleRun(s: System, keys: map<AgentId, Pubkey>, steps: seq<Step>) {
    steps != [] ==>
      && AdmissibleRun(s, keys, steps[..|steps| - 1])
      && Admissible(Run(s, keys, steps[..|steps| - 1]), steps[|steps| - 1])
  }

  // ---- Table and chain agree ----------------------------------------------------------------

  predicate HasWinnerState(b: Bounty) {
    b.state.Settled? || b.state.Completed?
  }

  /** A winner is recorded iff the state says so, iff the escrow is fulfilled for that winner's owner. */
  ghost predicate Agrees(s: System, keys: map<AgentId, Pubkey>, job: JobId)
    requires job in s.bounties
  {
    var b := s.bounties[job];
    && (b.winner.Some? <==> HasWinnerState(b))
    && (b.winner.Some? <==> job in s.chain && s.chain[job].status.Fulfilled?)
    && (b.winner.Some? ==> b.winner.value in keys && s.chain[job].status == Fulfilled(keys[b.winner.value]))
  }

  /** A final state records the payment the chain made. */
  ghost predicate PaidAsRecorded(s: System, keys: map<AgentId, Pubkey>, job: JobId)
    requires job in s.bounties
  {
    var b := s.bounties[job];
    && (b.state.Completed? ==>
          b.winner.Some? && b.winner.value in keys
          && job in s.chain && s.chain[job].state.Released? && s.chain[job].paidTo == Some(keys[b.winner.value]))
    && (b.state.Refunded? ==>
          job in s.chain && s.chain[job].state.RefundedToClient? && s.chain[job].paidTo == Some(s.chain[job].clientKey))
  }

  ghost predicate EscrowOk(e: Escrow) {
    && (e.state.Funded? <==> e.paidTo.None?)
    && (e.state.Released? ==> e.status.Fulfilled? && e.paidTo == Some(e.status.agentOwner))
    && (e.state.RefundedToClient? ==> e.status.UnFulfilled? && e.paidTo == Some(e.clientKey))
  }

  ghost predicate JobOk(s: System, keys: map<AgentId, Pubkey>, job: JobId) {
    && (job in s.chain ==> job in s.bounties && EscrowOk(s.chain[job]))
    && (job !in s.bounties ==> PostedFor(s, job) == 0 && job !in s.unfulfilledCalls)
    && (job in s.bounties ==>
          var state := s.bounties[job].state;
          && Agrees(s, keys, job)
          && PaidAsRecorded(s, keys, job)
          && (job in s.chain && s.chain[job].status.UnFulfilled? ==> state.AwaitingRefund? || state.Refunded?)
          && PostedFor(s, job) <= 1
          && (state.Draft? ==> PostedFor(s, job) == 0)
          && (job in s.unfulfilledCalls ==> state.Rank() >= 3)
          && (state.AwaitingRefund? || state.Refunded? ==> job in s.unfulfilledCalls)
          && (job in s.chain && s.chain[job].status.UnFulfilled? ==> job in s.unfulfilledCalls))
  }

  ghost predicate Inv(s: System, keys: map<AgentId, Pubkey>) {
    && (forall job :: JobOk(s, keys, job))
    && NoDuplicates(s.unfulfilledCalls)
  }

  /** Everything JobOk looks at. */
  ghost predicate SameJob(s: System, t: System, job: JobId) {
    && (job in s.bounties <==> job in t.bounties)
    && (job in s.bounties ==> s.bounties[job] == t.bounties[job])
    && (job in s.chain <==> job in t.chain)
    && (job in s.chain ==> s.chain[job] == t.chain[job])
    && PostedFor(s, job) == PostedFor(t, job)
    && (job in s.unfulfilledCalls <==> job in t.unfulfilledCalls)
  }

  lemma OtherJobsUntouched(s: System, keys: map<AgentId, Pubkey>, step: Step, job: JobId)
    requires job != step.job
    ensures SameJob(s, Apply(s, keys, step), job)
  {
  }

  lemma SameJobOk(s: System, t: System, keys: map<AgentId, Pubkey>, job: JobId)
    requires SameJob(s, t, job) && JobOk(s, keys, job)
    ensures JobOk(t, keys, job)
  {
  }

  lemma FundingKeepsJobOk(s: System, keys: map<AgentId, Pubkey>, step: Step)
    requires step.Create? || step.FundEscrow? || step.Confirm? || step.FundedWebhook?
    requires JobOk(s, keys, step.job) && Admissible(s, step)
    ensures JobOk(Apply(s, keys, step), keys, step.job)
  {
  }

  lemma DeadlineKeepsJobOk(s: System, keys: map<AgentId, Pubkey>, step: Step)
    requires step.ExpireOpen? || step.ExpireReview?
    requires JobOk(s, keys, step.job)
    ensures JobOk(Apply(s, keys, step), keys, step.job)
  {
  }

  lemma SelectionKeepsJobOk(s: System, keys: map<AgentId, Pubkey>, step: Step)
    requires step.SelectWinner? && JobOk(s, keys, step.job)
    ensures JobOk(Apply(s, keys, step), keys, step.job)
  {
  }

  lemma SettlementKeepsJobOk(s: System, keys: map<AgentId, Pubkey>, step: Step)
    requires step.BroadcastSettle? || step.SettledWebhook?
    requires JobOk(s, keys, step.job) && Admissible(s, step)
    ensures JobOk(Apply(s, keys, step), keys, step.job)
  {
  }

  lemma StepKeepsJobOk(s: System, keys: map<AgentId, Pubkey>, step: Step, job: JobId)
    requires JobOk(s, keys, job) && Admissible(s, step)
    ensures JobOk(Apply(s, keys, step), keys, job)
  {
    if job != step.job {
      OtherJobsUntouched(s, keys, step, job);
      SameJobOk(s, Apply(s, keys, step), keys, job);
    } else if step.ExpireOpen? || step.ExpireReview? {
      DeadlineKeepsJobOk(s, keys, step);
    } else if step.SelectWinner? {
      SelectionKeepsJobOk(s, keys, step);
    } else if step.BroadcastSettle? || step.SettledWebhook? {
      SettlementKeepsJobOk(s, keys, step);
    } else {
      FundingKeepsJobOk(s, keys, step);
    }
  }

  lemma StepKeepsInv(s: System, keys: map<AgentId, Pubkey>, step: Step)
    requires Inv(s, keys) && Admissible(s, step)
    ensures Inv(Apply(s, keys, step), keys)
  {
    forall job: JobId ensures JobOk(Apply(s, keys, step), keys, job) {
      assert JobOk(s, keys, job);
      StepKeepsJobOk(s, keys, step, job);
    }
    assert JobOk(s, keys, step.job);
  }

  lemma {:induction false} RunKeepsInv(s: System, keys: map<AgentId, Pubkey>, steps: seq<Step>)
    requires Inv(s, keys) && AdmissibleRun(s, keys, steps)
    ensures Inv(Run(s, keys, steps), keys)
  {
    if steps != [] {
      RunKeepsInv(s, keys, steps[..|steps| - 1]);
      StepKeepsInv(Run(s, keys, steps[..|steps| - 1]), keys, steps[|steps| - 1]);
    }
  }

  /**
   * In every reachable state, for every bounty: table and chain agree on the winner, a final
   * state records the payment made, the owner was credited for posting at most once, and
   * update_escrow(UnFulfilled) was called at most once, and once if a refund was begun.
   */
  lemma TableAndChainAgree(keys: map<AgentId, Pubkey>, steps: seq<Step>, job: JobId)
    requires AdmissibleRun(EMPTY_SYSTEM, keys, steps)
    ensures var s := Run(EMPTY_SYSTEM, keys, steps);
      && NoDuplicates(s.unfulfilledCalls)
      && PostedFor(s, job) <= 1
      && (job in s.bounties ==> Agrees(s, keys, job) && PaidAsRecorded(s, keys, job))
      && (job in s.bounties && (s.bounties[job].state.AwaitingRefund? || s.bounties[job].state.Refunded?) ==>
            job in s.unfulfilledCalls)
  {
    forall j: JobId ensures JobOk(EMPTY_SYSTEM, keys, j) {}
    RunKeepsInv(EMPTY_SYSTEM, keys, steps);
    assert JobOk(Run(EMPTY_SYSTEM, keys, steps), keys, job);
  }

  // ---- What a step may touch ----------------------------------------------------------------

  /** Who posted what for how much and until when is never rewritten; the other columns have their writers. */
  lemma StepTouchesOnly(s: System, keys: map<AgentId, Pubkey>, step: Step, job: JobId)
    requires job in s.bounties && Admissible(s, step)
    ensures var t := Apply(s, keys, step);
      && job in t.bounties
      && var (b, a) := (s.bounties[job], t.bounties[job]);
         && a.client == b.client && a.prize == b.prize
         && a.submissionDeadline == b.submissionDeadline && a.reviewDeadline == b.reviewDeadline
         && (a.escrowPda != b.escrowPda ==> step.job == job && (step.Confirm? || step.FundedWebhook?))
         && (a.winner != b.winner ==> step.job == job && step.SelectWinner? && a.winner == Some(step.agent))
  {
    if step.job != job {
      OtherJobsUntouched(s, keys, step, job);
    }
  }

  /** A job's status is changed by selections and expiries only, what it pays to whom by a settlement only. */
  lemma StepTouchesEscrow(s: System, keys: map<AgentId, Pubkey>, step: Step, job: JobId)
    requires job in s.chain
    ensures var t := Apply(s, keys, step);
      && job in t.chain
      && var (b, a) := (s.chain[job], t.chain[job]);
         && a.clientKey == b.clientKey
         && (a.status != b.status ==> step.job == job && (step.SelectWinner? || step.ExpireOpen? || step.ExpireReview?))
         && (a.state != b.state || a.paidTo != b.paidTo ==> step.job == job && step.BroadcastSettle?)
  {
    if step.job != job {
      OtherJobsUntouched(s, keys, step, job);
    }
  }

  /** So over a whole run the terms of a bounty are fixed, and without funding deliveries its escrow account too. */
  lemma {:induction false} TermsAreFixed(s: System, keys: map<AgentId, Pubkey>, steps: seq<Step>, job: JobId)
    requires job in s.bounties && AdmissibleRun(s, keys, steps)
    ensures var t := Run(s, keys, steps);
      && job in t.bounties
      && var (b, a) := (s.bounties[job], t.bounties[job]);
         && a.client == b.client && a.prize == b.prize
         && a.submissionDeadline == b.submissionDeadline && a.reviewDeadline == b.reviewDeadline
         && ((forall step :: step in steps && step.job == job ==> !step.Confirm? && !step.FundedWebhook?) ==>
               a.escrowPda == b.escrowPda)
         && ((forall step :: step in steps && step.job == job ==> !step.SelectWinner?) ==> a.winner == b.winner)
  {
    if steps != [] {
      var front, last := steps[..|steps| - 1], steps[|steps| - 1];
      assert forall step :: step in front ==> step in steps;
      assert last in steps;
      TermsAreFixed(s, keys, front, job);
      StepTouchesOnly(Run(s, keys, front), keys, last, job);
    }
  }

  // ---- Progress -----------------------------------------------------------------------------

  /** A step keeps every bounty, and either leaves its state or raises its rank. */
  lemma StepAdvances(s: System, keys: map<AgentId, Pubkey>, step: Step, job: JobId)
    requires Inv(s, keys) && Admissible(s, step) && job in s.bounties
    ensures var t := Apply(s, keys, step);
      && job in t.bounties
      && (t.bounties[job].state == s.bounties[job].state
          || s.bounties[job].state.Rank() < t.bounties[job].state.Rank())
  {
    assert JobOk(s, keys, job);
    if job != step.job {
      OtherJobsUntouched(s, keys, step, job);
    }
  }

  /** How often the state of a bounty changed during a run. */
  function Changes(s: System, keys: map<AgentId, Pubkey>, steps: seq<Step>, job: JobId): nat {
    if steps == [] then 0
    else
      var front := steps[..|steps| - 1];
      var before, after := Run(s, keys, front).bounties, Run(s, keys, steps).bounties;
      Changes(s, keys, front, job)
      + (if job in before && job in after && before[job].state != after[job].state then 1 else 0)
  }

  lemma {:induction false} ChangesBoundedByRank(keys: map<AgentId, Pubkey>, steps: seq<Step>, job: JobId)
    requires AdmissibleRun(EMPTY_SYSTEM, keys, steps)
    ensures Inv(Run(EMPTY_SYSTEM, keys, steps), keys)
    ensures var table := Run(EMPTY_SYSTEM, keys, steps).bounties;
      Changes(EMPTY_SYSTEM, keys, steps, job) <= if job in table then table[job].state.Rank() else 0
  {
    forall j: JobId ensures JobOk(EMPTY_SYSTEM, keys, j) {}
    if steps != [] {
      var front, last := steps[..|steps| - 1], steps[|steps| - 1];
      ChangesBoundedByRank(keys, front, job);
      var s := Run(EMPTY_SYSTEM, keys, front);
      StepKeepsInv(s, keys, last);
      if job in s.bounties {
        StepAdvances(s, keys, last, job);
      }
    }
  }

  /** No bounty changes state more than five times in any run. */
  lemma AtMostFiveChanges(keys: map<AgentId, Pubkey>, steps: seq<Step>, job: JobId)
    requires AdmissibleRun(EMPTY_SYSTEM, keys, steps)
    ensures Changes(EMPTY_SYSTEM, keys, steps, job) <= 5
  {
    ChangesBoundedByRank(keys, steps, job);
  }

  lemma FinalStep(s: System, keys: map<AgentId, Pubkey>, step: Step, job: JobId)
    requires JobOk(s, keys, job) && Admissible(s, step)
    requires job in s.bounties && (s.bounties[job].state.Completed? || s.bounties[job].state.Refunded?)
    ensures var t := Apply(s, keys, step);
      job in t.bounties && t.bounties[job] == s.bounties[job]
  {
    if job != step.job {
      OtherJobsUntouched(s, keys, step, job);
    }
  }

  /** Completed and refunded are final: the row never changes again. */
  lemma {:induction false} FinalStatesAreFinal(s: System, keys: map<AgentId, Pubkey>, steps: seq<Step>, job: JobId)
    requires Inv(s, keys) && AdmissibleRun(s, keys, steps)
    requires job in s.bounties && (s.bounties[job].state.Completed? || s.bounties[job].state.Refunded?)
    ensures var t := Run(s, keys, steps); job in t.bounties && t.bounties[job] == s.bounties[job]
  {
    if steps != [] {
      var front := steps[..|steps| - 1];
      FinalStatesAreFinal(s, keys, front, job);
      RunKeepsInv(s, keys, front);
      assert JobOk(Run(s, keys, front), keys, job);
      FinalStep(Run(s, keys, front), keys, steps[|steps| - 1], job);
    }
  }

  lemma PaidStep(s: System, keys: map<AgentId, Pubkey>, step: Step, job: JobId)
    requires job in s.chain && !s.chain[job].state.Funded?
    ensures var t := Apply(s, keys, step); job in t.chain && t.chain[job] == s.chain[job]
  {
    if job != step.job {
      OtherJobsUntouched(s, keys, step, job);
    }
  }

  /** A check of the escrow as modelled, not of the backend: once paid it stays as it is. */
  lemma {:induction false} EscrowPaysOnce(s: System, keys: map<AgentId, Pubkey>, steps: seq<Step>, job: JobId)
    requires job in s.chain && !s.chain[job].state.Funded?
    ensures var t := Run(s, keys, steps); job in t.chain && t.chain[job] == s.chain[job]
  {
    if steps != [] {
      EscrowPaysOnce(s, keys, steps[..|steps| - 1], job);
      PaidStep(Run(s, keys, steps[..|steps| - 1]), keys, steps[|steps| - 1], job);
    }
  }

  // ---- The delivery assumption --------------------------------------------------------------

  /**
   * handleEscrowFunded does not look at the state it overwrites. Delivered in any state, it keeps
   * the agreement exactly when no winner is recorded, and keeps the lifecycle from moving back
   * exactly in draft and open. A recorded winner stays in the row.
   */
  lemma LateFundedWebhook(s: System, keys: map<AgentId, Pubkey>, job: JobId, pda: Pda)
    requires job in s.bounties && Agrees(s, keys, job)
    ensures var t := Apply(s, keys, FundedWebhook(job, pda));
      && t.bounties[job] == s.bounties[job].(state := Open, escrowPda := Some(pda)) && t.chain == s.chain
      && (Agrees(t, keys, job) <==> !HasWinnerState(s.bounties[job]))
      && (s.bounties[job].state.Rank() <= t.bounties[job].state.Rank()
          <==> s.bounties[job].state.Draft? || s.bounties[job].state.Open?)
  {
  }

  // ---- Funding ------------------------------------------------------------------------------

  /** A delivery about one create_escrow transaction: a confirm call or a webhook naming this PDA. */
  predicate FundingStep(step: Step, pda: Pda) {
    || (step.Confirm? && (step.pda == None || step.pda == Some(pda)))
    || (step.FundedWebhook? && step.webhookPda == pda)
  }

  /** A confirm call counts only from the client and with the transaction found on chain. */
  predicate Effective(step: Step, job: JobId, client: UserId) {
    step.job == job && (step.FundedWebhook? || (step.Confirm? && step.caller == client && step.pda.Some?))
  }

  function FirstEffective(steps: seq<Step>, job: JobId, client: UserId): Option<Step> {
    if steps == [] then None
    else
      var first := FirstEffective(steps[..|steps| - 1], job, client);
      if first.None? && Effective(steps[|steps| - 1], job, client) then Some(steps[|steps| - 1]) else first
  }

  /** The row after funding deliveries of which `first` was the first to count. */
  function FundedRow(b: Bounty, pda: Pda, first: Option<Step>): Bounty {
    if first.None? then b else b.(state := Open, escrowPda := Some(pda))
  }

  lemma FundingDelivery(s: System, keys: map<AgentId, Pubkey>, step: Step, job: JobId, pda: Pda, draft: Bounty,
                        first: Option<Step>)
    requires step.job == job ==> FundingStep(step, pda)
    requires draft.state.Draft? && job in s.bounties && s.bounties[job] == FundedRow(draft, pda, first)
    ensures var t := Apply(s, keys, step);
      var now := if first.None? && Effective(step, job, draft.client) then Some(step) else first;
      && job in t.bounties && t.bounties[job] == FundedRow(draft, pda, now)
      && PostedFor(t, job) == PostedFor(s, job) + (if first.None? && now.Some? && step.Confirm? then 1 else 0)
  {
    if step.job != job {
      OtherJobsUntouched(s, keys, step, job);
    }
  }

  /**
   * In any order and any number, and whatever happens to other bounties in between, the deliveries
   * leave one row: open with that PDA, or the draft if none counted. The owner is credited for posting
   * if and only if a confirm call was the first to count.
   */
  lemma {:induction false} FundingConfluence(
    s: System, keys: map<AgentId, Pubkey>, steps: seq<Step>, job: JobId, pda: Pda)
    requires job in s.bounties && s.bounties[job].state.Draft?
    requires forall step :: step in steps && step.job == job ==> FundingStep(step, pda)
    ensures var t, first := Run(s, keys, steps), FirstEffective(steps, job, s.bounties[job].client);
      && job in t.bounties && t.bounties[job] == FundedRow(s.bounties[job], pda, first)
      && PostedFor(t, job) == PostedFor(s, job) + (if first.Some? && first.value.Confirm? then 1 else 0)
  {
    if steps != [] {
      var front, last := steps[..|steps| - 1], steps[|steps| - 1];
      assert forall step :: step in front ==> step in steps;
      assert last in steps;
      FundingConfluence(s, keys, front, job, pda);
      FundingDelivery(Run(s, keys, front), keys, last, job, pda, s.bounties[job],
                      FirstEffective(front, job, s.bounties[job].client));
    }
  }

  // ---- Open without an escrow ---------------------------------------------------------------

  ghost predicate FundedEscrow(s: System, job: JobId) {
    job in s.chain && s.chain[job].state.Funded? && s.chain[job].status.Active?
  }

  /**
   * confirmEscrow takes the first instruction of the program in the transaction for the promised
   * create_escrow of this bounty. A call that opens the bounty leaves it with a funded escrow if and
   * only if one was broadcast before.
   */
  lemma ConfirmOpensFundedIff(s: System, keys: map<AgentId, Pubkey>, job: JobId, caller: UserId, pda: Pda)
    requires JobOk(s, keys, job) && job in s.bounties
    requires s.bounties[job].state.Draft? && s.bounties[job].client == caller
    ensures var t := Apply(s, keys, Confirm(job, caller, Some(pda)));
      && job in t.bounties && t.bounties[job].state.Open?
      && (FundedEscrow(t, job) <==> job in s.chain)
  {
  }

  predicate Broadcasts(step: Step, job: JobId) {
    step.FundEscrow? && step.job == job
  }

  lemma {:induction false} EscrowIffBroadcast(keys: map<AgentId, Pubkey>, steps: seq<Step>, job: JobId)
    ensures job in Run(EMPTY_SYSTEM, keys, steps).chain <==> exists step :: step in steps && Broadcasts(step, job)
  {
    if steps != [] {
      var front, last := steps[..|steps| - 1], steps[|steps| - 1];
      EscrowIffBroadcast(keys, front, job);
      assert steps == front + [last];
      ChainGrows(Run(EMPTY_SYSTEM, keys, front), keys, last, job);
    }
  }

  lemma ChainGrows(s: System, keys: map<AgentId, Pubkey>, step: Step, job: JobId)
    ensures job in Apply(s, keys, step).chain <==> job in s.chain || Broadcasts(step, job)
  {
    if step.job != job {
      OtherJobsUntouched(s, keys, step, job);
    }
  }

  /** In every reachable state an open or reviewed bounty has a funded escrow iff its create_escrow was broadcast. */
  lemma OpenIsFundedIff(keys: map<AgentId, Pubkey>, steps: seq<Step>, job: JobId)
    requires AdmissibleRun(EMPTY_SYSTEM, keys, steps)
    ensures var s := Run(EMPTY_SYSTEM, keys, steps);
      job in s.bounties && (s.bounties[job].state.Open? || s.bounties[job].state.UnderReview?) ==>
        (FundedEscrow(s, job) <==> exists step :: step in steps && Broadcasts(step, job))
  {
    forall j: JobId ensures JobOk(EMPTY_SYSTEM, keys, j) {}
    RunKeepsInv(EMPTY_SYSTEM, keys, steps);
    assert JobOk(Run(EMPTY_SYSTEM, keys, steps), keys, job);
    EscrowIffBroadcast(keys, steps, job);
  }

  /** Confirming some other transaction opens a bounty that has no escrow, and no winner can be selected for it. */
  lemma OpenWithoutEscrow(keys: map<AgentId, Pubkey>, job: JobId, client: UserId, prize: real, pda: Pda)
    ensures var steps := [Create(job, client, prize, 1, 2)] + [Confirm(job, client, Some(pda))];
      && AdmissibleRun(EMPTY_SYSTEM, keys, steps)
      && var s := Run(EMPTY_SYSTEM, keys, steps);
         && job in s.bounties && s.bounties[job].state.Open? && job !in s.chain && PostedFor(s, job) == 1
         && forall agent, sent :: !WinnerAccepted(s, keys, job, client, agent, sent)
  {
    var first := [Create(job, client, prize, 1, 2)];
    assert first[..0] == [] && (first + [Confirm(job, client, Some(pda))])[..1] == first;
    assert Run(EMPTY_SYSTEM, keys, first) == Apply(EMPTY_SYSTEM, keys, first[0]);
  }
}
