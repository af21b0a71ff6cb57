/** When the client gets the escrow back, and when a failed update_escrow keeps it locked. */
module Refunds {
  import opened Common
  import opened Lifecycle
  import opened WinCredits

  /** Settling has paid the client of this escrow. */
  predicate ClientPaid(chain: map<JobId, Escrow>, job: JobId) {
    job in chain && chain[job].state.RefundedToClient? && chain[job].paidTo == Some(chain[job].clientKey)
  }

  /**
   * A failed update_escrow does not stop the tick, but it decides the refund: settling after the
   * bounty went to awaiting_refund pays the client if and only if the update was sent while the
   * escrow was funded.
   */
  lemma RefundPaidIff(s: System, keys: map<AgentId, Pubkey>, step: Step)
    requires step.ExpireOpen? || step.ExpireReview?
    requires JobOk(s, keys, step.job) && step.job in s.bounties
    requires !s.bounties[step.job].state.AwaitingRefund?
    requires Apply(s, keys, step).bounties[step.job].state.AwaitingRefund?
    ensures var chain := Apply(Apply(s, keys, step), keys, BroadcastSettle(step.job)).chain;
      ClientPaid(chain, step.job) <==> step.sent && CanUpdate(s.chain, step.job)
  {
    var mid := Apply(s, keys, step);
    assert mid.chain == if step.sent then UpdateEscrow(s.chain, step.job, UnFulfilled) else s.chain;
    assert s.bounties[step.job].winner.None?;
  }

  /** The guards of claimRefund, in order; None means a refund transaction is handed out. */
  function RefundRefusal(s: System, job: JobId, caller: UserId): Option<string> {
    if job !in s.bounties then Some("Bounty not found")
    else if s.bounties[job].client != caller then Some("Only the bounty client can claim a refund")
    else if s.bounties[job].state != AwaitingRefund then Some("Bounty is not awaiting refund")
    else None
  }

  /**
   * What a claimed refund is worth: once broadcast, the client has been paid if and only if the
   * escrow was marked unfulfilled; and it never pays an agent.
   */
  lemma ClaimedRefundPaysIff(s: System, keys: map<AgentId, Pubkey>, job: JobId, caller: UserId)
    requires JobOk(s, keys, job) && RefundRefusal(s, job, caller).None?
    ensures var t := Apply(s, keys, BroadcastSettle(job));
      && (ClientPaid(t.chain, job) <==> job in s.chain && s.chain[job].status.UnFulfilled?)
      && (job in t.chain ==> !t.chain[job].state.Released?)
      && (ClientPaid(t.chain, job) ==>
            var u := Apply(t, keys, SettledWebhook(job)); job in u.bounties && u.bounties[job].state.Refunded?)
  {
    assert s.bounties[job].winner.None?;
  }

  // ---- A failed update ----------------------------------------------------------------------

  /** An escrow that still waits for its update while the bounty waits for its refund. */
  predicate Stuck(s: System, job: JobId) {
    && job in s.bounties && s.bounties[job].state.AwaitingRefund? && s.bounties[job].winner.None?
    && job in s.chain && s.chain[job].state.Funded? && s.chain[job].status.Active?
  }

  /** What is left of a stuck bounty: as it was, or with a winner selected after all. */
  ghost predicate StuckOrWon(s: System, t: System, job: JobId, selections: nat)
    requires Stuck(s, job)
  {
    && job in t.bounties && job in t.chain
    && (selections == 0 ==> t.bounties[job] == s.bounties[job] && t.chain[job] == s.chain[job])
    && (selections > 0 ==> t.bounties[job].winner.Some? && t.bounties[job].state.Rank() >= 4)
    && !t.chain[job].status.UnFulfilled? && !t.chain[job].state.RefundedToClient?
  }

  lemma StuckStep(s: System, t: System, keys: map<AgentId, Pubkey>, step: Step, job: JobId, selections: nat)
    requires Stuck(s, job) && StuckOrWon(s, t, job, selections) && Admissible(t, step)
    ensures StuckOrWon(s, Apply(t, keys, step), job,
                       selections + (if SelectsSome(t, keys, step, job) then 1 else 0))
  {
    if job != step.job {
      OtherJobsUntouched(t, keys, step, job);
    }
  }

  lemma {:induction false} StuckRun(s: System, keys: map<AgentId, Pubkey>, steps: seq<Step>, job: JobId)
    requires Stuck(s, job) && AdmissibleRun(s, keys, steps)
    ensures StuckOrWon(s, Run(s, keys, steps), job, AllSelections(s, keys, steps, job))
  {
    if steps != [] {
      var front, last := steps[..|steps| - 1], steps[|steps| - 1];
      StuckRun(s, keys, front, job);
      StuckStep(s, Run(s, keys, front), keys, last, job, AllSelections(s, keys, front, job));
    }
  }

  /**
   * The failed update is never sent again. Whatever follows, the client is not refunded; and bounty
   * and escrow stay exactly as they are if and only if no winner is selected after all.
   */
  lemma FailedUpdateIsNeverRetried(s: System, keys: map<AgentId, Pubkey>, steps: seq<Step>, job: JobId)
    requires Stuck(s, job) && AdmissibleRun(s, keys, steps)
    ensures var t := Run(s, keys, steps);
      && !ClientPaid(t.chain, job)
      && (Stuck(t, job) <==> AllSelections(s, keys, steps, job) == 0)
      && (Stuck(t, job) ==> t.bounties[job] == s.bounties[job] && t.chain[job] == s.chain[job])
  {
    StuckRun(s, keys, steps, job);
  }

  // ---- Both outcomes are reached ------------------------------------------------------------

  function ExpiringSteps(job: JobId, sent: bool, front: seq<Step>): seq<Step> {
    front + [ExpireOpen(job, 2, 0, sent)]
  }

  function RefundSteps(job: JobId, front: seq<Step>): seq<Step> {
    ExpiringSteps(job, true, front) + [BroadcastSettle(job)] + [SettledWebhook(job)]
  }

  /** A funded bounty without submissions whose update_escrow fails is stuck. */
  lemma StuckIsReached(keys: map<AgentId, Pubkey>, job: JobId, client: UserId, clientKey: Pubkey, prize: real, pda: Pda)
    ensures var steps := ExpiringSteps(job, false, FundingSteps(job, client, clientKey, prize, pda));
      AdmissibleRun(EMPTY_SYSTEM, keys, steps) && Stuck(Run(EMPTY_SYSTEM, keys, steps), job)
  {
    FundingPath(keys, job, client, clientKey, prize, pda);
    Extend(keys, FundingSteps(job, client, clientKey, prize, pda), ExpireOpen(job, 2, 0, false));
  }

  /** The same run with the update sent ends with the client paid and the bounty refunded. */
  lemma RefundIsReached(keys: map<AgentId, Pubkey>, job: JobId, client: UserId, clientKey: Pubkey, prize: real,
                        pda: Pda)
    ensures var steps := RefundSteps(job, FundingSteps(job, client, clientKey, prize, pda));
      && AdmissibleRun(EMPTY_SYSTEM, keys, steps)
      && var s := Run(EMPTY_SYSTEM, keys, steps);
         ClientPaid(s.chain, job) && job in s.bounties && s.bounties[job].state.Refunded?
  {
    var front := FundingSteps(job, client, clientKey, prize, pda);
    FundingPath(keys, job, client, clientKey, prize, pda);
    RefundPath(Run(EMPTY_SYSTEM, keys, front), keys, job, clientKey);
    Extend(keys, front, ExpireOpen(job, 2, 0, true));
    Extend(keys, ExpiringSteps(job, true, front), BroadcastSettle(job));
    Extend(keys, ExpiringSteps(job, true, front) + [BroadcastSettle(job)], SettledWebhook(job));
  }

  lemma RefundPath(s: System, keys: map<AgentId, Pubkey>, job: JobId, clientKey: Pubkey)
    requires job in s.bounties && SubmissionsClosed(s.bounties[job], 2) && s.bounties[job].winner.None?
    requires job in s.chain && s.chain[job] == Escrow(clientKey, Active, Funded, None)
    ensures var s1 := Apply(s, keys, ExpireOpen(job, 2, 0, true));
      var s2 := Apply(s1, keys, BroadcastSettle(job));
      var s3 := Apply(s2, keys, SettledWebhook(job));
      && Admissible(s2, SettledWebhook(job))
      && ClientPaid(s3.chain, job) && job in s3.bounties && s3.bounties[job].state.Refunded?
  {
    var s1 := Apply(s, keys, ExpireOpen(job, 2, 0, true));
    assert s1.chain[job] == Escrow(clientKey, UnFulfilled, Funded, None);
    var s2 := Apply(s1, keys, BroadcastSettle(job));
    assert s2.chain[job] == Escrow(clientKey, UnFulfilled, RefundedToClient, Some(clientKey));
  }
}
