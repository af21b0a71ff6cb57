/** How often a win is counted for the agent and for the client, over whole runs of the lifecycle. */
module WinCredits {
  import opened Common
  import opened Lifecycle

  /** The step selects this agent as the winner of the bounty. */
  predicate Selects(s: System, keys: map<AgentId, Pubkey>, step: Step, job: JobId, agent: AgentId) {
    && step.SelectWinner? && step.job == job && step.agent == agent
    && WinnerAccepted(s, keys, job, step.caller, agent, step.sent)
  }

  /** The step handles a settle webhook while this agent is the recorded winner. */
  predicate Settles(s: System, step: Step, job: JobId, agent: AgentId) {
    step.SettledWebhook? && step.job == job && job in s.bounties && s.bounties[job].winner == Some(agent)
  }

  /** Accepted selections of the agent. */
  function Selections(s: System, keys: map<AgentId, Pubkey>, steps: seq<Step>, job: JobId, agent: AgentId): nat {
    if steps == [] then 0
    else
      var front, last := steps[..|steps| - 1], steps[|steps| - 1];
      Selections(s, keys, front, job, agent)
      + (if Selects(Run(s, keys, front), keys, last, job, agent) then 1 else 0)
  }

  /** Accepted selections of the agent whose settle transaction could be built. */
  function Credited(s: System, keys: map<AgentId, Pubkey>, steps: seq<Step>, job: JobId, agent: AgentId): nat {
    if steps == [] then 0
    else
      var front, last := steps[..|steps| - 1], steps[|steps| - 1];
      Credited(s, keys, front, job, agent)
      + (if Selects(Run(s, keys, front), keys, last, job, agent) && last.built then 1 else 0)
  }

  /** Settle webhooks handled while the agent is the recorded winner. */
  function Settlements(s: System, keys: map<AgentId, Pubkey>, steps: seq<Step>, job: JobId, agent: AgentId): nat {
    if steps == [] then 0
    else
      var front, last := steps[..|steps| - 1], steps[|steps| - 1];
      Settlements(s, keys, front, job, agent) + (if Settles(Run(s, keys, front), last, job, agent) then 1 else 0)
  }

  lemma CreditsOfStep(s: System, keys: map<AgentId, Pubkey>, step: Step, job: JobId, agent: AgentId)
    ensures Credits(Apply(s, keys, step), job, agent)
         == Credits(s, job, agent) + (if Selects(s, keys, step, job, agent) && step.built then 1 else 0)
            + (if Settles(s, step, job, agent) then 1 else 0)
  {
  }

  /** What a row's winner and final state say about the counts. */
  ghost predicate WinnerCounted(b: Bounty, agent: AgentId, selections: nat, settlements: nat) {
    && (b.winner == Some(agent) ==> selections >= 1)
    && (b.state.Completed? ==> b.winner.Some? && (b.winner == Some(agent) ==> settlements >= 1))
  }

  lemma WinnerCountedStep(s: System, keys: map<AgentId, Pubkey>, step: Step, job: JobId, agent: AgentId,
                          selections: nat, settlements: nat)
    requires job in s.bounties ==> WinnerCounted(s.bounties[job], agent, selections, settlements)
    requires settlements >= 1 ==> selections >= 1
    ensures var t := Apply(s, keys, step);
      var selections' := selections + (if Selects(s, keys, step, job, agent) then 1 else 0);
      var settlements' := settlements + (if Settles(s, step, job, agent) then 1 else 0);
      && (settlements' >= 1 ==> selections' >= 1)
      && (job in t.bounties ==> WinnerCounted(t.bounties[job], agent, selections', settlements'))
  {
    if job != step.job {
      OtherJobsUntouched(s, keys, step, job);
    }
  }

  lemma {:induction false} WinnerCountedRun(keys: map<AgentId, Pubkey>, steps: seq<Step>, job: JobId, agent: AgentId)
    ensures var s := Run(EMPTY_SYSTEM, keys, steps);
      var selections := Selections(EMPTY_SYSTEM, keys, steps, job, agent);
      var settlements := Settlements(EMPTY_SYSTEM, keys, steps, job, agent);
      && (settlements >= 1 ==> selections >= 1)
      && (job in s.bounties ==> WinnerCounted(s.bounties[job], agent, selections, settlements))
  {
    if steps != [] {
      var front, last := steps[..|steps| - 1], steps[|steps| - 1];
      WinnerCountedRun(keys, front, job, agent);
      WinnerCountedStep(Run(EMPTY_SYSTEM, keys, front), keys, last, job, agent,
                        Selections(EMPTY_SYSTEM, keys, front, job, agent),
                        Settlements(EMPTY_SYSTEM, keys, front, job, agent));
    }
  }

  lemma {:induction false} CreditsOfRun(keys: map<AgentId, Pubkey>, steps: seq<Step>, job: JobId, agent: AgentId)
    ensures Credits(Run(EMPTY_SYSTEM, keys, steps), job, agent)
         == Credited(EMPTY_SYSTEM, keys, steps, job, agent) + Settlements(EMPTY_SYSTEM, keys, steps, job, agent)
    ensures Credited(EMPTY_SYSTEM, keys, steps, job, agent) <= Selections(EMPTY_SYSTEM, keys, steps, job, agent)
  {
    if steps != [] {
      var front, last := steps[..|steps| - 1], steps[|steps| - 1];
      CreditsOfRun(keys, front, job, agent);
      CreditsOfStep(Run(EMPTY_SYSTEM, keys, front), keys, last, job, agent);
    }
  }

  /**
   * In every run a win is counted once per accepted selection whose settle transaction could be built,
   * and once more per settle webhook handled while that agent is the recorded winner; so exactly once
   * if and only if one of these happened, once, and never without the agent having been selected.
   */
  lemma WinCountedOnceIff(keys: map<AgentId, Pubkey>, steps: seq<Step>, job: JobId, agent: AgentId)
    ensures var credits := Credits(Run(EMPTY_SYSTEM, keys, steps), job, agent);
      var credited := Credited(EMPTY_SYSTEM, keys, steps, job, agent);
      var settlements := Settlements(EMPTY_SYSTEM, keys, steps, job, agent);
      && credits == credited + settlements
      && (credits == 1 <==> (credited == 1 && settlements == 0) || (credited == 0 && settlements == 1))
      && (credits >= 1 ==> Selections(EMPTY_SYSTEM, keys, steps, job, agent) >= 1)
  {
    CreditsOfRun(keys, steps, job, agent);
    WinnerCountedRun(keys, steps, job, agent);
  }

  /**
   * A completed bounty has been credited to its winner at least twice, unless no selection of the
   * winner got a settle transaction built and its settlement was reported only once.
   */
  lemma CompletedBountyCreditedTwice(keys: map<AgentId, Pubkey>, steps: seq<Step>, job: JobId)
    ensures var s := Run(EMPTY_SYSTEM, keys, steps);
      job in s.bounties && s.bounties[job].state.Completed? ==>
        && s.bounties[job].winner.Some?
        && var agent := s.bounties[job].winner.value;
           var credited := Credited(EMPTY_SYSTEM, keys, steps, job, agent);
           var settlements := Settlements(EMPTY_SYSTEM, keys, steps, job, agent);
           && Credits(s, job, agent) >= 1
           && (Credits(s, job, agent) >= 2 <==> !(credited == 0 && settlements == 1))
           && (Credits(s, job, agent) == 2 <==> credited + settlements == 2)
  {
    var s := Run(EMPTY_SYSTEM, keys, steps);
    WinnerCountedRun(keys, steps, job, 0);
    if job in s.bounties && s.bounties[job].winner.Some? {
      WinnerCountedRun(keys, steps, job, s.bounties[job].winner.value);
      CreditsOfRun(keys, steps, job, s.bounties[job].winner.value);
    }
  }

  // ---- Reached ------------------------------------------------------------------------------

  lemma Extend(keys: map<AgentId, Pubkey>, front: seq<Step>, step: Step)
    requires AdmissibleRun(EMPTY_SYSTEM, keys, front) && Admissible(Run(EMPTY_SYSTEM, keys, front), step)
    ensures AdmissibleRun(EMPTY_SYSTEM, keys, front + [step])
    ensures Run(EMPTY_SYSTEM, keys, front + [step]) == Apply(Run(EMPTY_SYSTEM, keys, front), keys, step)
  {
    assert (front + [step])[..|front|] == front;
  }

  function FundingSteps(job: JobId, client: UserId, clientKey: Pubkey, prize: real, pda: Pda): seq<Step> {
    [] + [Create(job, client, prize, 1, 2)] + [FundEscrow(job, clientKey)] + [Confirm(job, client, Some(pda))]
  }

  function SettlingSteps(job: JobId, client: UserId, agent: AgentId, built: bool, front: seq<Step>): seq<Step> {
    front + [SelectWinner(job, client, agent, true, built)] + [BroadcastSettle(job)] + [SettledWebhook(job)]
  }

  lemma FundingPath(keys: map<AgentId, Pubkey>, job: JobId, client: UserId, clientKey: Pubkey, prize: real, pda: Pda)
    ensures var steps := FundingSteps(job, client, clientKey, prize, pda);
      && AdmissibleRun(EMPTY_SYSTEM, keys, steps)
      && Run(EMPTY_SYSTEM, keys, steps)
         == System(map[job := Bounty(client, prize, 1, 2, Open, None, Some(pda))],
                   map[job := Escrow(clientKey, Active, Funded, None)], map[job := 1], [], [], [])
  {
    var first: seq<Step> := [] + [Create(job, client, prize, 1, 2)];
    var second := first + [FundEscrow(job, clientKey)];
    Extend(keys, [], Create(job, client, prize, 1, 2));
    Extend(keys, first, FundEscrow(job, clientKey));
    Extend(keys, second, Confirm(job, client, Some(pda)));
  }

  /** What the run below leaves: completed, the winner's owner paid, and so many credits. */
  ghost predicate CompletedFor(s: System, keys: map<AgentId, Pubkey>, job: JobId, client: UserId, prize: real,
                               agent: AgentId, built: bool)
  {
    && job in s.bounties && s.bounties[job].state.Completed? && s.bounties[job].winner == Some(agent)
    && agent in keys && job in s.chain && s.chain[job].paidTo == Some(keys[agent])
    && Credits(s, job, agent) == (if built then 2 else 1)
    && s.awards == (if built then [Award(job, client, prize)] else [])
  }

  /**
   * Completion is reached: this run, from the creation of a bounty to the settlement of its winner, is
   * admissible and ends completed. It counts the win twice and credits the client once if the settle
   * transaction could be built, else it counts the win once and credits the client never.
   */
  lemma CompletionIsReached(keys: map<AgentId, Pubkey>, job: JobId, client: UserId, clientKey: Pubkey, prize: real,
                            pda: Pda, agent: AgentId, built: bool)
    requires agent in keys
    ensures var steps := SettlingSteps(job, client, agent, built, FundingSteps(job, client, clientKey, prize, pda));
      && AdmissibleRun(EMPTY_SYSTEM, keys, steps)
      && CompletedFor(Run(EMPTY_SYSTEM, keys, steps), keys, job, client, prize, agent, built)
  {
    var front := FundingSteps(job, client, clientKey, prize, pda);
    FundingPath(keys, job, client, clientKey, prize, pda);
    SettlingRun(keys, front, job, client, clientKey, agent, built);
  }

  lemma SettlingRun(keys: map<AgentId, Pubkey>, front: seq<Step>, job: JobId, client: UserId, clientKey: Pubkey,
                    agent: AgentId, built: bool)
    requires AdmissibleRun(EMPTY_SYSTEM, keys, front)
    requires var s := Run(EMPTY_SYSTEM, keys, front);
      && agent in keys && job in s.bounties && s.bounties[job].client == client
      && job in s.chain && s.chain[job] == Escrow(clientKey, Active, Funded, None)
      && s.credits == [] && s.awards == []
    ensures var steps := SettlingSteps(job, client, agent, built, front);
      && AdmissibleRun(EMPTY_SYSTEM, keys, steps)
      && CompletedFor(Run(EMPTY_SYSTEM, keys, steps), keys, job, client,
                      Run(EMPTY_SYSTEM, keys, front).bounties[job].prize, agent, built)
  {
    SettlingPath(Run(EMPTY_SYSTEM, keys, front), keys, job, client, clientKey, agent, built);
    var selected := front + [SelectWinner(job, client, agent, true, built)];
    Extend(keys, front, SelectWinner(job, client, agent, true, built));
    Extend(keys, selected, BroadcastSettle(job));
    Extend(keys, selected + [BroadcastSettle(job)], SettledWebhook(job));
  }

  lemma SettlingPath(s: System, keys: map<AgentId, Pubkey>, job: JobId, client: UserId, clientKey: Pubkey,
                     agent: AgentId, built: bool)
    requires agent in keys && job in s.bounties && s.bounties[job].client == client
    requires job in s.chain && s.chain[job] == Escrow(clientKey, Active, Funded, None)
    requires s.credits == [] && s.awards == []
    ensures var s4 := Apply(s, keys, SelectWinner(job, client, agent, true, built));
      var s5 := Apply(s4, keys, BroadcastSettle(job));
      && Admissible(s5, SettledWebhook(job))
      && CompletedFor(Apply(s5, keys, SettledWebhook(job)), keys, job, client, s.bounties[job].prize, agent, built)
  {
    var s4 := Apply(s, keys, SelectWinner(job, client, agent, true, built));
    assert s4.chain[job] == Escrow(clientKey, Fulfilled(keys[agent]), Funded, None);
    assert s4.bounties[job].winner == Some(agent);
    var s5 := Apply(s4, keys, BroadcastSettle(job));
    assert s5.chain[job].state.Released? && s5.bounties == s4.bounties;
    var s6 := Apply(s5, keys, SettledWebhook(job));
    assert s6.credits == if built then [(job, agent), (job, agent)] else [(job, agent)];
  }

  // ---- What the client is credited for ------------------------------------------------------

  function AwardsFor(awards: seq<Award>, job: JobId): nat {
    if awards == [] then 0
    else AwardsFor(awards[..|awards| - 1], job) + (if awards[|awards| - 1].job == job then 1 else 0)
  }

  /** The step selects some agent as the winner of the bounty. */
  predicate SelectsSome(s: System, keys: map<AgentId, Pubkey>, step: Step, job: JobId) {
    step.SelectWinner? && Selects(s, keys, step, job, step.agent)
  }

  /** Accepted selections for a bounty, whoever the agent was. */
  function AllSelections(s: System, keys: map<AgentId, Pubkey>, steps: seq<Step>, job: JobId): nat {
    if steps == [] then 0
    else
      var front, last := steps[..|steps| - 1], steps[|steps| - 1];
      AllSelections(s, keys, front, job) + (if SelectsSome(Run(s, keys, front), keys, last, job) then 1 else 0)
  }

  /** Those of them whose settle transaction could be built. */
  function AllCredited(s: System, keys: map<AgentId, Pubkey>, steps: seq<Step>, job: JobId): nat {
    if steps == [] then 0
    else
      var front, last := steps[..|steps| - 1], steps[|steps| - 1];
      AllCredited(s, keys, front, job)
      + (if SelectsSome(Run(s, keys, front), keys, last, job) && last.built then 1 else 0)
  }

  ghost predicate AwardsOk(s: System) {
    forall a :: a in s.awards ==>
      a.job in s.bounties && a.owner == s.bounties[a.job].client && a.prize == s.bounties[a.job].prize
  }

  lemma RowOwnerKept(s: System, keys: map<AgentId, Pubkey>, step: Step, job: JobId)
    requires Admissible(s, step) && job in s.bounties
    ensures var t := Apply(s, keys, step);
      && job in t.bounties
      && t.bounties[job].client == s.bounties[job].client
      && t.bounties[job].prize == s.bounties[job].prize
  {
    if job != step.job {
      OtherJobsUntouched(s, keys, step, job);
    }
  }

  lemma AwardsOfStep(s: System, keys: map<AgentId, Pubkey>, step: Step)
    ensures var t := Apply(s, keys, step);
      t.awards == if SelectsSome(s, keys, step, step.job) && step.built
                  then s.awards + [Award(step.job, s.bounties[step.job].client, s.bounties[step.job].prize)]
                  else s.awards
  {
  }

  lemma AwardsOkStep(s: System, keys: map<AgentId, Pubkey>, step: Step)
    requires AwardsOk(s) && Admissible(s, step)
    ensures AwardsOk(Apply(s, keys, step))
  {
    AwardsOfStep(s, keys, step);
    forall job | job in s.bounties {
      RowOwnerKept(s, keys, step, job);
    }
  }

  lemma AwardStepCount(s: System, keys: map<AgentId, Pubkey>, step: Step, job: JobId)
    ensures AwardsFor(Apply(s, keys, step).awards, job)
         == AwardsFor(s.awards, job) + (if SelectsSome(s, keys, step, job) && step.built then 1 else 0)
  {
    AwardsOfStep(s, keys, step);
    if SelectsSome(s, keys, step, step.job) && step.built {
      assert Apply(s, keys, step).awards[..|s.awards|] == s.awards;
    }
  }

  /**
   * Settling credits the client once per accepted selection whose settle transaction could be built,
   * never for a webhook, and always the bounty's own client with the bounty's own prize.
   */
  lemma {:induction false} ClientCreditedPerSelection(keys: map<AgentId, Pubkey>, steps: seq<Step>, job: JobId)
    requires AdmissibleRun(EMPTY_SYSTEM, keys, steps)
    ensures var s := Run(EMPTY_SYSTEM, keys, steps);
      AwardsOk(s) && AwardsFor(s.awards, job) == AllCredited(EMPTY_SYSTEM, keys, steps, job)
  {
    if steps != [] {
      var front, last := steps[..|steps| - 1], steps[|steps| - 1];
      ClientCreditedPerSelection(keys, front, job);
      AwardsOkStep(Run(EMPTY_SYSTEM, keys, front), keys, last);
      AwardStepCount(Run(EMPTY_SYSTEM, keys, front), keys, last, job);
    }
  }
}
