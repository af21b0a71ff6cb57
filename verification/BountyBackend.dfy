/**
 * The bounty services themselves (creation, funding, review, scheduler, settlement webhook), each
 * proved to take the steps Lifecycle gives it.
 */
module BountyBackend {
  import opened Common
  import opened Lifecycle
  import opened Refunds
  import opened Scheduler

  /** A deadline step of a tick at `now`. */
  predicate DeadlineStep(step: Step, submitted: map<JobId, nat>, now: Time) {
    || (step.ExpireOpen? && step.now == now && step.submissions == CountOf(submitted, step.job))
    || (step.ExpireReview? && step.now == now)
  }

  ghost predicate DeadlineSteps(steps: seq<Step>, submitted: map<JobId, nat>, now: Time) {
    forall step :: step in steps ==> DeadlineStep(step, submitted, now)
  }

  /** `s` is `s0` after these deadline steps of a tick at `now`. */
  ghost predicate DeadlineRun(s0: System, s: System, keys: map<AgentId, Pubkey>, submitted: map<JobId, nat>, now: Time,
                              steps: seq<Step>)
  {
    s == Run(s0, keys, steps) && DeadlineSteps(steps, submitted, now)
  }

  lemma DeadlineRunStep(s0: System, s: System, keys: map<AgentId, Pubkey>, submitted: map<JobId, nat>, now: Time,
                        steps: seq<Step>, step: Step)
    requires DeadlineRun(s0, s, keys, submitted, now, steps) && DeadlineStep(step, submitted, now)
    ensures DeadlineRun(s0, Apply(s, keys, step), keys, submitted, now, steps + [step])
  {
    assert (steps + [step])[..|steps|] == steps;
  }

  lemma {:induction false} RunConcat(s: System, keys: map<AgentId, Pubkey>, first: seq<Step>, second: seq<Step>)
    ensures Run(s, keys, first + second) == Run(Run(s, keys, first), keys, second)
  {
    if second == [] {
      assert first + second == first;
    } else {
      assert (first + second)[..|first + second| - 1] == first + second[..|second| - 1];
      RunConcat(s, keys, first, second[..|second| - 1]);
    }
  }

  lemma DeadlineRunConcat(s0: System, s1: System, s2: System, keys: map<AgentId, Pubkey>, submitted: map<JobId, nat>,
                          now: Time, first: seq<Step>, second: seq<Step>)
    requires DeadlineRun(s0, s1, keys, submitted, now, first) && DeadlineRun(s1, s2, keys, submitted, now, second)
    ensures DeadlineRun(s0, s2, keys, submitted, now, first + second)
  {
    RunConcat(s0, keys, first, second);
  }

  /** Every client refunded between the two tables has a user row. */
  ghost predicate ClientsFound(before: map<JobId, Bounty>, after: map<JobId, Bounty>, users: set<UserId>)
    requires before.Keys == after.Keys
  {
    forall job :: job in after && NewlyAwaiting(before[job], after[job]) ==> before[job].client in users
  }

  /** The tick cannot complete: it must refund this bounty, and its client has no user row. */
  predicate Blocking(b: Bounty, submissions: nat, now: Time, users: set<UserId>) {
    NeedsRefund(b, submissions, now) && b.client !in users
  }

  datatype Pass = SubmissionPass | ReviewPass

  function PassRow(pass: Pass, b: Bounty, submissions: nat, now: Time): Bounty {
    if pass.SubmissionPass? then FirstPass(b, submissions, now) else SecondPass(b, now)
  }

  /** The rows a loop is to rewrite. */
  predicate Due(pass: Pass, b: Bounty, now: Time) {
    if pass.SubmissionPass? then SubmissionsClosed(b, now) else ReviewClosed(b, now)
  }

  function StepFor(pass: Pass, job: JobId, submitted: map<JobId, nat>, now: Time, rpcOk: set<JobId>): Step {
    if pass.SubmissionPass? then ExpireOpen(job, now, CountOf(submitted, job), job in rpcOk)
    else ExpireReview(job, now, job in rpcOk)
  }

  /** One loop of a tick, with the rows in `done` rewritten. */
  ghost predicate PassInv(pass: Pass, s0: System, s: System, users: set<UserId>,
                          submitted: map<JobId, nat>, now: Time, done: set<JobId>, calls: seq<JobId>)
  {
    && s.bounties.Keys == s0.bounties.Keys
    && (forall job :: job in s.bounties ==>
          s.bounties[job] == if job in done then PassRow(pass, s0.bounties[job], CountOf(submitted, job), now)
                             else s0.bounties[job])
    && s.unfulfilledCalls == s0.unfulfilledCalls + calls
    && CallsMatch(s0.bounties, s.bounties, calls)
    && ClientsFound(s0.bounties, s.bounties, users)
  }

  lemma PassStart(pass: Pass, s: System, users: set<UserId>, submitted: map<JobId, nat>, now: Time)
    ensures PassInv(pass, s, s, users, submitted, now, {}, [])
  {
  }

  lemma CallsStep(before: map<JobId, Bounty>, mid: map<JobId, Bounty>, calls: seq<JobId>, job: JobId, row: Bounty)
    requires CallsMatch(before, mid, calls) && job in mid && mid[job] == before[job]
    ensures CallsMatch(before, mid[job := row], if NewlyAwaiting(before[job], row) then calls + [job] else calls)
  {
    assert job !in calls;
  }

  lemma StepEffect(pass: Pass, s: System, keys: map<AgentId, Pubkey>, submitted: map<JobId, nat>, now: Time,
                   rpcOk: set<JobId>, job: JobId)
    requires job in s.bounties && Due(pass, s.bounties[job], now)
    ensures var row := PassRow(pass, s.bounties[job], CountOf(submitted, job), now);
      var t := Apply(s, keys, StepFor(pass, job, submitted, now, rpcOk));
      && t.bounties == s.bounties[job := row]
      && t.unfulfilledCalls == (if row.state.AwaitingRefund? then s.unfulfilledCalls + [job] else s.unfulfilledCalls)
      && (row.state.AwaitingRefund? <==> NewlyAwaiting(s.bounties[job], row))
      && row.client == s.bounties[job].client
  {
  }

  lemma PassStep(pass: Pass, s0: System, s: System, keys: map<AgentId, Pubkey>, users: set<UserId>,
                 submitted: map<JobId, nat>, now: Time, rpcOk: set<JobId>,
                 done: set<JobId>, calls: seq<JobId>, job: JobId)
    requires PassInv(pass, s0, s, users, submitted, now, done, calls)
    requires job in s0.bounties && job !in done && Due(pass, s0.bounties[job], now)
    requires var after := PassRow(pass, s0.bounties[job], CountOf(submitted, job), now);
      after.state.AwaitingRefund? ==> after.client in users
    ensures var after := PassRow(pass, s0.bounties[job], CountOf(submitted, job), now);
      var step := StepFor(pass, job, submitted, now, rpcOk);
      PassInv(pass, s0, Apply(s, keys, step), users, submitted, now, done + {job},
              if after.state.AwaitingRefund? then calls + [job] else calls)
  {
    var step := StepFor(pass, job, submitted, now, rpcOk);
    var row := PassRow(pass, s0.bounties[job], CountOf(submitted, job), now);
    assert s.bounties[job] == s0.bounties[job];
    StepEffect(pass, s, keys, submitted, now, rpcOk, job);
    CallsStep(s0.bounties, s.bounties, calls, job, row);
    assert s0.unfulfilledCalls + (calls + [job]) == s0.unfulfilledCalls + calls + [job];
  }

  /** The loop stops at this row: it must refund a client that has no user row. */
  predicate Blocked(pass: Pass, b: Bounty, submissions: nat, now: Time, users: set<UserId>) {
    Due(pass, b, now) && PassRow(pass, b, submissions, now).state.AwaitingRefund? && b.client !in users
  }

  /** A loop either rewrites every due row, or stops at a blocked one. */
  ghost predicate PassOutcome(pass: Pass, table: map<JobId, Bounty>, users: set<UserId>,
                              submitted: map<JobId, nat>, now: Time, done: set<JobId>, completed: bool)
  {
    && (completed ==> forall job :: job in table && Due(pass, table[job], now) ==> job in done)
    && (!completed ==> exists job :: job in table && Blocked(pass, table[job], CountOf(submitted, job), now, users))
  }

  /**
   * The table after a tick: the tick completes iff no bounty blocks it; a complete tick rewrites
   * every row as TickRow says, an aborted one leaves each row somewhere on that way.
   */
  ghost predicate TickedTable(t0: map<JobId, Bounty>, t: map<JobId, Bounty>, submitted: map<JobId, nat>, now: Time,
                              users: set<UserId>, completed: bool)
  {
    && t.Keys == t0.Keys
    && (!completed <==> exists job :: job in t0 && Blocking(t0[job], CountOf(submitted, job), now, users))
    && (completed ==> t == TickTable(t0, submitted, now))
    && (forall job :: job in t ==> Progressed(t0[job], t[job], CountOf(submitted, job), now))
  }

  /** One tick, complete or not: the table it leaves, and one update_escrow(UnFulfilled) per refund begun. */
  ghost predicate TickOutcome(s0: System, s: System, users: set<UserId>, submitted: map<JobId, nat>, now: Time,
                              completed: bool, calls: seq<JobId>)
  {
    && TickedTable(s0.bounties, s.bounties, submitted, now, users, completed)
    && s.unfulfilledCalls == s0.unfulfilledCalls + calls
    && CallsMatch(s0.bounties, s.bounties, calls)
  }

  lemma FirstPassAborted(s0: System, s: System, users: set<UserId>, submitted: map<JobId, nat>, now: Time,
                         done: set<JobId>, calls: seq<JobId>)
    requires PassInv(SubmissionPass, s0, s, users, submitted, now, done, calls)
    requires PassOutcome(SubmissionPass, s0.bounties, users, submitted, now, done, false)
    ensures TickOutcome(s0, s, users, submitted, now, false, calls)
  {
    var job :| job in s0.bounties && Blocked(SubmissionPass, s0.bounties[job], CountOf(submitted, job), now, users);
    assert Blocking(s0.bounties[job], CountOf(submitted, job), now, users);
  }

  /** A row that blocks the first loop keeps the second from running: bounties under review are left alone. */
  ghost predicate ReviewsSkipped(before: map<JobId, Bounty>, after: map<JobId, Bounty>, users: set<UserId>,
                                 submitted: map<JobId, nat>, now: Time)
  {
    (exists job :: job in before && Blocked(SubmissionPass, before[job], CountOf(submitted, job), now, users)) ==>
      forall job :: job in before && before[job].state.UnderReview? ==> job in after && after[job] == before[job]
  }

  lemma NoneBlockedFirst(s0: System, s1: System, users: set<UserId>, submitted: map<JobId, nat>, now: Time,
                         done: set<JobId>, calls: seq<JobId>)
    requires PassInv(SubmissionPass, s0, s1, users, submitted, now, done, calls)
    requires PassOutcome(SubmissionPass, s0.bounties, users, submitted, now, done, true)
    ensures forall job :: job in s0.bounties ==>
      !Blocked(SubmissionPass, s0.bounties[job], CountOf(submitted, job), now, users)
  {
    forall job | job in s0.bounties && Due(SubmissionPass, s0.bounties[job], now)
      ensures !Blocked(SubmissionPass, s0.bounties[job], CountOf(submitted, job), now, users)
    {
      assert s1.bounties[job] == PassRow(SubmissionPass, s0.bounties[job], CountOf(submitted, job), now);
      assert NewlyAwaiting(s0.bounties[job], s1.bounties[job]) ==> s0.bounties[job].client in users;
    }
  }

  /**
   * Bounty 1 must be refunded to client 7; bounty 2, of client 8, is past its review deadline; bounty 3
   * has one submission to review.
   */
  const EXAMPLE_TABLE: map<JobId, Bounty> := map[
    1 := Bounty(7, 5.0, 0, 9, Open, None, None),
    2 := Bounty(8, 5.0, 0, 0, UnderReview, None, None),
    3 := Bounty(8, 5.0, 0, 9, Open, None, None)]

  /**
   * If client 7 has no user row, any tick at time 1 stops and leaves bounty 2 under review although its
   * own client is there; with both clients it completes, refunds both and puts bounty 3 under review.
   */
  lemma BlockedTickExample(after: map<JobId, Bounty>, users: set<UserId>, completed: bool)
    requires 8 in users
    requires TickedTable(EXAMPLE_TABLE, after, map[3 := 1], 1, users, completed)
    requires ReviewsSkipped(EXAMPLE_TABLE, after, users, map[3 := 1], 1)
    ensures completed <==> 7 in users
    ensures 2 in after && (after[2].state == if 7 in users then AwaitingRefund else UnderReview)
    ensures 7 in users ==>
      1 in after && after[1].state == AwaitingRefund && 3 in after && after[3].state == UnderReview
  {
    CompleteTickMeaning(EXAMPLE_TABLE, after, map[3 := 1], 1, users, completed);
    assert EXAMPLE_TABLE.Keys == {1, 2, 3};
    if 7 !in users {
      assert Blocked(SubmissionPass, EXAMPLE_TABLE[1], CountOf(map[3 := 1], 1), 1, users);
      assert EXAMPLE_TABLE[1].client !in users;
    } else {
      assert 1 in EXAMPLE_TABLE && 2 in EXAMPLE_TABLE && 3 in EXAMPLE_TABLE;
    }
  }

  /** A tick that got through its first loop: the system before, between and after the two loops. */
  datatype Stages = Stages(before: System, between: System, after: System)

  /** A finished first loop, then a second loop that finished or not. */
  ghost predicate BothPasses(s: Stages, users: set<UserId>, submitted: map<JobId, nat>, now: Time,
                             done: (set<JobId>, set<JobId>), calls: (seq<JobId>, seq<JobId>), completed: bool)
  {
    && PassInv(SubmissionPass, s.before, s.between, users, submitted, now, done.0, calls.0)
    && PassOutcome(SubmissionPass, s.before.bounties, users, submitted, now, done.0, true)
    && PassInv(ReviewPass, s.between, s.after, users, submitted, now, done.1, calls.1)
    && PassOutcome(ReviewPass, s.between.bounties, users, submitted, now, done.1, completed)
  }

  /** Rows after a finished first loop and a second loop that rewrote `done.1`. */
  lemma RowsAfterBoth(s: Stages, users: set<UserId>, submitted: map<JobId, nat>, now: Time,
                      done: (set<JobId>, set<JobId>), calls: (seq<JobId>, seq<JobId>), completed: bool, job: JobId)
    requires BothPasses(s, users, submitted, now, done, calls, completed)
    requires job in s.before.bounties
    ensures s.between.bounties[job] == FirstPass(s.before.bounties[job], CountOf(submitted, job), now)
    ensures s.after.bounties[job]
         == if job in done.1 then SecondPass(s.between.bounties[job], now) else s.between.bounties[job]
  {
    assert Due(SubmissionPass, s.before.bounties[job], now) ==> job in done.0;
  }

  /** One row before, between and after the two loops. */
  predicate RowVerdict(b0: Bounty, b1: Bounty, b2: Bounty, submissions: nat, now: Time, users: set<UserId>,
                       completed: bool)
  {
    && Progressed(b0, b2, submissions, now)
    && (b0.state.AwaitingRefund? ==> b1.state.AwaitingRefund?)
    && (b1.state.AwaitingRefund? ==> b2.state.AwaitingRefund?)
    && (completed ==> b2 == TickRow(b0, submissions, now) && !Blocking(b0, submissions, now, users))
    && (Blocked(ReviewPass, b1, submissions, now, users) ==> Blocking(b0, submissions, now, users))
  }

  /** Both loops, row by row: what the table holds, and whether some row blocked the tick. */
  lemma TwoPassesRows(s: Stages, users: set<UserId>, submitted: map<JobId, nat>, now: Time,
                      done: (set<JobId>, set<JobId>), calls: (seq<JobId>, seq<JobId>), completed: bool, job: JobId)
    requires BothPasses(s, users, submitted, now, done, calls, completed)
    requires job in s.before.bounties
    ensures RowVerdict(s.before.bounties[job], s.between.bounties[job], s.after.bounties[job],
                       CountOf(submitted, job), now, users, completed)
  {
    RowsAfterBoth(s, users, submitted, now, done, calls, completed, job);
    if completed {
      assert Due(ReviewPass, s.between.bounties[job], now) ==> job in done.1;
      assert NewlyAwaiting(s.before.bounties[job], s.between.bounties[job]) ==> s.before.bounties[job].client in users;
      assert NewlyAwaiting(s.between.bounties[job], s.after.bounties[job]) ==> s.between.bounties[job].client in users;
    }
  }

  ghost predicate AllVerdicts(t0: map<JobId, Bounty>, t1: map<JobId, Bounty>, t2: map<JobId, Bounty>,
                              submitted: map<JobId, nat>, now: Time, users: set<UserId>, completed: bool)
  {
    && t0.Keys == t1.Keys == t2.Keys
    && forall job :: job in t0 ==> RowVerdict(t0[job], t1[job], t2[job], CountOf(submitted, job), now, users, completed)
  }

  lemma TwoPassesVerdicts(s: Stages, users: set<UserId>, submitted: map<JobId, nat>, now: Time,
                          done: (set<JobId>, set<JobId>), calls: (seq<JobId>, seq<JobId>), completed: bool)
    requires BothPasses(s, users, submitted, now, done, calls, completed)
    ensures AllVerdicts(s.before.bounties, s.between.bounties, s.after.bounties, submitted, now, users, completed)
  {
    forall job | job in s.before.bounties
      ensures RowVerdict(s.before.bounties[job], s.between.bounties[job], s.after.bounties[job],
                         CountOf(submitted, job), now, users, completed)
    {
      TwoPassesRows(s, users, submitted, now, done, calls, completed, job);
    }
  }

  lemma VerdictsDecide(t0: map<JobId, Bounty>, t1: map<JobId, Bounty>, t2: map<JobId, Bounty>,
                       submitted: map<JobId, nat>, now: Time, users: set<UserId>, completed: bool)
    requires AllVerdicts(t0, t1, t2, submitted, now, users, completed)
    requires !completed ==> exists job :: job in t1 && Blocked(ReviewPass, t1[job], CountOf(submitted, job), now, users)
    ensures TickedTable(t0, t2, submitted, now, users, completed)
    ensures forall job :: job in t1 && t0[job].state.AwaitingRefund? ==> t1[job].state.AwaitingRefund?
    ensures forall job :: job in t1 && t1[job].state.AwaitingRefund? ==> t2[job].state.AwaitingRefund?
  {
    if !completed {
      var job :| job in t1 && Blocked(ReviewPass, t1[job], CountOf(submitted, job), now, users);
      assert Blocking(t0[job], CountOf(submitted, job), now, users);
    }
  }

  lemma TwoPassesTables(s: Stages, users: set<UserId>, submitted: map<JobId, nat>, now: Time,
                        done: (set<JobId>, set<JobId>), calls: (seq<JobId>, seq<JobId>), completed: bool)
    requires BothPasses(s, users, submitted, now, done, calls, completed)
    ensures TickedTable(s.before.bounties, s.after.bounties, submitted, now, users, completed)
    ensures CallsMatch(s.before.bounties, s.after.bounties, calls.0 + calls.1)
  {
    TwoPassesVerdicts(s, users, submitted, now, done, calls, completed);
    VerdictsDecide(s.before.bounties, s.between.bounties, s.after.bounties, submitted, now, users, completed);
    CallsCompose(s.before.bounties, s.between.bounties, s.after.bounties, calls.0, calls.1);
  }

  lemma TwoPasses(s: Stages, users: set<UserId>, submitted: map<JobId, nat>, now: Time,
                  done: (set<JobId>, set<JobId>), calls: (seq<JobId>, seq<JobId>), completed: bool)
    requires BothPasses(s, users, submitted, now, done, calls, completed)
    ensures TickOutcome(s.before, s.after, users, submitted, now, completed, calls.0 + calls.1)
  {
    TwoPassesTables(s, users, submitted, now, done, calls, completed);
    assert s.before.unfulfilledCalls + calls.0 + calls.1 == s.before.unfulfilledCalls + (calls.0 + calls.1);
  }

  /** Of these jobs the funded escrows whose call went through were marked unfulfilled; no other changed. */
  ghost predicate ChainMarked(before: map<JobId, Escrow>, after: map<JobId, Escrow>, calls: set<JobId>,
                              rpcOk: set<JobId>)
  {
    && after.Keys == before.Keys
    && forall job :: job in before ==>
         after[job] == if job in calls && job in rpcOk && before[job].state == Funded
                       then before[job].(status := JobStatus.UnFulfilled) else before[job]
  }

  function Called(calls: seq<JobId>): set<JobId> {
    set job | job in calls
  }

  lemma ChainMarkedTwice(a: map<JobId, Escrow>, b: map<JobId, Escrow>, c: map<JobId, Escrow>,
                         first: seq<JobId>, second: seq<JobId>, rpcOk: set<JobId>)
    requires ChainMarked(a, b, Called(first), rpcOk) && ChainMarked(b, c, Called(second), rpcOk)
    ensures ChainMarked(a, c, Called(first + second), rpcOk)
  {
    forall job | job in a
      ensures c[job] == if job in Called(first + second) && job in rpcOk && a[job].state == Funded
                        then a[job].(status := JobStatus.UnFulfilled) else a[job]
    {
      assert b[job].state == a[job].state;
    }
  }

  lemma ChainMarkedNext(a: map<JobId, Escrow>, b: map<JobId, Escrow>, c: map<JobId, Escrow>,
                        calls: seq<JobId>, calls': seq<JobId>, job: JobId, rpcOk: set<JobId>)
    requires ChainMarked(a, b, Called(calls), rpcOk)
    requires calls' == calls || calls' == calls + [job]
    requires ChainMarked(b, c, if calls' == calls then {} else {job}, if job in rpcOk then {job} else {})
    ensures ChainMarked(a, c, Called(calls'), rpcOk)
  {
    forall j | j in a ensures b[j].state == a[j].state {}
    forall j ensures j in Called(calls') <==> (j in Called(calls) || (calls' != calls && j == job)) {}
  }

  /** The state of a bounty after a complete tick, on its dates and its number of submissions. */
  lemma CompleteTickMeaning(t0: map<JobId, Bounty>, t: map<JobId, Bounty>, submitted: map<JobId, nat>, now: Time,
                            users: set<UserId>, completed: bool)
    requires TickedTable(t0, t, submitted, now, users, completed)
    ensures completed <==> forall job :: job in t0 && t0[job].client !in users ==>
      && !(t0[job].state == Open && t0[job].submissionDeadline < now
           && (job !in submitted || submitted[job] == 0 || t0[job].reviewDeadline < now))
      && !(t0[job].state == UnderReview && t0[job].reviewDeadline < now)
    ensures completed ==> t.Keys == t0.Keys && forall job :: job in t0 ==>
      t[job] == t0[job].(state :=
        if t0[job].state == Open && t0[job].submissionDeadline < now then
          (if job in submitted && submitted[job] > 0 && now <= t0[job].reviewDeadline then UnderReview
           else AwaitingRefund)
        else if t0[job].state == UnderReview && t0[job].reviewDeadline < now then AwaitingRefund
        else t0[job].state)
  {
    forall job | job in t0
      ensures Blocking(t0[job], CountOf(submitted, job), now, users) <==>
        t0[job].client !in users
        && ((t0[job].state == Open && t0[job].submissionDeadline < now
             && (job !in submitted || submitted[job] == 0 || t0[job].reviewDeadline < now))
            || (t0[job].state == UnderReview && t0[job].reviewDeadline < now))
    {
      TickRowMeaning(t0[job], CountOf(submitted, job), now);
    }
  }

  class Backend {
    const keys: map<AgentId, Pubkey>     // wallet of each agent's owner
    const users: set<UserId>             // clients with a row in the users table
    var bounties: map<JobId, Bounty>
    var chain: map<JobId, Escrow>
    var posted: map<JobId, nat>
    var unfulfilledCalls: seq<JobId>
    var credits: seq<(JobId, AgentId)>
    var awards: seq<Award>

    function State(): System
      reads this
    {
      System(bounties, chain, posted, unfulfilledCalls, credits, awards)
    }

    constructor (keys: map<AgentId, Pubkey>, users: set<UserId>)
      ensures this.keys == keys && this.users == users && State() == EMPTY_SYSTEM
    {
      this.keys, this.users := keys, users;
      bounties, chain, posted, unfulfilledCalls, credits, awards := map[], map[], map[], [], [], [];
    }

    // ---- Creation and funding ---------------------------------------------------------------

    /** The transaction is built and simulated first; a failed simulation leaves no row. */
    method CreateBounty(job: JobId, client: UserId, prize: real, submissionDeadline: Time, reviewDeadline: Time,
                        simulated: bool) returns (result: Result<JobId>)
      modifies this`bounties
      ensures !simulated ==> result.Err? && State() == old(State())
      ensures simulated ==> result == Ok(job)
      ensures simulated ==>
        bounties == old(bounties)[job := Bounty(client, prize, submissionDeadline, reviewDeadline, Draft, None, None)]
      ensures simulated ==>
        State() == Apply(old(State()), keys, Create(job, client, prize, submissionDeadline, reviewDeadline))
    {
      if !simulated {
        return Err("Transaction simulation failed");
      }
      bounties := bounties[job := Bounty(client, prize, submissionDeadline, reviewDeadline, Draft, None, None)];
      return Ok(job);
    }

    /** `pda` is the escrow address read from the transaction, None when that read throws. */
    method ConfirmEscrow(job: JobId, pda: Option<Pda>, caller: UserId) returns (result: Result<Bounty>)
      modifies this`bounties, this`posted
      ensures State() == Apply(old(State()), keys, Confirm(job, caller, pda))
      ensures result.Ok? <==> job in old(bounties) && old(bounties)[job].client == caller
                              && (!old(bounties)[job].state.Draft? || pda.Some?)
      ensures result.Ok? ==> job in bounties && result.value == bounties[job]
      ensures result.Err? || !old(bounties)[job].state.Draft? ==> bounties == old(bounties) && posted == old(posted)
      ensures result.Ok? && old(bounties)[job].state.Draft? ==>
        && bounties == old(bounties)[job := old(bounties)[job].(state := Open, escrowPda := pda)]
        && job in posted && posted[job] == (if job in old(posted) then old(posted)[job] else 0) + 1
    {
      if job !in bounties {
        return Err("not found");
      }
      var bounty := bounties[job];
      if bounty.client != caller {
        return Err("You are not the client for this bounty");
      }
      if bounty.state != Draft {
        return Ok(bounty);
      }
      if pda.None? {
        return Err("Transaction does not contain a createEscrow instruction for this program");
      }
      bounties := bounties[job := bounty.(state := Open, escrowPda := pda)];
      posted := posted[job := (if job in posted then posted[job] else 0) + 1];
      return Ok(bounties[job]);
    }

    method HandleEscrowFunded(job: JobId, escrowVaultState: Pda)
      modifies this`bounties
      ensures State() == Apply(old(State()), keys, FundedWebhook(job, escrowVaultState))
      ensures job in old(bounties) ==>
        bounties == old(bounties)[job := old(bounties)[job].(state := Open, escrowPda := Some(escrowVaultState))]
      ensures job !in old(bounties) ==> bounties == old(bounties)
    {
      if job !in bounties {
        return;
      }
      bounties := bounties[job := bounties[job].(state := Open, escrowPda := Some(escrowVaultState))];
    }

    // ---- Review and settlement --------------------------------------------------------------

    /**
     * Chain first, then the row, then the settle transaction, then the credits. `sent` is false when
     * the RPC call throws, and then nothing changes; `built` is false when the transaction cannot be
     * built, and then the winner stands without any credit. The result names the recipient of the
     * settle transaction handed to the client.
     */
    method SelectWinner(job: JobId, agent: AgentId, caller: UserId, sent: bool, built: bool)
      returns (result: Result<Pubkey>)
      modifies this`bounties, this`chain, this`credits, this`awards
      ensures State() == Apply(old(State()), keys, Lifecycle.SelectWinner(job, caller, agent, sent, built))
      ensures var accepted := job in old(bounties) && old(bounties)[job].client == caller && agent in keys
                              && sent && job in old(chain) && old(chain)[job].state == Funded;
        && (result.Ok? <==> accepted && built)
        && (accepted ==>
              && bounties == old(bounties)[job := old(bounties)[job].(winner := Some(agent), state := Settled)]
              && chain == old(chain)[job := old(chain)[job].(status := Fulfilled(keys[agent]))]
              && SettleEscrow(chain[job]).state.Released? && SettleEscrow(chain[job]).paidTo == Some(keys[agent]))
        && (!accepted ==> bounties == old(bounties) && chain == old(chain))
        && credits == (if accepted && built then old(credits) + [(job, agent)] else old(credits))
        && awards == (if accepted && built then old(awards) + [Award(job, caller, old(bounties)[job].prize)]
                      else old(awards))
      ensures result.Ok? ==> agent in keys && result.value == keys[agent]
    {
      if job !in bounties {
        return Err("Bounty not found");
      }
      if bounties[job].client != caller {
        return Err("Only the bounty client can select a winner");
      }
      if agent !in keys {
        return Err("Winner agent not found");
      }
      if !sent || !CanUpdate(chain, job) {
        return Err("update_escrow failed");
      }
      chain := UpdateEscrow(chain, job, Fulfilled(keys[agent]));
      bounties := bounties[job := bounties[job].(winner := Some(agent), state := Settled)];
      if !built {
        return Err("settle transaction could not be built");
      }
      credits := credits + [(job, agent)];
      awards := awards + [Award(job, caller, bounties[job].prize)];
      return Ok(keys[agent]);
    }

    /**
     * Guards and hands out a refund transaction, if it can be built; writes nothing. In a reachable
     * state the transaction, once broadcast, pays the client if and only if the escrow was marked
     * unfulfilled.
     */
    method ClaimRefund(job: JobId, caller: UserId, built: bool) returns (result: Result<JobId>)
      ensures result == match RefundRefusal(State(), job, caller)
                        case Some(message) => Err(message)
                        case None => if built then Ok(job) else Err("refund transaction could not be built")
      ensures result.Ok? <==>
        built && job in bounties && bounties[job].client == caller && bounties[job].state == AwaitingRefund
      ensures result.Ok? && JobOk(State(), keys, job) ==>
        var settled := Apply(State(), keys, BroadcastSettle(job));
        && (ClientPaid(settled.chain, job) <==> job in chain && chain[job].status.UnFulfilled?)
        && (job in settled.chain ==> !settled.chain[job].state.Released?)
    {
      if job !in bounties {
        return Err("Bounty not found");
      }
      if bounties[job].client != caller {
        return Err("Only the bounty client can claim a refund");
      }
      if bounties[job].state != AwaitingRefund {
        return Err("Bounty is not awaiting refund");
      }
      if !built {
        return Err("refund transaction could not be built");
      }
      if JobOk(State(), keys, job) {
        ClaimedRefundPaysIff(State(), keys, job, caller);
      }
      return Ok(job);
    }

    method HandleSettleConfirmed(job: JobId)
      modifies this`bounties, this`credits
      ensures State() == Apply(old(State()), keys, SettledWebhook(job))
      ensures job !in old(bounties) ==> bounties == old(bounties) && credits == old(credits)
      ensures job in old(bounties) ==>
        match old(bounties)[job].winner
        case Some(agent) =>
          && bounties == old(bounties)[job := old(bounties)[job].(state := Completed)]
          && credits == old(credits) + [(job, agent)]
        case None =>
          && bounties == old(bounties)[job := old(bounties)[job].(state := Refunded)]
          && credits == old(credits)
    {
      if job !in bounties {
        return;
      }
      var bounty := bounties[job];
      if bounty.winner.Some? {
        bounties := bounties[job := bounty.(state := Completed)];
        credits := credits + [(job, bounty.winner.value)];
      } else {
        bounties := bounties[job := bounty.(state := Refunded)];
      }
    }

    // ---- Deadlines --------------------------------------------------------------------------

    /** A failed update_escrow is only logged; a missing client throws out of the whole tick. */
    method MarkUnfulfilledAndAwaitRefund(job: JobId, clientId: UserId, rpcOk: bool) returns (ok: bool)
      requires job in bounties
      modifies this`bounties, this`chain, this`unfulfilledCalls
      ensures ok <==> clientId in users
      ensures ok ==> State() == MarkUnfulfilled(old(State()), job, rpcOk)
      ensures ok ==>
        && bounties == old(bounties)[job := old(bounties)[job].(state := AwaitingRefund)]
        && unfulfilledCalls == old(unfulfilledCalls) + [job]
        && ChainMarked(old(chain), chain, {job}, if rpcOk then {job} else {})
      ensures !ok ==> State() == old(State())
    {
      if clientId !in users {
        return false;
      }
      unfulfilledCalls := unfulfilledCalls + [job];
      if rpcOk {
        chain := UpdateEscrow(chain, job, UnFulfilled);
      }
      bounties := bounties[job := bounties[job].(state := AwaitingRefund)];
      return true;
    }

    /**
     * One tick. It completes iff every client it must refund has a user row; complete or not, it
     * is a sequence of lifecycle steps and calls update_escrow(UnFulfilled) once per refund.
     */
    method HandleDeadlines(now: Time, submitted: map<JobId, nat>, rpcOk: set<JobId>)
      returns (completed: bool, ghost steps: seq<Step>, ghost calls: seq<JobId>)
      modifies this`bounties, this`chain, this`unfulfilledCalls
      ensures DeadlineRun(old(State()), State(), keys, submitted, now, steps)
      ensures TickOutcome(old(State()), State(), users, submitted, now, completed, calls)
      ensures TickEffect(old(bounties), bounties, submitted, now, calls)
      ensures ReviewsSkipped(old(bounties), bounties, users, submitted, now)
      ensures completed <==> forall job :: job in old(bounties) && old(bounties)[job].client !in users ==>
        var b := old(bounties)[job];
        && !(b.state == Open && b.submissionDeadline < now
             && (job !in submitted || submitted[job] == 0 || b.reviewDeadline < now))
        && !(b.state == UnderReview && b.reviewDeadline < now)
      ensures completed ==> bounties.Keys == old(bounties).Keys && forall job :: job in bounties ==>
        var b := old(bounties)[job];
        bounties[job] == b.(state :=
          if b.state == Open && b.submissionDeadline < now then
            (if job in submitted && submitted[job] > 0 && now <= b.reviewDeadline then UnderReview else AwaitingRefund)
          else if b.state == UnderReview && b.reviewDeadline < now then AwaitingRefund
          else b.state)
      ensures unfulfilledCalls == old(unfulfilledCalls) + calls && NoDuplicates(calls)
      ensures forall job :: job in calls <==>
        job in bounties && bounties[job].state == AwaitingRefund && old(bounties)[job].state != AwaitingRefund
      ensures ChainMarked(old(chain), chain, Called(calls), rpcOk)
    {
      ghost var before := State();
      completed, steps, calls := RunBothLoops(now, submitted, rpcOk);
      CompleteTickMeaning(before.bounties, bounties, submitted, now, users, completed);
    }

    method RunBothLoops(now: Time, submitted: map<JobId, nat>, rpcOk: set<JobId>)
      returns (completed: bool, ghost steps: seq<Step>, ghost calls: seq<JobId>)
      modifies this`bounties, this`chain, this`unfulfilledCalls
      ensures DeadlineRun(old(State()), State(), keys, submitted, now, steps)
      ensures TickOutcome(old(State()), State(), users, submitted, now, completed, calls)
      ensures ReviewsSkipped(old(bounties), bounties, users, submitted, now)
      ensures ChainMarked(old(chain), chain, Called(calls), rpcOk)
    {
      ghost var s0, done1, steps1, calls1, done2, steps2, calls2 := State(), {}, [], [], {}, [], [];
      completed, done1, steps1, calls1 := ExpireSubmissions(now, submitted, rpcOk);
      ghost var s1 := State();
      if completed {
        completed, done2, steps2, calls2 := ExpireReviews(now, submitted, rpcOk);
        steps, calls := steps1 + steps2, calls1 + calls2;
        DeadlineRunConcat(s0, s1, State(), keys, submitted, now, steps1, steps2);
        NoneBlockedFirst(s0, s1, users, submitted, now, done1, calls1);
        ChainMarkedTwice(s0.chain, s1.chain, chain, calls1, calls2, rpcOk);
        TwoPasses(Stages(s0, s1, State()), users, submitted, now, (done1, done2), (calls1, calls2), completed);
      } else {
        steps, calls := steps1, calls1;
        FirstPassAborted(s0, s1, users, submitted, now, done1, calls);
      }
    }

    /** The body of the first loop. */
    method ExpireOpenRow(job: JobId, now: Time, submissions: nat, rpcOk: bool) returns (ok: bool)
      requires job in bounties && SubmissionsClosed(bounties[job], now)
      modifies this`bounties, this`chain, this`unfulfilledCalls
      ensures ok <==> submissions > 0 || old(bounties)[job].client in users
      ensures ok ==> State() == Apply(old(State()), keys, ExpireOpen(job, now, submissions, rpcOk))
      ensures ok ==> ChainMarked(old(chain), chain, if submissions == 0 then {job} else {}, if rpcOk then {job} else {})
      ensures !ok ==> State() == old(State())
    {
      if submissions == 0 {
        ok := MarkUnfulfilledAndAwaitRefund(job, bounties[job].client, rpcOk);
      } else {
        bounties := bounties[job := bounties[job].(state := UnderReview)];
        ok := true;
      }
    }

    /** The body of the second loop. */
    method ExpireReviewRow(job: JobId, now: Time, rpcOk: bool) returns (ok: bool)
      requires job in bounties && ReviewClosed(bounties[job], now)
      modifies this`bounties, this`chain, this`unfulfilledCalls
      ensures ok <==> old(bounties)[job].client in users
      ensures ok ==> State() == Apply(old(State()), keys, ExpireReview(job, now, rpcOk))
      ensures ok ==> ChainMarked(old(chain), chain, {job}, if rpcOk then {job} else {})
      ensures !ok ==> State() == old(State())
    {
      ok := MarkUnfulfilledAndAwaitRefund(job, bounties[job].client, rpcOk);
    }

    /** One row of either loop, with the bookkeeping of the tick: rewritten, or the row that stops it. */
    method ExpireRow(pass: Pass, ghost s0: System, job: JobId, now: Time, submitted: map<JobId, nat>, rpcOk: set<JobId>,
                     ghost done: set<JobId>, ghost steps: seq<Step>, ghost calls: seq<JobId>)
      returns (ok: bool, ghost done': set<JobId>, ghost steps': seq<Step>, ghost calls': seq<JobId>)
      requires job in s0.bounties && job !in done && Due(pass, s0.bounties[job], now)
      requires DeadlineRun(s0, State(), keys, submitted, now, steps)
      requires PassInv(pass, s0, State(), users, submitted, now, done, calls)
      requires ChainMarked(s0.chain, chain, Called(calls), rpcOk)
      modifies this`bounties, this`chain, this`unfulfilledCalls
      ensures ChainMarked(s0.chain, chain, Called(calls'), rpcOk)
      ensures DeadlineRun(s0, State(), keys, submitted, now, steps')
      ensures PassInv(pass, s0, State(), users, submitted, now, done', calls')
      ensures done' == if ok then done + {job} else done
      ensures !ok ==> Blocked(pass, s0.bounties[job], CountOf(submitted, job), now, users)
    {
      ghost var s := State();
      assert s.bounties[job] == s0.bounties[job];
      if pass.SubmissionPass? {
        ok := ExpireOpenRow(job, now, CountOf(submitted, job), job in rpcOk);
      } else {
        ok := ExpireReviewRow(job, now, job in rpcOk);
      }
      done', steps', calls' := done, steps, calls;
      if ok {
        ghost var step := StepFor(pass, job, submitted, now, rpcOk);
        PassStep(pass, s0, s, keys, users, submitted, now, rpcOk, done, calls, job);
        DeadlineRunStep(s0, s, keys, submitted, now, steps, step);
        done', steps' := done + {job}, steps + [step];
        if PassRow(pass, s0.bounties[job], CountOf(submitted, job), now).state.AwaitingRefund? {
          calls' := calls + [job];
        }
        ChainMarkedNext(s0.chain, s.chain, chain, calls, calls', job, rpcOk);
      }
    }

    /** The first loop: bounties open past their submission deadline. */
    method ExpireSubmissions(now: Time, submitted: map<JobId, nat>, rpcOk: set<JobId>)
      returns (completed: bool, ghost done: set<JobId>, ghost steps: seq<Step>, ghost calls: seq<JobId>)
      modifies this`bounties, this`chain, this`unfulfilledCalls
      ensures DeadlineRun(old(State()), State(), keys, submitted, now, steps)
      ensures PassInv(SubmissionPass, old(State()), State(), users, submitted, now, done, calls)
      ensures PassOutcome(SubmissionPass, old(bounties), users, submitted, now, done, completed)
      ensures ChainMarked(old(chain), chain, Called(calls), rpcOk)
    {
      var rows := Listing(set job: JobId | job in bounties && SubmissionsClosed(bounties[job], now));
      completed, done, steps, calls := ExpireRows(SubmissionPass, rows, now, submitted, rpcOk);
    }

    /** The second loop: bounties under review past their review deadline, as the first loop left them. */
    method ExpireReviews(now: Time, submitted: map<JobId, nat>, rpcOk: set<JobId>)
      returns (completed: bool, ghost done: set<JobId>, ghost steps: seq<Step>, ghost calls: seq<JobId>)
      modifies this`bounties, this`chain, this`unfulfilledCalls
      ensures DeadlineRun(old(State()), State(), keys, submitted, now, steps)
      ensures PassInv(ReviewPass, old(State()), State(), users, submitted, now, done, calls)
      ensures PassOutcome(ReviewPass, old(bounties), users, submitted, now, done, completed)
      ensures ChainMarked(old(chain), chain, Called(calls), rpcOk)
    {
      var rows := Listing(set job: JobId | job in bounties && ReviewClosed(bounties[job], now));
      completed, done, steps, calls := ExpireRows(ReviewPass, rows, now, submitted, rpcOk);
    }

    /** Either loop, over the rows its query returned. */
    method ExpireRows(pass: Pass, rows: seq<JobId>, now: Time, submitted: map<JobId, nat>, rpcOk: set<JobId>)
      returns (completed: bool, ghost done: set<JobId>, ghost steps: seq<Step>, ghost calls: seq<JobId>)
      requires NoDuplicates(rows)
      requires forall job :: job in rows <==> job in bounties && Due(pass, bounties[job], now)
      modifies this`bounties, this`chain, this`unfulfilledCalls
      ensures DeadlineRun(old(State()), State(), keys, submitted, now, steps)
      ensures PassInv(pass, old(State()), State(), users, submitted, now, done, calls)
      ensures PassOutcome(pass, old(bounties), users, submitted, now, done, completed)
      ensures ChainMarked(old(chain), chain, Called(calls), rpcOk)
    {
      ghost var s0 := State();
      done, steps, calls := {}, [], [];
      PassStart(pass, s0, users, submitted, now);
      for i := 0 to |rows|
        invariant DeadlineRun(s0, State(), keys, submitted, now, steps)
        invariant PassInv(pass, s0, State(), users, submitted, now, done, calls)
        invariant ChainMarked(s0.chain, chain, Called(calls), rpcOk)
        invariant forall job :: job in done <==> job in rows[..i]
      {
        assert rows[i] in rows && rows[i] !in rows[..i];
        assert rows[..i + 1] == rows[..i] + [rows[i]];
        completed, done, steps, calls := ExpireRow(pass, s0, rows[i], now, submitted, rpcOk, done, steps, calls);
        if !completed {
          return;
        }
      }
      assert rows[..|rows|] == rows;
      completed := true;
    }
  }
}
