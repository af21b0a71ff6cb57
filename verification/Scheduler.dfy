/** What one deadline tick does to a single bounty, and why missed, repeated or aborted ticks do not matter. */
module Scheduler {
  import opened Common
  import opened Lifecycle

  /** The first loop: submission deadlines. */
  function FirstPass(b: Bounty, submissions: nat, now: Time): Bounty {
    if !SubmissionsClosed(b, now) then b
    else b.(state := if submissions == 0 then AwaitingRefund else UnderReview)
  }

  /** The second loop: review deadlines, queried after the first loop has written. */
  function SecondPass(b: Bounty, now: Time): Bounty {
    if ReviewClosed(b, now) then b.(state := AwaitingRefund) else b
  }

  function TickRow(b: Bounty, submissions: nat, now: Time): Bounty {
    SecondPass(FirstPass(b, submissions, now), now)
  }

  /** The tick calls update_escrow(UnFulfilled) for this bounty. */
  predicate NeedsRefund(b: Bounty, submissions: nat, now: Time) {
    !b.state.AwaitingRefund? && TickRow(b, submissions, now).state.AwaitingRefund?
  }

  function CountOf(submitted: map<JobId, nat>, job: JobId): nat {
    if job in submitted then submitted[job] else 0
  }

  function TickTable(table: map<JobId, Bounty>, submitted: map<JobId, nat>, now: Time): map<JobId, Bounty> {
    map job | job in table :: TickRow(table[job], CountOf(submitted, job), now)
  }

  /** What a complete tick leaves behind, stated on the deadlines alone. */
  lemma TickRowMeaning(b: Bounty, submissions: nat, now: Time)
    ensures var t := TickRow(b, submissions, now);
      && t.(state := b.state) == b
      && !SubmissionsClosed(t, now) && !ReviewClosed(t, now)
      && (t.state == UnderReview && b.state == Open <==>
            b.state == Open && b.submissionDeadline < now && submissions > 0 && now <= b.reviewDeadline)
      && (t.state == AwaitingRefund && b.state != AwaitingRefund <==>
            || (b.state == Open && b.submissionDeadline < now && (submissions == 0 || b.reviewDeadline < now))
            || (b.state == UnderReview && b.reviewDeadline < now))
      && (t.state == b.state || t.state == UnderReview || t.state == AwaitingRefund)
      && (b.state != Open && b.state != UnderReview ==> t == b)
      && (b.state == Open && now <= b.submissionDeadline ==> t == b)
  {
  }

  /** A row that an aborted tick may leave: untouched, through the first loop, or through both. */
  predicate Progressed(before: Bounty, after: Bounty, submissions: nat, now: Time) {
    || after == before
    || after == FirstPass(before, submissions, now)
    || after == TickRow(before, submissions, now)
  }

  /** Where a row may stand after a tick, complete or not, on its dates and its number of submissions. */
  lemma ProgressedMeaning(b: Bounty, a: Bounty, submissions: nat, now: Time)
    ensures Progressed(b, a, submissions, now) <==>
      || a == b
      || (a == b.(state := UnderReview) && b.state == Open && b.submissionDeadline < now && submissions > 0)
      || (a == b.(state := AwaitingRefund)
          && ((b.state == Open && b.submissionDeadline < now && (submissions == 0 || b.reviewDeadline < now))
              || (b.state == UnderReview && b.reviewDeadline < now)))
  {
    TickRowMeaning(b, submissions, now);
  }

  /** A later tick on a row gives what it alone would have given, even if the first tick was cut short. */
  lemma CatchUpRow(before: Bounty, after: Bounty, submissions: nat, t1: Time, t2: Time)
    requires Progressed(before, after, submissions, t1) && t1 <= t2
    ensures TickRow(after, submissions, t2) == TickRow(before, submissions, t2)
    ensures NeedsRefund(before, submissions, t2) <==>
      (!before.state.AwaitingRefund? && after.state.AwaitingRefund?) || NeedsRefund(after, submissions, t2)
    ensures !((!before.state.AwaitingRefund? && after.state.AwaitingRefund?) && NeedsRefund(after, submissions, t2))
  {
  }

  ghost predicate Nondecreasing(times: seq<Time>) {
    forall i, j :: 0 <= i < j < |times| ==> times[i] <= times[j]
  }

  /** An interrupted tick is healed: a complete tick later gives what it would have given alone. */
  lemma InterruptedTickIsHealed(table: map<JobId, Bounty>, left: map<JobId, Bounty>, submitted: map<JobId, nat>,
                                t1: Time, t2: Time)
    requires t1 <= t2 && table.Keys == left.Keys
    requires forall job :: job in table ==> Progressed(table[job], left[job], CountOf(submitted, job), t1)
    ensures TickTable(left, submitted, t2) == TickTable(table, submitted, t2)
  {
    forall job | job in table
      ensures TickRow(left[job], CountOf(submitted, job), t2) == TickRow(table[job], CountOf(submitted, job), t2)
    {
      CatchUpRow(table[job], left[job], CountOf(submitted, job), t1, t2);
    }
  }

  /** A repeated tick changes nothing and calls nothing. */
  lemma RepeatedTickIsNoOp(table: map<JobId, Bounty>, submitted: map<JobId, nat>, now: Time)
    ensures var ticked := TickTable(table, submitted, now);
      && TickTable(ticked, submitted, now) == ticked
      && forall job :: job in ticked ==> !NeedsRefund(ticked[job], CountOf(submitted, job), now)
  {
  }

  // ---- The update_escrow(UnFulfilled) calls -------------------------------------------------

  predicate NewlyAwaiting(before: Bounty, after: Bounty) {
    after.state.AwaitingRefund? && !before.state.AwaitingRefund?
  }

  /** `calls` are the bounties moved to awaiting_refund between the two tables, once each. */
  ghost predicate CallsMatch(before: map<JobId, Bounty>, after: map<JobId, Bounty>, calls: seq<JobId>) {
    && before.Keys == after.Keys
    && NoDuplicates(calls)
    && (forall job :: job in calls <==> job in after && NewlyAwaiting(before[job], after[job]))
  }

  lemma CallsCompose(a: map<JobId, Bounty>, b: map<JobId, Bounty>, c: map<JobId, Bounty>,
                     first: seq<JobId>, second: seq<JobId>)
    requires CallsMatch(a, b, first) && CallsMatch(b, c, second)
    requires forall job :: job in b && a[job].state.AwaitingRefund? ==> b[job].state.AwaitingRefund?
    requires forall job :: job in b && b[job].state.AwaitingRefund? ==> c[job].state.AwaitingRefund?
    ensures CallsMatch(a, c, first + second)
  {
    forall job ensures job in first + second <==> job in c && NewlyAwaiting(a[job], c[job]) {}
    forall i, j | 0 <= i < j < |first + second| ensures (first + second)[i] != (first + second)[j] {
      if i < |first| <= j {
        assert first[i] in first && second[j - |first|] in second;
      }
    }
  }

  /** A tick, complete or cut short, that made these calls. */
  ghost predicate TickEffect(before: map<JobId, Bounty>, after: map<JobId, Bounty>, submitted: map<JobId, nat>,
                             now: Time, calls: seq<JobId>)
  {
    && CallsMatch(before, after, calls)
    && forall job :: job in before ==> Progressed(before[job], after[job], CountOf(submitted, job), now)
  }

  function Flatten(calls: seq<seq<JobId>>): seq<JobId> {
    if calls == [] then [] else calls[0] + Flatten(calls[1..])
  }

  /** `tables[i + 1]` is what the tick at `times[i]` left of `tables[i]`; the last tick is complete. */
  ghost predicate TickSeries(tables: seq<map<JobId, Bounty>>, submitted: map<JobId, nat>, times: seq<Time>,
                             calls: seq<seq<JobId>>)
  {
    && |tables| == |times| + 1 && |calls| == |times| && times != [] && Nondecreasing(times)
    && (forall i :: 0 <= i < |times| ==> TickEffect(tables[i], tables[i + 1], submitted, times[i], calls[i]))
    && tables[|times|] == TickTable(tables[|times| - 1], submitted, times[|times| - 1])
  }

  /**
   * A series of ticks, cut short or not, ending in a complete one: it leaves the table of its last
   * tick alone, and all its calls together are, once each, the calls of that tick alone.
   */
  lemma {:induction false} TicksCatchUp(tables: seq<map<JobId, Bounty>>, submitted: map<JobId, nat>,
                                        times: seq<Time>, calls: seq<seq<JobId>>)
    requires TickSeries(tables, submitted, times, calls)
    ensures var last := TickTable(tables[0], submitted, times[|times| - 1]);
      && tables[|times|] == last
      && CallsMatch(tables[0], last, Flatten(calls))
    decreases |times|
  {
    if |times| == 1 {
      assert TickEffect(tables[0], tables[1], submitted, times[0], calls[0]);
      assert Flatten(calls) == calls[0] + Flatten(calls[1..]) == calls[0];
    } else {
      TickSeriesTail(tables, submitted, times, calls);
      TicksCatchUp(tables[1..], submitted, times[1..], calls[1..]);
      var last := times[|times| - 1];
      assert TickEffect(tables[0], tables[1], submitted, times[0], calls[0]);
      InterruptedTickIsHealed(tables[0], tables[1], submitted, times[0], last);
      CallsCompose(tables[0], tables[1], tables[|times|], calls[0], Flatten(calls[1..]));
    }
  }

  lemma TickSeriesTail(tables: seq<map<JobId, Bounty>>, submitted: map<JobId, nat>, times: seq<Time>,
                       calls: seq<seq<JobId>>)
    requires TickSeries(tables, submitted, times, calls) && |times| > 1
    ensures TickSeries(tables[1..], submitted, times[1..], calls[1..])
  {
    forall i | 0 <= i < |times[1..]|
      ensures TickEffect(tables[1..][i], tables[1..][i + 1], submitted, times[1..][i], calls[1..][i])
    {
      assert TickEffect(tables[i + 1], tables[i + 2], submitted, times[i + 1], calls[i + 1]);
    }
  }
}
