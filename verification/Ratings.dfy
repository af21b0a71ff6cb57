/** What a history of rating calls leaves in the ratings table, in agent_stats and in owner_stats. */
module Ratings {
  import opened Common
  import opened ReputationStore
  import AgentStats
  import OwnerStats

  /** The accepted rating calls of a run, in order. */
  function History(es: seq<Event>): seq<Rating> {
    if es == [] then []
    else
      var last := es[|es| - 1];
      History(es[..|es| - 1])
      + (if last.SubmitRating? && Accepted(last.call) then [RatingOf(last.call)] else [])
  }

  /** `r` was accepted, and no later accepted call rated the same bounty and agent. */
  ghost predicate LastAccepted(history: seq<Rating>, r: Rating) {
    exists i :: 0 <= i < |history| && history[i] == r
             && forall j :: i < j < |history| ==> history[j].bounty != r.bounty || history[j].agent != r.agent
  }

  ghost predicate DistinctKeys(table: seq<Rating>) {
    forall i, j :: 0 <= i < j < |table| ==> table[i].bounty != table[j].bounty || table[i].agent != table[j].agent
  }

  ghost predicate HoldsLastAccepted(table: seq<Rating>, history: seq<Rating>) {
    DistinctKeys(table) && forall r :: r in table <==> LastAccepted(history, r)
  }

  lemma {:induction false} UpsertRatingEffect(table: seq<Rating>, x: Rating)
    requires DistinctKeys(table)
    ensures DistinctKeys(UpsertRating(table, x))
    ensures forall r :: r in UpsertRating(table, x) <==> r == x || (r in table && !SameKey(r, x))
  {
    if table != [] {
      var rest := table[1..];
      assert table == [table[0]] + rest;
      UpsertRatingEffect(rest, x);
      if SameKey(table[0], x) {
        assert forall r :: r in rest ==> !SameKey(r, x);
      } else {
        var t := UpsertRating(table, x);
        assert t[0] == table[0] && t[1..] == UpsertRating(rest, x);
        forall j | 1 <= j < |t| ensures !SameKey(t[0], t[j]) {
          assert t[j] in t[1..];
        }
        assert t == [t[0]] + t[1..];
      }
    }
  }

  lemma LastAcceptedStep(history: seq<Rating>, x: Rating, r: Rating)
    ensures LastAccepted(history + [x], r) <==> r == x || (LastAccepted(history, r) && !SameKey(r, x))
  {
    var h := history + [x];
    if r == x {
      assert h[|history|] == r;
    } else {
      if LastAccepted(h, r) {
        var i :| 0 <= i < |h| && h[i] == r && forall j :: i < j < |h| ==> !SameKey(h[j], r);
        assert h[|history|] == x;
        forall j | i < j < |history| ensures !SameKey(history[j], r) { assert h[j] == history[j]; }
        assert history[i] == r;
      }
      if LastAccepted(history, r) && !SameKey(r, x) {
        var i :| 0 <= i < |history| && history[i] == r
              && forall j :: i < j < |history| ==> history[j].bounty != r.bounty || history[j].agent != r.agent;
        assert h[i] == r;
        forall j | i < j < |h| ensures h[j].bounty != r.bounty || h[j].agent != r.agent {
          assert j < |history| ==> h[j] == history[j];
        }
      }
    }
  }

  function RunStore(agents: map<AgentId, seq<Category>>, es: seq<Event>): Store {
    ReputationStore.ApplyAll(EMPTY_STORE, agents, es)
  }

  /** The table holds one row per rated (bounty, agent): its last accepted rating. */
  lemma {:induction false} TableHoldsLastAccepted(agents: map<AgentId, seq<Category>>, es: seq<Event>)
    ensures HoldsLastAccepted(RunStore(agents, es).ratings, History(es))
  {
    if es != [] {
      var front, last := es[..|es| - 1], es[|es| - 1];
      TableHoldsLastAccepted(agents, front);
      if last.SubmitRating? && Accepted(last.call) {
        var x := RatingOf(last.call);
        UpsertRatingEffect(RunStore(agents, front).ratings, x);
        forall r ensures r in RunStore(agents, es).ratings <==> LastAccepted(History(es), r) {
          LastAcceptedStep(History(front), x, r);
        }
      } else {
        assert History(es) == History(front);
      }
    }
  }

  // ---- The average --------------------------------------------------------------------------

  lemma {:induction false} RatingsForMembers(table: seq<Rating>, a: AgentId)
    ensures forall r :: r in RatingsFor(table, a) <==> r in table && r.agent == a
  {
    if table != [] {
      RatingsForMembers(table[1..], a);
      assert table == [table[0]] + table[1..];
    }
  }

  lemma {:induction false} UpsertKeepsOthers(table: seq<Rating>, x: Rating, a: AgentId)
    requires x.agent != a
    ensures RatingsFor(UpsertRating(table, x), a) == RatingsFor(table, a)
  {
    if table != [] {
      UpsertKeepsOthers(table[1..], x, a);
      var t := UpsertRating(table, x);
      assert t[1..] == if SameKey(table[0], x) then table[1..] else UpsertRating(table[1..], x);
    }
  }

  ghost predicate AverageStored(st: Store, a: AgentId) {
    AgentRowOf(st.agentStats, a).avgQuality == Average(RatingsFor(st.ratings, a), 0.0)
  }

  lemma ApplyAgentKeepsAverage(st: Store, agents: map<AgentId, seq<Category>>, b: AgentId,
                               e: AgentStats.Event, month: Month, a: AgentId)
    requires AverageStored(st, a) && !e.Rate?
    ensures AverageStored(ApplyAgent(st, agents, b, e, month), a)
  {
  }

  lemma ApplyRatingAverage(st: Store, agents: map<AgentId, seq<Category>>, call: RatingCall, month: Month, a: AgentId)
    requires Accepted(call)
    ensures var st' := ApplyRating(st, agents, call, month);
      && st'.ratings == UpsertRating(st.ratings, RatingOf(call))
      && AgentRowOf(st'.agentStats, a).avgQuality
         == if a == call.agent then Average(RatingsFor(st'.ratings, a), call.score)
            else AgentRowOf(st.agentStats, a).avgQuality
  {
  }

  lemma ApplyRatingStoresAverage(st: Store, agents: map<AgentId, seq<Category>>, call: RatingCall, month: Month,
                                 a: AgentId)
    requires AverageStored(st, a) && DistinctKeys(st.ratings)
    ensures AverageStored(ApplyRating(st, agents, call, month), a)
  {
    if Accepted(call) {
      ApplyRatingAverage(st, agents, call, month, a);
      var table := UpsertRating(st.ratings, RatingOf(call));
      if a == call.agent {
        UpsertRatingEffect(st.ratings, RatingOf(call));
        RatingsForMembers(table, a);
        assert RatingOf(call) in RatingsFor(table, a);
      } else {
        UpsertKeepsOthers(st.ratings, RatingOf(call), a);
      }
    }
  }

  /** After any run, each agent's avg_quality_rating is the mean over its rows (0 with none). */
  lemma {:induction false} AverageIsMeanOfLastAccepted(agents: map<AgentId, seq<Category>>, es: seq<Event>, a: AgentId)
    ensures var st := RunStore(agents, es);
      && HoldsLastAccepted(st.ratings, History(es))
      && AverageStored(st, a)
  {
    TableHoldsLastAccepted(agents, es);
    if es != [] {
      var front, last := es[..|es| - 1], es[|es| - 1];
      AverageIsMeanOfLastAccepted(agents, front, a);
      match last
      case OwnerEvent(_, _) =>
      case AgentEvent(b, e, month) =>
        if !e.Rate? {
          ApplyAgentKeepsAverage(RunStore(agents, front), agents, b, e, month, a);
        }
      case SubmitRating(call, month) =>
        ApplyRatingStoresAverage(RunStore(agents, front), agents, call, month, a);
    }
  }

  lemma {:induction false} CountOne<T>(xs: seq<T>, x: T)
    requires NoDuplicates(xs)
    ensures multiset(xs)[x] == if x in xs then 1 else 0
  {
    if xs != [] {
      assert xs == [xs[0]] + xs[1..];
      CountOne(xs[1..], x);
      if x == xs[0] {
        assert x !in xs[1..];
      }
    }
  }

  lemma SameMembers<T>(xs: seq<T>, ys: seq<T>)
    requires NoDuplicates(xs) && NoDuplicates(ys) && forall x :: x in xs <==> x in ys
    ensures multiset(xs) == multiset(ys)
  {
    forall x: T ensures multiset(xs)[x] == multiset(ys)[x] {
      CountOne(xs, x);
      CountOne(ys, x);
    }
  }

  lemma {:induction false} RatingsForDistinct(table: seq<Rating>, a: AgentId)
    requires DistinctKeys(table)
    ensures NoDuplicates(RatingsFor(table, a))
  {
    if table != [] {
      RatingsForDistinct(table[1..], a);
      RatingsForMembers(table[1..], a);
      assert table == [table[0]] + table[1..];
      if table[0].agent == a {
        assert table[0] !in table[1..];
      }
    }
  }

  /** The last accepted rating of each bounty of the agent, once each, in any order. */
  ghost predicate Lists(rows: seq<Rating>, history: seq<Rating>, a: AgentId) {
    NoDuplicates(rows) && forall r :: r in rows <==> LastAccepted(history, r) && r.agent == a
  }

  /**
   * The mean, on the ratings themselves: the stored average times the number of last accepted ratings
   * of the agent is the sum of their scores, and it is 0 for none.
   */
  lemma AverageTimesCountIsSum(agents: map<AgentId, seq<Category>>, es: seq<Event>, a: AgentId, rows: seq<Rating>)
    requires Lists(rows, History(es), a)
    ensures MeanStored(RunStore(agents, es).agentStats, a, rows)
  {
    var st := RunStore(agents, es);
    AverageIsMeanOfLastAccepted(agents, es, a);
    ListsTable(st.ratings, History(es), a, rows);
    if RatingsFor(st.ratings, a) != [] {
      RatedAgentHasRow(agents, es, a);
    }
    MeanInStore(st, a, rows);
  }

  ghost predicate MeanStored(table: map<AgentId, AgentStats.AgentRow>, a: AgentId, rows: seq<Rating>) {
    && (rows != [] ==> a in table && table[a].avgQuality * |rows| as real == SumOf(Score, rows))
    && (rows == [] && a in table ==> table[a].avgQuality == 0.0)
  }

  lemma ListsTable(table: seq<Rating>, history: seq<Rating>, a: AgentId, rows: seq<Rating>)
    requires HoldsLastAccepted(table, history) && Lists(rows, history, a)
    ensures forall r :: r in rows <==> r in table && r.agent == a
  {
  }

  lemma MeanInStore(st: Store, a: AgentId, rows: seq<Rating>)
    requires DistinctKeys(st.ratings) && AverageStored(st, a)
    requires NoDuplicates(rows) && forall r :: r in rows <==> r in st.ratings && r.agent == a
    requires RatingsFor(st.ratings, a) != [] ==> a in st.agentStats
    ensures MeanStored(st.agentStats, a, rows)
  {
    RatingsForMembers(st.ratings, a);
    RatingsForDistinct(st.ratings, a);
    MeanOfRows(rows, RatingsFor(st.ratings, a));
    if rows != [] {
      assert rows[0] in RatingsFor(st.ratings, a);
    }
  }

  lemma MeanOfRows(rows: seq<Rating>, own: seq<Rating>)
    requires NoDuplicates(rows) && NoDuplicates(own) && forall r :: r in rows <==> r in own
    ensures rows != [] ==> Average(own, 0.0) * |rows| as real == SumOf(Score, rows)
    ensures rows == [] ==> Average(own, 0.0) == 0.0
  {
    SameMembers(rows, own);
    SumOfPermutation(Score, rows, own);
    assert |rows| == |multiset(rows)| == |multiset(own)| == |own|;
    if rows != [] {
      QuotientTimes(SumOf(Score, own), |own| as real);
    }
  }

  lemma QuotientTimes(s: real, n: real)
    requires n > 0.0
    ensures (s / n) * n == s
  {
  }

  lemma {:induction false} RatedAgentHasRow(agents: map<AgentId, seq<Category>>, es: seq<Event>, a: AgentId)
    requires RatingsFor(RunStore(agents, es).ratings, a) != []
    ensures a in RunStore(agents, es).agentStats
  {
    if es != [] {
      var front, last := es[..|es| - 1], es[|es| - 1];
      if RatingsFor(RunStore(agents, front).ratings, a) != [] {
        RatedAgentHasRow(agents, front, a);
      } else if last.SubmitRating? && Accepted(last.call) && last.call.agent != a {
        UpsertKeepsOthers(RunStore(agents, front).ratings, RatingOf(last.call), a);
      }
    }
  }

  /** The database may return the agent's rows in any order. */
  lemma AverageIsOrderFree(rows: seq<Rating>, shuffled: seq<Rating>, otherwise: real)
    requires multiset(rows) == multiset(shuffled)
    ensures Average(rows, otherwise) == Average(shuffled, otherwise)
  {
    SumOfPermutation(Score, rows, shuffled);
    assert |rows| == |multiset(rows)| && |shuffled| == |multiset(shuffled)|;
  }

  /** The average of a rated agent lies between the extremes of its last accepted scores. */
  lemma AverageBetweenExtremes(agents: map<AgentId, seq<Category>>, es: seq<Event>, a: AgentId, lo: real, hi: real)
    requires exists r :: LastAccepted(History(es), r) && r.agent == a
    requires forall r :: LastAccepted(History(es), r) && r.agent == a ==> lo <= r.score <= hi
    ensures lo <= AgentRowOf(RunStore(agents, es).agentStats, a).avgQuality <= hi
  {
    AverageIsMeanOfLastAccepted(agents, es, a);
    var st := RunStore(agents, es);
    var rows := RatingsFor(st.ratings, a);
    RatingsForMembers(st.ratings, a);
    var r :| LastAccepted(History(es), r) && r.agent == a;
    assert r in rows;
    AverageBounds(rows, lo, hi);
  }

  lemma AverageBounds(rows: seq<Rating>, lo: real, hi: real)
    requires rows != [] && forall r :: r in rows ==> lo <= r.score <= hi
    ensures lo <= Average(rows, 0.0) <= hi
  {
    SumOfBounds(Score, rows, lo, hi);
    QuotientBetween(SumOf(Score, rows), |rows| as real, lo, hi);
  }

  lemma QuotientBetween(s: real, n: real, lo: real, hi: real)
    requires n > 0.0 && n * lo <= s <= n * hi
    ensures lo <= s / n <= hi
  {
    assert (s / n) * n == s;
    assert (s / n - lo) * n >= 0.0;
    assert (hi - s / n) * n >= 0.0;
  }

  // ---- Ratings given ------------------------------------------------------------------------

  function AcceptedBy(es: seq<Event>, u: UserId): nat {
    if es == [] then 0 else AcceptedBy(es[..|es| - 1], u) + AcceptedFrom(es[|es| - 1], u)
  }

  function RowsOf(table: seq<Rating>, u: UserId): nat {
    if table == [] then 0 else (if table[0].client == u then 1 else 0) + RowsOf(table[1..], u)
  }

  lemma {:induction false} UpsertAddsAtMostOneRow(table: seq<Rating>, x: Rating, u: UserId)
    ensures RowsOf(UpsertRating(table, x), u) <= RowsOf(table, u) + (if x.client == u then 1 else 0)
  {
    if table != [] {
      UpsertAddsAtMostOneRow(table[1..], x, u);
      var t := UpsertRating(table, x);
      assert t[1..] == if SameKey(table[0], x) then table[1..] else UpsertRating(table[1..], x);
    }
  }

  function AcceptedFrom(e: Event, u: UserId): nat {
    if e.SubmitRating? && Accepted(e.call) && e.call.caller == u then 1 else 0
  }

  function RatingsGiven(st: Store, u: UserId): nat {
    OwnerRowOf(st.ownerStats, u).ratingsGiven
  }

  lemma RatingsGivenStep(st: Store, agents: map<AgentId, seq<Category>>, e: Event, u: UserId)
    ensures var st' := Apply(st, agents, e);
      && RatingsGiven(st', u) == RatingsGiven(st, u) + AcceptedFrom(e, u)
      && RowsOf(st'.ratings, u) <= RowsOf(st.ratings, u) + AcceptedFrom(e, u)
  {
    if e.SubmitRating? && Accepted(e.call) {
      UpsertAddsAtMostOneRow(st.ratings, RatingOf(e.call), u);
    }
  }

  /** ratings_given counts the client's accepted calls, so it is at least the number of rows it owns. */
  lemma {:induction false} RatingsGivenCountsCalls(agents: map<AgentId, seq<Category>>, es: seq<Event>, u: UserId)
    ensures var st := RunStore(agents, es);
      && RatingsGiven(st, u) == AcceptedBy(es, u)
      && RowsOf(st.ratings, u) <= RatingsGiven(st, u)
  {
    if es != [] {
      RatingsGivenCountsCalls(agents, es[..|es| - 1], u);
      RatingsGivenStep(RunStore(agents, es[..|es| - 1]), agents, es[|es| - 1], u);
    }
  }
}
