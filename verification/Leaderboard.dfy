/** The leaderboards as an index of agent_stats, and the fifty entries a query returns. */
module Leaderboard {
  import opened Common
  import opened ReputationStore
  import AgentStats

  /** The agent whose score the event pushes, if any. */
  function ScoredBy(e: Event): Option<AgentId> {
    match e
    case AgentEvent(a, event, _) => if event.Submit? || event.Win? then Some(a) else None
    case OwnerEvent(_, _) => None
    case SubmitRating(call, _) => if Accepted(call) then Some(call.agent) else None
  }

  function MonthOf(e: Event): Month {
    match e
    case AgentEvent(_, _, month) => month
    case OwnerEvent(_, _) => 0
    case SubmitRating(_, month) => month
  }

  ghost predicate Scored(es: seq<Event>, a: AgentId) {
    exists e :: e in es && ScoredBy(e) == Some(a)
  }

  /** The month of the last event that pushed the agent's score. */
  function LastMonth(es: seq<Event>, a: AgentId): Option<Month> {
    if es == [] then None
    else if ScoredBy(es[|es| - 1]) == Some(a) then Some(MonthOf(es[|es| - 1]))
    else LastMonth(es[..|es| - 1], a)
  }

  ghost predicate GlobalIsIndex(st: Store) {
    forall a :: a in st.board.global ==>
      a in st.agentStats && st.board.global[a] == st.agentStats[a].composite
  }

  ghost predicate CategoryIsRestriction(board: Board, agents: map<AgentId, seq<Category>>, cat: Category) {
    var members := SetOf(board.category, cat);
    && (forall a :: a in members <==> a in board.global && a in agents && cat in agents[a])
    && (forall a :: a in members ==> members[a] == board.global[a])
  }

  ghost predicate MonthIsCurrent(st: Store, es: seq<Event>, a: AgentId) {
    match LastMonth(es, a)
    case None => true
    case Some(m) =>
      && a in st.agentStats
      && a in SetOf(st.board.monthly, m)
      && SetOf(st.board.monthly, m)[a] == st.agentStats[a].composite
  }

  ghost predicate Indexed(st: Store, agents: map<AgentId, seq<Category>>, es: seq<Event>) {
    && GlobalIsIndex(st)
    && (forall a :: a in st.board.global <==> Scored(es, a))
    && (forall cat :: CategoryIsRestriction(st.board, agents, cat))
    && (forall a :: MonthIsCurrent(st, es, a))
  }

  lemma {:induction false} PushCategoriesEffect(
    sets: map<Category, ScoreSet>, cats: seq<Category>, a: AgentId, score: real, cat: Category)
    ensures SetOf(PushCategories(sets, cats, a, score), cat)
         == if cat in cats then SetOf(sets, cat)[a := score] else SetOf(sets, cat)
  {
    if cats != [] {
      var front := cats[..|cats| - 1];
      PushCategoriesEffect(sets, front, a, score, cat);
      assert cats == front + [cats[|cats| - 1]];
    }
  }

  lemma PushKeepsRestriction(
    board: Board, agents: map<AgentId, seq<Category>>, month: Month, a: AgentId, score: real, cat: Category)
    requires CategoryIsRestriction(board, agents, cat)
    ensures CategoryIsRestriction(Push(board, agents, month, a, score), agents, cat)
  {
    if a in agents {
      PushCategoriesEffect(board.category, agents[a], a, score, cat);
    }
  }

  lemma ScoredSnoc(es: seq<Event>, e: Event, b: AgentId)
    ensures Scored(es + [e], b) <==> Scored(es, b) || ScoredBy(e) == Some(b)
  {
    assert e in es + [e];
    if Scored(es, b) {
      var x :| x in es && ScoredBy(x) == Some(b);
      assert x in es + [e];
    }
  }

  lemma MonthStaysCurrent(st: Store, agents: map<AgentId, seq<Category>>, es: seq<Event>, e: Event,
                          a: AgentId, event: AgentStats.Event, month: Month, b: AgentId)
    requires MonthIsCurrent(st, es, b)
    requires ScoredBy(e) == (if event.Register? then None else Some(a))
    requires MonthOf(e) == month
    ensures MonthIsCurrent(ApplyAgent(st, agents, a, event, month), es + [e], b)
  {
    assert (es + [e])[..|es|] == es;
  }

  /** Changing one row and pushing its new score keeps the index exact. */
  lemma ApplyAgentIndexed(st: Store, agents: map<AgentId, seq<Category>>, es: seq<Event>, e: Event,
                          a: AgentId, event: AgentStats.Event, month: Month)
    requires Indexed(st, agents, es)
    requires ScoredBy(e) == (if event.Register? then None else Some(a))
    requires MonthOf(e) == month
    ensures Indexed(ApplyAgent(st, agents, a, event, month), agents, es + [e])
  {
    var st' := ApplyAgent(st, agents, a, event, month);
    forall b: AgentId ensures Scored(es + [e], b) <==> Scored(es, b) || ScoredBy(e) == Some(b) {
      ScoredSnoc(es, e, b);
    }
    forall b: AgentId ensures MonthIsCurrent(st', es + [e], b) {
      MonthStaysCurrent(st, agents, es, e, a, event, month, b);
    }
    BoardStaysIndex(st, agents, a, event, month);
  }

  lemma BoardStaysIndex(st: Store, agents: map<AgentId, seq<Category>>, a: AgentId, event: AgentStats.Event,
                        month: Month)
    requires GlobalIsIndex(st) && forall cat :: CategoryIsRestriction(st.board, agents, cat)
    ensures var st' := ApplyAgent(st, agents, a, event, month);
      && GlobalIsIndex(st') && (forall cat :: CategoryIsRestriction(st'.board, agents, cat))
      && st'.board.global.Keys == st.board.global.Keys + (if event.Register? then {} else {a})
  {
    var st' := ApplyAgent(st, agents, a, event, month);
    if !event.Register? {
      forall cat ensures CategoryIsRestriction(st'.board, agents, cat) {
        PushKeepsRestriction(st.board, agents, month, a, st'.agentStats[a].composite, cat);
      }
    }
  }

  lemma UnscoredIndexed(st: Store, st': Store, agents: map<AgentId, seq<Category>>, es: seq<Event>, e: Event)
    requires Indexed(st, agents, es) && ScoredBy(e) == None
    requires st'.agentStats == st.agentStats && st'.board == st.board
    ensures Indexed(st', agents, es + [e])
  {
    assert (es + [e])[..|es|] == es;
    forall b: AgentId ensures Scored(es + [e], b) <==> Scored(es, b) {
      if Scored(es, b) {
        var x :| x in es && ScoredBy(x) == Some(b);
        assert x in es + [e];
      }
    }
    forall b: AgentId ensures MonthIsCurrent(st', es + [e], b) {
      assert MonthIsCurrent(st, es, b);
    }
  }

  lemma ApplyIndexed(st: Store, agents: map<AgentId, seq<Category>>, es: seq<Event>, e: Event)
    requires Indexed(st, agents, es)
    ensures Indexed(Apply(st, agents, e), agents, es + [e])
  {
    match e
    case OwnerEvent(_, _) => UnscoredIndexed(st, Apply(st, agents, e), agents, es, e);
    case AgentEvent(a, event, month) =>
      if event.Rate? {
        UnscoredIndexed(st, Apply(st, agents, e), agents, es, e);
      } else {
        ApplyAgentIndexed(st, agents, es, e, a, event, month);
      }
    case SubmitRating(call, month) =>
      if Accepted(call) {
        var st1 := st.(ratings := UpsertRating(st.ratings, RatingOf(call)));
        var average := Average(RatingsFor(st1.ratings, call.agent), call.score);
        assert Indexed(st1, agents, es) by {
          forall b: AgentId ensures MonthIsCurrent(st1, es, b) { assert MonthIsCurrent(st, es, b); }
        }
        ApplyAgentIndexed(st1, agents, es, e, call.agent, AgentStats.Rate(average), month);
        var st2 := ApplyAgent(st1, agents, call.agent, AgentStats.Rate(average), month);
        var st3 := Apply(st, agents, e);
        forall b: AgentId ensures MonthIsCurrent(st3, es + [e], b) { assert MonthIsCurrent(st2, es + [e], b); }
      } else {
        UnscoredIndexed(st, Apply(st, agents, e), agents, es, e);
      }
  }

  /**
   * After every serial run: the global set holds exactly the agents with a scoring event, each
   * at its stored composite score; each category set is the global set restricted to the agents
   * of that category; and an agent's entry in the month of its last scoring event is current.
   */
  lemma {:induction false} LeaderboardsAreFaithful(agents: map<AgentId, seq<Category>>, es: seq<Event>)
    ensures Indexed(ReputationStore.ApplyAll(EMPTY_STORE, agents, es), agents, es)
  {
    if es != [] {
      var front := es[..|es| - 1];
      LeaderboardsAreFaithful(agents, front);
      ApplyIndexed(ReputationStore.ApplyAll(EMPTY_STORE, agents, front), agents, front, es[|es| - 1]);
      assert es == front + [es[|es| - 1]];
    }
  }

  /** The agent's score after its last scoring event of the month. */
  function LastScore(agents: map<AgentId, seq<Category>>, es: seq<Event>, a: AgentId, m: Month): Option<real> {
    if es == [] then None
    else if ScoredBy(es[|es| - 1]) == Some(a) && MonthOf(es[|es| - 1]) == m then
      var table := ReputationStore.ApplyAll(EMPTY_STORE, agents, es).agentStats;
      if a in table then Some(table[a].composite) else None
    else LastScore(agents, es[..|es| - 1], a, m)
  }

  function MonthEntry(board: Board, a: AgentId, m: Month): Option<real> {
    if m in board.monthly && a in board.monthly[m] then Some(board.monthly[m][a]) else None
  }

  lemma PushedEntry(st: Store, agents: map<AgentId, seq<Category>>, b: AgentId, event: AgentStats.Event, month: Month,
                    a: AgentId, m: Month)
    ensures var st' := ApplyAgent(st, agents, b, event, month);
      if !event.Register? && b == a && month == m
      then a in st'.agentStats && MonthEntry(st'.board, a, m) == Some(st'.agentStats[a].composite)
      else MonthEntry(st'.board, a, m) == MonthEntry(st.board, a, m)
  {
  }

  lemma MonthEntryStep(st: Store, agents: map<AgentId, seq<Category>>, e: Event, a: AgentId, m: Month)
    ensures var st' := Apply(st, agents, e);
      if ScoredBy(e) == Some(a) && MonthOf(e) == m
      then a in st'.agentStats && MonthEntry(st'.board, a, m) == Some(st'.agentStats[a].composite)
      else MonthEntry(st'.board, a, m) == MonthEntry(st.board, a, m)
  {
    match e
    case OwnerEvent(_, _) =>
    case AgentEvent(b, event, month) => PushedEntry(st, agents, b, event, month, a, m);
    case SubmitRating(call, month) =>
      var st1 := st.(ratings := UpsertRating(st.ratings, RatingOf(call)));
      var average := Average(RatingsFor(st1.ratings, call.agent), call.score);
      PushedEntry(st1, agents, call.agent, AgentStats.Rate(average), month, a, m);
  }

  /** Every monthly set holds, for each agent scored in that month, its last score of the month, and nobody else. */
  lemma {:induction false} MonthlyHoldsLastScores(agents: map<AgentId, seq<Category>>, es: seq<Event>,
                                                  a: AgentId, m: Month)
    ensures MonthEntry(ReputationStore.ApplyAll(EMPTY_STORE, agents, es).board, a, m) == LastScore(agents, es, a, m)
  {
    if es != [] {
      var front := es[..|es| - 1];
      MonthlyHoldsLastScores(agents, front, a, m);
      MonthEntryStep(ReputationStore.ApplyAll(EMPTY_STORE, agents, front), agents, es[|es| - 1], a, m);
    }
  }

  // ---- Queries ------------------------------------------------------------------------------

  datatype Entry = Entry(agent: AgentId, score: real)

  /** Reverse sorted-set order: higher scores first, equal scores by member, descending. */
  predicate Outranks(x: Entry, y: Entry) {
    x.score > y.score || (x.score == y.score && x.agent > y.agent)
  }

  /** The first `limit` entries of a sorted set in reverse order. */
  ghost predicate TopEntries(members: ScoreSet, limit: nat, entries: seq<Entry>) {
    && |entries| == (if |members| < limit then |members| else limit)
    && (forall i :: 0 <= i < |entries| ==>
          entries[i].agent in members && entries[i].score == members[entries[i].agent])
    && (forall i, j :: 0 <= i < j < |entries| ==> Outranks(entries[i], entries[j]))
    && (forall a, i :: a in members && 0 <= i < |entries| && (forall k :: 0 <= k < |entries| ==> entries[k].agent != a)
          ==> Outranks(entries[i], Entry(a, members[a])))
  }

  /**
   * What the answer is worth: at most `limit` members at their scores, scores falling, ties by falling
   * id, and nobody left out scores higher than anybody returned.
   */
  lemma TopEntriesMeaning(members: ScoreSet, limit: nat, entries: seq<Entry>)
    requires TopEntries(members, limit, entries)
    ensures |entries| <= limit && (|entries| < limit ==> |entries| == |members|)
    ensures forall x :: x in entries ==> x.agent in members && x.score == members[x.agent]
    ensures forall i, j :: 0 <= i < j < |entries| ==>
      && entries[i].score >= entries[j].score
      && (entries[i].score == entries[j].score ==> entries[i].agent > entries[j].agent)
    ensures forall a, x :: a in members && x in entries && (forall y :: y in entries ==> y.agent != a) ==>
      members[a] <= x.score
  {
    forall a, x | a in members && x in entries && (forall y :: y in entries ==> y.agent != a)
      ensures members[a] <= x.score
    {
      var i :| 0 <= i < |entries| && entries[i] == x;
      assert forall k :: 0 <= k < |entries| ==> entries[k] in entries;
      assert Outranks(entries[i], Entry(a, members[a]));
    }
  }

  /** The requirement leaves no choice: two answers to the same query are equal. */
  lemma TopEntriesUnique(members: ScoreSet, limit: nat, xs: seq<Entry>, ys: seq<Entry>)
    requires TopEntries(members, limit, xs) && TopEntries(members, limit, ys)
    ensures xs == ys
  {
    forall i | 0 <= i < |xs| ensures xs[i] == ys[i] {
      SameEntry(members, limit, xs, ys, i);
    }
  }

  lemma {:induction false} SameEntry(members: ScoreSet, limit: nat, xs: seq<Entry>, ys: seq<Entry>, i: nat)
    requires TopEntries(members, limit, xs) && TopEntries(members, limit, ys) && i < |xs|
    ensures xs[i] == ys[i]
    decreases i
  {
    forall k | 0 <= k < i ensures xs[k] == ys[k] {
      SameEntry(members, limit, xs, ys, k);
    }
    NotOutranked(members, limit, xs, ys, i);
    NotOutranked(members, limit, ys, xs, i);
  }

  /** With equal prefixes, the i-th entry of `ys` cannot outrank that of `xs`. */
  lemma NotOutranked(members: ScoreSet, limit: nat, xs: seq<Entry>, ys: seq<Entry>, i: nat)
    requires TopEntries(members, limit, xs) && TopEntries(members, limit, ys) && i < |xs|
    requires forall k :: 0 <= k < i ==> xs[k] == ys[k]
    ensures !Outranks(ys[i], xs[i])
  {
    var x, y := xs[i], ys[i];
    assert y == Entry(y.agent, members[y.agent]);
    if k :| 0 <= k < |xs| && xs[k].agent == y.agent {
      assert xs[k] == y;
      if i <= k {
        assert k == i || Outranks(xs[i], xs[k]);
        OutranksAsymmetric(x, y);
      } else {
        assert Outranks(ys[k], ys[i]);
        OutranksAsymmetric(y, y);
      }
    } else {
      assert Outranks(x, Entry(y.agent, members[y.agent]));
      OutranksAsymmetric(x, y);
    }
  }

  lemma OutranksAsymmetric(x: Entry, y: Entry)
    ensures !(Outranks(x, y) && Outranks(y, x))
  {
  }
}
