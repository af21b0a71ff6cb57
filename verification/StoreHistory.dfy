/** Each stored row is the serial run of the calls about its own agent or client, and of no others. */
module StoreHistory {
  import opened Common
  import opened ReputationStore
  import AgentStats
  import OwnerStats

  /** What a call does to the agent's row, if it is about this agent. */
  function AgentCall(st: Store, e: Event, a: AgentId): seq<AgentStats.Event> {
    match e
    case AgentEvent(b, event, _) => if b == a && !event.Rate? then [event] else []
    case OwnerEvent(_, _) => []
    case SubmitRating(call, _) =>
      if Accepted(call) && call.agent == a then
        [AgentStats.Rate(Average(RatingsFor(UpsertRating(st.ratings, RatingOf(call)), a), call.score))]
      else []
  }

  function AgentHistory(agents: map<AgentId, seq<Category>>, es: seq<Event>, a: AgentId): seq<AgentStats.Event> {
    if es == [] then []
    else
      var front := es[..|es| - 1];
      AgentHistory(agents, front, a) + AgentCall(ApplyAll(EMPTY_STORE, agents, front), es[|es| - 1], a)
  }

  lemma ApplyAllSnoc(es: seq<AgentStats.Event>, e: AgentStats.Event)
    ensures AgentStats.ApplyAll(AgentStats.ZERO_ROW, es + [e])
         == AgentStats.Apply(AgentStats.ApplyAll(AgentStats.ZERO_ROW, es), e)
  {
    assert (es + [e])[..|es|] == es;
  }

  ghost predicate AgentRowFollows(table: map<AgentId, AgentStats.AgentRow>, a: AgentId,
                                  history: seq<AgentStats.Event>)
  {
    && (a in table <==> history != [])
    && (a in table ==> table[a] == AgentStats.ApplyAll(AgentStats.ZERO_ROW, history))
  }

  /** Which events a call applies to the row: at most one. */
  lemma AgentRowOfCall(st: Store, agents: map<AgentId, seq<Category>>, e: Event, a: AgentId)
    ensures var (before, after, call) := (st.agentStats, Apply(st, agents, e).agentStats, AgentCall(st, e, a));
      && |call| <= 1
      && (call == [] ==> (a in after <==> a in before) && (a in before ==> after[a] == before[a]))
      && (call != [] ==>
            a in after
            && after[a] == AgentStats.Apply(if a in before then before[a] else AgentStats.ZERO_ROW, call[0]))
  {
  }

  lemma AgentRowStep(st: Store, agents: map<AgentId, seq<Category>>, e: Event, a: AgentId,
                     history: seq<AgentStats.Event>)
    requires AgentRowFollows(st.agentStats, a, history)
    ensures AgentRowFollows(Apply(st, agents, e).agentStats, a, history + AgentCall(st, e, a))
  {
    var call := AgentCall(st, e, a);
    AgentRowOfCall(st, agents, e, a);
    if call != [] {
      assert call == [call[0]];
      ApplyAllSnoc(history, call[0]);
    } else {
      assert history + call == history;
    }
  }

  /** After every run an agent has a row iff a call was about it, and the row is the serial run of those calls. */
  lemma {:induction false} AgentRowIsOwnHistory(agents: map<AgentId, seq<Category>>, es: seq<Event>, a: AgentId)
    ensures AgentRowFollows(ApplyAll(EMPTY_STORE, agents, es).agentStats, a, AgentHistory(agents, es, a))
  {
    if es != [] {
      var front := es[..|es| - 1];
      AgentRowIsOwnHistory(agents, front, a);
      AgentRowStep(ApplyAll(EMPTY_STORE, agents, front), agents, es[|es| - 1], a, AgentHistory(agents, front, a));
    }
  }

  // ---- Clients ------------------------------------------------------------------------------

  function OwnerCall(e: Event, u: UserId): seq<OwnerStats.Event> {
    match e
    case AgentEvent(_, _, _) => []
    case OwnerEvent(v, event) => if v == u && !event.RatingGiven? then [event] else []
    case SubmitRating(call, _) => if Accepted(call) && call.caller == u then [OwnerStats.RatingGiven] else []
  }

  function OwnerHistory(es: seq<Event>, u: UserId): seq<OwnerStats.Event> {
    if es == [] then [] else OwnerHistory(es[..|es| - 1], u) + OwnerCall(es[|es| - 1], u)
  }

  ghost predicate OwnerRowFollows(table: map<UserId, OwnerStats.OwnerRow>, u: UserId, history: seq<OwnerStats.Event>) {
    && (u in table <==> history != [])
    && (u in table ==> table[u] == OwnerStats.ApplyAll(OwnerStats.ZERO_ROW, history))
  }

  lemma OwnerRowStep(st: Store, agents: map<AgentId, seq<Category>>, e: Event, u: UserId,
                     history: seq<OwnerStats.Event>)
    requires OwnerRowFollows(st.ownerStats, u, history)
    ensures OwnerRowFollows(Apply(st, agents, e).ownerStats, u, history + OwnerCall(e, u))
  {
    var call := OwnerCall(e, u);
    if call != [] {
      assert (history + [call[0]])[..|history|] == history;
    } else {
      assert history + call == history;
    }
  }

  /** The same for clients. */
  lemma {:induction false} OwnerRowIsOwnHistory(agents: map<AgentId, seq<Category>>, es: seq<Event>, u: UserId)
    ensures OwnerRowFollows(ApplyAll(EMPTY_STORE, agents, es).ownerStats, u, OwnerHistory(es, u))
  {
    if es != [] {
      var front := es[..|es| - 1];
      OwnerRowIsOwnHistory(agents, front, u);
      OwnerRowStep(ApplyAll(EMPTY_STORE, agents, front), agents, es[|es| - 1], u, OwnerHistory(front, u));
    }
  }
}
