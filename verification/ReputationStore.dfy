/**
 * The tables the reputation service writes (agent_stats, owner_stats, ratings, and the Redis
 * leaderboards) as one value, and the effect of each call on them when calls do not overlap.
 */
module ReputationStore {
  import opened Common
  import AgentStats
  import Lifecycle
  import OwnerStats

  type Month = nat
  type Category = string
  type ScoreSet = map<AgentId, real>

  datatype Rating = Rating(bounty: JobId, agent: AgentId, client: UserId, score: real, wasOnTime: bool)

  /** The three leaderboard namespaces. */
  datatype Board = Board(global: ScoreSet, monthly: map<Month, ScoreSet>, category: map<Category, ScoreSet>)

  datatype Store = Store(
    agentStats: map<AgentId, AgentStats.AgentRow>,
    ownerStats: map<UserId, OwnerStats.OwnerRow>,
    ratings: seq<Rating>,
    board: Board)

  const EMPTY_STORE := Store(map[], map[], [], Board(map[], map[], map[]))

  /** The columns of a bounty row that a rating call checks. */
  datatype BountyView = BountyView(client: UserId, state: Lifecycle.BountyState, winner: Option<AgentId>)

  datatype RatingCall = RatingCall(
    bounty: JobId, caller: UserId, agent: AgentId, score: real, wasOnTime: bool, found: Option<BountyView>)

  datatype Event =
    | AgentEvent(agent: AgentId, event: AgentStats.Event, month: Month)
    | OwnerEvent(owner: UserId, ownerEvent: OwnerStats.Event)
    | SubmitRating(call: RatingCall, month: Month)

  // ---- Tables -------------------------------------------------------------------------------

  function AgentRowOf(table: map<AgentId, AgentStats.AgentRow>, a: AgentId): AgentStats.AgentRow {
    if a in table then table[a] else AgentStats.ZERO_ROW
  }

  function OwnerRowOf(table: map<UserId, OwnerStats.OwnerRow>, u: UserId): OwnerStats.OwnerRow {
    if u in table then table[u] else OwnerStats.ZERO_ROW
  }

  function SetOf<K(==)>(sets: map<K, ScoreSet>, key: K): ScoreSet {
    if key in sets then sets[key] else map[]
  }

  predicate SameKey(a: Rating, b: Rating) {
    a.bounty == b.bounty && a.agent == b.agent
  }

  /** Insert, or replace the row with the same (bounty, agent). */
  function UpsertRating(table: seq<Rating>, r: Rating): seq<Rating> {
    if table == [] then [r]
    else if SameKey(table[0], r) then [r] + table[1..]
    else [table[0]] + UpsertRating(table[1..], r)
  }

  function RatingsFor(table: seq<Rating>, a: AgentId): seq<Rating> {
    if table == [] then []
    else (if table[0].agent == a then [table[0]] else []) + RatingsFor(table[1..], a)
  }

  function Score(r: Rating): real { r.score }

  /** The mean of the scores; the call's own score when there is no row. */
  function Average(rows: seq<Rating>, otherwise: real): real {
    if |rows| > 0 then SumOf(Score, rows) / |rows| as real else otherwise
  }

  // ---- Leaderboards -------------------------------------------------------------------------

  function PushCategories(sets: map<Category, ScoreSet>, cats: seq<Category>, a: AgentId, score: real)
    : map<Category, ScoreSet>
  {
    if cats == [] then sets
    else
      var rest := PushCategories(sets, cats[..|cats| - 1], a, score);
      var cat := cats[|cats| - 1];
      rest[cat := SetOf(rest, cat)[a := score]]
  }

  function Push(board: Board, agents: map<AgentId, seq<Category>>, month: Month, a: AgentId, score: real): Board {
    Board(board.global[a := score],
          board.monthly[month := SetOf(board.monthly, month)[a := score]],
          if a in agents then PushCategories(board.category, agents[a], a, score) else board.category)
  }

  // ---- Calls --------------------------------------------------------------------------------

  function ApplyAgent(st: Store, agents: map<AgentId, seq<Category>>, a: AgentId, e: AgentStats.Event, month: Month)
    : Store
  {
    var row := AgentStats.Apply(AgentRowOf(st.agentStats, a), e);
    var st' := st.(agentStats := st.agentStats[a := row]);
    if e.Register? then st' else st'.(board := Push(st.board, agents, month, a, row.composite))
  }

  function ApplyOwner(st: Store, u: UserId, e: OwnerStats.Event): Store {
    st.(ownerStats := st.ownerStats[u := OwnerStats.Apply(OwnerRowOf(st.ownerStats, u), e)])
  }

  /** The checks of a rating call, in order; None means it is accepted. */
  function Rejection(call: RatingCall): Option<string> {
    if call.found.None? then Some("Bounty not found")
    else if call.found.value.client != call.caller then Some("Only the bounty client can submit a rating")
    else if !call.found.value.state.Settled? && !call.found.value.state.Completed? then
      Some("Ratings can only be submitted after the bounty is settled")
    else if call.found.value.winner != Some(call.agent) then Some("Ratings can only be submitted for the winning agent")
    else None
  }

  predicate Accepted(call: RatingCall) {
    Rejection(call).None?
  }

  function RatingOf(call: RatingCall): Rating {
    Rating(call.bounty, call.agent, call.caller, call.score, call.wasOnTime)
  }

  function ApplyRating(st: Store, agents: map<AgentId, seq<Category>>, call: RatingCall, month: Month): Store {
    if !Accepted(call) then st
    else
      var st1 := st.(ratings := UpsertRating(st.ratings, RatingOf(call)));
      var average := Average(RatingsFor(st1.ratings, call.agent), call.score);
      var st2 := ApplyAgent(st1, agents, call.agent, AgentStats.Rate(average), month);
      ApplyOwner(st2, call.caller, OwnerStats.RatingGiven)
  }

  /** Both writes of a rating (the average, the client's XP) are made by rating calls only. */
  function Apply(st: Store, agents: map<AgentId, seq<Category>>, e: Event): Store {
    match e
    case AgentEvent(a, event, month) => if event.Rate? then st else ApplyAgent(st, agents, a, event, month)
    case OwnerEvent(u, event) => if event.RatingGiven? then st else ApplyOwner(st, u, event)
    case SubmitRating(call, month) => ApplyRating(st, agents, call, month)
  }

  function ApplyAll(st: Store, agents: map<AgentId, seq<Category>>, es: seq<Event>): Store {
    if es == [] then st else Apply(ApplyAll(st, agents, es[..|es| - 1]), agents, es[|es| - 1])
  }
}
