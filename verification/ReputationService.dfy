/**
 * The reputation service itself: each handler updates the tables column by column, and is proved
 * to have the effect ReputationStore gives it when no other handler runs in between.
 */
module ReputationService {
  import opened Common
  import opened ReputationStore
  import opened Leaderboard
  import opened Ratings
  import AgentStats
  import Lifecycle
  import OwnerStats

  class Service {
    const agents: map<AgentId, seq<Category>>
    var agentStats: map<AgentId, AgentStats.AgentRow>
    var ownerStats: map<UserId, OwnerStats.OwnerRow>
    var ratings: seq<Rating>
    var global: ScoreSet
    var monthly: map<Month, ScoreSet>
    var category: map<Category, ScoreSet>

    function State(): Store
      reads this
    {
      Store(agentStats, ownerStats, ratings, Board(global, monthly, category))
    }

    constructor (agents: map<AgentId, seq<Category>>)
      ensures this.agents == agents && State() == EMPTY_STORE
    {
      this.agents := agents;
      agentStats, ownerStats, ratings := map[], map[], [];
      global, monthly, category := map[], map[], map[];
    }

    // ---- Agent events -----------------------------------------------------------------------

    method IncrementAgentRegistration(agentId: AgentId, month: Month)
      modifies this`agentStats
      ensures State() == ReputationStore.Apply(old(State()), agents, AgentEvent(agentId, AgentStats.Register, month))
      ensures agentId in agentStats
      ensures agentId in old(agentStats) ==>
        var s := old(agentStats)[agentId];
        agentStats[agentId] == s.(registrations := s.registrations + 1, xp := s.xp + 5)
    {
      var s := AgentRowOf(agentStats, agentId);
      agentStats := agentStats[agentId := s.(
        registrations := s.registrations + 1,
        xp := s.xp + AgentStats.XP_REGISTER)];
    }

    method IncrementAgentSubmission(agentId: AgentId, wasOnTime: bool, month: Month)
      modifies this
      ensures State() == ReputationStore.Apply(old(State()), agents,
                                               AgentEvent(agentId, AgentStats.Submit(wasOnTime), month))
      ensures agentId in agentStats
      ensures agentId in old(agentStats) ==>
        var (s, r) := (old(agentStats)[agentId], agentStats[agentId]);
        && r.registrations == s.registrations && r.wins == s.wins && r.streak == s.streak
        && r.earned == s.earned && r.avgQuality == s.avgQuality && r.winRate == s.winRate
        && r.submissions == s.submissions + 1 && r.onTime == s.onTime + (if wasOnTime then 1 else 0)
        && r.xp == s.xp + (if wasOnTime then 35 else 15)
    {
      var s := AgentRowOf(agentStats, agentId);
      var totalSubs := s.submissions + 1;
      var onTimeSubs := s.onTime + (if wasOnTime then 1 else 0);
      var totalRegs := AgentStats.Max(s.registrations, totalSubs);
      var completionRate := totalSubs as real / totalRegs as real;
      var onTimeRate := if totalSubs > 0 then onTimeSubs as real / totalSubs as real else 0.0;
      var xpGain := AgentStats.XP_SUBMIT + (if wasOnTime then AgentStats.XP_ON_TIME_BONUS else 0);
      agentStats := agentStats[agentId := s.(
        submissions := totalSubs,
        onTime := onTimeSubs,
        completionRate := completionRate,
        onTimeRate := onTimeRate,
        xp := s.xp + xpGain)];
      ghost var written := AgentStats.Upsert(s, s, AgentStats.Submit(wasOnTime));
      assert agentStats[agentId] == written;
      RecalculateCompositeScore(agentId, month);
      assert agentStats == old(agentStats)[agentId := AgentStats.Recalculate(written, written)];
    }

    /** Called at winner selection and again at settle confirmation: every call counts as a win. */
    method HandleBountyCompleted(winnerAgentId: Option<AgentId>, prizeUsdc: real, month: Month)
      modifies this
      ensures winnerAgentId.None? ==> State() == old(State())
      ensures winnerAgentId.Some? ==>
        State() == ReputationStore.Apply(old(State()), agents,
                                         AgentEvent(winnerAgentId.value, AgentStats.Win(prizeUsdc), month))
      ensures winnerAgentId.Some? ==> winnerAgentId.value in agentStats
      ensures winnerAgentId.Some? && winnerAgentId.value in old(agentStats) ==>
        var (s, r) := (old(agentStats)[winnerAgentId.value], agentStats[winnerAgentId.value]);
        && r.registrations == s.registrations && r.submissions == s.submissions && r.onTime == s.onTime
        && r.avgQuality == s.avgQuality && r.onTimeRate == s.onTimeRate && r.completionRate == s.completionRate
        && r.wins == s.wins + 1 && r.streak == s.streak + 1 && r.earned == s.earned + 0.9 * prizeUsdc
    {
      if winnerAgentId.None? {
        return;
      }
      var agentId := winnerAgentId.value;
      var s := AgentRowOf(agentStats, agentId);
      var wins := s.wins + 1;
      var totalRegs := AgentStats.Max(s.registrations, wins);
      var winRate := wins as real / totalRegs as real;
      var newStreak := s.streak + 1;
      var streakBonus := 0;
      if newStreak == 10 {
        streakBonus := AgentStats.XP_STREAK_10;
      } else if newStreak == 5 {
        streakBonus := AgentStats.XP_STREAK_5;
      } else if newStreak == 3 {
        streakBonus := AgentStats.XP_STREAK_3;
      }
      agentStats := agentStats[agentId := s.(
        wins := wins,
        earned := s.earned + prizeUsdc * 0.9,
        winRate := winRate,
        streak := newStreak,
        xp := s.xp + AgentStats.XP_WIN + streakBonus)];
      ghost var written := AgentStats.Upsert(s, s, AgentStats.Win(prizeUsdc));
      assert agentStats[agentId] == written;
      RecalculateCompositeScore(agentId, month);
      assert agentStats == old(agentStats)[agentId := AgentStats.Recalculate(written, written)];
    }

    // ---- Owner events -----------------------------------------------------------------------

    method HandleOwnerBountyPosted(ownerId: UserId)
      modifies this`ownerStats
      ensures State() == ApplyOwner(old(State()), ownerId, OwnerStats.Posted)
    {
      var s := OwnerRowOf(ownerStats, ownerId);
      var xp := s.xp + OwnerStats.XP_POST;
      var merged := s.(posted := s.posted + 1, xp := xp);
      var badges := OwnerStats.ComputeBadges(merged);
      var tier := OwnerStats.DeriveTier(xp);
      ownerStats := ownerStats[ownerId := merged.(tier := tier, badges := badges)];
    }

    method HandleOwnerBountySettled(ownerId: UserId, prizeUsdc: real)
      modifies this`ownerStats
      ensures State() == ApplyOwner(old(State()), ownerId, OwnerStats.Settled(prizeUsdc))
    {
      var s := OwnerRowOf(ownerStats, ownerId);
      var xp := s.xp + OwnerStats.XP_SETTLE;
      var merged := s.(settled := s.settled + 1, usdcAwarded := s.usdcAwarded + prizeUsdc, xp := xp);
      var badges := OwnerStats.ComputeBadges(merged);
      var tier := OwnerStats.DeriveTier(xp);
      ownerStats := ownerStats[ownerId := merged.(tier := tier, badges := badges)];
    }

    method HandleOwnerRatingGiven(ownerId: UserId)
      modifies this`ownerStats
      ensures State() == ApplyOwner(old(State()), ownerId, OwnerStats.RatingGiven)
    {
      var s := OwnerRowOf(ownerStats, ownerId);
      var xp := s.xp + OwnerStats.XP_RATE;
      var merged := s.(ratingsGiven := s.ratingsGiven + 1, xp := xp);
      var badges := OwnerStats.ComputeBadges(merged);
      var tier := OwnerStats.DeriveTier(xp);
      ownerStats := ownerStats[ownerId := merged.(tier := tier, badges := badges)];
    }

    // ---- Scores and leaderboards ------------------------------------------------------------

    /** Does nothing for an agent without a row; otherwise rewrites score, tier and badges and pushes the score. */
    method RecalculateCompositeScore(agentId: AgentId, month: Month)
      modifies this
      ensures agentId !in old(agentStats) ==> State() == old(State())
      ensures agentId in old(agentStats) ==>
        var s := old(agentStats[agentId]);
        var r := AgentStats.Recalculate(s, s);
        State() == old(State()).(agentStats := old(agentStats)[agentId := r],
                                 board := Push(old(State()).board, agents, month, agentId, r.composite))
    {
      if agentId !in agentStats {
        return;
      }
      var s := agentStats[agentId];
      var composite := s.avgQuality * 0.4 + s.onTimeRate * 0.2 + s.completionRate * 0.2 + s.winRate * 0.2;
      var tier := AgentStats.DeriveTier(composite, s.wins);
      var badges := AgentStats.ComputeBadges(s);
      agentStats := agentStats[agentId := s.(composite := composite, tier := tier, badges := badges)];
      UpdateRedisLeaderboard(agentId, composite, month);
    }

    method UpdateRedisLeaderboard(agentId: AgentId, score: real, month: Month)
      modifies this`global, this`monthly, this`category
      ensures Board(global, monthly, category)
           == Push(old(Board(global, monthly, category)), agents, month, agentId, score)
    {
      global := global[agentId := score];
      monthly := monthly[month := SetOf(monthly, month)[agentId := score]];
      if agentId in agents {
        var cats := agents[agentId];
        assert cats[..0] == [];
        for i := 0 to |cats|
          invariant global == old(global)[agentId := score]
          invariant monthly == old(monthly)[month := SetOf(old(monthly), month)[agentId := score]]
          invariant category == PushCategories(old(category), cats[..i], agentId, score)
        {
          assert cats[..i + 1][..i] == cats[..i];
          category := category[cats[i] := SetOf(category, cats[i])[agentId := score]];
        }
        assert cats[..|cats|] == cats;
      }
    }

    /** Category set if a category is given, else the current month's if asked for, else the global set. */
    method GetLeaderboard(cat: Option<string>, period: Option<string>, month: Month) returns (entries: seq<Entry>)
      ensures var members :=
          if cat.Some? && cat.value != "" then SetOf(category, cat.value)
          else if period == Some("monthly") then SetOf(monthly, month)
          else global;
        && TopEntries(members, 50, entries)
        && (forall i, j :: 0 <= i < j < |entries| ==> entries[i].score >= entries[j].score)
        && (forall a, x :: a in members && x in entries && (forall y :: y in entries ==> y.agent != a) ==>
              members[a] <= x.score)
    {
      var members := global;
      if cat.Some? && cat.value != "" {
        members := SetOf(category, cat.value);
      } else if period == Some("monthly") {
        members := SetOf(monthly, month);
      }
      entries := ReverseRange(members, 50);
      TopEntriesMeaning(members, 50, entries);
    }

    // ---- Ratings ----------------------------------------------------------------------------

    method SubmitRating(call: RatingCall, month: Month) returns (result: Result<bool>)
      modifies this
      ensures State() == ReputationStore.Apply(old(State()), agents, ReputationStore.SubmitRating(call, month))
      ensures result == match Rejection(call) case None => Ok(true) case Some(message) => Err(message)
      ensures result.Ok? <==>
        && call.found.Some? && call.found.value.client == call.caller && call.found.value.winner == Some(call.agent)
        && (call.found.value.state == Lifecycle.Settled || call.found.value.state == Lifecycle.Completed)
      ensures result.Err? ==> State() == old(State())
      ensures result.Ok? && DistinctKeys(old(ratings)) ==> forall r :: r in ratings <==>
        || r == Rating(call.bounty, call.agent, call.caller, call.score, call.wasOnTime)
        || (r in old(ratings) && (r.bounty != call.bounty || r.agent != call.agent))
    {
      if call.found.None? {
        return Err("Bounty not found");
      }
      var bounty := call.found.value;
      if bounty.client != call.caller {
        return Err("Only the bounty client can submit a rating");
      }
      if !bounty.state.Settled? && !bounty.state.Completed? {
        return Err("Ratings can only be submitted after the bounty is settled");
      }
      if bounty.winner != Some(call.agent) {
        return Err("Ratings can only be submitted for the winning agent");
      }
      if DistinctKeys(ratings) {
        UpsertRatingEffect(ratings, RatingOf(call));
      }
      SaveRating(call, month);
      return Ok(true);
    }

    /** Steps 3 to 7 of an accepted call. */
    method SaveRating(call: RatingCall, month: Month)
      requires Accepted(call)
      modifies this
      ensures State() == ApplyRating(old(State()), agents, call, month)
    {
      ratings := UpsertRating(ratings, Rating(call.bounty, call.agent, call.caller, call.score, call.wasOnTime));
      var average := Average(RatingsFor(ratings, call.agent), call.score);
      StoreAverage(call.agent, average, month);
      HandleOwnerRatingGiven(call.caller);
    }

    method StoreAverage(agentId: AgentId, average: real, month: Month)
      modifies this
      ensures State() == ApplyAgent(old(State()), agents, agentId, AgentStats.Rate(average), month)
    {
      var s := AgentRowOf(agentStats, agentId);
      ghost var written := s.(avgQuality := average);
      ghost var scored := AgentStats.Recalculate(written, written);
      assert AgentStats.Apply(s, AgentStats.Rate(average)) == scored;
      agentStats := agentStats[agentId := s.(avgQuality := average)];
      RecalculateCompositeScore(agentId, month);
      assert agentStats == old(agentStats)[agentId := scored];
    }
  }

  // ---- Redis --------------------------------------------------------------------------------

  /** Stand-in for the sorted-set range read: repeatedly takes the best member not taken yet. */
  method ReverseRange(members: ScoreSet, limit: nat) returns (entries: seq<Entry>)
    ensures TopEntries(members, limit, entries)
  {
    entries := [];
    var left := members.Keys;
    while left != {} && |entries| < limit
      invariant left <= members.Keys
      invariant |entries| + |left| == |members| && |entries| <= limit
      invariant forall i :: 0 <= i < |entries| ==>
        entries[i].agent in members && entries[i].agent !in left && entries[i].score == members[entries[i].agent]
      invariant forall i, j :: 0 <= i < j < |entries| ==> Outranks(entries[i], entries[j])
      invariant forall a, i :: a in left && 0 <= i < |entries| ==> Outranks(entries[i], Entry(a, members[a]))
      invariant forall a :: a in members && a !in left ==> exists k :: 0 <= k < |entries| && entries[k].agent == a
      decreases |left|
    {
      var best := Best(members, left);
      assert best in members && best in left;
      ghost var before := entries;
      entries := entries + [Entry(best, members[best])];
      forall a | a in members && a !in left - {best}
        ensures exists k :: 0 <= k < |entries| && entries[k].agent == a
      {
        if a == best {
          assert entries[|before|].agent == a;
        } else {
          var k :| 0 <= k < |before| && before[k].agent == a;
          assert entries[k].agent == a;
        }
      }
      left := left - {best};
    }
  }

  method Best(members: ScoreSet, left: set<AgentId>) returns (best: AgentId)
    requires left != {} && left <= members.Keys
    ensures best in left
    ensures forall a :: a in left && a != best ==> Outranks(Entry(best, members[best]), Entry(a, members[a]))
  {
    best :| best in left;
    var rest := left - {best};
    while rest != {}
      invariant rest <= left && best in left && best !in rest
      invariant forall a :: a in left && a !in rest && a != best ==>
        Outranks(Entry(best, members[best]), Entry(a, members[a]))
      decreases |rest|
    {
      var a :| a in rest;
      if Outranks(Entry(a, members[a]), Entry(best, members[best])) {
        best := a;
      }
      rest := rest - {a};
    }
  }
}
