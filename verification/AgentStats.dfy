/**
 * The agent half of the reputation engine, on values: one `agent_stats` row, the partial
 * writes of each handler, and the serial effect of an event.
 *
 * A handler loads a snapshot of the row, computes new columns from the snapshot, and upserts
 * only the columns it lists. Every `...Upsert` below therefore takes the row as it is when the
 * write lands and the snapshot that was read before, which may be older.
 */
module AgentStats {
  import opened Common

  datatype Tier = Unranked | Bronze | Silver | Gold | Platinum

  datatype Badge = FirstWin | HatTrick | Veteran | SpeedDemon | Consistent | FiveStar

  datatype AgentRow = AgentRow(
    registrations: nat,
    submissions: nat,
    onTime: nat,
    wins: nat,
    streak: nat,
    xp: nat,
    earned: real,
    avgQuality: real,
    onTimeRate: real,
    completionRate: real,
    winRate: real,
    composite: real,
    tier: Tier,
    badges: seq<Badge>)

  /** What a handler sees when the agent has no row yet: every column reads as its default. */
  const ZERO_ROW := AgentRow(0, 0, 0, 0, 0, 0, 0.0, 0.0, 0.0, 0.0, 0.0, 0.0, Unranked, [])

  const XP_REGISTER: nat := 5
  const XP_SUBMIT: nat := 15
  const XP_ON_TIME_BONUS: nat := 20
  const XP_WIN: nat := 100
  const XP_STREAK_3: nat := 150
  const XP_STREAK_5: nat := 300
  const XP_STREAK_10: nat := 500

  const TIER_THRESHOLDS: seq<(Tier, real)> := [(Platinum, 0.7), (Gold, 0.5), (Silver, 0.3), (Bronze, 0.1)]

  datatype Event =
    | Register
    | Submit(wasOnTime: bool)
    | Win(prize: real)
    | Rate(average: real)

  // ---- Pure helpers -------------------------------------------------------------------------

  function Max(a: nat, b: nat): (m: nat)
    ensures m >= a && m >= b && (m == a || m == b)
  {
    if a >= b then a else b
  }

  function Ratio(part: nat, whole: nat): real {
    if whole == 0 then 0.0 else part as real / whole as real
  }

  function FirstTier(thresholds: seq<(Tier, real)>, score: real): Tier {
    if thresholds == [] then Bronze
    else if score >= thresholds[0].1 then thresholds[0].0
    else FirstTier(thresholds[1..], score)
  }

  function DeriveTier(score: real, wins: nat): Tier {
    if wins == 0 then Unranked else FirstTier(TIER_THRESHOLDS, score)
  }

  function ComputeBadges(s: AgentRow): seq<Badge> {
    (if s.wins >= 1 then [FirstWin] else [])
    + (if s.wins >= 3 then [HatTrick] else [])
    + (if s.wins >= 10 then [Veteran] else [])
    + (if s.onTimeRate >= 0.95 && s.submissions >= 5 then [SpeedDemon] else [])
    + (if s.completionRate >= 0.9 && s.registrations >= 10 then [Consistent] else [])
    + (if s.avgQuality >= 4.8 && s.submissions >= 3 then [FiveStar] else [])
  }

  function Composite(s: AgentRow): real {
    s.avgQuality * 0.4 + s.onTimeRate * 0.2 + s.completionRate * 0.2 + s.winRate * 0.2
  }

  function StreakBonus(newStreak: nat): nat {
    if newStreak == 10 then XP_STREAK_10
    else if newStreak == 5 then XP_STREAK_5
    else if newStreak == 3 then XP_STREAK_3
    else 0
  }

  /** The XP a handler adds on top of the XP in its snapshot. */
  function Gain(snap: AgentRow, e: Event): nat {
    match e
    case Register => XP_REGISTER
    case Submit(wasOnTime) => XP_SUBMIT + (if wasOnTime then XP_ON_TIME_BONUS else 0)
    case Win(_) => XP_WIN + StreakBonus(snap.streak + 1)
    case Rate(_) => 0
  }

  // ---- Writes -------------------------------------------------------------------------------

  /** The handler's first write: only the columns it lists change. */
  function Upsert(row: AgentRow, snap: AgentRow, e: Event): AgentRow {
    match e
    case Register =>
      row.(registrations := snap.registrations + 1, xp := snap.xp + Gain(snap, e))
    case Submit(wasOnTime) =>
      var subs := snap.submissions + 1;
      var onTime := snap.onTime + (if wasOnTime then 1 else 0);
      row.(submissions := subs,
           onTime := onTime,
           completionRate := Ratio(subs, Max(snap.registrations, subs)),
           onTimeRate := Ratio(onTime, subs),
           xp := snap.xp + Gain(snap, e))
    case Win(prize) =>
      var wins := snap.wins + 1;
      row.(wins := wins,
           earned := snap.earned + prize * 0.9,
           winRate := Ratio(wins, Max(snap.registrations, wins)),
           streak := snap.streak + 1,
           xp := snap.xp + Gain(snap, e))
    case Rate(average) =>
      row.(avgQuality := average)
  }

  /** The second write, made by the recalculation from the row it read back. */
  function Recalculate(row: AgentRow, snap: AgentRow): AgentRow {
    row.(composite := Composite(snap),
         tier := DeriveTier(Composite(snap), snap.wins),
         badges := ComputeBadges(snap))
  }

  /** A whole handler with nothing in between: registration alone does not recalculate. */
  function Apply(row: AgentRow, e: Event): AgentRow {
    var written := Upsert(row, row, e);
    if e.Register? then written else Recalculate(written, written)
  }

  function ApplyAll(row: AgentRow, es: seq<Event>): AgentRow {
    if es == [] then row else Apply(ApplyAll(row, es[..|es| - 1]), es[|es| - 1])
  }

  // ---- What the helpers mean ----------------------------------------------------------------

  lemma AgentTierLadder(score: real, wins: nat)
    ensures DeriveTier(score, wins) == Unranked <==> wins == 0
    ensures DeriveTier(score, wins) == Platinum <==> wins > 0 && score >= 0.7
    ensures DeriveTier(score, wins) == Gold <==> wins > 0 && 0.5 <= score < 0.7
    ensures DeriveTier(score, wins) == Silver <==> wins > 0 && 0.3 <= score < 0.5
    ensures DeriveTier(score, wins) == Bronze <==> wins > 0 && score < 0.3
  {
    var t := TIER_THRESHOLDS;
    assert FirstTier(t[4..], score) == Bronze;
    assert t[1..][1..] == t[2..] && t[2..][1..] == t[3..] && t[3..][1..] == t[4..];
    assert FirstTier(t[3..], score) == Bronze;
    assert FirstTier(t[2..], score) == if score >= 0.3 then Silver else Bronze;
    assert FirstTier(t[1..], score) == if score >= 0.5 then Gold else FirstTier(t[2..], score);
  }

  lemma AgentBadgeMeaning(s: AgentRow)
    ensures FirstWin in ComputeBadges(s) <==> s.wins >= 1
    ensures HatTrick in ComputeBadges(s) <==> s.wins >= 3
    ensures Veteran in ComputeBadges(s) <==> s.wins >= 10
    ensures SpeedDemon in ComputeBadges(s) <==> s.submissions >= 5 && s.onTimeRate >= 0.95
    ensures Consistent in ComputeBadges(s) <==> s.registrations >= 10 && s.completionRate >= 0.9
    ensures FiveStar in ComputeBadges(s) <==> s.submissions >= 3 && s.avgQuality >= 4.8
  {
    BadgesJoined(s.wins >= 1, s.wins >= 3, s.wins >= 10, s.onTimeRate >= 0.95 && s.submissions >= 5,
                 s.completionRate >= 0.9 && s.registrations >= 10, s.avgQuality >= 4.8 && s.submissions >= 3,
                 ComputeBadges(s));
  }

  lemma BadgesJoined(c1: bool, c2: bool, c3: bool, c4: bool, c5: bool, c6: bool, badges: seq<Badge>)
    requires badges == (if c1 then [FirstWin] else []) + (if c2 then [HatTrick] else [])
                       + (if c3 then [Veteran] else []) + (if c4 then [SpeedDemon] else [])
                       + (if c5 then [Consistent] else []) + (if c6 then [FiveStar] else [])
    ensures FirstWin in badges <==> c1
    ensures HatTrick in badges <==> c2
    ensures Veteran in badges <==> c3
    ensures SpeedDemon in badges <==> c4
    ensures Consistent in badges <==> c5
    ensures FiveStar in badges <==> c6
    ensures |badges| == (if c1 then 1 else 0) + (if c2 then 1 else 0) + (if c3 then 1 else 0)
                        + (if c4 then 1 else 0) + (if c5 then 1 else 0) + (if c6 then 1 else 0)
  {
  }

  /**
   * The first write of each handler lists its own columns and no other, whatever happened since the
   * snapshot. A submission: two counters, XP, and the rates of the new counters.
   */
  lemma SubmitTouchesOnly(row: AgentRow, snap: AgentRow, wasOnTime: bool)
    ensures var r := Upsert(row, snap, Submit(wasOnTime));
      && r.(submissions := row.submissions, onTime := row.onTime, completionRate := row.completionRate,
            onTimeRate := row.onTimeRate, xp := row.xp) == row
      && r.submissions == snap.submissions + 1 && r.onTime == snap.onTime + (if wasOnTime then 1 else 0)
      && r.xp == snap.xp + (if wasOnTime then 35 else 15)
      && r.onTimeRate * r.submissions as real == r.onTime as real
      && (r.submissions >= snap.registrations ==> r.completionRate == 1.0)
      && (r.submissions < snap.registrations ==>
            r.completionRate * snap.registrations as real == r.submissions as real)
  {
    RatioIsQuotient(snap.onTime + (if wasOnTime then 1 else 0), snap.submissions + 1);
    RatioIsQuotient(snap.submissions + 1, Max(snap.registrations, snap.submissions + 1));
  }

  /** A win: wins, streak, earnings, XP with the milestone, and the win rate. */
  lemma WinTouchesOnly(row: AgentRow, snap: AgentRow, prize: real)
    ensures var r := Upsert(row, snap, Win(prize));
      && r.(wins := row.wins, earned := row.earned, winRate := row.winRate, streak := row.streak, xp := row.xp) == row
      && r.wins == snap.wins + 1 && r.streak == snap.streak + 1 && r.earned == snap.earned + 0.9 * prize
      && r.xp == snap.xp + 100 + (if r.streak == 3 then 150 else if r.streak == 5 then 300
                                  else if r.streak == 10 then 500 else 0)
      && (r.wins >= snap.registrations ==> r.winRate == 1.0)
      && (r.wins < snap.registrations ==> r.winRate * snap.registrations as real == r.wins as real)
  {
    RatioIsQuotient(snap.wins + 1, Max(snap.registrations, snap.wins + 1));
  }

  /** A registration: its counter and XP. A rating: the average. */
  lemma RegisterAndRateTouchOnly(row: AgentRow, snap: AgentRow, average: real)
    ensures Upsert(row, snap, Register) == row.(registrations := snap.registrations + 1, xp := snap.xp + 5)
    ensures Upsert(row, snap, Rate(average)) == row.(avgQuality := average)
  {
  }

  lemma RatioIsQuotient(part: nat, whole: nat)
    requires whole > 0
    ensures Ratio(part, whole) * whole as real == part as real
    ensures part == whole ==> Ratio(part, whole) == 1.0
  {
    var q := Ratio(part, whole);
    assert q * whole as real == part as real;
    if part == whole {
      assert (q - 1.0) * whole as real == 0.0;
    }
  }

  /** The recalculation rewrites score, tier and badges and nothing else. */
  lemma RecalculateTouchesOnly(row: AgentRow, snap: AgentRow)
    ensures Recalculate(row, snap).(composite := row.composite, tier := row.tier, badges := row.badges) == row
  {
  }

  /** So a whole handler leaves every column but its own and the three score columns as it found it. */
  lemma HandlerTouchesOnly(s: AgentRow, e: Event)
    ensures var r := Apply(s, e);
      && (e.Register? ==> r.(registrations := s.registrations, xp := s.xp) == s)
      && (!e.Register? ==> r.registrations == s.registrations)
      && (!e.Submit? ==> r.submissions == s.submissions && r.onTime == s.onTime
                         && r.completionRate == s.completionRate && r.onTimeRate == s.onTimeRate)
      && (!e.Win? ==> r.wins == s.wins && r.streak == s.streak && r.earned == s.earned && r.winRate == s.winRate)
      && (!e.Rate? ==> r.avgQuality == s.avgQuality)
      && (e.Rate? ==> r.avgQuality == e.average && r.xp == s.xp)
  {
  }

  lemma RatioBounds(part: nat, whole: nat)
    requires part <= whole
    ensures 0.0 <= Ratio(part, whole) <= 1.0
    ensures Ratio(part, whole) * whole as real == part as real
  {
    if whole != 0 {
      RealDivision(part as real, whole as real);
    }
  }

  lemma RealDivision(a: real, b: real)
    requires 0.0 <= a <= b && b > 0.0
    ensures 0.0 <= a / b <= 1.0 && (a / b) * b == a
  {
    var q := a / b;
    assert q * b == a;
  }

  /** More registrations only lower the ratio. */
  lemma RatioAntitone(part: nat, small: nat, large: nat)
    requires 0 < small <= large
    ensures Ratio(part, large) <= Ratio(part, small)
  {
    RealQuotientAntitone(part as real, small as real, large as real);
  }

  lemma RealQuotientAntitone(p: real, s: real, l: real)
    requires 0.0 <= p && 0.0 < s <= l
    ensures p / l <= p / s
  {
    var x, y := p / s, p / l;
    assert x * s == p && y * l == p;
    assert y * s <= y * l;
  }
}
