/** What a serial run of the agent handlers adds up to, and how its derived columns stay consistent. */
module AgentAccounting {
  import opened Common
  import opened AgentStats

  function IsRegister(e: Event): nat { if e.Register? then 1 else 0 }
  function IsSubmit(e: Event): nat { if e.Submit? then 1 else 0 }
  function IsOnTime(e: Event): nat { if e.Submit? && e.wasOnTime then 1 else 0 }
  function IsWin(e: Event): nat { if e.Win? then 1 else 0 }
  function PrizeOf(e: Event): real { if e.Win? then e.prize else 0.0 }

  function Registers(es: seq<Event>): nat { Tally(IsRegister, es) }
  function Submits(es: seq<Event>): nat { Tally(IsSubmit, es) }
  function OnTimes(es: seq<Event>): nat { Tally(IsOnTime, es) }
  function Wins(es: seq<Event>): nat { Tally(IsWin, es) }
  function Prizes(es: seq<Event>): real { SumOf(PrizeOf, es) }

  /** XP paid for the milestones up to a streak of `w`. */
  function Milestones(w: nat): nat {
    (if w >= 3 then 150 else 0) + (if w >= 5 then 300 else 0) + (if w >= 10 then 500 else 0)
  }

  lemma StepAccounting(row: AgentRow, e: Event)
    ensures var r := Apply(row, e);
      && r.registrations == row.registrations + IsRegister(e)
      && r.submissions == row.submissions + IsSubmit(e)
      && r.onTime == row.onTime + IsOnTime(e)
      && r.wins == row.wins + IsWin(e)
      && r.streak == row.streak + IsWin(e)
      && r.xp + Milestones(row.streak) == row.xp + 5 * IsRegister(e) + 15 * IsSubmit(e) + 20 * IsOnTime(e)
                                          + 100 * IsWin(e) + Milestones(r.streak)
      && r.earned == row.earned + 0.9 * PrizeOf(e)
  {
  }

  /**
   * Closed-form accounting, from any row: the counters count the events, the XP is linear in
   * the counts plus each milestone crossed once, and the agent keeps nine tenths of every prize.
   */
  lemma {:induction false} SerialAccounting(row: AgentRow, es: seq<Event>)
    ensures var r := ApplyAll(row, es);
      && r.registrations == row.registrations + Registers(es)
      && r.submissions == row.submissions + Submits(es)
      && r.onTime == row.onTime + OnTimes(es)
      && r.wins == row.wins + Wins(es)
      && r.streak == row.streak + Wins(es)
      && r.xp + Milestones(row.streak) == row.xp + 5 * Registers(es) + 15 * Submits(es) + 20 * OnTimes(es)
                                          + 100 * Wins(es) + Milestones(row.streak + Wins(es))
      && r.earned == row.earned + 0.9 * Prizes(es)
  {
    if es != [] {
      SerialAccounting(row, es[..|es| - 1]);
      StepAccounting(ApplyAll(row, es[..|es| - 1]), es[|es| - 1]);
    }
  }

  /** From the zero row: the formula of the XP table, with W counting calls, not bounties. */
  lemma ZeroRowAccounting(es: seq<Event>)
    ensures var r := ApplyAll(ZERO_ROW, es);
      && r.xp == 5 * Registers(es) + 15 * Submits(es) + 20 * OnTimes(es) + 100 * Wins(es)
                 + (if Wins(es) >= 3 then 150 else 0)
                 + (if Wins(es) >= 5 then 300 else 0)
                 + (if Wins(es) >= 10 then 500 else 0)
      && r.earned == 0.9 * Prizes(es)
  {
    SerialAccounting(ZERO_ROW, es);
  }

  /** The order of the events does not change XP, counters or earnings. */
  lemma AccountingIsOrderFree(row: AgentRow, es: seq<Event>, fs: seq<Event>)
    requires multiset(es) == multiset(fs)
    ensures var r, s := ApplyAll(row, es), ApplyAll(row, fs);
      && r.xp == s.xp && r.earned == s.earned
      && r.registrations == s.registrations && r.submissions == s.submissions
      && r.onTime == s.onTime && r.wins == s.wins && r.streak == s.streak
  {
    SerialAccounting(row, es);
    SerialAccounting(row, fs);
    TallyPermutation(IsRegister, es, fs);
    TallyPermutation(IsSubmit, es, fs);
    TallyPermutation(IsOnTime, es, fs);
    TallyPermutation(IsWin, es, fs);
    SumOfPermutation(PrizeOf, es, fs);
  }

  // ---- Derived columns ----------------------------------------------------------------------

  /** What relates the columns of a row between two handlers of a serial run; ratings lie in [0, top]. */
  ghost predicate RowConsistent(s: AgentRow, top: real) {
    && s.onTime <= s.submissions
    && s.streak == s.wins
    && s.onTimeRate == Ratio(s.onTime, s.submissions)
    && Ratio(s.submissions, Max(s.registrations, s.submissions)) <= s.completionRate <= 1.0
    && Ratio(s.wins, Max(s.registrations, s.wins)) <= s.winRate <= 1.0
    && 0.0 <= s.avgQuality <= top
    && s.composite == 0.4 * s.avgQuality + 0.2 * s.onTimeRate + 0.2 * s.completionRate + 0.2 * s.winRate
    && s.tier == DeriveTier(s.composite, s.wins)
    && (forall b :: b in s.badges ==> b in ComputeBadges(s))
    && (forall b :: b in ComputeBadges(s) && b != Consistent ==> b in s.badges)
  }

  ghost predicate RatingsWithin(es: seq<Event>, top: real) {
    forall e :: e in es && e.Rate? ==> 0.0 <= e.average <= top
  }

  lemma RegisterKeepsConsistent(s: AgentRow, top: real)
    requires RowConsistent(s, top)
    ensures RowConsistent(Apply(s, Register), top)
  {
    var r := Apply(s, Register);
    StaleRatioBound(s.submissions, s.registrations);
    StaleRatioBound(s.wins, s.registrations);
    forall b ensures b in ComputeBadges(s) ==> b in ComputeBadges(r) {
      AgentBadgeMeaning(s);
      AgentBadgeMeaning(r);
    }
    forall b ensures b in ComputeBadges(r) && b != Consistent ==> b in ComputeBadges(s) {
      AgentBadgeMeaning(s);
      AgentBadgeMeaning(r);
    }
  }

  /** A registration can only lower the true ratio. */
  lemma StaleRatioBound(part: nat, registrations: nat)
    ensures Ratio(part, Max(registrations + 1, part)) <= Ratio(part, Max(registrations, part))
  {
    if part > 0 {
      RatioAntitone(part, Max(registrations, part), Max(registrations + 1, part));
    }
  }

  /** The other events recalculate, so only the column relations are left to show. */
  lemma UpsertKeepsRates(s: AgentRow, e: Event, top: real)
    requires RowConsistent(s, top) && !e.Register? && (e.Rate? ==> 0.0 <= e.average <= top)
    ensures var r := Upsert(s, s, e);
      && r.onTime <= r.submissions && r.streak == r.wins
      && r.onTimeRate == Ratio(r.onTime, r.submissions)
      && Ratio(r.submissions, Max(r.registrations, r.submissions)) <= r.completionRate <= 1.0
      && Ratio(r.wins, Max(r.registrations, r.wins)) <= r.winRate <= 1.0
      && 0.0 <= r.avgQuality <= top
  {
    var r := Upsert(s, s, e);
    RatioBounds(r.submissions, Max(r.registrations, r.submissions));
    RatioBounds(r.wins, Max(r.registrations, r.wins));
  }

  lemma ApplyKeepsConsistent(s: AgentRow, e: Event, top: real)
    requires RowConsistent(s, top) && (e.Rate? ==> 0.0 <= e.average <= top)
    ensures RowConsistent(Apply(s, e), top)
  {
    if e.Register? {
      RegisterKeepsConsistent(s, top);
    } else {
      UpsertKeepsRates(s, e, top);
      var w := Upsert(s, s, e);
      assert ComputeBadges(Apply(s, e)) == ComputeBadges(w);
    }
  }

  /** Every row a serial run can leave behind is consistent. */
  lemma {:induction false} SerialRunIsConsistent(es: seq<Event>, top: real)
    requires top >= 0.0 && RatingsWithin(es, top)
    ensures RowConsistent(ApplyAll(ZERO_ROW, es), top)
  {
    if es != [] {
      var front, last := es[..|es| - 1], es[|es| - 1];
      assert forall e :: e in front ==> e in es;
      assert last in es;
      SerialRunIsConsistent(front, top);
      ApplyKeepsConsistent(ApplyAll(ZERO_ROW, front), last, top);
    }
  }

  /** Right after a submission or a win the matching rate is exact, and every recalculation stores the exact badges. */
  lemma ExactAfterRecalculation(s: AgentRow, e: Event)
    ensures var r := Apply(s, e);
      && (e.Submit? ==> r.completionRate == Ratio(r.submissions, Max(r.registrations, r.submissions)))
      && (e.Win? ==> r.winRate == Ratio(r.wins, Max(r.registrations, r.wins)))
      && (!e.Register? ==> r.badges == ComputeBadges(r) && r.composite == Composite(r))
  {
  }

  /** The composite score stays in [0, 0.4 * top + 0.6]: up to 2.6 on the 5-point route, up to 40.6 on the other. */
  lemma CompositeBounds(es: seq<Event>, top: real)
    requires top >= 0.0 && RatingsWithin(es, top)
    ensures 0.0 <= ApplyAll(ZERO_ROW, es).composite <= 0.4 * top + 0.6
  {
    var r := ApplyAll(ZERO_ROW, es);
    SerialRunIsConsistent(es, top);
    RatioBounds(r.onTime, r.submissions);
    RatioBounds(r.submissions, Max(r.registrations, r.submissions));
    RatioBounds(r.wins, Max(r.registrations, r.wins));
  }

  /** The bound is reached: one delivery on time, one win, one top rating. */
  lemma CompositeBoundReached(top: real)
    ensures ApplyAll(ZERO_ROW, [Submit(true), Win(5.0), Rate(top)]).composite == 0.4 * top + 0.6
  {
    var es := [Submit(true), Win(5.0), Rate(top)];
    assert es[..2] == [Submit(true), Win(5.0)] && es[..2][..1] == [Submit(true)] && es[..1][..0] == [];
    var r1 := Apply(ZERO_ROW, Submit(true));
    assert ApplyAll(ZERO_ROW, [Submit(true)]) == r1;
    assert r1.onTimeRate == 1.0 && r1.completionRate == 1.0;
    var r2 := Apply(r1, Win(5.0));
    assert ApplyAll(ZERO_ROW, es[..2]) == r2;
    assert r2.onTimeRate == 1.0 && r2.completionRate == 1.0 && r2.winRate == 1.0;
    assert ApplyAll(ZERO_ROW, es) == Apply(r2, Rate(top));
  }

  /** The documented range of the score, 0 to 1, is kept by every run if and only if ratings stop at 1. */
  lemma CompositeInUnitIff(top: real)
    requires top >= 0.0
    ensures (forall es :: RatingsWithin(es, top) ==> 0.0 <= ApplyAll(ZERO_ROW, es).composite <= 1.0) <==> top <= 1.0
  {
    if top <= 1.0 {
      forall es | RatingsWithin(es, top) ensures 0.0 <= ApplyAll(ZERO_ROW, es).composite <= 1.0 {
        CompositeBounds(es, top);
      }
    } else {
      var es := [Submit(true), Win(5.0), Rate(top)];
      CompositeBoundReached(top);
      assert RatingsWithin(es, top);
      assert ApplyAll(ZERO_ROW, es).composite > 1.0;
    }
  }

  // ---- The completion rate can be stale -----------------------------------------------------

  lemma {:induction false} ApplyAllAppend(row: AgentRow, es: seq<Event>, fs: seq<Event>)
    ensures ApplyAll(row, es + fs) == ApplyAll(ApplyAll(row, es), fs)
  {
    if fs == [] {
      assert es + fs == es;
    } else {
      assert (es + fs)[..|es + fs| - 1] == es + fs[..|fs| - 1];
      ApplyAllAppend(row, es, fs[..|fs| - 1]);
    }
  }

  lemma {:induction false} WinRateFrozen(row: AgentRow, es: seq<Event>)
    requires forall e :: e in es ==> !e.Win?
    ensures ApplyAll(row, es).winRate == row.winRate
  {
    if es != [] {
      assert forall e :: e in es[..|es| - 1] ==> e in es;
      WinRateFrozen(row, es[..|es| - 1]);
      assert es[|es| - 1] in es;
    }
  }

  /** The stored win rate is the one of the last win, from the registrations and wins of that moment. */
  lemma WinRateIsOfLastWin(before: seq<Event>, prize: real, after: seq<Event>)
    requires forall e :: e in after ==> !e.Win?
    ensures var (wins, regs) := (Wins(before) + 1, Registers(before));
      ApplyAll(ZERO_ROW, before + [Win(prize)] + after).winRate
      == if regs <= wins then 1.0 else wins as real / regs as real
  {
    ApplyAllAppend(ZERO_ROW, before, [Win(prize)]);
    ApplyAllAppend(ZERO_ROW, before + [Win(prize)], after);
    var start := ApplyAll(ZERO_ROW, before);
    assert ApplyAll(start, [Win(prize)]) == Apply(start, Win(prize));
    WinRateFrozen(Apply(start, Win(prize)), after);
    SerialAccounting(ZERO_ROW, before);
    RatioIsQuotient(start.wins + 1, Max(start.registrations, start.wins + 1));
  }

  /** And the stored completion rate the one of the last submission. */
  lemma CompletionRateIsOfLastSubmission(before: seq<Event>, wasOnTime: bool, after: seq<Event>)
    requires forall e :: e in after ==> !e.Submit?
    ensures var (subs, regs) := (Submits(before) + 1, Registers(before));
      ApplyAll(ZERO_ROW, before + [Submit(wasOnTime)] + after).completionRate
      == if regs <= subs then 1.0 else subs as real / regs as real
  {
    ApplyAllAppend(ZERO_ROW, before, [Submit(wasOnTime)]);
    ApplyAllAppend(ZERO_ROW, before + [Submit(wasOnTime)], after);
    var start := ApplyAll(ZERO_ROW, before);
    assert ApplyAll(start, [Submit(wasOnTime)]) == Apply(start, Submit(wasOnTime));
    CompletionRateFrozen(Apply(start, Submit(wasOnTime)), after);
    SerialAccounting(ZERO_ROW, before);
    RatioIsQuotient(start.submissions + 1, Max(start.registrations, start.submissions + 1));
  }

  lemma {:induction false} CompletionRateFrozen(row: AgentRow, es: seq<Event>)
    requires forall e :: e in es ==> !e.Submit?
    ensures ApplyAll(row, es).completionRate == row.completionRate
  {
    if es != [] {
      assert forall e :: e in es[..|es| - 1] ==> e in es;
      CompletionRateFrozen(row, es[..|es| - 1]);
      assert es[|es| - 1] in es;
    }
  }

  /**
   * The stored completion rate is the true one if and only if the registrations made since the
   * last submission do not raise max(registrations, submissions).
   */
  lemma CompletionRateExactIff(before: seq<Event>, wasOnTime: bool, after: seq<Event>)
    requires forall e :: e in after ==> !e.Submit?
    ensures var r := ApplyAll(ZERO_ROW, before + [Submit(wasOnTime)] + after);
      r.completionRate == Ratio(r.submissions, Max(r.registrations, r.submissions))
      <==> Registers(after) == 0 || Registers(before) + Registers(after) <= Submits(before) + 1
  {
    var start := ApplyAll(ZERO_ROW, before);
    var mid := Apply(start, Submit(wasOnTime));
    ApplyAllAppend(ZERO_ROW, before, [Submit(wasOnTime)]);
    assert ApplyAll(start, [Submit(wasOnTime)]) == mid;
    ApplyAllAppend(ZERO_ROW, before + [Submit(wasOnTime)], after);
    SerialAccounting(ZERO_ROW, before);
    NoSubmits(after);
    RateAfterRegistrations(start, wasOnTime, after);
  }

  lemma RateAfterRegistrations(start: AgentRow, wasOnTime: bool, after: seq<Event>)
    requires Submits(after) == 0 && forall e :: e in after ==> !e.Submit?
    ensures var r := ApplyAll(Apply(start, Submit(wasOnTime)), after);
      r.completionRate == Ratio(r.submissions, Max(r.registrations, r.submissions))
      <==> Registers(after) == 0 || start.registrations + Registers(after) <= start.submissions + 1
  {
    var mid := Apply(start, Submit(wasOnTime));
    CompletionRateFrozen(mid, after);
    SerialAccounting(mid, after);
    var s := mid.submissions;
    RatioInjective(s, Max(mid.registrations, s), Max(mid.registrations + Registers(after), s));
  }

  lemma {:induction false} NoSubmits(es: seq<Event>)
    requires forall e :: e in es ==> !e.Submit?
    ensures Submits(es) == 0
  {
    if es != [] {
      assert forall e :: e in es[..|es| - 1] ==> e in es;
      NoSubmits(es[..|es| - 1]);
      assert es[|es| - 1] in es;
    }
  }

  lemma RatioInjective(part: nat, a: nat, b: nat)
    requires part > 0 && a > 0 && b > 0
    ensures Ratio(part, a) == Ratio(part, b) <==> a == b
  {
    var q, r := Ratio(part, a), Ratio(part, b);
    assert q * a as real == part as real && r * b as real == part as real;
    if q == r {
      assert q * (a as real - b as real) == 0.0;
    }
  }

  /** The registrations a recalculation had seen when the badges were last stored. */
  function RegistersSeen(es: seq<Event>): nat {
    if es == [] then 0
    else if es[|es| - 1].Register? then RegistersSeen(es[..|es| - 1])
    else Registers(es)
  }

  /** Badges are rewritten by every recalculation, from the columns of that moment. */
  lemma {:induction false} ConsistentBadgeAfter(row: AgentRow, es: seq<Event>)
    requires forall e :: e in es ==> !e.Submit?
    requires row.badges == ComputeBadges(row)
    ensures var r := ApplyAll(row, es);
      Consistent in r.badges <==> row.registrations + RegistersSeen(es) >= 10 && row.completionRate >= 0.9
  {
    if es == [] {
      AgentBadgeMeaning(row);
    } else {
      var front, last := es[..|es| - 1], es[|es| - 1];
      assert forall e :: e in front ==> e in es;
      assert last in es;
      if last.Register? {
        ConsistentBadgeAfter(row, front);
      } else {
        SerialAccounting(row, es);
        CompletionRateFrozen(row, es);
        ExactAfterRecalculation(ApplyAll(row, front), last);
        AgentBadgeMeaning(ApplyAll(row, es));
      }
    }
  }

  lemma RatioAtLeastNineTenths(part: nat, whole: nat)
    requires whole > 0
    ensures Ratio(part, whole) >= 0.9 <==> 10 * part >= 9 * whole
  {
    QuotientAtLeast(part as real, whole as real, 0.9);
  }

  lemma QuotientAtLeast(p: real, w: real, k: real)
    requires w > 0.0
    ensures p / w >= k <==> p >= k * w
  {
    var q := p / w;
    assert p - k * w == (q - k) * w;
    if q >= k {
      assert (q - k) * w >= 0.0;
    } else {
      assert (q - k) * w < 0.0;
    }
  }

  /**
   * Exactly when the badge for completing nine tenths is stored, and exactly when the row's true
   * rate deserves it: the stored one looks at the registrations of the last submission for the rate,
   * and at those of the last recalculation for the count.
   */
  lemma ConsistentBadgeIff(before: seq<Event>, wasOnTime: bool, after: seq<Event>)
    requires forall e :: e in after ==> !e.Submit?
    ensures var r := ApplyAll(ZERO_ROW, before + [Submit(wasOnTime)] + after);
      var (s, regs) := (Submits(before) + 1, Registers(before));
      && (Consistent in r.badges <==> regs + RegistersSeen(after) >= 10 && 10 * s >= 9 * Max(regs, s))
      && (Consistent in ComputeBadges(r.(completionRate := Ratio(r.submissions, Max(r.registrations, r.submissions))))
          <==> regs + Registers(after) >= 10 && 10 * s >= 9 * Max(regs + Registers(after), s))
  {
    var start := ApplyAll(ZERO_ROW, before);
    var mid := Apply(start, Submit(wasOnTime));
    ApplyAllAppend(ZERO_ROW, before, [Submit(wasOnTime)]);
    assert ApplyAll(start, [Submit(wasOnTime)]) == mid;
    ApplyAllAppend(ZERO_ROW, before + [Submit(wasOnTime)], after);
    SerialAccounting(ZERO_ROW, before);
    NoSubmits(after);
    BadgeAfterSubmission(start, wasOnTime, after);
  }

  lemma BadgeAfterSubmission(start: AgentRow, wasOnTime: bool, after: seq<Event>)
    requires forall e :: e in after ==> !e.Submit?
    requires Submits(after) == 0
    ensures var r := ApplyAll(Apply(start, Submit(wasOnTime)), after);
      var (s, regs) := (start.submissions + 1, start.registrations);
      && (Consistent in r.badges <==> regs + RegistersSeen(after) >= 10 && 10 * s >= 9 * Max(regs, s))
      && (Consistent in ComputeBadges(r.(completionRate := Ratio(r.submissions, Max(r.registrations, r.submissions))))
          <==> regs + Registers(after) >= 10 && 10 * s >= 9 * Max(regs + Registers(after), s))
  {
    var mid := Apply(start, Submit(wasOnTime));
    ExactAfterRecalculation(start, Submit(wasOnTime));
    ConsistentBadgeAfter(mid, after);
    SerialAccounting(mid, after);
    var r := ApplyAll(mid, after);
    RatioAtLeastNineTenths(mid.submissions, Max(mid.registrations, mid.submissions));
    RatioAtLeastNineTenths(r.submissions, Max(r.registrations, r.submissions));
    AgentBadgeMeaning(r.(completionRate := Ratio(r.submissions, Max(r.registrations, r.submissions))));
  }

  /** One delivery out of ten registrations can still earn the badge for completing nine tenths. */
  lemma ConsistentBadgeOnStaleRate()
    ensures var regs := seq(10, i => Register);
      var r := ApplyAll(ZERO_ROW, [Submit(true)] + regs + [Win(5.0)]);
      r.submissions == 1 && r.registrations == 10 && Consistent in r.badges
  {
    var regs := seq(10, i => Register);
    var after := regs + [Win(5.0)];
    TenRegisters(10);
    NoSubmits(after);
    TallyAppend(IsRegister, regs, [Win(5.0)]);
    TallyOfOne(Submit(true));
    TallyOfOne(Win(5.0));
    TallyAppend(IsRegister, [Submit(true)], after);
    TallyAppend(IsSubmit, [Submit(true)], after);
    assert [Submit(true)] + after == [Submit(true)] + regs + [Win(5.0)] == [] + [Submit(true)] + after;
    SerialAccounting(ZERO_ROW, [Submit(true)] + after);
    ConsistentBadgeIff([], true, after);
  }

  lemma TallyOfOne(e: Event)
    ensures Tally(IsRegister, [e]) == IsRegister(e) && Tally(IsSubmit, [e]) == IsSubmit(e)
  {
    assert [e][..0] == [];
  }

  lemma {:induction false} TenRegisters(n: nat)
    ensures Registers(seq(n, i => Register)) == n
  {
    if n > 0 {
      assert seq(n, i => Register)[..n - 1] == seq(n - 1, i => Register);
      TenRegisters(n - 1);
    }
  }
}
