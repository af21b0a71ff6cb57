/**
 * Composite score, tier and badges under overlapping handlers: they are computed from the row as a
 * recalculation read it back, and written later. When do they fit the row they stand in?
 */
module StaleScores {
  import opened Common
  import opened AgentStats
  import opened AgentInterleaving

  /** Only registrations were committed from `at` on. */
  ghost predicate OnlyRegistersSince(log: seq<Commit>, at: nat) {
    forall i :: at <= i < |log| ==> log[i].event.Register?
  }

  /** The columns the score and the tier are computed from, and those of every badge but one. */
  predicate SameRates(a: AgentRow, b: AgentRow) {
    && a.submissions == b.submissions && a.wins == b.wins && a.avgQuality == b.avgQuality
    && a.onTimeRate == b.onTimeRate && a.completionRate == b.completionRate && a.winRate == b.winRate
  }

  /** How a row read when `at` upserts were committed relates to the row now. */
  ghost predicate Follows(r: Reading, row: AgentRow, log: seq<Commit>) {
    && r.at <= |log|
    && (OnlyRegistersSince(log, r.at) ==> SameRates(r.snap, row))
    && (r.at == |log| ==> r.snap.registrations == row.registrations)
  }

  ghost predicate PhaseFollows(p: Phase, row: AgentRow, log: seq<Commit>) {
    p.ReadBack? ==> Follows(Reading(p.snap, p.at), row, log)
  }

  /** The score columns are those of the last reading that was written. */
  ghost predicate ScoredFrom(row: AgentRow, scored: Option<Reading>) {
    scored.Some? ==> row == Recalculate(row, scored.value.snap)
  }

  ghost predicate ReadingsOk(c: Cell) {
    && ScoredFrom(c.row, c.scored)
    && (c.scored.Some? ==> Follows(c.scored.value, c.row, c.log))
    && (c.scored.None? ==> c.row.composite == 0.0 && c.row.tier == Unranked && c.row.badges == [])
    && forall h :: h in c.inFlight ==> PhaseFollows(c.inFlight[h].phase, c.row, c.log)
  }

  lemma FollowsUpsert(r: Reading, row: AgentRow, log: seq<Commit>, snap: AgentRow, e: Event, commit: Commit)
    requires Follows(r, row, log) && commit.event == e
    ensures Follows(r, Upsert(row, snap, e), log + [commit])
  {
    var log' := log + [commit];
    if OnlyRegistersSince(log', r.at) {
      assert log'[|log|] == commit;
      assert forall i :: r.at <= i < |log| ==> log[i] == log'[i];
    }
  }

  lemma CommitKeepsReadings(c: Cell, h: HandlerId)
    requires ReadingsOk(c) && h in c.inFlight && c.inFlight[h].phase.Loaded?
    ensures ReadingsOk(Step(c, CommitUpsert(h)))
  {
    var Handler(e, Loaded(snap, at)) := c.inFlight[h];
    var commit := Commit(e, Gain(snap, e), at);
    var d := Step(c, CommitUpsert(h));
    if c.scored.Some? {
      FollowsUpsert(c.scored.value, c.row, c.log, snap, e, commit);
    }
    forall k | k in d.inFlight ensures PhaseFollows(d.inFlight[k].phase, d.row, d.log) {
      if d.inFlight[k].phase.ReadBack? {
        var p := c.inFlight[k].phase;
        assert PhaseFollows(p, c.row, c.log);
        FollowsUpsert(Reading(p.snap, p.at), c.row, c.log, snap, e, commit);
      }
    }
  }

  lemma WriteKeepsReadings(c: Cell, h: HandlerId)
    requires ReadingsOk(c) && h in c.inFlight && c.inFlight[h].phase.ReadBack?
    ensures ReadingsOk(Step(c, Write(h)))
  {
    var d := Step(c, Write(h));
    assert PhaseFollows(c.inFlight[h].phase, c.row, c.log);
    forall k | k in d.inFlight ensures PhaseFollows(d.inFlight[k].phase, d.row, d.log) {
      if k != h {
        assert PhaseFollows(c.inFlight[k].phase, c.row, c.log);
      }
    }
  }

  lemma StepKeepsReadings(c: Cell, half: Half)
    requires ReadingsOk(c)
    ensures ReadingsOk(Step(c, half))
  {
    if half.CommitUpsert? && half.h in c.inFlight && c.inFlight[half.h].phase.Loaded? {
      CommitKeepsReadings(c, half.h);
    } else if half.Write? && half.h in c.inFlight && c.inFlight[half.h].phase.ReadBack? {
      WriteKeepsReadings(c, half.h);
    } else {
      var d := Step(c, half);
      forall k | k in d.inFlight ensures PhaseFollows(d.inFlight[k].phase, d.row, d.log) {
        if k in c.inFlight {
          assert PhaseFollows(c.inFlight[k].phase, c.row, c.log);
        }
      }
    }
  }

  lemma {:induction false} RunKeepsReadings(halves: seq<Half>)
    ensures ReadingsOk(Run(EMPTY_CELL, halves))
  {
    if halves != [] {
      RunKeepsReadings(halves[..|halves| - 1]);
      StepKeepsReadings(Run(EMPTY_CELL, halves[..|halves| - 1]), halves[|halves| - 1]);
    }
  }

  /**
   * Once a score was written, under every interleaving: it fits the row if and only if the four weighted
   * columns still give the value they gave when the last writer read them; tier and badges likewise.
   * Upserts committed after that reading decide: if there is none, all three fit; if there are only
   * registrations, score and tier fit, and of the badges only the one that counts registrations may not.
   */
  lemma ScoreFitsIff(halves: seq<Half>)
    ensures var c := Run(EMPTY_CELL, halves);
      c.scored.Some? ==>
        && var read := c.scored.value;
           var row := c.row;
           && (row.composite == Composite(row) <==> Composite(read.snap) == Composite(row))
           && (row.tier == DeriveTier(Composite(row), row.wins)
               <==> DeriveTier(Composite(read.snap), read.snap.wins) == DeriveTier(Composite(row), row.wins))
           && (row.badges == ComputeBadges(row) <==> ComputeBadges(read.snap) == ComputeBadges(row))
           && (read.at == |c.log| ==> row == Recalculate(row, row))
           && (OnlyRegistersSince(c.log, read.at) ==>
                 && row.composite == Composite(row)
                 && row.tier == DeriveTier(Composite(row), row.wins)
                 && forall b :: b != Consistent ==> (b in row.badges <==> b in ComputeBadges(row)))
  {
    RunKeepsReadings(halves);
    var c := Run(EMPTY_CELL, halves);
    if c.scored.Some? {
      FitsAfterRegisters(c.row, c.scored.value, c.log);
    }
  }

  lemma FitsAfterRegisters(row: AgentRow, read: Reading, log: seq<Commit>)
    requires ScoredFrom(row, Some(read)) && Follows(read, row, log)
    ensures read.at == |log| ==> row == Recalculate(row, row)
    ensures OnlyRegistersSince(log, read.at) ==>
      && row.composite == Composite(row)
      && row.tier == DeriveTier(Composite(row), row.wins)
      && forall b :: b != Consistent ==> (b in row.badges <==> b in ComputeBadges(row))
  {
    AgentBadgeMeaning(row);
    AgentBadgeMeaning(read.snap);
    if OnlyRegistersSince(log, read.at) {
      assert SameRates(read.snap, row);
      forall b | b != Consistent ensures b in row.badges <==> b in ComputeBadges(row) {
        assert row.badges == ComputeBadges(read.snap);
      }
    }
  }

  /** So a score that does not fit its row was read before a submission, a win or a rating that is already committed. */
  lemma MisfitWasOvertaken(halves: seq<Half>)
    ensures var c := Run(EMPTY_CELL, halves);
      c.scored.Some? && c.row.composite != Composite(c.row) ==>
        exists i :: c.scored.value.at <= i < |c.log| && !c.log[i].event.Register?
  {
    ScoreFitsIff(halves);
  }

  // ---- Reached ------------------------------------------------------------------------------

  function OvertakenHalves(): seq<Half> {
    [Load(0, Submit(true)), CommitUpsert(0), Read(0),
     Load(1, Win(5.0)), CommitUpsert(1), Read(1), Write(1), Push(1), Write(0), Push(0)]
  }

  /** A submission that read back before a win and wrote after it leaves a winner unranked, for good. */
  lemma OvertakenWriteLeavesUnranked()
    ensures var c := Run(EMPTY_CELL, OvertakenHalves());
      && c.inFlight == map[] && c.row.wins == 1 && c.row.tier == Unranked
      && c.row.composite == 0.4 && Composite(c.row) == 0.6
  {
    var halves := OvertakenHalves();
    assert halves[..0] == [] && halves[..10] == halves;
    forall i | 0 <= i < 10 {
      RunStep(EMPTY_CELL, halves, i);
    }
    assert halves[0] == Load(0, Submit(true)) && halves[1] == CommitUpsert(0) && halves[2] == Read(0);
    SubmissionRead(EMPTY_CELL);
    assert halves[3] == Load(1, Win(5.0)) && halves[4] == CommitUpsert(1) && halves[5] == Read(1);
    assert halves[6] == Write(1) && halves[7] == Push(1);
    WinPassed(Run(EMPTY_CELL, halves[..3]));
    assert halves[8] == Write(0) && halves[9] == Push(0);
    LateWrite(Run(EMPTY_CELL, halves[..8]));
  }

  predicate Rates(row: AgentRow, winRate: real, wins: nat) {
    && row.avgQuality == 0.0 && row.onTimeRate == 1.0 && row.completionRate == 1.0
    && row.winRate == winRate && row.wins == wins
  }

  /** Handler 0 has read back a row with one submission and no win. */
  ghost predicate HoldsSubmission(c: Cell) {
    && c.inFlight.Keys == {0} && c.inFlight[0].phase.ReadBack? && Rates(c.inFlight[0].phase.snap, 0.0, 0)
  }

  lemma SubmissionRead(c: Cell)
    requires c == EMPTY_CELL
    ensures var d := Step(Step(Step(c, Load(0, Submit(true))), CommitUpsert(0)), Read(0));
      HoldsSubmission(d) && Rates(d.row, 0.0, 0) && d.row.registrations == 0
  {
    var d := Step(Step(c, Load(0, Submit(true))), CommitUpsert(0));
    assert d.row.onTimeRate == 1.0 && d.row.completionRate == 1.0;
  }

  lemma WinPassed(c: Cell)
    requires HoldsSubmission(c) && Rates(c.row, 0.0, 0) && c.row.registrations == 0
    ensures var d := Step(Step(Step(Step(Step(c, Load(1, Win(5.0))), CommitUpsert(1)), Read(1)), Write(1)), Push(1));
      HoldsSubmission(d) && Rates(d.row, 1.0, 1)
  {
    var d := Step(Step(c, Load(1, Win(5.0))), CommitUpsert(1));
    assert d.row.winRate == 1.0;
  }

  lemma LateWrite(c: Cell)
    requires HoldsSubmission(c) && Rates(c.row, 1.0, 1)
    ensures var d := Step(Step(c, Write(0)), Push(0));
      && d.inFlight == map[] && d.row.wins == 1 && d.row.tier == Unranked
      && d.row.composite == 0.4 && Composite(d.row) == 0.6
  {
  }
}
