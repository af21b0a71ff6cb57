/**
 * What overlapping agent handlers lose: the exact value of every counter, of XP and of earnings after
 * any interleaving, and exactly when it counts every committed upsert.
 */
module LostUpdates {
  import opened Common
  import opened AgentStats
  import opened AgentInterleaving
  import opened WriteChains

  datatype Column = Registrations | Submissions | OnTime | Wins | Xp | Earned

  function ValueOf(col: Column, row: AgentRow): real {
    match col
    case Registrations => row.registrations as real
    case Submissions => row.submissions as real
    case OnTime => row.onTime as real
    case Wins => row.wins as real
    case Xp => row.xp as real
    case Earned => row.earned
  }

  /** The upserts that list the column. */
  predicate Writes(col: Column, e: Event) {
    match col
    case Registrations => e.Register?
    case Submissions => e.Submit?
    case OnTime => e.Submit?
    case Wins => e.Win?
    case Xp => !e.Rate?
    case Earned => e.Win?
  }

  /** What an upsert means to add to the column. */
  function Adds(col: Column, c: Commit): real {
    match col
    case Registrations => CommitRegister(c) as real
    case Submissions => CommitSubmit(c) as real
    case OnTime => CommitOnTime(c) as real
    case Wins => CommitWin(c) as real
    case Xp => CommitGain(c) as real
    case Earned => 0.9 * CommitPrize(c)
  }

  function LinkOf(col: Column, c: Commit): Link {
    Link(Writes(col, c.event), Adds(col, c), c.loadedAt)
  }

  function Links(col: Column, log: seq<Commit>): seq<Link> {
    seq(|log|, i requires 0 <= i < |log| => LinkOf(col, log[i]))
  }

  lemma LinksSnoc(col: Column, log: seq<Commit>, c: Commit)
    ensures Links(col, log + [c]) == Links(col, log) + [LinkOf(col, c)]
  {
  }

  // ---- The value of a column in every run ---------------------------------------------------

  predicate CommitOk(c: Commit, i: nat) {
    c.loadedAt <= i && (c.event.Rate? <==> c.gain == 0)
  }

  ghost predicate LogOk(log: seq<Commit>) {
    forall i :: 0 <= i < |log| ==> CommitOk(log[i], i)
  }

  /** A snapshot holds the chain as it was when it was loaded. */
  ghost predicate SnapshotChained(p: Phase, log: seq<Commit>, col: Column) {
    p.Loaded? ==> p.at <= |log| && ValueOf(col, p.snap) == ChainSum(Links(col, log), p.at)
  }

  ghost predicate Chained(c: Cell, col: Column) {
    && LogOk(c.log)
    && ValueOf(col, c.row) == ChainSum(Links(col, c.log), |c.log|)
    && forall h :: h in c.inFlight ==> SnapshotChained(c.inFlight[h].phase, c.log, col)
  }

  lemma UpsertValue(row: AgentRow, snap: AgentRow, e: Event, at: nat, col: Column)
    ensures ValueOf(col, Upsert(row, snap, e))
         == if Writes(col, e) then ValueOf(col, snap) + Adds(col, Commit(e, Gain(snap, e), at)) else ValueOf(col, row)
    ensures e.Rate? <==> Gain(snap, e) == 0
  {
  }

  lemma CommitChained(c: Cell, h: HandlerId, col: Column)
    requires Chained(c, col) && h in c.inFlight && c.inFlight[h].phase.Loaded?
    ensures Chained(Step(c, CommitUpsert(h)), col)
  {
    var Handler(e, Loaded(snap, at)) := c.inFlight[h];
    var commit := Commit(e, Gain(snap, e), at);
    var d := Step(c, CommitUpsert(h));
    assert SnapshotChained(c.inFlight[h].phase, c.log, col);
    UpsertValue(c.row, snap, e, at, col);
    LinksSnoc(col, c.log, commit);
    ChainSumSnoc(Links(col, c.log), LinkOf(col, commit));
    assert LogOk(d.log);
    forall k | k in d.inFlight ensures SnapshotChained(d.inFlight[k].phase, d.log, col) {
      if d.inFlight[k].phase.Loaded? {
        assert SnapshotChained(c.inFlight[k].phase, c.log, col);
        ChainSumPrefix(Links(col, c.log), LinkOf(col, commit), d.inFlight[k].phase.at);
      }
    }
  }

  lemma StepChained(c: Cell, half: Half, col: Column)
    requires Chained(c, col)
    ensures Chained(Step(c, half), col)
  {
    if half.CommitUpsert? && half.h in c.inFlight && c.inFlight[half.h].phase.Loaded? {
      CommitChained(c, half.h, col);
    } else {
      assert Step(c, half).log == c.log;
    }
  }

  /** Under every interleaving a column holds the sum along the chain of its last upsert. */
  lemma {:induction false} ColumnIsChainSum(halves: seq<Half>, col: Column)
    ensures Chained(Run(EMPTY_CELL, halves), col)
    ensures var c := Run(EMPTY_CELL, halves); ValueOf(col, c.row) == ChainSum(Links(col, c.log), |c.log|)
  {
    if halves != [] {
      ColumnIsChainSum(halves[..|halves| - 1], col);
      StepChained(Run(EMPTY_CELL, halves[..|halves| - 1]), halves[|halves| - 1], col);
    }
  }

  // ---- When nothing is lost -----------------------------------------------------------------

  /** Prizes matter for earnings only. */
  ghost predicate PrizesNonNegative(col: Column, log: seq<Commit>) {
    col.Earned? ==> forall i :: 0 <= i < |log| && log[i].event.Win? ==> log[i].event.prize >= 0.0
  }

  ghost predicate PrizesPositive(col: Column, log: seq<Commit>) {
    col.Earned? ==> forall i :: 0 <= i < |log| && log[i].event.Win? ==> log[i].event.prize > 0.0
  }

  lemma LinksAreOk(col: Column, log: seq<Commit>)
    requires LogOk(log) && PrizesNonNegative(col, log)
    ensures LinksOk(Links(col, log))
    ensures !col.OnTime? && PrizesPositive(col, log) ==> EveryWriteAdds(Links(col, log))
  {
    forall i | 0 <= i < |log| ensures LinkOk(Links(col, log)[i], i) {
      assert CommitOk(log[i], i);
    }
    if !col.OnTime? && PrizesPositive(col, log) {
      forall i | 0 <= i < |log| && Writes(col, log[i].event) ensures Adds(col, log[i]) > 0.0 {
        assert CommitOk(log[i], i);
      }
    }
  }

  /**
   * The exact condition, for every interleaving: a column equals the sum of its committed upserts if
   * and only if its chain is intact. For registrations, submissions, wins, XP and earnings that says
   * that no upsert of the column commits inside the load-to-commit window of another; only the on-time
   * counter can recover, when a late submission that overwrote it is overwritten in turn.
   */
  lemma NothingLostIff(halves: seq<Half>, col: Column)
    requires PrizesNonNegative(col, Run(EMPTY_CELL, halves).log)
    ensures var c := Run(EMPTY_CELL, halves);
      var links := Links(col, c.log);
      && (ValueOf(col, c.row) == Total(links, |links|) <==> Intact(links, |links|))
      && (!col.OnTime? && PrizesPositive(col, c.log) ==>
            (ValueOf(col, c.row) == Total(links, |links|) <==> Exclusive(links, |links|)))
  {
    var c := Run(EMPTY_CELL, halves);
    var links := Links(col, c.log);
    ColumnIsChainSum(halves, col);
    LinksAreOk(col, c.log);
    ChainSumExactIff(links, |links|);
    if !col.OnTime? && PrizesPositive(col, c.log) {
      IntactIffExclusive(links, |links|);
    }
  }

  /** The totals are the counts of committed upserts, the XP they meant to add, and nine tenths of the prizes. */
  lemma {:induction false} TotalsAreTallies(log: seq<Commit>)
    ensures Total(Links(Registrations, log), |log|) == Tally(CommitRegister, log) as real
    ensures Total(Links(Submissions, log), |log|) == Tally(CommitSubmit, log) as real
    ensures Total(Links(OnTime, log), |log|) == Tally(CommitOnTime, log) as real
    ensures Total(Links(Wins, log), |log|) == Tally(CommitWin, log) as real
    ensures Total(Links(Xp, log), |log|) == Tally(CommitGain, log) as real
    ensures Total(Links(Earned, log), |log|) == 0.9 * SumOf(CommitPrize, log)
  {
    if log != [] {
      var front, c := log[..|log| - 1], log[|log| - 1];
      TotalsAreTallies(front);
      TotalOfLast(Registrations, front, c);
      TotalOfLast(Submissions, front, c);
      TotalOfLast(OnTime, front, c);
      TotalOfLast(Wins, front, c);
      TotalOfLast(Xp, front, c);
      TotalOfLast(Earned, front, c);
      assert log == front + [c];
    }
  }

  lemma TotalOfLast(col: Column, front: seq<Commit>, c: Commit)
    ensures Total(Links(col, front + [c]), |front| + 1) == Total(Links(col, front), |front|) + Adds(col, c)
  {
    LinksSnoc(col, front, c);
    TotalPrefix(Links(col, front), LinkOf(col, c), |front|);
  }

  /** The on-time counter does recover: a late submission overwrites it, and a third one restores it. */
  lemma OnTimeRecovers()
    ensures var c := Run(EMPTY_CELL, RecoveringHalves());
      && c.row.onTime == 1 == Tally(CommitOnTime, c.log)
      && !Exclusive(Links(OnTime, c.log), |c.log|)
  {
    var halves := RecoveringHalves();
    assert halves[..0] == [] && halves[..6] == halves;
    forall i | 0 <= i < 6 {
      RunStep(EMPTY_CELL, halves, i);
    }
    var c3 := Run(EMPTY_CELL, halves[..3]);
    assert halves[0] == Load(0, Submit(false)) && halves[1] == Load(1, Submit(true)) && halves[2] == CommitUpsert(1);
    FirstOnTime(EMPTY_CELL);
    assert halves[3] == Load(2, Submit(false)) && halves[4] == CommitUpsert(0) && halves[5] == CommitUpsert(2);
    OnTimeRestored(c3);
  }

  function RecoveringHalves(): seq<Half> {
    [Load(0, Submit(false)), Load(1, Submit(true)), CommitUpsert(1),
     Load(2, Submit(false)), CommitUpsert(0), CommitUpsert(2)]
  }

  ghost predicate OneOnTime(c: Cell) {
    && c.row.onTime == 1 && c.log == [Commit(Submit(true), 35, 0)]
    && 0 in c.inFlight && c.inFlight[0] == Handler(Submit(false), Loaded(ZERO_ROW, 0)) && 2 !in c.inFlight
  }

  lemma FirstOnTime(c: Cell)
    requires c == EMPTY_CELL
    ensures OneOnTime(Step(Step(Step(c, Load(0, Submit(false))), Load(1, Submit(true))), CommitUpsert(1)))
  {
  }

  lemma OnTimeRestored(c: Cell)
    requires OneOnTime(c)
    ensures var d := Step(Step(Step(c, Load(2, Submit(false))), CommitUpsert(0)), CommitUpsert(2));
      && d.row.onTime == 1 == Tally(CommitOnTime, d.log)
      && !Exclusive(Links(OnTime, d.log), |d.log|)
  {
    var late0, late1 := Commit(Submit(false), 15, 0), Commit(Submit(false), 15, 1);
    var b := Step(Step(c, Load(2, Submit(false))), CommitUpsert(0));
    assert b.log == c.log + [late0] && b.inFlight[2].phase.Loaded? && b.inFlight[2].phase.snap == c.row;
    var d := Step(b, CommitUpsert(2));
    assert d.log == b.log + [late1];
    LateSubmissionsAddNothing(c.log, late0, late1);
    var links := Links(OnTime, d.log);
    assert links[1] == LinkOf(OnTime, late0) && links[0].writes;
  }

  lemma TallyOne(c: Commit)
    ensures Tally(CommitOnTime, [c]) == CommitOnTime(c)
  {
    assert [c][..0] == [];
  }

  lemma LateSubmissionsAddNothing(log: seq<Commit>, late0: Commit, late1: Commit)
    requires |log| == 1 && log[0].event == Submit(true)
    requires late0.event == Submit(false) && late1.event == Submit(false)
    ensures Tally(CommitOnTime, log + [late0] + [late1]) == 1
  {
    TallyAppend(CommitOnTime, log + [late0], [late1]);
    TallyAppend(CommitOnTime, log, [late0]);
    TallyOne(log[0]);
    TallyOne(late0);
    TallyOne(late1);
    assert log == [log[0]];
  }
}
