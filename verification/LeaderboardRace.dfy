/**
 * The leaderboard under overlapping recalculations: each handler writes its score to the row first
 * and pushes it afterwards, so a push can land behind that of a newer score.
 */
module LeaderboardRace {
  import opened Common
  import opened AgentStats
  import opened AgentInterleaving

  /** The agent's score in the global set, if any push landed. */
  function BoardScore(c: Cell): Option<real> {
    if c.pushes == [] || c.pushes[|c.pushes| - 1] >= |c.scores| then None
    else Some(c.scores[c.pushes[|c.pushes| - 1]])
  }

  /** A handler still holds the score written in this turn. */
  ghost predicate Holding(c: Cell, turn: nat) {
    exists h :: h in c.inFlight && c.inFlight[h].phase == Written(turn)
  }

  ghost predicate HoldersDistinct(c: Cell) {
    forall h, k :: h in c.inFlight && k in c.inFlight && h != k && c.inFlight[h].phase.Written? ==>
      c.inFlight[h].phase != c.inFlight[k].phase
  }

  /** Every written score is either held or was pushed, once; the row shows the last one written. */
  ghost predicate ScoresOk(c: Cell) {
    && (c.scores != [] ==> c.row.composite == c.scores[|c.scores| - 1])
    && NoDuplicates(c.pushes)
    && (forall turn :: turn in c.pushes ==> turn < |c.scores| && !Holding(c, turn))
    && (forall h :: h in c.inFlight && c.inFlight[h].phase.Written? ==> c.inFlight[h].phase.turn < |c.scores|)
    && (forall turn :: 0 <= turn < |c.scores| ==> turn in c.pushes || Holding(c, turn))
    && HoldersDistinct(c)
  }

  /** Halves that neither write nor push leave the holders alone. */
  lemma SameHolders(c: Cell, d: Cell)
    requires ScoresOk(c)
    requires d.scores == c.scores && d.pushes == c.pushes && d.row.composite == c.row.composite
    requires forall h :: h in d.inFlight && d.inFlight[h].phase.Written? ==>
      h in c.inFlight && c.inFlight[h].phase == d.inFlight[h].phase
    requires forall h :: h in c.inFlight && c.inFlight[h].phase.Written? ==>
      h in d.inFlight && c.inFlight[h].phase == d.inFlight[h].phase
    ensures ScoresOk(d)
  {
    forall turn: nat ensures Holding(d, turn) <==> Holding(c, turn) {
      if h :| h in c.inFlight && c.inFlight[h].phase == Written(turn) {
        assert d.inFlight[h].phase == Written(turn);
      }
    }
  }

  lemma WriteKeepsScores(c: Cell, h: HandlerId)
    requires ScoresOk(c) && h in c.inFlight && c.inFlight[h].phase.ReadBack?
    ensures ScoresOk(Step(c, Write(h)))
  {
    var d := Step(c, Write(h));
    assert d.inFlight[h].phase == Written(|c.scores|);
    forall turn: nat | turn < |c.scores| ensures Holding(d, turn) <==> Holding(c, turn) {
      if k :| k in c.inFlight && c.inFlight[k].phase == Written(turn) {
        assert d.inFlight[k].phase == Written(turn);
      }
    }
  }

  lemma PushKeepsScores(c: Cell, h: HandlerId)
    requires ScoresOk(c) && h in c.inFlight && c.inFlight[h].phase.Written?
    ensures ScoresOk(Step(c, Push(h)))
  {
    var d := Step(c, Push(h));
    var pushed := c.inFlight[h].phase.turn;
    assert Holding(c, pushed);
    forall turn: nat ensures Holding(d, turn) <==> Holding(c, turn) && turn != pushed {
      if k :| k in c.inFlight && c.inFlight[k].phase == Written(turn) {
        assert k != h ==> d.inFlight[k].phase == Written(turn);
      }
    }
  }

  lemma StepKeepsScores(c: Cell, half: Half)
    requires ScoresOk(c)
    ensures ScoresOk(Step(c, half))
  {
    if half.Write? && half.h in c.inFlight && c.inFlight[half.h].phase.ReadBack? {
      WriteKeepsScores(c, half.h);
    } else if half.Push? && half.h in c.inFlight && c.inFlight[half.h].phase.Written? {
      PushKeepsScores(c, half.h);
    } else {
      SameHolders(c, Step(c, half));
    }
  }

  lemma {:induction false} RunKeepsScores(halves: seq<Half>)
    ensures ScoresOk(Run(EMPTY_CELL, halves))
  {
    if halves != [] {
      RunKeepsScores(halves[..|halves| - 1]);
      StepKeepsScores(Run(EMPTY_CELL, halves[..|halves| - 1]), halves[|halves| - 1]);
    }
  }

  /** The push of a newer score landed before the last push. */
  ghost predicate Overtaken(c: Cell) {
    && c.pushes != []
    && exists i :: 0 <= i < |c.pushes| - 1 && c.pushes[|c.pushes| - 1] < c.pushes[i]
  }

  /**
   * Once all handlers are done, under every interleaving: an agent is in the global set if and only
   * if a score was ever written; its score there is the stored one if and only if the push that
   * landed last carries the value of the last score written, which fails only if that push was overtaken.
   */
  lemma BoardAgreesIff(halves: seq<Half>)
    requires Run(EMPTY_CELL, halves).inFlight == map[]
    ensures var c := Run(EMPTY_CELL, halves);
      && (BoardScore(c).Some? <==> c.scores != [])
      && (c.scores != [] ==>
            && c.pushes != [] && c.pushes[|c.pushes| - 1] < |c.scores|
            && (BoardScore(c) == Some(c.row.composite) <==>
                  c.scores[c.pushes[|c.pushes| - 1]] == c.scores[|c.scores| - 1])
            && (BoardScore(c) != Some(c.row.composite) ==> Overtaken(c))
            && (Overtaken(c) <==> c.pushes[|c.pushes| - 1] != |c.scores| - 1))
  {
    var c := Run(EMPTY_CELL, halves);
    RunKeepsScores(halves);
    if c.scores != [] {
      var newest: nat := |c.scores| - 1;
      assert !Holding(c, newest);
      assert newest in c.pushes;
      var last := c.pushes[|c.pushes| - 1];
      assert last in c.pushes;
      if last != |c.scores| - 1 {
        var i :| 0 <= i < |c.pushes| && c.pushes[i] == |c.scores| - 1;
        assert i < |c.pushes| - 1;
        assert Overtaken(c);
      } else {
        assert forall i :: 0 <= i < |c.pushes| ==> c.pushes[i] in c.pushes;
      }
    }
  }

  /** The last score written is either still held or was the last one pushed. */
  ghost predicate InOrder(c: Cell) {
    && (forall h :: h in c.inFlight && c.inFlight[h].phase.Written? ==> c.inFlight[h].phase.turn == |c.scores| - 1)
    && (c.pushes != [] && (forall h :: h in c.inFlight ==> !c.inFlight[h].phase.Written?) ==>
          c.pushes[|c.pushes| - 1] == |c.scores| - 1)
  }

  lemma StepInOrder(c: Cell, half: Half)
    requires InOrder(c) && forall h :: h in c.inFlight ==> c.inFlight.Keys == {h}
    requires half.Load? ==> c.inFlight == map[]
    ensures InOrder(Step(c, half))
  {
    var d := Step(c, half);
    match half
    case Load(h, _) => assert h in d.inFlight && d.inFlight.Keys == {h};
    case Write(h) =>
      if h in c.inFlight && c.inFlight[h].phase.ReadBack? {
        assert d.inFlight.Keys == {h};
      }
    case Push(h) =>
    case CommitUpsert(h) =>
      if h in c.inFlight && c.inFlight[h].phase.Loaded? {
        assert c.inFlight.Keys == {h};
      }
    case Read(h) =>
      if h in c.inFlight && c.inFlight[h].phase.Upserted? {
        assert c.inFlight.Keys == {h};
      }
  }

  /** Without overlap, each push carries the last score written. */
  lemma {:induction false} NoOverlapPushesInOrder(halves: seq<Half>)
    requires NoOverlap(EMPTY_CELL, halves)
    ensures InOrder(Run(EMPTY_CELL, halves))
  {
    if halves != [] {
      var front := halves[..|halves| - 1];
      NoOverlapPushesInOrder(front);
      NoOverlapIsSerial(front);
      StepInOrder(Run(EMPTY_CELL, front), halves[|halves| - 1]);
    }
  }

  /** So the global set is exact whenever no handler of the agent runs. */
  lemma NoOverlapBoardIsExact(halves: seq<Half>)
    requires NoOverlap(EMPTY_CELL, halves) && Run(EMPTY_CELL, halves).inFlight == map[]
    ensures var c := Run(EMPTY_CELL, halves); c.scores != [] ==> BoardScore(c) == Some(c.row.composite)
  {
    NoOverlapPushesInOrder(halves);
    BoardAgreesIff(halves);
  }

  /** Overlap can leave a stale score behind for good: the submission's push lands after the win's. */
  lemma OvertakenPushLeavesStaleScore()
    ensures var halves := StaleHalves();
      var c := Run(EMPTY_CELL, halves);
      c.inFlight == map[] && c.row.composite == 0.6 && BoardScore(c) == Some(0.4)
  {
    var halves := StaleHalves();
    assert halves[..0] == [] && halves[..10] == halves;
    forall i | 0 <= i < 10 {
      RunStep(EMPTY_CELL, halves, i);
    }
    var c4 := Run(EMPTY_CELL, halves[..4]);
    SubmissionWritten(EMPTY_CELL);
    assert halves[0] == Load(0, Submit(true)) && halves[1] == CommitUpsert(0);
    assert halves[2] == Read(0) && halves[3] == Write(0);
    var c8 := Run(EMPTY_CELL, halves[..8]);
    WinWritten(c4);
    assert halves[4] == Load(1, Win(5.0)) && halves[5] == CommitUpsert(1);
    assert halves[6] == Read(1) && halves[7] == Write(1);
    PushesSwapped(c8);
    assert halves[8] == Push(1) && halves[9] == Push(0);
  }

  function StaleHalves(): seq<Half> {
    [Load(0, Submit(true)), CommitUpsert(0), Read(0), Write(0),
     Load(1, Win(5.0)), CommitUpsert(1), Read(1), Write(1), Push(1), Push(0)]
  }

  ghost predicate AfterSubmission(c: Cell) {
    && c.inFlight == map[0 := Handler(Submit(true), Written(0))] && c.scores == [0.4] && c.pushes == []
    && c.row.avgQuality == 0.0 && c.row.onTimeRate == 1.0 && c.row.completionRate == 1.0
    && c.row.wins == 0 && c.row.registrations == 0
  }

  lemma SubmissionWritten(c: Cell)
    requires c == EMPTY_CELL
    ensures AfterSubmission(Step(Step(Step(Step(c, Load(0, Submit(true))), CommitUpsert(0)), Read(0)), Write(0)))
  {
    var c2 := Step(Step(c, Load(0, Submit(true))), CommitUpsert(0));
    assert c2.row.onTimeRate == 1.0 && c2.row.completionRate == 1.0 && c2.row.winRate == 0.0;
    var c3 := Step(c2, Read(0));
    assert Composite(c3.inFlight[0].phase.snap) == 0.4;
  }

  ghost predicate AfterWin(c: Cell) {
    && c.inFlight == map[0 := Handler(Submit(true), Written(0)), 1 := Handler(Win(5.0), Written(1))]
    && c.scores == [0.4, 0.6] && c.pushes == [] && c.row.composite == 0.6
  }

  lemma WinWritten(c: Cell)
    requires AfterSubmission(c)
    ensures AfterWin(Step(Step(Step(Step(c, Load(1, Win(5.0))), CommitUpsert(1)), Read(1)), Write(1)))
  {
    var c6 := Step(Step(c, Load(1, Win(5.0))), CommitUpsert(1));
    assert c6.row.winRate == 1.0;
    var c7 := Step(c6, Read(1));
    assert Composite(c7.inFlight[1].phase.snap) == 0.6;
  }

  lemma PushesSwapped(c: Cell)
    requires AfterWin(c)
    ensures var d := Step(Step(c, Push(1)), Push(0));
      d.inFlight == map[] && d.row.composite == 0.6 && BoardScore(d) == Some(0.4)
  {
  }
}
