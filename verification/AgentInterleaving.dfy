/**
 * Handlers as they really run: each one is a load, an upsert, and (except for registrations) a
 * read-back, a write of the score columns and a push of the score to the leaderboards, with other
 * handlers running in between. A run is any sequence of these parts; a part that is not enabled
 * does nothing.
 */
module AgentInterleaving {
  import opened Common
  import opened AgentStats

  type HandlerId = nat

  /**
   * `at` is the number of upserts committed when the row was read, `turn` the number of scores
   * written before.
   */
  datatype Phase =
    | Loaded(snap: AgentRow, at: nat)
    | Upserted
    | ReadBack(snap: AgentRow, at: nat)
    | Written(turn: nat)

  /** The row a recalculation read, and how many upserts were committed then. */
  datatype Reading = Reading(snap: AgentRow, at: nat)

  datatype Handler = Handler(event: Event, phase: Phase)

  /** A committed upsert, with the XP it meant to add and the number of upserts its load had seen. */
  datatype Commit = Commit(event: Event, gain: nat, loadedAt: nat)

  /**
   * One agent's row, the handlers working on it, the upserts committed so far, the scores written so
   * far, which of them were pushed to the leaderboards, in order, and what the last score was
   * computed from.
   */
  datatype Cell = Cell(
    row: AgentRow,
    inFlight: map<HandlerId, Handler>,
    log: seq<Commit>,
    scores: seq<real>,
    pushes: seq<nat>,
    scored: Option<Reading>)

  datatype Half =
    | Load(h: HandlerId, event: Event)
    | CommitUpsert(h: HandlerId)
    | Read(h: HandlerId)
    | Write(h: HandlerId)
    | Push(h: HandlerId)

  const EMPTY_CELL := Cell(ZERO_ROW, map[], [], [], [], None)

  function Step(c: Cell, half: Half): Cell {
    match half
    case Load(h, e) =>
      if h in c.inFlight then c
      else c.(inFlight := c.inFlight[h := Handler(e, Loaded(c.row, |c.log|))])
    case CommitUpsert(h) =>
      if h in c.inFlight && c.inFlight[h].phase.Loaded? then
        var Handler(e, Loaded(snap, at)) := c.inFlight[h];
        c.(row := Upsert(c.row, snap, e),
           inFlight := if e.Register? then c.inFlight - {h} else c.inFlight[h := Handler(e, Upserted)],
           log := c.log + [Commit(e, Gain(snap, e), at)])
      else c
    case Read(h) =>
      if h in c.inFlight && c.inFlight[h].phase.Upserted? then
        c.(inFlight := c.inFlight[h := Handler(c.inFlight[h].event, ReadBack(c.row, |c.log|))])
      else c
    case Write(h) =>
      if h in c.inFlight && c.inFlight[h].phase.ReadBack? then
        var snap := c.inFlight[h].phase.snap;
        c.(row := Recalculate(c.row, snap),
           scores := c.scores + [Composite(snap)],
           scored := Some(Reading(snap, c.inFlight[h].phase.at)),
           inFlight := c.inFlight[h := Handler(c.inFlight[h].event, Written(|c.scores|))])
      else c
    case Push(h) =>
      if h in c.inFlight && c.inFlight[h].phase.Written? then
        c.(pushes := c.pushes + [c.inFlight[h].phase.turn], inFlight := c.inFlight - {h})
      else c
  }

  function Run(c: Cell, halves: seq<Half>): Cell {
    if halves == [] then c else Step(Run(c, halves[..|halves| - 1]), halves[|halves| - 1])
  }

  // ---- What every interleaving keeps --------------------------------------------------------

  function CommitRegister(c: Commit): nat { if c.event.Register? then 1 else 0 }
  function CommitSubmit(c: Commit): nat { if c.event.Submit? then 1 else 0 }
  function CommitOnTime(c: Commit): nat { if c.event.Submit? && c.event.wasOnTime then 1 else 0 }
  function CommitWin(c: Commit): nat { if c.event.Win? then 1 else 0 }
  function CommitGain(c: Commit): nat { c.gain }
  function CommitPrize(c: Commit): real { if c.event.Win? then c.event.prize else 0.0 }

  /** The column relations no interleaving can break; ratings lie in [0, top]. */
  ghost predicate RowSound(s: AgentRow, top: real) {
    && s.onTime <= s.submissions
    && s.onTimeRate == Ratio(s.onTime, s.submissions)
    && 0.0 <= s.onTimeRate <= 1.0
    && s.streak == s.wins
    && 0.0 <= s.completionRate <= 1.0
    && 0.0 <= s.winRate <= 1.0
    && 0.0 <= s.avgQuality <= top
    && 0.0 <= s.composite <= 0.4 * top + 0.6
  }

  /** No counter runs ahead of the upserts committed so far. */
  ghost predicate CountersBounded(s: AgentRow, log: seq<Commit>) {
    && s.registrations <= Tally(CommitRegister, log)
    && s.submissions <= Tally(CommitSubmit, log)
    && s.onTime <= Tally(CommitOnTime, log)
    && s.wins <= Tally(CommitWin, log)
    && s.xp <= Tally(CommitGain, log)
    && s.earned <= 0.9 * SumOf(CommitPrize, log)
  }

  ghost predicate SnapshotOk(p: Phase, log: seq<Commit>, top: real) {
    p.Upserted? || p.Written? || (RowSound(p.snap, top) && CountersBounded(p.snap, log))
  }

  ghost predicate EventOk(e: Event, top: real) {
    && (e.Rate? ==> 0.0 <= e.average <= top)
    && (e.Win? ==> e.prize >= 0.0)
  }

  ghost predicate CellSound(c: Cell, top: real) {
    && RowSound(c.row, top)
    && CountersBounded(c.row, c.log)
    && (forall h :: h in c.inFlight ==> EventOk(c.inFlight[h].event, top))
    && (forall h :: h in c.inFlight ==> SnapshotOk(c.inFlight[h].phase, c.log, top))
  }

  ghost predicate EventsOk(halves: seq<Half>, top: real) {
    forall half :: half in halves && half.Load? ==> EventOk(half.event, top)
  }

  lemma UpsertSound(row: AgentRow, snap: AgentRow, e: Event, top: real)
    requires RowSound(row, top) && RowSound(snap, top) && EventOk(e, top)
    ensures RowSound(Upsert(row, snap, e), top)
  {
    match e
    case Register =>
    case Rate(_) =>
    case Submit(wasOnTime) =>
      RatioBounds(snap.onTime + (if wasOnTime then 1 else 0), snap.submissions + 1);
      RatioBounds(snap.submissions + 1, Max(snap.registrations, snap.submissions + 1));
    case Win(_) =>
      RatioBounds(snap.wins + 1, Max(snap.registrations, snap.wins + 1));
  }

  lemma RecalculateSound(row: AgentRow, snap: AgentRow, top: real)
    requires RowSound(row, top) && RowSound(snap, top)
    ensures RowSound(Recalculate(row, snap), top)
  {
  }

  lemma CountersGrow(s: AgentRow, log: seq<Commit>, c: Commit)
    requires CountersBounded(s, log) && (c.event.Win? ==> c.event.prize >= 0.0)
    ensures CountersBounded(s, log + [c])
  {
    assert (log + [c])[..|log|] == log;
  }

  lemma UpsertBounded(row: AgentRow, snap: AgentRow, e: Event, log: seq<Commit>, at: nat)
    requires CountersBounded(row, log) && CountersBounded(snap, log) && (e.Win? ==> e.prize >= 0.0)
    ensures CountersBounded(Upsert(row, snap, e), log + [Commit(e, Gain(snap, e), at)])
  {
    assert (log + [Commit(e, Gain(snap, e), at)])[..|log|] == log;
  }

  lemma StepSound(c: Cell, half: Half, top: real)
    requires CellSound(c, top) && EventsOk([half], top)
    ensures CellSound(Step(c, half), top)
  {
    assert half in [half];
    match half
    case Load(_, _) =>
    case Read(_) =>
    case Push(_) =>
    case CommitUpsert(h) =>
      if h in c.inFlight && c.inFlight[h].phase.Loaded? {
        var Handler(e, Loaded(snap, at)) := c.inFlight[h];
        UpsertSound(c.row, snap, e, top);
        UpsertBounded(c.row, snap, e, c.log, at);
        forall k | k in c.inFlight && (c.inFlight[k].phase.Loaded? || c.inFlight[k].phase.ReadBack?) {
          CountersGrow(c.inFlight[k].phase.snap, c.log, Commit(e, Gain(snap, e), at));
        }
      }
    case Write(h) =>
      if h in c.inFlight && c.inFlight[h].phase.ReadBack? {
        RecalculateSound(c.row, c.inFlight[h].phase.snap, top);
      }
  }

  /** Whatever the interleaving: the columns stay related, and counters and XP never overshoot. */
  lemma EveryInterleavingIsSound(halves: seq<Half>, top: real)
    requires top >= 0.0 && EventsOk(halves, top)
    ensures RowSound(Run(EMPTY_CELL, halves).row, top)
    ensures CountersBounded(Run(EMPTY_CELL, halves).row, Run(EMPTY_CELL, halves).log)
  {
    CellsAreSound(halves, top);
  }

  /** In particular the stored rate times the submissions is the number on time. */
  lemma OnTimeRateIsExact(s: AgentRow, top: real)
    requires RowSound(s, top)
    ensures s.onTimeRate * s.submissions as real == s.onTime as real
  {
    RatioBounds(s.onTime, s.submissions);
  }

  lemma {:induction false} CellsAreSound(halves: seq<Half>, top: real)
    requires top >= 0.0 && EventsOk(halves, top)
    ensures CellSound(Run(EMPTY_CELL, halves), top)
  {
    if halves != [] {
      var front, last := halves[..|halves| - 1], halves[|halves| - 1];
      assert forall x :: x in front ==> x in halves;
      assert last in halves;
      CellsAreSound(front, top);
      StepSound(Run(EMPTY_CELL, front), last, top);
    }
  }

  // ---- Without overlap, an interleaving is a serial run -------------------------------------

  function EventsOf(log: seq<Commit>): seq<Event> {
    seq(|log|, i requires 0 <= i < |log| => log[i].event)
  }

  /** Every handler starts when no other handler of this agent is in flight. */
  ghost predicate NoOverlap(c: Cell, halves: seq<Half>) {
    halves != [] ==>
      && NoOverlap(c, halves[..|halves| - 1])
      && (halves[|halves| - 1].Load? ==> Run(c, halves[..|halves| - 1]).inFlight == map[])
  }

  /** Where one handler stands between the serial run of the log and the stored row. */
  ghost predicate PhaseMatches(c: Cell, p: Phase) {
    var serial := ApplyAll(ZERO_ROW, EventsOf(c.log));
    match p
    case Loaded(snap, _) => snap == c.row && c.row == serial
    case Written(_) => c.row == serial
    case Upserted => Recalculate(c.row, c.row) == serial
    case ReadBack(snap, _) => snap == c.row && Recalculate(c.row, c.row) == serial
  }

  ghost predicate SerialSoFar(c: Cell) {
    && (c.inFlight == map[] ==> c.row == ApplyAll(ZERO_ROW, EventsOf(c.log)))
    && (forall h :: h in c.inFlight ==> c.inFlight.Keys == {h} && PhaseMatches(c, c.inFlight[h].phase))
  }

  lemma ApplyAllSnoc(row: AgentRow, log: seq<Commit>, commit: Commit)
    ensures ApplyAll(row, EventsOf(log + [commit])) == Apply(ApplyAll(row, EventsOf(log)), commit.event)
  {
    assert EventsOf(log + [commit])[..|log|] == EventsOf(log);
    assert EventsOf(log + [commit])[|log|] == commit.event;
  }

  lemma CommitSerial(c: Cell, h: HandlerId)
    requires SerialSoFar(c) && h in c.inFlight && c.inFlight[h].phase.Loaded?
    ensures SerialSoFar(Step(c, CommitUpsert(h)))
  {
    var Handler(e, Loaded(snap, at)) := c.inFlight[h];
    var d := Step(c, CommitUpsert(h));
    assert c.inFlight.Keys == {h} && PhaseMatches(c, c.inFlight[h].phase);
    ApplyAllSnoc(ZERO_ROW, c.log, Commit(e, Gain(snap, e), at));
    assert d.row == Upsert(c.row, c.row, e);
    if e.Register? {
      assert d.inFlight == map[];
    } else {
      assert d.inFlight.Keys == {h} && d.inFlight[h].phase == Upserted;
      assert PhaseMatches(d, Upserted);
    }
  }

  lemma ScoreSerial(c: Cell, half: Half)
    requires SerialSoFar(c) && (half.Read? || half.Write? || half.Push?)
    ensures SerialSoFar(Step(c, half))
  {
    assert Step(c, half).log == c.log;
  }

  lemma StepSerial(c: Cell, half: Half)
    requires SerialSoFar(c) && (half.Load? ==> c.inFlight == map[])
    ensures SerialSoFar(Step(c, half))
  {
    match half
    case Load(_, _) =>
    case CommitUpsert(h) =>
      if h in c.inFlight && c.inFlight[h].phase.Loaded? {
        CommitSerial(c, h);
      }
    case _ => ScoreSerial(c, half);
  }

  /** If no two handler windows overlap, the row left at the end is that of the serial run in commit order. */
  lemma {:induction false} NoOverlapIsSerial(halves: seq<Half>)
    requires NoOverlap(EMPTY_CELL, halves)
    ensures var c := Run(EMPTY_CELL, halves);
      SerialSoFar(c) && (c.inFlight == map[] ==> c.row == ApplyAll(ZERO_ROW, EventsOf(c.log)))
  {
    if halves != [] {
      NoOverlapIsSerial(halves[..|halves| - 1]);
      StepSerial(Run(EMPTY_CELL, halves[..|halves| - 1]), halves[|halves| - 1]);
    }
  }

  // ---- Many agents --------------------------------------------------------------------------

  /** The whole table, and the order in which all upserts committed. */
  datatype World = World(cells: map<AgentId, Cell>, log: seq<(AgentId, Event)>)

  const EMPTY_WORLD := World(map[], [])

  function CellOf(w: World, a: AgentId): Cell {
    if a in w.cells then w.cells[a] else EMPTY_CELL
  }

  function WorldStep(w: World, a: AgentId, half: Half): World {
    var before, after := CellOf(w, a), Step(CellOf(w, a), half);
    World(w.cells[a := after],
          if |after.log| > |before.log| then w.log + [(a, after.log[|after.log| - 1].event)] else w.log)
  }

  function WorldRun(w: World, steps: seq<(AgentId, Half)>): World {
    if steps == [] then w
    else WorldStep(WorldRun(w, steps[..|steps| - 1]), steps[|steps| - 1].0, steps[|steps| - 1].1)
  }

  function RowIn(table: map<AgentId, AgentRow>, a: AgentId): AgentRow {
    if a in table then table[a] else ZERO_ROW
  }

  /** The table after running whole handlers one after the other. */
  function SerialTable(log: seq<(AgentId, Event)>): map<AgentId, AgentRow> {
    if log == [] then map[]
    else
      var table := SerialTable(log[..|log| - 1]);
      var (a, e) := log[|log| - 1];
      table[a := Apply(RowIn(table, a), e)]
  }

  /** Windows on the same agent do not overlap; windows on different agents may. */
  ghost predicate WorldNoOverlap(w: World, steps: seq<(AgentId, Half)>) {
    steps != [] ==>
      && WorldNoOverlap(w, steps[..|steps| - 1])
      && var (a, half) := steps[|steps| - 1];
         half.Load? ==> CellOf(WorldRun(w, steps[..|steps| - 1]), a).inFlight == map[]
  }

  ghost predicate WorldSerial(w: World) {
    forall a :: AgentSerial(w, a)
  }

  ghost predicate AgentSerial(w: World, a: AgentId) {
    && SerialSoFar(CellOf(w, a))
    && RowIn(SerialTable(w.log), a) == ApplyAll(ZERO_ROW, EventsOf(CellOf(w, a).log))
  }

  lemma StepLog(c: Cell, half: Half)
    ensures var d := Step(c, half);
      |d.log| > |c.log| ==> d.log == c.log + [d.log[|d.log| - 1]]
    ensures var d := Step(c, half);
      |d.log| <= |c.log| ==> d.log == c.log
  {
  }

  lemma SerialTableSnoc(log: seq<(AgentId, Event)>, a: AgentId, e: Event)
    ensures SerialTable(log + [(a, e)]) == SerialTable(log)[a := Apply(RowIn(SerialTable(log), a), e)]
  {
    assert (log + [(a, e)])[..|log|] == log;
  }

  lemma OwnStepSerial(w: World, a: AgentId, half: Half)
    requires AgentSerial(w, a) && (half.Load? ==> CellOf(w, a).inFlight == map[])
    ensures AgentSerial(WorldStep(w, a, half), a)
  {
    var c, d := CellOf(w, a), Step(CellOf(w, a), half);
    StepSerial(c, half);
    StepLog(c, half);
    OwnTable(w.log, a, c.log, d.log);
  }

  /** The agent's row in the serial table follows its own log. */
  lemma OwnTable(log: seq<(AgentId, Event)>, a: AgentId, before: seq<Commit>, after: seq<Commit>)
    requires RowIn(SerialTable(log), a) == ApplyAll(ZERO_ROW, EventsOf(before))
    requires if |after| > |before| then after == before + [after[|after| - 1]] else after == before
    ensures var log' := if |after| > |before| then log + [(a, after[|after| - 1].event)] else log;
      RowIn(SerialTable(log'), a) == ApplyAll(ZERO_ROW, EventsOf(after))
  {
    if |after| > |before| {
      var commit := after[|after| - 1];
      ApplyAllSnoc(ZERO_ROW, before, commit);
      SerialTableSnoc(log, a, commit.event);
    }
  }

  lemma OtherStepSerial(w: World, a: AgentId, half: Half, b: AgentId)
    requires AgentSerial(w, b) && a != b
    ensures AgentSerial(WorldStep(w, a, half), b)
  {
    var v := WorldStep(w, a, half);
    assert CellOf(v, b) == CellOf(w, b);
    if |v.log| > |w.log| {
      assert v.log[..|w.log|] == w.log;
    }
  }

  lemma WorldStepSerial(w: World, a: AgentId, half: Half)
    requires WorldSerial(w) && (half.Load? ==> CellOf(w, a).inFlight == map[])
    ensures WorldSerial(WorldStep(w, a, half))
  {
    forall b: AgentId ensures AgentSerial(WorldStep(w, a, half), b) {
      assert AgentSerial(w, b);
      if b == a {
        OwnStepSerial(w, a, half);
      } else {
        OtherStepSerial(w, a, half, b);
      }
    }
  }

  /** If no two windows on the same agent overlap, every settled row is that of one serial run in commit order. */
  lemma {:induction false} NonOverlappingWindowsSerialize(steps: seq<(AgentId, Half)>)
    requires WorldNoOverlap(EMPTY_WORLD, steps)
    ensures WorldSerial(WorldRun(EMPTY_WORLD, steps))
    ensures var w := WorldRun(EMPTY_WORLD, steps);
      forall a :: CellOf(w, a).inFlight == map[] ==> CellOf(w, a).row == RowIn(SerialTable(w.log), a)
  {
    if steps != [] {
      NonOverlappingWindowsSerialize(steps[..|steps| - 1]);
      var (a, half) := steps[|steps| - 1];
      WorldStepSerial(WorldRun(EMPTY_WORLD, steps[..|steps| - 1]), a, half);
    }
    var w := WorldRun(EMPTY_WORLD, steps);
    forall a: AgentId | CellOf(w, a).inFlight == map[]
      ensures CellOf(w, a).row == RowIn(SerialTable(w.log), a)
    {
      assert AgentSerial(w, a);
    }
  }

  /** Overlap does lose updates: two registrations that load before either writes count once. */
  lemma OverlapLosesARegistration()
    ensures var halves := [Load(0, Register), Load(1, Register), CommitUpsert(0), CommitUpsert(1)];
      var c := Run(EMPTY_CELL, halves);
      && c.inFlight == map[] && |c.log| == 2
      && c.row.registrations == 1 && c.row.xp == 5
      && ApplyAll(ZERO_ROW, EventsOf(c.log)).registrations == 2
  {
    var halves := [Load(0, Register), Load(1, Register), CommitUpsert(0), CommitUpsert(1)];
    RunStep(EMPTY_CELL, halves, 3);
    RunStep(EMPTY_CELL, halves, 2);
    RunStep(EMPTY_CELL, halves, 1);
    RunStep(EMPTY_CELL, halves, 0);
    assert halves[..4] == halves;
    var c := Run(EMPTY_CELL, halves);
    assert c.log == [Commit(Register, 5, 0), Commit(Register, 5, 0)];
    assert EventsOf(c.log) == [Register, Register];
    assert [Register, Register][..1] == [Register];
    assert ApplyAll(ZERO_ROW, [Register]) == Apply(ZERO_ROW, Register);
  }

  lemma RunStep(c: Cell, halves: seq<Half>, i: nat)
    requires i < |halves|
    ensures Run(c, halves[..i + 1]) == Step(Run(c, halves[..i]), halves[i])
  {
    assert halves[..i + 1][..i] == halves[..i];
  }
}
