/**
 * The client's handlers as they really run: each loads the row and upserts its own counter together
 * with XP, tier and badges, with other handlers running in between.
 */
module OwnerInterleaving {
  import opened Common
  import opened OwnerStats
  import opened WriteChains

  type HandlerId = nat

  /** `at` is the number of upserts committed at the load. */
  datatype Handler = Handler(event: Event, snap: OwnerRow, at: nat)

  datatype Commit = Commit(event: Event, snap: OwnerRow, loadedAt: nat)

  datatype Cell = Cell(row: OwnerRow, inFlight: map<HandlerId, Handler>, log: seq<Commit>)

  datatype Half = Load(h: HandlerId, event: Event) | CommitUpsert(h: HandlerId)

  const EMPTY_CELL := Cell(ZERO_ROW, map[], [])

  /** Only the columns the handler lists change, all computed from its snapshot. */
  function Upsert(row: OwnerRow, snap: OwnerRow, e: Event): OwnerRow {
    var merged := Merge(snap, e);
    var scored := row.(xp := merged.xp, tier := DeriveTier(merged.xp), badges := ComputeBadges(merged));
    match e
    case Posted => scored.(posted := merged.posted)
    case Settled(_) => scored.(settled := merged.settled, usdcAwarded := merged.usdcAwarded)
    case RatingGiven => scored.(ratingsGiven := merged.ratingsGiven)
  }

  function Step(c: Cell, half: Half): Cell {
    match half
    case Load(h, e) =>
      if h in c.inFlight then c else c.(inFlight := c.inFlight[h := Handler(e, c.row, |c.log|)])
    case CommitUpsert(h) =>
      if h in c.inFlight then
        var Handler(e, snap, at) := c.inFlight[h];
        Cell(Upsert(c.row, snap, e), c.inFlight - {h}, c.log + [Commit(e, snap, at)])
      else c
  }

  function Run(c: Cell, halves: seq<Half>): Cell {
    if halves == [] then c else Step(Run(c, halves[..|halves| - 1]), halves[|halves| - 1])
  }

  // ---- What every interleaving keeps --------------------------------------------------------

  /** XP, tier and badges go in one upsert, so tier always fits XP, and badges fit the last writer's view. */
  ghost predicate LastUpsertKept(c: Cell) {
    && c.row.tier == DeriveTier(c.row.xp)
    && c.row.badges == (if c.log == [] then []
                        else ComputeBadges(Merge(c.log[|c.log| - 1].snap, c.log[|c.log| - 1].event)))
  }

  lemma {:induction false} LastUpsertDecides(halves: seq<Half>)
    ensures LastUpsertKept(Run(EMPTY_CELL, halves))
  {
    if halves == [] {
      OwnerTierLadder(0);
    } else {
      LastUpsertDecides(halves[..|halves| - 1]);
    }
  }

  lemma BadgesEqualIff(a: OwnerRow, b: OwnerRow)
    ensures ComputeBadges(a) == ComputeBadges(b) <==>
      && (a.posted >= 10 <==> b.posted >= 10)
      && (a.usdcAwarded >= 1000.0 <==> b.usdcAwarded >= 1000.0)
      && (a.ratingsGiven >= 10 <==> b.ratingsGiven >= 10)
  {
    OwnerBadgeMeaning(a);
    OwnerBadgeMeaning(b);
  }

  /**
   * Under every interleaving the tier fits the XP. The badges fit the counters if and only if none of
   * the three thresholds lies between a counter and the last writer's view of it.
   */
  lemma OwnerBadgesFitIff(halves: seq<Half>)
    ensures var c := Run(EMPTY_CELL, halves);
      && c.row.tier == DeriveTier(c.row.xp)
      && (c.log != [] ==>
            var seen := Merge(c.log[|c.log| - 1].snap, c.log[|c.log| - 1].event);
            c.row.badges == ComputeBadges(c.row) <==>
              && (seen.posted >= 10 <==> c.row.posted >= 10)
              && (seen.usdcAwarded >= 1000.0 <==> c.row.usdcAwarded >= 1000.0)
              && (seen.ratingsGiven >= 10 <==> c.row.ratingsGiven >= 10))
  {
    LastUpsertDecides(halves);
    var c := Run(EMPTY_CELL, halves);
    if c.log != [] {
      BadgesEqualIff(Merge(c.log[|c.log| - 1].snap, c.log[|c.log| - 1].event), c.row);
    }
  }

  /** A rating that loaded before the tenth posting and commits after it takes the posting badge away. */
  lemma StaleSnapshotDropsBadge(c: Cell)
    requires c.inFlight == map[] && c.row.posted == 9
    ensures var posting := Step(Step(Step(c, Load(0, RatingGiven)), Load(1, Posted)), CommitUpsert(1));
      var after := Step(posting, CommitUpsert(0));
      && ActiveClient in posting.row.badges
      && after.inFlight == map[] && after.row.posted == 10 && ActiveClient !in after.row.badges
  {
    OwnerBadgeMeaning(Merge(c.row, Posted));
    OwnerBadgeMeaning(Merge(c.row, RatingGiven));
  }

  // ---- Lost updates -------------------------------------------------------------------------

  datatype Column = PostedCount | SettledCount | Awarded | RatingCount | Xp

  function ValueOf(col: Column, row: OwnerRow): real {
    match col
    case PostedCount => row.posted as real
    case SettledCount => row.settled as real
    case Awarded => row.usdcAwarded
    case RatingCount => row.ratingsGiven as real
    case Xp => row.xp as real
  }

  function LinkOf(col: Column, c: Commit): Link {
    match col
    case PostedCount => Link(c.event.Posted?, IsPosted(c.event) as real, c.loadedAt)
    case SettledCount => Link(c.event.Settled?, IsSettled(c.event) as real, c.loadedAt)
    case Awarded => Link(c.event.Settled?, PrizeOf(c.event), c.loadedAt)
    case RatingCount => Link(c.event.RatingGiven?, IsRating(c.event) as real, c.loadedAt)
    case Xp => Link(true, XpOf(c.event), c.loadedAt)
  }

  function XpOf(e: Event): real {
    match e
    case Posted => 10.0
    case Settled(_) => 25.0
    case RatingGiven => 15.0
  }

  function Links(col: Column, log: seq<Commit>): seq<Link> {
    seq(|log|, i requires 0 <= i < |log| => LinkOf(col, log[i]))
  }

  lemma LinksSnoc(col: Column, log: seq<Commit>, c: Commit)
    ensures Links(col, log + [c]) == Links(col, log) + [LinkOf(col, c)]
  {
  }

  ghost predicate SnapshotChained(h: Handler, log: seq<Commit>, col: Column) {
    h.at <= |log| && ValueOf(col, h.snap) == ChainSum(Links(col, log), h.at)
  }

  ghost predicate Chained(c: Cell, col: Column) {
    && (forall i :: 0 <= i < |c.log| ==> c.log[i].loadedAt <= i)
    && ValueOf(col, c.row) == ChainSum(Links(col, c.log), |c.log|)
    && forall h :: h in c.inFlight ==> SnapshotChained(c.inFlight[h], c.log, col)
  }

  lemma UpsertValue(row: OwnerRow, snap: OwnerRow, e: Event, at: nat, col: Column)
    ensures var l := LinkOf(col, Commit(e, snap, at));
      ValueOf(col, Upsert(row, snap, e)) == if l.writes then ValueOf(col, snap) + l.adds else ValueOf(col, row)
  {
  }

  lemma StepChained(c: Cell, half: Half, col: Column)
    requires Chained(c, col)
    ensures Chained(Step(c, half), col)
  {
    if half.CommitUpsert? && half.h in c.inFlight {
      var Handler(e, snap, at) := c.inFlight[half.h];
      var commit := Commit(e, snap, at);
      var d := Step(c, half);
      assert SnapshotChained(c.inFlight[half.h], c.log, col);
      UpsertValue(c.row, snap, e, at, col);
      LinksSnoc(col, c.log, commit);
      ChainSumSnoc(Links(col, c.log), LinkOf(col, commit));
      forall k | k in d.inFlight ensures SnapshotChained(d.inFlight[k], d.log, col) {
        assert SnapshotChained(c.inFlight[k], c.log, col);
        ChainSumPrefix(Links(col, c.log), LinkOf(col, commit), d.inFlight[k].at);
      }
    }
  }

  lemma {:induction false} ColumnIsChainSum(halves: seq<Half>, col: Column)
    ensures Chained(Run(EMPTY_CELL, halves), col)
  {
    if halves != [] {
      ColumnIsChainSum(halves[..|halves| - 1], col);
      StepChained(Run(EMPTY_CELL, halves[..|halves| - 1]), halves[|halves| - 1], col);
    }
  }

  ghost predicate PrizesPositive(col: Column, log: seq<Commit>) {
    col.Awarded? ==> forall i :: 0 <= i < |log| && log[i].event.Settled? ==> log[i].event.prize > 0.0
  }

  /**
   * Under every interleaving a counter, the awarded sum or XP counts every committed upsert if and only
   * if no upsert of that column commits inside the load-to-commit window of another. All upserts write
   * XP, so XP is exact only if no two windows overlap at a commit.
   */
  lemma OwnerNothingLostIff(halves: seq<Half>, col: Column)
    requires PrizesPositive(col, Run(EMPTY_CELL, halves).log)
    ensures var c := Run(EMPTY_CELL, halves);
      var links := Links(col, c.log);
      ValueOf(col, c.row) == Total(links, |links|) <==> Exclusive(links, |links|)
  {
    var c := Run(EMPTY_CELL, halves);
    var links := Links(col, c.log);
    ColumnIsChainSum(halves, col);
    forall i | 0 <= i < |links| ensures LinkOk(links[i], i) && (links[i].writes ==> links[i].adds > 0.0) {
      assert links[i] == LinkOf(col, c.log[i]) && c.log[i].loadedAt <= i;
    }
    ChainSumExactIff(links, |links|);
    IntactIffExclusive(links, |links|);
  }

  // ---- Without overlap ----------------------------------------------------------------------

  function EventsOf(log: seq<Commit>): seq<Event> {
    seq(|log|, i requires 0 <= i < |log| => log[i].event)
  }

  /** Every handler starts when no other handler of this client is in flight. */
  ghost predicate NoOverlap(halves: seq<Half>) {
    halves != [] ==>
      && NoOverlap(halves[..|halves| - 1])
      && (halves[|halves| - 1].Load? ==> Run(EMPTY_CELL, halves[..|halves| - 1]).inFlight == map[])
  }

  /** Windows that do not overlap leave the row of the serial run in commit order. */
  lemma {:induction false} OwnerNoOverlapIsSerial(halves: seq<Half>)
    requires NoOverlap(halves)
    ensures var c := Run(EMPTY_CELL, halves);
      && c.row == ApplyAll(ZERO_ROW, EventsOf(c.log))
      && forall h :: h in c.inFlight ==> c.inFlight.Keys == {h} && c.inFlight[h].snap == c.row
  {
    if halves != [] {
      var front, half := halves[..|halves| - 1], halves[|halves| - 1];
      OwnerNoOverlapIsSerial(front);
      var c := Run(EMPTY_CELL, front);
      if half.CommitUpsert? && half.h in c.inFlight {
        var d := Step(c, half);
        assert EventsOf(d.log)[..|c.log|] == EventsOf(c.log) && EventsOf(d.log)[|c.log|] == c.inFlight[half.h].event;
        assert d.row == Apply(c.row, c.inFlight[half.h].event);
      }
    }
  }
}
