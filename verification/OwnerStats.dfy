/** The client half of the reputation engine: one `owner_stats` row and its three handlers, on values. */
module OwnerStats {
  import opened Common

  datatype Tier = Client | Bronze | Silver | Gold | Platinum {
    function Rank(): nat {
      match this
      case Client => 0
      case Bronze => 1
      case Silver => 2
      case Gold => 3
      case Platinum => 4
    }
  }

  datatype Badge = ActiveClient | BigSpender | GreatReviewer

  datatype OwnerRow = OwnerRow(
    posted: nat,
    settled: nat,
    usdcAwarded: real,
    ratingsGiven: nat,
    xp: nat,
    tier: Tier,
    badges: seq<Badge>)

  const ZERO_ROW := OwnerRow(0, 0, 0.0, 0, 0, Client, [])

  const XP_POST: nat := 10
  const XP_SETTLE: nat := 25
  const XP_RATE: nat := 15

  const TIER_THRESHOLDS: seq<(Tier, nat)> := [(Platinum, 2000), (Gold, 800), (Silver, 200), (Bronze, 50)]

  datatype Event = Posted | Settled(prize: real) | RatingGiven

  function FirstTier(thresholds: seq<(Tier, nat)>, xp: nat): Tier {
    if thresholds == [] then Client
    else if xp >= thresholds[0].1 then thresholds[0].0
    else FirstTier(thresholds[1..], xp)
  }

  function DeriveTier(xp: nat): Tier {
    FirstTier(TIER_THRESHOLDS, xp)
  }

  function ComputeBadges(s: OwnerRow): seq<Badge> {
    (if s.posted >= 10 then [ActiveClient] else [])
    + (if s.usdcAwarded >= 1000.0 then [BigSpender] else [])
    + (if s.ratingsGiven >= 10 then [GreatReviewer] else [])
  }

  /** The counters of the event, merged into the loaded row before badges and tier are computed. */
  function Merge(s: OwnerRow, e: Event): OwnerRow {
    match e
    case Posted => s.(posted := s.posted + 1, xp := s.xp + XP_POST)
    case Settled(prize) =>
      s.(settled := s.settled + 1, usdcAwarded := s.usdcAwarded + prize, xp := s.xp + XP_SETTLE)
    case RatingGiven => s.(ratingsGiven := s.ratingsGiven + 1, xp := s.xp + XP_RATE)
  }

  function Apply(s: OwnerRow, e: Event): OwnerRow {
    var merged := Merge(s, e);
    merged.(tier := DeriveTier(merged.xp), badges := ComputeBadges(merged))
  }

  function ApplyAll(row: OwnerRow, es: seq<Event>): OwnerRow {
    if es == [] then row else Apply(ApplyAll(row, es[..|es| - 1]), es[|es| - 1])
  }

  lemma OwnerTierLadder(xp: nat)
    ensures DeriveTier(xp) == Platinum <==> xp >= 2000
    ensures DeriveTier(xp) == Gold <==> 800 <= xp < 2000
    ensures DeriveTier(xp) == Silver <==> 200 <= xp < 800
    ensures DeriveTier(xp) == Bronze <==> 50 <= xp < 200
    ensures DeriveTier(xp) == Client <==> xp < 50
  {
    var t := TIER_THRESHOLDS;
    assert FirstTier(t[4..], xp) == Client;
    assert t[1..][1..] == t[2..] && t[2..][1..] == t[3..] && t[3..][1..] == t[4..];
    assert FirstTier(t[3..], xp) == if xp >= 50 then Bronze else Client;
    assert FirstTier(t[2..], xp) == if xp >= 200 then Silver else FirstTier(t[3..], xp);
    assert FirstTier(t[1..], xp) == if xp >= 800 then Gold else FirstTier(t[2..], xp);
  }

  lemma OwnerBadgeMeaning(s: OwnerRow)
    ensures ActiveClient in ComputeBadges(s) <==> s.posted >= 10
    ensures BigSpender in ComputeBadges(s) <==> s.usdcAwarded >= 1000.0
    ensures GreatReviewer in ComputeBadges(s) <==> s.ratingsGiven >= 10
  {
  }

  function IsPosted(e: Event): nat { if e.Posted? then 1 else 0 }
  function IsSettled(e: Event): nat { if e.Settled? then 1 else 0 }
  function IsRating(e: Event): nat { if e.RatingGiven? then 1 else 0 }
  function PrizeOf(e: Event): real { if e.Settled? then e.prize else 0.0 }

  /** The stored tier and badges are those the stored counters and XP earn. */
  ghost predicate RowConsistent(s: OwnerRow) {
    && s.xp == 10 * s.posted + 25 * s.settled + 15 * s.ratingsGiven
    && s.tier == DeriveTier(s.xp)
    && s.badges == ComputeBadges(s)
  }

  lemma ApplyKeepsConsistent(s: OwnerRow, e: Event)
    requires RowConsistent(s)
    ensures RowConsistent(Apply(s, e))
  {
  }

  lemma {:induction false} OwnerCounters(row: OwnerRow, es: seq<Event>)
    ensures var r := ApplyAll(row, es);
      && r.posted == row.posted + Tally(IsPosted, es)
      && r.settled == row.settled + Tally(IsSettled, es)
      && r.ratingsGiven == row.ratingsGiven + Tally(IsRating, es)
      && r.usdcAwarded == row.usdcAwarded + SumOf(PrizeOf, es)
  {
    if es != [] {
      OwnerCounters(row, es[..|es| - 1]);
    }
  }

  lemma {:induction false} RunKeepsConsistent(row: OwnerRow, es: seq<Event>)
    requires RowConsistent(row)
    ensures RowConsistent(ApplyAll(row, es))
  {
    if es != [] {
      RunKeepsConsistent(row, es[..|es| - 1]);
      ApplyKeepsConsistent(ApplyAll(row, es[..|es| - 1]), es[|es| - 1]);
    }
  }

  /** Every serial run: counters count, XP is linear in them, tier and badges are the ones earned. */
  lemma OwnerRowInvariant(es: seq<Event>)
    ensures var r := ApplyAll(ZERO_ROW, es);
      && RowConsistent(r)
      && r.posted == Tally(IsPosted, es)
      && r.settled == Tally(IsSettled, es)
      && r.ratingsGiven == Tally(IsRating, es)
      && r.usdcAwarded == SumOf(PrizeOf, es)
  {
    OwnerTierLadder(0);
    RunKeepsConsistent(ZERO_ROW, es);
    OwnerCounters(ZERO_ROW, es);
  }

  /** Any permutation of the events leaves the same row, tier and badges included. */
  lemma OwnerRowIsOrderFree(es: seq<Event>, fs: seq<Event>)
    requires multiset(es) == multiset(fs)
    ensures ApplyAll(ZERO_ROW, es) == ApplyAll(ZERO_ROW, fs)
  {
    OwnerRowInvariant(es);
    OwnerRowInvariant(fs);
    TallyPermutation(IsPosted, es, fs);
    TallyPermutation(IsSettled, es, fs);
    TallyPermutation(IsRating, es, fs);
    SumOfPermutation(PrizeOf, es, fs);
  }

  ghost predicate PrizesNonNegative(es: seq<Event>) {
    forall e :: e in es && e.Settled? ==> e.prize >= 0.0
  }

  /** Continuing a run never lowers the tier and never takes a badge away. */
  lemma {:induction false} OwnerNeverDemoted(es: seq<Event>, more: seq<Event>)
    requires PrizesNonNegative(more)
    ensures var r, s := ApplyAll(ZERO_ROW, es), ApplyAll(ZERO_ROW, es + more);
      && r.tier.Rank() <= s.tier.Rank()
      && forall b :: b in r.badges ==> b in s.badges
  {
    if more == [] {
      assert es + more == es;
    } else {
      var front, last := more[..|more| - 1], more[|more| - 1];
      assert forall e :: e in front ==> e in more;
      assert last in more;
      OwnerNeverDemoted(es, front);
      assert (es + more)[..|es + more| - 1] == es + front;
      var s, t := ApplyAll(ZERO_ROW, es + front), ApplyAll(ZERO_ROW, es + more);
      OwnerRowInvariant(es + front);
      OwnerRowInvariant(es + more);
      OwnerTierLadder(s.xp);
      OwnerTierLadder(t.xp);
    }
  }
}
