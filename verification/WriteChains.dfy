/**
 * A column that handlers write from the snapshot they loaded. After any interleaving it holds what
 * one chain of writes added up, each continuing from the last write its load had seen; from this
 * follows exactly when the column counts every write.
 */
module WriteChains {

  /** A committed upsert, seen from one column: whether it lists it, what it adds, what its load had seen. */
  datatype Link = Link(writes: bool, adds: real, loadedAt: nat)

  /** The sum along the chain of the column's last write among the first `n` upserts. */
  function ChainSum(links: seq<Link>, n: nat): real
    requires n <= |links|
  {
    if n == 0 then 0.0
    else
      var last := links[n - 1];
      if !last.writes then ChainSum(links, n - 1)
      else last.adds + (if last.loadedAt < n then ChainSum(links, last.loadedAt) else 0.0)
  }

  /** What all of them meant to add. */
  function Total(links: seq<Link>, n: nat): real
    requires n <= |links|
  {
    if n == 0 then 0.0 else Total(links, n - 1) + links[n - 1].adds
  }

  lemma {:induction false} ChainSumPrefix(links: seq<Link>, l: Link, n: nat)
    requires n <= |links|
    ensures ChainSum(links + [l], n) == ChainSum(links, n)
  {
    if n > 0 {
      assert (links + [l])[n - 1] == links[n - 1];
      ChainSumPrefix(links, l, n - 1);
      if links[n - 1].loadedAt < n {
        ChainSumPrefix(links, l, links[n - 1].loadedAt);
      }
    }
  }

  lemma {:induction false} TotalPrefix(links: seq<Link>, l: Link, n: nat)
    requires n <= |links|
    ensures Total(links + [l], n) == Total(links, n)
  {
    if n > 0 {
      TotalPrefix(links, l, n - 1);
    }
  }

  /** A new write continues the chain that its load had seen; any other upsert leaves it. */
  lemma ChainSumSnoc(links: seq<Link>, l: Link)
    requires l.loadedAt <= |links|
    ensures ChainSum(links + [l], |links| + 1)
         == if l.writes then l.adds + ChainSum(links, l.loadedAt) else ChainSum(links, |links|)
  {
    ChainSumPrefix(links, l, l.loadedAt);
    ChainSumPrefix(links, l, |links|);
  }

  // ---- When nothing is lost -----------------------------------------------------------------

  predicate LinkOk(l: Link, i: nat) {
    l.loadedAt <= i && l.adds >= 0.0 && (!l.writes ==> l.adds == 0.0)
  }

  ghost predicate LinksOk(links: seq<Link>) {
    forall i :: 0 <= i < |links| ==> LinkOk(links[i], i)
  }

  ghost predicate EveryWriteAdds(links: seq<Link>) {
    forall i :: 0 <= i < |links| && links[i].writes ==> links[i].adds > 0.0
  }

  /** No upsert from `from` up to `upTo` adds to the column. */
  ghost predicate NoneAdds(links: seq<Link>, from: nat, upTo: nat) {
    forall j :: from <= j < upTo && j < |links| ==> links[j].adds == 0.0
  }

  /** Along the chain of the last write, no window from load to commit holds an upsert that adds to the column. */
  ghost predicate Intact(links: seq<Link>, n: nat)
    requires n <= |links|
  {
    n == 0
    || (var last := links[n - 1];
        if !last.writes then Intact(links, n - 1)
        else last.loadedAt < n && NoneAdds(links, last.loadedAt, n - 1) && Intact(links, last.loadedAt))
  }

  lemma {:induction false} TotalGrows(links: seq<Link>, from: nat, upTo: nat)
    requires LinksOk(links) && from <= upTo <= |links|
    ensures Total(links, from) <= Total(links, upTo)
    ensures Total(links, from) == Total(links, upTo) <==> NoneAdds(links, from, upTo)
    decreases upTo
  {
    if from < upTo {
      assert LinkOk(links[upTo - 1], upTo - 1);
      TotalGrows(links, from, upTo - 1);
    }
  }

  /** The chain never exceeds the total, and misses nothing exactly when it is intact. */
  lemma {:induction false} ChainSumExactIff(links: seq<Link>, n: nat)
    requires LinksOk(links) && n <= |links|
    ensures ChainSum(links, n) <= Total(links, n)
    ensures ChainSum(links, n) == Total(links, n) <==> Intact(links, n)
  {
    if n > 0 {
      var last := links[n - 1];
      assert LinkOk(last, n - 1);
      if !last.writes {
        ChainSumExactIff(links, n - 1);
      } else {
        ChainSumExactIff(links, last.loadedAt);
        TotalGrows(links, last.loadedAt, n - 1);
      }
    }
  }

  /** No write of the column commits inside the load-to-commit window of another, among the first `n`. */
  ghost predicate Exclusive(links: seq<Link>, n: nat) {
    forall i, j :: 0 <= j < i < n && i < |links| && links[i].writes && links[i].loadedAt <= j ==> !links[j].writes
  }

  ghost predicate NoneWrites(links: seq<Link>, from: nat, upTo: nat) {
    forall j :: from <= j < upTo && j < |links| ==> !links[j].writes
  }

  lemma NoneWritesNoneAdds(links: seq<Link>, from: nat, upTo: nat)
    requires LinksOk(links) && EveryWriteAdds(links)
    ensures NoneWrites(links, from, upTo) <==> NoneAdds(links, from, upTo)
  {
    forall j | 0 <= j < |links| ensures links[j].writes <==> links[j].adds != 0.0 {
      assert LinkOk(links[j], j);
    }
  }

  lemma ExclusiveAtWrite(links: seq<Link>, n: nat)
    requires 0 < n <= |links| && links[n - 1].writes && links[n - 1].loadedAt < n
    ensures Exclusive(links, n) <==>
      NoneWrites(links, links[n - 1].loadedAt, n - 1) && Exclusive(links, links[n - 1].loadedAt)
  {
  }

  /** Where every write adds something, the chain is intact iff no write falls into the window of another. */
  lemma {:induction false} IntactIffExclusive(links: seq<Link>, n: nat)
    requires LinksOk(links) && EveryWriteAdds(links) && n <= |links|
    ensures Intact(links, n) <==> Exclusive(links, n)
  {
    if n > 0 {
      var last := links[n - 1];
      assert LinkOk(last, n - 1);
      if !last.writes {
        IntactIffExclusive(links, n - 1);
      } else {
        ExclusiveAtWrite(links, n);
        NoneWritesNoneAdds(links, last.loadedAt, n - 1);
        IntactIffExclusive(links, last.loadedAt);
      }
    }
  }
}
