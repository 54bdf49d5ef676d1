/** What a commit does when it fails half way: the blocks of the reference that failed stay pushed
    although their chain's counter is dropped, so they are delivered again later. */
module CommitFailures {
  import opened Committees
  import opened Options
  import opened Messages
  import opened Aggregators
  import opened Commits
  import opened Reentries
  import opened ReentryTheorems

  // ----- The blocks that are pushed without being counted -----

  ghost function RefsLost(store: Store, leader: PublicKey, chains: Chains, refs: seq<Reference>): seq<Block> {
    if refs == [] then []
    else
      var (ok, _, cs) := CommitRefs(store, leader, chains, refs[..|refs| - 1]);
      var b := GetBlock(store, refs[|refs| - 1].digest);
      if !ok then RefsLost(store, leader, chains, refs[..|refs| - 1])
      else if b.None? || b.value.author !in cs || b.value.author == leader then []
      else
        var (ok', out', _) := CommitRange(store, cs[b.value.author], b.value.height);
        if ok' then [] else out'
  }

  // ----- References deliver what they count, then what they lose -----

  /** `out` is a proper delivery followed by `lost`, whose blocks belong to known chains. */
  ghost predicate Splits(store: Store, leader: PublicKey, a: Chains, b: Chains, out: seq<Block>, lost: seq<Block>) {
    exists good :: SplitAt(store, leader, a, b, out, good, lost)
  }

  ghost predicate SplitAt(store: Store, leader: PublicKey, a: Chains, b: Chains, out: seq<Block>,
                          good: seq<Block>, lost: seq<Block>) {
    out == good + lost && Delivers(store, leader, a, b, good) && forall x | x in lost :: x.author in a
  }

  lemma {:induction false} RangeAuthors(store: Store, chain: Chain, height: nat)
    requires OwnEntries(store, chain)
    ensures forall b | b in CommitRange(store, chain, height).1 :: b.author == chain.name
    ensures var c := CommitRange(store, chain, height).2; c == chain.(lastCommitted := c.lastCommitted)
    decreases height
  {
    if chain.lastCommitted < height {
      RangeAuthors(store, chain, height - 1);
    }
  }

  lemma SplitsWhole(store: Store, leader: PublicKey, a: Chains, b: Chains, out: seq<Block>)
    requires Delivers(store, leader, a, b, out)
    ensures Splits(store, leader, a, b, out, [])
  {
    assert SplitAt(store, leader, a, b, out, out, []);
  }

  lemma {:induction false} RefsSplit(store: Store, leader: PublicKey, chains: Chains, refs: seq<Reference>)
    requires WellKept(store, chains)
    ensures var (_, out, cs) := CommitRefs(store, leader, chains, refs);
            && Splits(store, leader, chains, cs, out, RefsLost(store, leader, chains, refs))
            && (leader in chains ==> leader in cs && cs[leader] == chains[leader])
    decreases |refs|
  {
    if refs == [] {
      DeliversNothing(store, leader, chains);
      SplitsWhole(store, leader, chains, chains, []);
    } else if CommitRefs(store, leader, chains, refs).0 {
      CommitRefsDelivers(store, leader, chains, refs);
      var (_, out, cs) := CommitRefs(store, leader, chains, refs);
      SplitsWhole(store, leader, chains, cs, out);
    } else {
      var front, last := refs[..|refs| - 1], refs[|refs| - 1];
      RefsSplit(store, leader, chains, front);
      var (ok, out, cs) := CommitRefs(store, leader, chains, front);
      if ok {
        CommitRefsDelivers(store, leader, chains, front);
        FailingRefSplits(store, leader, chains, cs, out, last);
      }
    }
  }

  lemma FailingRefSplits(store: Store, leader: PublicKey, chains: Chains, cs: Chains, out: seq<Block>, last: Reference)
    requires WellKept(store, chains) && Delivers(store, leader, chains, cs, out)
    ensures Splits(store, leader, chains, cs, out, [])
    ensures var b := GetBlock(store, last.digest);
            b.Some? && b.value.author in cs ==>
              var lost := CommitRange(store, cs[b.value.author], b.value.height).1;
              Splits(store, leader, chains, cs, out + lost, lost)
  {
    SplitsWhole(store, leader, chains, cs, out);
    var b := GetBlock(store, last.digest);
    if b.Some? && b.value.author in cs {
      var chain := cs[b.value.author];
      assert OnlyCounters(chains[b.value.author], chain);
      RangeAuthors(store, chain, b.value.height);
      var lost := CommitRange(store, chain, b.value.height).1;
      assert SplitAt(store, leader, chains, cs, out + lost, out, lost);
    }
  }

  lemma LostIsTooMuch(store: Store, leader: PublicKey, a: Chains, b: Chains, good: seq<Block>, lost: seq<Block>)
    requires Delivers(store, leader, a, b, good) && lost != [] && lost[0].author in a
    ensures !Delivers(store, leader, a, b, good + lost)
  {
    var x := lost[0].author;
    FromAuthorConcat(good, lost, x);
    FromAuthorMember(lost, lost[0]);
  }

  lemma SplitDecides(store: Store, leader: PublicKey, a: Chains, b: Chains, out: seq<Block>, lost: seq<Block>)
    requires Splits(store, leader, a, b, out, lost)
    ensures Delivers(store, leader, a, b, out) <==> lost == []
  {
    var good :| SplitAt(store, leader, a, b, out, good, lost);
    if lost == [] {
      assert out == good;
    } else {
      LostIsTooMuch(store, leader, a, b, good, lost);
    }
  }

  /** References that lead away deliver what they count exactly when they lose nothing. */
  lemma RefsDecide(store: Store, leader: PublicKey, chains: Chains, refs: seq<Reference>)
    requires WellKept(store, chains)
    ensures var (_, out, cs) := CommitRefs(store, leader, chains, refs);
            && CountersOnly(chains, cs) && (leader in chains ==> cs[leader] == chains[leader])
            && (Delivers(store, leader, chains, cs, out) <==> RefsLost(store, leader, chains, refs) == [])
  {
    var (_, out, cs) := CommitRefs(store, leader, chains, refs);
    RefsSplit(store, leader, chains, refs);
    RefsFrame(store, leader, chains, refs);
    SplitDecides(store, leader, chains, cs, out, RefsLost(store, leader, chains, refs));
  }

  // ----- Deliveries in two parts -----

  lemma ChainDeliversRest(store: Store, leader: PublicKey, a: Chain, b: Chain, e: Chain,
                          mine1: seq<Block>, mine2: seq<Block>)
    requires ChainDelivers(store, leader, a, b, mine1) && OnlyCounters(b, e)
    requires ChainDelivers(store, leader, a, e, mine1 + mine2)
    ensures ChainDelivers(store, leader, b, e, mine2)
  {
    SameTableSameBlocks(store, leader, a, b, b.lastCommitted, e.lastCommitted);
    ChainBlocksConcat(store, leader, a, a.lastCommitted, b.lastCommitted, e.lastCommitted);
    assert mine2 == (mine1 + mine2)[|mine1|..];
  }

  lemma DeliversRest(store: Store, leader: PublicKey, a: Chains, b: Chains, e: Chains,
                     out1: seq<Block>, out2: seq<Block>)
    requires Delivers(store, leader, a, b, out1) && CountersOnly(b, e)
    ensures Delivers(store, leader, a, e, out1 + out2) <==> Delivers(store, leader, b, e, out2)
  {
    if Delivers(store, leader, a, e, out1 + out2) {
      forall x | x in b ensures ChainDelivers(store, leader, b[x], e[x], FromAuthor(out2, x)) {
        FromAuthorConcat(out1, out2, x);
        ChainDeliversRest(store, leader, a[x], b[x], e[x], FromAuthor(out1, x), FromAuthor(out2, x));
      }
    } else if Delivers(store, leader, b, e, out2) {
      DeliversCompose(store, leader, a, b, e, out1, out2);
    }
  }

  /** Nothing of the leader is delivered either way. */
  lemma SwapLeader(store: Store, leader: PublicKey, a: Chains, b: Chains, x: Chain, out: seq<Block>)
    requires leader in a && leader in b && a[leader] == b[leader]
    ensures Delivers(store, leader, a[leader := x], b[leader := x], out) <==> Delivers(store, leader, a, b, out)
  {
    if Delivers(store, leader, a[leader := x], b[leader := x], out) {
      SwapBack(store, leader, a[leader := x], b[leader := x], a[leader], out);
      assert a[leader := x][leader := a[leader]] == a && b[leader := x][leader := b[leader]] == b;
    } else if Delivers(store, leader, a, b, out) {
      SwapBack(store, leader, a, b, x, out);
    }
  }

  lemma SwapBack(store: Store, leader: PublicKey, a: Chains, b: Chains, x: Chain, out: seq<Block>)
    requires leader in a && leader in b && a[leader] == b[leader] && Delivers(store, leader, a, b, out)
    ensures Delivers(store, leader, a[leader := x], b[leader := x], out)
  {
    var a', b' := a[leader := x], b[leader := x];
    forall y | y in a' ensures ChainDelivers(store, leader, a'[y], b'[y], FromAuthor(out, y)) {
      assert ChainDelivers(store, leader, a[y], b[y], FromAuthor(out, y));
    }
  }

  lemma PushedInVain(store: Store, leader: PublicKey, a: Chains, b: Chains, x: Chain, out: seq<Block>)
    requires Leaders(out, leader) >= 1
    ensures !Delivers(store, leader, a[leader := x], b[leader := x], out)
  {
    assert Delivers(store, leader, a[leader := x], b[leader := x], out) ==>
             ChainDelivers(store, leader, x, x, FromAuthor(out, leader));
  }

  // ----- References up to the first that leads back -----

  ghost function UpToBack(store: Store, leader: PublicKey, chains: Chains, refs: seq<Reference>): (u: seq<Reference>)
    ensures u <= refs
  {
    if refs == [] then []
    else
      var u := UpToBack(store, leader, chains, refs[..|refs| - 1]);
      if |u| == |refs| - 1 && LeadsAway(store, leader, chains, refs[|refs| - 1]) then refs else u
  }

  lemma {:induction false} UpToBackLeadsAway(store: Store, leader: PublicKey, chains: Chains, refs: seq<Reference>)
    ensures var u := UpToBack(store, leader, chains, refs);
            && (forall q | q in u :: LeadsAway(store, leader, chains, q))
            && (u != refs ==> |u| < |refs| && !LeadsAway(store, leader, chains, refs[|u|]))
    decreases |refs|
  {
    if refs != [] {
      UpToBackLeadsAway(store, leader, chains, refs[..|refs| - 1]);
    }
  }

  /** Only the known chains and the leader's counter matter. */
  lemma {:induction false} SameUpToBack(store: Store, leader: PublicKey, a: Chains, b: Chains, refs: seq<Reference>)
    requires leader in a && leader in b && a.Keys == b.Keys && a[leader] == b[leader]
    ensures UpToBack(store, leader, a, refs) == UpToBack(store, leader, b, refs)
    decreases |refs|
  {
    if refs != [] {
      SameUpToBack(store, leader, a, b, refs[..|refs| - 1]);
    }
  }

  lemma WellKeptIsClear(store: Store, leader: PublicKey, chains: Chains, q: Reference)
    requires WellKept(store, chains)
    ensures Clear(store, leader, chains, q)
  {
    if GetBlock(store, q.digest).Some? && GetBlock(store, q.digest).value.author in chains {
      assert OwnEntries(store, chains[GetBlock(store, q.digest).value.author]);
    }
  }

  /** Up to there the references are followed as in the plain form. */
  lemma AwayIsPlain(d: nat, store: Store, leader: PublicKey, chains: Chains, chain: Chain, refs: seq<Reference>)
    requires leader in chains && WellKept(store, chains)
    requires FollowRefs(d, store, leader, chains, chain, refs).Returned?
    ensures var u := UpToBack(store, leader, chains, refs);
            var (ok, out, cs) := CommitRefs(store, leader, chains, u);
            && FollowRefs(d, store, leader, chains, chain, u) == Returned(ok, out, chain, cs)
            && (!ok ==> FollowRefs(d, store, leader, chains, chain, refs) == Returned(false, out, chain, cs))
  {
    var u := UpToBack(store, leader, chains, refs);
    UpToBackLeadsAway(store, leader, chains, refs);
    assert refs[..|u|] == u;
    if FollowRefs(d, store, leader, chains, chain, u).Stuck? || !FollowRefs(d, store, leader, chains, chain, u).ok {
      RefsFailureStays(d, store, leader, chains, chain, refs, |u|);
    }
    forall q | q in u ensures LeadsAway(store, leader, chains, q) && Clear(store, leader, chains, q) {
      WellKeptIsClear(store, leader, chains, q);
    }
    DeeperRefs(d, d + 1, store, leader, chains, chain, u);
    RefsWithoutLeader(d + 1, store, leader, chains, chain, u);
  }

  /** The first reference that leads back, if it is reached, is followed into the leader's chain. */
  lemma BackIsFollowed(d: nat, store: Store, leader: PublicKey, chains: Chains, chain: Chain, refs: seq<Reference>,
                       u: seq<Reference>) returns (b: Block, s: Call)
    requires leader in chains && WellKept(store, chains)
    requires FollowRefs(d, store, leader, chains, chain, refs).Returned?
    requires u == UpToBack(store, leader, chains, refs) && u != refs && CommitRefs(store, leader, chains, u).0
    ensures GetBlock(store, refs[|u|].digest) == Some(b) && b.author == leader
    ensures chains[leader].lastCommitted < b.height && d > 0
    ensures var (_, out, cs) := CommitRefs(store, leader, chains, u);
            && leader in cs && s == CommitPrev(d - 1, store, leader, cs, cs[leader], b.height) && s.Returned?
            && FollowRefs(d, store, leader, chains, chain, refs[..|u| + 1])
               == Returned(s.ok, out + s.out, chain, if s.ok then s.chains[leader := s.chain] else s.chains)
  {
    AwayIsPlain(d, store, leader, chains, chain, refs);
    UpToBackLeadsAway(store, leader, chains, refs);
    RefsDecide(store, leader, chains, u);
    var (_, out, cs) := CommitRefs(store, leader, chains, u);
    var more := refs[..|u| + 1];
    assert more[..|more| - 1] == u;
    if FollowRefs(d, store, leader, chains, chain, more).Stuck? {
      RefsFailureStays(d, store, leader, chains, chain, refs, |u| + 1);
    }
    b := GetBlock(store, refs[|u|].digest).value;
    assert FollowRefs(d, store, leader, chains, chain, more) == After(out, FollowOne(d, store, leader, cs, chain, b));
    s := CommitPrev(d - 1, store, leader, cs, cs[leader], b.height);
  }

  lemma {:induction false} OutGrows(d: nat, store: Store, leader: PublicKey, chains: Chains, chain: Chain,
                                    refs: seq<Reference>, i: nat)
    requires i <= |refs| && FollowRefs(d, store, leader, chains, chain, refs).Returned?
    ensures var p := FollowRefs(d, store, leader, chains, chain, refs[..i]);
            p.Returned? && p.out <= FollowRefs(d, store, leader, chains, chain, refs).out
    decreases |refs|
  {
    if i < |refs| {
      var front := refs[..|refs| - 1];
      assert front[..i] == refs[..i];
      OutGrows(d, store, leader, chains, chain, front, i);
    } else {
      assert refs[..i] == refs;
    }
  }

  // ----- A block that leads back on the table's own entry is met again and again -----

  lemma {:induction false} CoveredIsNothing(store: Store, leader: PublicKey, chains: Chains, refs: seq<Reference>)
    requires Covered(store, refs, chains)
    ensures CommitRefs(store, leader, chains, refs) == (true, [], chains)
    decreases |refs|
  {
    if refs != [] {
      var front, last := refs[..|refs| - 1], refs[|refs| - 1];
      assert last in refs;
      CoveredIsNothing(store, leader, chains, front);
      var b := GetBlock(store, last.digest).value;
      assert CommitRange(store, chains[b.author], b.height) == (true, [], chains[b.author]);
      assert chains[b.author := chains[b.author]] == chains;
      var none: seq<Block> := [];
      assert none + none == none;
    }
  }

  function NextBlock(store: Store, chain: Chain): Block
    requires BlockAt(store, chain, chain.lastCommitted + 1).Some?
  {
    BlockAt(store, chain, chain.lastCommitted + 1).value
  }

  ghost predicate MeetsBack(store: Store, leader: PublicKey, chains: Chains, entry: Chain, refs: seq<Reference>) {
    && leader in chains && WellKept(store, chains) && chains[leader] == entry
    && LeaderAt(store, leader, entry, entry.lastCommitted + 1)
    && refs == SortByKey(NextBlock(store, entry).references)
    && UpToBack(store, leader, chains, refs) != refs
    && CommitRefs(store, leader, chains, UpToBack(store, leader, chains, refs)).0
  }

  lemma StillMeetsBack(store: Store, leader: PublicKey, chains: Chains, entry: Chain, refs: seq<Reference>,
                       u: seq<Reference>, out: seq<Block>, cs: Chains)
    requires MeetsBack(store, leader, chains, entry, refs) && u == UpToBack(store, leader, chains, refs)
    requires CommitRefs(store, leader, chains, u) == (true, out, cs)
    ensures MeetsBack(store, leader, cs, entry, refs)
  {
    CommitRefsDelivers(store, leader, chains, u);
    RefsDecide(store, leader, chains, u);
    StaysWellKept(store, chains, cs);
    SameUpToBack(store, leader, chains, cs, refs);
    CoveredIsNothing(store, leader, cs, u);
  }

  lemma StaysWellKept(store: Store, a: Chains, b: Chains)
    requires WellKept(store, a) && CountersOnly(a, b)
    ensures WellKept(store, b)
  {
    forall x | x in b ensures b[x].name == x && OwnEntries(store, b[x]) {
      assert OnlyCounters(a[x], b[x]);
    }
  }

  lemma {:induction false} TurnsForever(d: nat, store: Store, leader: PublicKey, chains: Chains, entry: Chain,
                                        refs: seq<Reference>)
    requires MeetsBack(store, leader, chains, entry, refs)
    ensures CommitNext(d, store, leader, chains, entry).Stuck?
    decreases d
  {
    if CommitNext(d, store, leader, chains, entry).Returned? {
      var cs, height := TurnsOnce(d, store, leader, chains, entry, refs);
      TurnsForever(d - 1, store, leader, cs, entry, refs);
      StuckAbove(d - 1, store, leader, cs, entry, height);
      assert false;
    }
  }

  lemma TurnsOnce(d: nat, store: Store, leader: PublicKey, chains: Chains, entry: Chain, refs: seq<Reference>)
    returns (cs: Chains, height: nat)
    requires MeetsBack(store, leader, chains, entry, refs) && CommitNext(d, store, leader, chains, entry).Returned?
    ensures d > 0 && MeetsBack(store, leader, cs, entry, refs) && entry.lastCommitted < height
    ensures CommitPrev(d - 1, store, leader, cs, entry, height).Returned?
  {
    NextFollows(d, store, leader, chains, entry);
    FollowsRefs(d, store, leader, chains, entry, NextBlock(store, entry));
    var u := UpToBack(store, leader, chains, refs);
    var (_, out, after) := CommitRefs(store, leader, chains, u);
    cs := after;
    var b, s := BackIsFollowed(d, store, leader, chains, entry, refs, u);
    height := b.height;
    StillMeetsBack(store, leader, chains, entry, refs, u, out, cs);
  }

  lemma NextFollows(d: nat, store: Store, leader: PublicKey, chains: Chains, chain: Chain)
    requires BlockAt(store, chain, chain.lastCommitted + 1).Some?
    requires CommitNext(d, store, leader, chains, chain).Returned?
    ensures var f := Follow(d, store, leader, chains, chain, NextBlock(store, chain));
            f.Returned? && f.ok == CommitNext(d, store, leader, chains, chain).ok
  {}

  lemma FollowsRefs(d: nat, store: Store, leader: PublicKey, chains: Chains, chain: Chain, b: Block)
    requires b.author == leader
    ensures Follow(d, store, leader, chains, chain, b)
            == FollowRefs(d, store, leader, chains, chain, SortByKey(b.references))
  {}

  lemma StuckAbove(d: nat, store: Store, leader: PublicKey, chains: Chains, entry: Chain, height: nat)
    requires entry.lastCommitted < height && CommitNext(d, store, leader, chains, entry).Stuck?
    ensures CommitPrev(d, store, leader, chains, entry, height).Stuck?
  {
    var h := entry.lastCommitted + 1;
    assert CommitPrev(d, store, leader, chains, entry, h) == After([], CommitNext(d, store, leader, chains, entry));
    FailureStays(d, store, leader, chains, entry, h, height);
  }

  // ----- A reference that leads back and fails -----

  /** The next height of the table's own entry cannot be committed, and nothing is lost on trying. */
  ghost predicate StopsAtOnce(store: Store, leader: PublicKey, chains: Chains)
    requires leader in chains
  {
    match BlockAt(store, chains[leader], chains[leader].lastCommitted + 1)
    case None => true
    case Some(b) =>
      var u := UpToBack(store, leader, chains, SortByKey(b.references));
      !CommitRefs(store, leader, chains, u).0 && RefsLost(store, leader, chains, u) == []
  }

  /** The next height of the table's own entry, when it fails. */
  lemma EntryFails(d: nat, store: Store, leader: PublicKey, chains: Chains, n: Call, x: Chain)
    requires leader in chains && WellKept(store, chains)
    requires n == CommitNext(d, store, leader, chains, chains[leader]) && n.Returned? && !n.ok
    ensures CountersOnly(chains, n.chains) && n.chains[leader] == chains[leader]
    ensures Delivers(store, leader, chains[leader := x], n.chains[leader := x], n.out)
            <==> StopsAtOnce(store, leader, chains)
  {
    var entry := chains[leader];
    if BlockAt(store, entry, entry.lastCommitted + 1).None? {
      DeliversNothing(store, leader, chains[leader := x]);
    } else {
      assert OwnEntries(store, entry);
      var b := NextBlock(store, entry);
      assert n == Follow(d, store, leader, chains, entry, b);
      EntryFailsAt(d, store, leader, chains, entry, SortByKey(b.references), n, x);
    }
  }

  lemma EntryFailsAt(d: nat, store: Store, leader: PublicKey, chains: Chains, entry: Chain, refs: seq<Reference>,
                     n: Call, x: Chain)
    requires leader in chains && WellKept(store, chains) && chains[leader] == entry
    requires LeaderAt(store, leader, entry, entry.lastCommitted + 1)
    requires refs == SortByKey(NextBlock(store, entry).references)
    requires n == FollowRefs(d, store, leader, chains, entry, refs) && n.Returned? && !n.ok
    requires CommitNext(d, store, leader, chains, entry).Returned?
    ensures CountersOnly(chains, n.chains) && n.chains[leader] == entry
    ensures var u := UpToBack(store, leader, chains, refs);
            Delivers(store, leader, chains[leader := x], n.chains[leader := x], n.out)
            <==> !CommitRefs(store, leader, chains, u).0 && RefsLost(store, leader, chains, u) == []
  {
    AwayIsPlain(d, store, leader, chains, entry, refs);
    var u := UpToBack(store, leader, chains, refs);
    var (ok, out, cs) := CommitRefs(store, leader, chains, u);
    if ok {
      TurnsForever(d, store, leader, chains, entry, refs);
      assert false;
    }
    RefsDecide(store, leader, chains, u);
    SwapLeader(store, leader, chains, cs, x, out);
  }

  lemma StopsIsFailure(d: nat, store: Store, leader: PublicKey, chains: Chains, n: Call)
    requires leader in chains && WellKept(store, chains) && StopsAtOnce(store, leader, chains)
    requires n == CommitNext(d, store, leader, chains, chains[leader]) && n.Returned?
    ensures !n.ok
  {
    var entry := chains[leader];
    if BlockAt(store, entry, entry.lastCommitted + 1).Some? {
      EntryIsLeaders(store, leader, chains);
      RefsDecideNext(d, store, leader, chains, entry, SortByKey(NextBlock(store, entry).references));
    }
  }

  lemma EntryIsLeaders(store: Store, leader: PublicKey, chains: Chains)
    requires leader in chains && WellKept(store, chains)
    requires BlockAt(store, chains[leader], chains[leader].lastCommitted + 1).Some?
    ensures LeaderAt(store, leader, chains[leader], chains[leader].lastCommitted + 1)
  {
    assert OwnEntries(store, chains[leader]);
  }

  lemma RefsDecideNext(d: nat, store: Store, leader: PublicKey, chains: Chains, entry: Chain, refs: seq<Reference>)
    requires leader in chains && WellKept(store, chains) && LeaderAt(store, leader, entry, entry.lastCommitted + 1)
    requires refs == SortByKey(NextBlock(store, entry).references)
    requires !CommitRefs(store, leader, chains, UpToBack(store, leader, chains, refs)).0
    ensures var n := CommitNext(d, store, leader, chains, entry); n.Returned? ==> !n.ok
  {
    if CommitNext(d, store, leader, chains, entry).Returned? {
      NextFollows(d, store, leader, chains, entry);
      FollowsRefs(d, store, leader, chains, entry, NextBlock(store, entry));
      AwayFails(d, store, leader, chains, entry, refs);
    }
  }

  lemma AwayFails(d: nat, store: Store, leader: PublicKey, chains: Chains, chain: Chain, refs: seq<Reference>)
    requires leader in chains && WellKept(store, chains)
    requires !CommitRefs(store, leader, chains, UpToBack(store, leader, chains, refs)).0
    ensures var f := FollowRefs(d, store, leader, chains, chain, refs); f.Returned? ==> !f.ok
  {
    if FollowRefs(d, store, leader, chains, chain, refs).Returned? {
      AwayIsPlain(d, store, leader, chains, chain, refs);
    }
  }

  /** A call on the table's own entry pushes no block of the leader only if it fails at once. */
  lemma NestedPushes(d: nat, store: Store, leader: PublicKey, chains: Chains, height: nat, s: Call, n: Call)
    requires leader in chains && WellKept(store, chains) && chains[leader].lastCommitted < height
    requires s == CommitPrev(d, store, leader, chains, chains[leader], height) && s.Returned?
    requires n == CommitNext(d, store, leader, chains, chains[leader])
    ensures n.Returned?
    ensures if n.ok then Leaders(s.out, leader) >= 1 && !StopsAtOnce(store, leader, chains)
            else s.out == n.out && s.chains == n.chains && !s.ok
  {
    var entry := chains[leader];
    var h := entry.lastCommitted + 1;
    assert CommitPrev(d, store, leader, chains, entry, h) == After([], n);
    if n.Stuck? || !n.ok {
      FailureStays(d, store, leader, chains, entry, h, height);
      assert n.Returned? ==> [] + n.out == n.out;
    } else {
      FirstIsPushed(d, store, leader, chains, height, s);
      if StopsAtOnce(store, leader, chains) {
        StopsIsFailure(d, store, leader, chains, n);
      }
    }
  }

  lemma FirstIsPushed(d: nat, store: Store, leader: PublicKey, chains: Chains, height: nat, s: Call)
    requires leader in chains && WellKept(store, chains) && chains[leader].lastCommitted < height
    requires s == CommitPrev(d, store, leader, chains, chains[leader], height) && s.Returned?
    requires var n := CommitNext(d, store, leader, chains, chains[leader]); n.Returned? && n.ok
    ensures Leaders(s.out, leader) >= 1
  {
    var entry := chains[leader];
    var h := entry.lastCommitted + 1;
    PrevFrame(d, store, leader, chains, entry, height);
    PrevPasses(d, store, leader, chains, entry, height);
    if s.chain.lastCommitted < h {
      var p := StoppedAt(d, store, leader, chains, entry, height, s);
      assert false;
    }
    assert PassedAt(store, leader, entry, s.out, h) && OwnEntries(store, entry);
    PushedLeader(store, leader, entry, s.out, h);
  }

  // ----- The failing height -----

  /** What the references lose: as far as they lead away, they are followed in the plain form; the
      first that leads back must stop at once. */
  ghost predicate SpillsNothing(store: Store, leader: PublicKey, chains: Chains, refs: seq<Reference>)
    requires leader in chains
  {
    var u := UpToBack(store, leader, chains, refs);
    var (ok, _, cs) := CommitRefs(store, leader, chains, u);
    if ok then u != refs && leader in cs && StopsAtOnce(store, leader, cs)
    else RefsLost(store, leader, chains, u) == []
  }

  lemma FailingRefsDeliverIff(d: nat, store: Store, leader: PublicKey, chains: Chains, chain: Chain,
                              refs: seq<Reference>, f: Call)
    requires leader in chains && WellKept(store, chains)
    requires f == FollowRefs(d, store, leader, chains, chain, refs) && f.Returned? && !f.ok
    ensures Delivers(store, leader, chains[leader := chain], f.chains[leader := chain], f.out)
            <==> SpillsNothing(store, leader, chains, refs)
  {
    var u := UpToBack(store, leader, chains, refs);
    AwayIsPlain(d, store, leader, chains, chain, refs);
    RefsDecide(store, leader, chains, u);
    var (ok, out, cs) := CommitRefs(store, leader, chains, u);
    if ok {
      BackDeliversIff(d, store, leader, chains, chain, refs, f, u, out, cs);
    } else {
      SwapLeader(store, leader, chains, cs, chain, out);
    }
  }

  lemma BackDeliversIff(d: nat, store: Store, leader: PublicKey, chains: Chains, chain: Chain,
                        refs: seq<Reference>, f: Call, u: seq<Reference>, out: seq<Block>, cs: Chains)
    requires leader in chains && WellKept(store, chains)
    requires f == FollowRefs(d, store, leader, chains, chain, refs) && f.Returned?
    requires u == UpToBack(store, leader, chains, refs) && u != refs
    requires CommitRefs(store, leader, chains, u) == (true, out, cs) && CountersOnly(chains, cs)
    requires cs[leader] == chains[leader]
    ensures Delivers(store, leader, chains[leader := chain], f.chains[leader := chain], f.out)
            <==> StopsAtOnce(store, leader, cs)
  {
    var b, s := BackIsFollowed(d, store, leader, chains, chain, refs, u);
    StaysWellKept(store, chains, cs);
    var n := CommitNext(d - 1, store, leader, cs, cs[leader]);
    NestedPushes(d - 1, store, leader, cs, b.height, s, n);
    if n.ok {
      OutGrows(d, store, leader, chains, chain, refs, |u| + 1);
      PushedOnTheWay(store, leader, chains, chain, f, out, s.out);
    } else {
      RefsFailureStays(d, store, leader, chains, chain, refs, |u| + 1);
      EntryFails(d - 1, store, leader, cs, n, chain);
      FailsAfterAway(store, leader, chains, chain, u, out, cs, n);
    }
  }

  lemma PushedOnTheWay(store: Store, leader: PublicKey, chains: Chains, chain: Chain, f: Call, out: seq<Block>,
                       more: seq<Block>)
    requires f.Returned? && out + more <= f.out && Leaders(more, leader) >= 1
    ensures !Delivers(store, leader, chains[leader := chain], f.chains[leader := chain], f.out)
  {
    var rest := f.out[|out + more|..];
    LeadersAdd(out, more, leader);
    LeadersAdd(out + more, rest, leader);
    assert f.out == out + more + rest;
    PushedInVain(store, leader, chains, f.chains, chain, f.out);
  }

  lemma FailsAfterAway(store: Store, leader: PublicKey, chains: Chains, chain: Chain, u: seq<Reference>,
                       out: seq<Block>, cs: Chains, n: Call)
    requires leader in chains && WellKept(store, chains) && CommitRefs(store, leader, chains, u) == (true, out, cs)
    requires leader in cs && cs[leader] == chains[leader] && n.Returned? && CountersOnly(cs, n.chains)
    ensures Delivers(store, leader, chains[leader := chain], n.chains[leader := chain], out + n.out)
            <==> Delivers(store, leader, cs[leader := chain], n.chains[leader := chain], n.out)
  {
    CommitRefsDelivers(store, leader, chains, u);
    SwapLeader(store, leader, chains, cs, chain, out);
    AloneSwapped(cs, n.chains, leader, chain);
    DeliversRest(store, leader, chains[leader := chain], cs[leader := chain], n.chains[leader := chain], out, n.out);
  }

  lemma AloneSwapped(a: Chains, b: Chains, leader: PublicKey, x: Chain)
    requires CountersOnly(a, b)
    ensures CountersOnly(a[leader := x], b[leader := x])
  {
    var a', b' := a[leader := x], b[leader := x];
    forall y | y in a' ensures OnlyCounters(a'[y], b'[y]) {
      assert y != leader ==> OnlyCounters(a[y], b[y]);
    }
  }

  // ----- Whatever a commit returns -----

  /** A commit that returns false stopped at the height after its counter, and is the commit of that
      height; below it, everything was committed. */
  lemma {:induction false} StoppedAt(d: nat, store: Store, leader: PublicKey, chains: Chains, chain: Chain, height: nat,
                                     r: Call) returns (p: Call)
    requires r == CommitPrev(d, store, leader, chains, chain, height) && r.Returned? && !r.ok
    ensures chain.lastCommitted <= r.chain.lastCommitted < height
    ensures r == CommitPrev(d, store, leader, chains, chain, r.chain.lastCommitted + 1)
    ensures CommitsAll(d, store, leader, chains, chain, r.chain.lastCommitted, p) && p.out <= r.out
    decreases height
  {
    PrevFrame(d, store, leader, chains, chain, height);
    p := CommitPrev(d, store, leader, chains, chain, height - 1);
    PrevFrame(d, store, leader, chains, chain, height - 1);
    if p.ok {
      NextFrame(d, store, leader, p.chains, p.chain);
      assert height - 1 == r.chain.lastCommitted;
    } else {
      p := StoppedAt(d, store, leader, chains, chain, height - 1, r);
    }
  }

  lemma ReentryIsTooMuch(d: nat, store: Store, leader: PublicKey, chains: Chains, chain: Chain, p: Call, r: Call)
    requires Held(store, leader, chains, chain) && r.Returned? && OnlyCounters(chain, r.chain) && leader in r.chains
    requires CommitsAll(d, store, leader, chains, chain, r.chain.lastCommitted, p) && p.out <= r.out
    requires !NoReentry(store, leader, chains, chain, r.chain.lastCommitted)
    ensures !Delivers(store, leader, chains[leader := chain], r.chains[leader := r.chain], r.out)
  {
    HeldDoesNotStray(store, leader, chains, chain, r.chains);
    ReentryOutnumbers(d, store, leader, chains, chain, r.chain.lastCommitted, p);
    var rest := r.out[|p.out|..];
    assert r.out == p.out + rest;
    LeadersAdd(p.out, rest, leader);
    TooManyLeaders(store, leader, chains[leader := chain], r.chains[leader := r.chain], r.out);
  }

  /** The next height of the chain, if it fails, loses nothing. */
  ghost predicate NextIsClean(store: Store, leader: PublicKey, chains: Chains, chain: Chain)
    requires leader in chains
  {
    BlockAt(store, chain, chain.lastCommitted + 1).Some? ==>
      SpillsNothing(store, leader, chains, SortByKey(NextBlock(store, chain).references))
  }

  /** So does the height after the given one. Up to there nothing leads back, so the table is as the
      plain form leaves it. */
  ghost predicate FailsCleanly(store: Store, leader: PublicKey, chains: Chains, chain: Chain, height: nat)
    requires leader in chains
  {
    var s := CommitLeader(store, leader, chains[leader := chain], height);
    NextIsClean(store, leader, s.chains[leader := chains[leader]], s.chains[leader])
  }

  /** However a commit returns, it delivers what it counts exactly when no leader block it committed
      leads back and, if it failed, the references of the height it failed on lost nothing. */
  lemma CommitDeliversIff(store: Store, leader: PublicKey, chains: Chains, chain: Chain, height: nat)
    requires Held(store, leader, chains, chain) && Returns(store, leader, chains, chain, height)
    ensures var r := CommitResult(store, leader, chains, chain, height);
            Delivers(store, leader, chains[leader := chain], r.chains[leader := r.chain], r.out)
            <==> NoReentry(store, leader, chains, chain, r.chain.lastCommitted)
                 && (r.ok || FailsCleanly(store, leader, chains, chain, r.chain.lastCommitted))
  {
    var r := CommitResult(store, leader, chains, chain, height);
    var d := DepthOf(store, leader, chains, chain, height);
    PrevFrame(d, store, leader, chains, chain, height);
    if r.ok {
      DoneDeliversIff(d, store, leader, chains, chain, r.chain.lastCommitted, r);
    } else {
      var p := StoppedAt(d, store, leader, chains, chain, height, r);
      FailedDeliversIff(d, store, leader, chains, chain, r.chain.lastCommitted, p, r);
    }
  }

  lemma DoneDeliversIff(d: nat, store: Store, leader: PublicKey, chains: Chains, chain: Chain, height: nat, r: Call)
    requires Held(store, leader, chains, chain) && CommitsAll(d, store, leader, chains, chain, height, r)
    requires height == r.chain.lastCommitted && OnlyCounters(chain, r.chain) && leader in r.chains
    ensures Delivers(store, leader, chains[leader := chain], r.chains[leader := r.chain], r.out)
            <==> NoReentry(store, leader, chains, chain, height)
  {
    if NoReentry(store, leader, chains, chain, height) {
      CommittedIsPlain(d, store, leader, chains, chain, height, r);
    } else {
      ReentryIsTooMuch(d, store, leader, chains, chain, r, r);
    }
  }

  lemma FailedDeliversIff(d: nat, store: Store, leader: PublicKey, chains: Chains, chain: Chain, h: nat, p: Call,
                          r: Call)
    requires Held(store, leader, chains, chain) && CommitsAll(d, store, leader, chains, chain, h, p)
    requires r == CommitPrev(d, store, leader, chains, chain, h + 1) && r.Returned? && !r.ok
    requires chain.lastCommitted <= h == r.chain.lastCommitted && p.out <= r.out
    ensures Delivers(store, leader, chains[leader := chain], r.chains[leader := r.chain], r.out)
            <==> NoReentry(store, leader, chains, chain, h) && FailsCleanly(store, leader, chains, chain, h)
  {
    var n := CommitNext(d, store, leader, p.chains, p.chain);
    assert r == After(p.out, n);
    PrevFrame(d, store, leader, chains, chain, h);
    NextFrame(d, store, leader, p.chains, p.chain);
    if NoReentry(store, leader, chains, chain, h) {
      CommittedIsPlain(d, store, leader, chains, chain, h, p);
      FailedAfterPlain(d, store, leader, chains, chain, h, p, n);
    } else {
      ReentryIsTooMuch(d, store, leader, chains, chain, p, r);
    }
  }

  lemma CommittedIsPlain(d: nat, store: Store, leader: PublicKey, chains: Chains, chain: Chain, height: nat, p: Call)
    requires Held(store, leader, chains, chain) && CommitsAll(d, store, leader, chains, chain, height, p)
    requires NoReentry(store, leader, chains, chain, height)
    ensures p == TakenOut(CommitLeader(store, leader, chains[leader := chain], height), leader, chains[leader])
    ensures Delivers(store, leader, chains[leader := chain], p.chains[leader := p.chain], p.out)
    ensures CountersOnly(chains, p.chains) && OnlyCounters(chain, p.chain)
    ensures p.chain.lastCommitted == Max(chain.lastCommitted, height)
  {
    HeldDoesNotStray(store, leader, chains, chain, p.chains);
    NoStrayIsPlain(d, store, leader, chains, chain, height);
    PlainMeetsSpec(store, leader, chains, chain, height, p);
    PrevFrame(d, store, leader, chains, chain, height);
  }

  lemma FailedAfterPlain(d: nat, store: Store, leader: PublicKey, chains: Chains, chain: Chain, h: nat, p: Call,
                         n: Call)
    requires Held(store, leader, chains, chain) && p.Returned? && p.chain.lastCommitted == h
    requires p == TakenOut(CommitLeader(store, leader, chains[leader := chain], h), leader, chains[leader])
    requires Delivers(store, leader, chains[leader := chain], p.chains[leader := p.chain], p.out)
    requires CountersOnly(chains, p.chains) && OnlyCounters(chain, p.chain)
    requires n == CommitNext(d, store, leader, p.chains, p.chain) && n.Returned? && !n.ok
    ensures Delivers(store, leader, chains[leader := chain], n.chains[leader := p.chain], p.out + n.out)
            <==> FailsCleanly(store, leader, chains, chain, h)
  {
    NextFrame(d, store, leader, p.chains, p.chain);
    StaysWellKept(store, chains, p.chains);
    NextDeliversIff(d, store, leader, p.chains, p.chain, n);
    RestOfFailure(store, leader, chains[leader := chain], p, n);
  }

  lemma RestOfFailure(store: Store, leader: PublicKey, before: Chains, p: Call, n: Call)
    requires p.Returned? && n.Returned? && CountersOnly(p.chains, n.chains)
    requires Delivers(store, leader, before, p.chains[leader := p.chain], p.out)
    ensures Delivers(store, leader, before, n.chains[leader := p.chain], p.out + n.out)
            <==> Delivers(store, leader, p.chains[leader := p.chain], n.chains[leader := p.chain], n.out)
  {
    AloneSwapped(p.chains, n.chains, leader, p.chain);
    DeliversRest(store, leader, before, p.chains[leader := p.chain], n.chains[leader := p.chain], p.out, n.out);
  }

  lemma NextDeliversIff(d: nat, store: Store, leader: PublicKey, chains: Chains, chain: Chain, n: Call)
    requires leader in chains && WellKept(store, chains) && chain.name == leader && OwnEntries(store, chain)
    requires n == CommitNext(d, store, leader, chains, chain) && n.Returned? && !n.ok
    ensures Delivers(store, leader, chains[leader := chain], n.chains[leader := chain], n.out)
            <==> NextIsClean(store, leader, chains, chain)
  {
    if BlockAt(store, chain, chain.lastCommitted + 1).None? {
      DeliversNothing(store, leader, chains[leader := chain]);
    } else {
      var b := NextBlock(store, chain);
      assert n == Follow(d, store, leader, chains, chain, b);
      FailingRefsDeliverIff(d, store, leader, chains, chain, SortByKey(b.references), n);
    }
  }
}
