/** A commit that returns true meets the commit specification exactly when it does not lead back to
    the leader's chain: otherwise some block of the leader is pushed more often than it is counted. */
module ReentryTheorems {
  import opened Committees
  import opened Options
  import opened Messages
  import opened Aggregators
  import opened Commits
  import opened Reentries

  // ----- Whatever a counter passes has been pushed -----

  ghost predicate PassedAt(store: Store, leader: PublicKey, chain: Chain, out: seq<Block>, k: nat) {
    BlockAt(store, chain, k).Some? && Presented(BlockAt(store, chain, k).value, leader) in out
  }

  ghost predicate Passed(store: Store, leader: PublicKey, a: Chain, b: Chain, out: seq<Block>) {
    forall k :: a.lastCommitted < k <= b.lastCommitted ==> PassedAt(store, leader, a, out, k)
  }

  ghost predicate AllPassed(store: Store, leader: PublicKey, a: Chains, b: Chains, out: seq<Block>) {
    forall x | x in a && x in b :: Passed(store, leader, a[x], b[x], out)
  }

  lemma PassedOn(store: Store, leader: PublicKey, a: Chain, b: Chain, e: Chain, out1: seq<Block>, out2: seq<Block>)
    requires Passed(store, leader, a, b, out1) && Passed(store, leader, b, e, out2) && OnlyCounters(a, b)
    ensures Passed(store, leader, a, e, out1 + out2)
  {
    forall k | a.lastCommitted < k <= e.lastCommitted ensures PassedAt(store, leader, a, out1 + out2, k) {
      if k <= b.lastCommitted {
        assert PassedAt(store, leader, a, out1, k);
      } else {
        assert PassedAt(store, leader, b, out2, k);
      }
    }
  }

  lemma AllPassedOn(store: Store, leader: PublicKey, a: Chains, b: Chains, e: Chains, out1: seq<Block>,
                    out2: seq<Block>)
    requires AllPassed(store, leader, a, b, out1) && AllPassed(store, leader, b, e, out2) && CountersOnly(a, b)
    ensures AllPassed(store, leader, a, e, out1 + out2)
  {
    forall x | x in a && x in e ensures Passed(store, leader, a[x], e[x], out1 + out2) {
      PassedOn(store, leader, a[x], b[x], e[x], out1, out2);
    }
  }

  lemma {:induction false} PrevPasses(d: nat, store: Store, leader: PublicKey, chains: Chains, chain: Chain,
                                      height: nat)
    requires CommitPrev(d, store, leader, chains, chain, height).Returned?
    ensures var r := CommitPrev(d, store, leader, chains, chain, height);
            Passed(store, leader, chain, r.chain, r.out) && AllPassed(store, leader, chains, r.chains, r.out)
    decreases d, 1, height
  {
    if chain.lastCommitted < height {
      PrevPasses(d, store, leader, chains, chain, height - 1);
      PrevFrame(d, store, leader, chains, chain, height - 1);
      var p := CommitPrev(d, store, leader, chains, chain, height - 1);
      if p.ok {
        NextPasses(d, store, leader, p.chains, p.chain);
        var n := CommitNext(d, store, leader, p.chains, p.chain);
        PassedOn(store, leader, chain, p.chain, n.chain, p.out, n.out);
        AllPassedOn(store, leader, chains, p.chains, n.chains, p.out, n.out);
      }
    }
  }

  lemma {:induction false} NextPasses(d: nat, store: Store, leader: PublicKey, chains: Chains, chain: Chain)
    requires CommitNext(d, store, leader, chains, chain).Returned?
    ensures var r := CommitNext(d, store, leader, chains, chain);
            Passed(store, leader, chain, r.chain, r.out) && AllPassed(store, leader, chains, r.chains, r.out)
    decreases d, 1, 0
  {
    var b := BlockAt(store, chain, chain.lastCommitted + 1);
    if b.Some? {
      var f, r := Follow(d, store, leader, chains, chain, b.value), CommitNext(d, store, leader, chains, chain);
      FollowPasses(d, store, leader, chains, chain, b.value);
      NextFrame(d, store, leader, chains, chain);
      assert f.out <= r.out;
      MorePassed(store, leader, chains, f.chains, f.out, r.out);
      if r.ok {
        assert r.out[|f.out|] == Presented(b.value, leader);
        assert PassedAt(store, leader, chain, r.out, chain.lastCommitted + 1);
      }
    }
  }

  lemma MorePassed(store: Store, leader: PublicKey, a: Chains, b: Chains, out: seq<Block>, more: seq<Block>)
    requires AllPassed(store, leader, a, b, out) && out <= more
    ensures AllPassed(store, leader, a, b, more)
  {
    forall x, k | x in a && x in b && a[x].lastCommitted < k <= b[x].lastCommitted
      ensures PassedAt(store, leader, a[x], more, k)
    {
      assert PassedAt(store, leader, a[x], out, k);
      var i :| 0 <= i < |out| && out[i] == Presented(BlockAt(store, a[x], k).value, leader);
      assert more[i] == out[i];
    }
  }

  lemma {:induction false} FollowPasses(d: nat, store: Store, leader: PublicKey, chains: Chains, chain: Chain, b: Block)
    requires Follow(d, store, leader, chains, chain, b).Returned?
    ensures var r := Follow(d, store, leader, chains, chain, b); AllPassed(store, leader, chains, r.chains, r.out)
    decreases d, 0, |b.references| + 1
  {
    SortKeepsLength(b.references);
    if b.author == leader {
      RefsPass(d, store, leader, chains, chain, SortByKey(b.references));
    }
  }

  lemma {:induction false} RefsPass(d: nat, store: Store, leader: PublicKey, chains: Chains, chain: Chain,
                                    refs: seq<Reference>)
    requires FollowRefs(d, store, leader, chains, chain, refs).Returned?
    ensures var r := FollowRefs(d, store, leader, chains, chain, refs);
            AllPassed(store, leader, chains, r.chains, r.out)
    decreases d, 0, |refs|
  {
    if refs != [] {
      var front := refs[..|refs| - 1];
      RefsPass(d, store, leader, chains, chain, front);
      FollowRefsFrame(d, store, leader, chains, chain, front);
      var p, b := FollowRefs(d, store, leader, chains, chain, front), GetBlock(store, refs[|refs| - 1].digest);
      if p.ok && b.Some? {
        OnePasses(d, store, leader, p.chains, chain, b.value);
        var s := FollowOne(d, store, leader, p.chains, chain, b.value);
        AllPassedOn(store, leader, chains, p.chains, s.chains, p.out, s.out);
      }
    }
  }

  lemma {:induction false} OnePasses(d: nat, store: Store, leader: PublicKey, chains: Chains, chain: Chain, b: Block)
    requires FollowOne(d, store, leader, chains, chain, b).Returned?
    ensures var r := FollowOne(d, store, leader, chains, chain, b); AllPassed(store, leader, chains, r.chains, r.out)
    decreases d, 0, 0
  {
    PrevPasses(d - 1, store, leader, chains, chains[b.author], b.height);
  }

  // ----- Every reference that was followed is counted -----

  lemma {:induction false} RefsCounted(d: nat, store: Store, leader: PublicKey, chains: Chains, chain: Chain,
                                       refs: seq<Reference>)
    requires FollowRefs(d, store, leader, chains, chain, refs).Returned?
    requires FollowRefs(d, store, leader, chains, chain, refs).ok
    ensures Covered(store, refs, FollowRefs(d, store, leader, chains, chain, refs).chains)
    decreases |refs|
  {
    if refs != [] {
      var front, last := refs[..|refs| - 1], refs[|refs| - 1];
      RefsCounted(d, store, leader, chains, chain, front);
      var p, b := FollowRefs(d, store, leader, chains, chain, front), GetBlock(store, last.digest).value;
      FollowOneFrame(d, store, leader, p.chains, chain, b);
      var s := FollowOne(d, store, leader, p.chains, chain, b);
      CoveredStays(store, front, p.chains, s.chains);
      assert refs == front + [last];
    }
  }

  ghost predicate CoveredAt(store: Store, leader: PublicKey, chain: Chain, chains: Chains, h: nat) {
    LeaderAt(store, leader, chain, h) ==> Covered(store, SortByKey(BlockAt(store, chain, h).value.references), chains)
  }

  ghost predicate AllCovered(store: Store, leader: PublicKey, chain: Chain, chains: Chains, height: nat) {
    forall h: nat :: chain.lastCommitted < h <= height ==> CoveredAt(store, leader, chain, chains, h)
  }

  lemma OneMoreCovered(store: Store, leader: PublicKey, chain: Chain, next: Chain, a: Chains, b: Chains, height: nat)
    requires height > 0 && AllCovered(store, leader, chain, a, height - 1) && CountersOnly(a, b)
    requires next.heightToDigest == chain.heightToDigest && CoveredAt(store, leader, next, b, height)
    ensures AllCovered(store, leader, chain, b, height)
  {
    assert BlockAt(store, chain, height) == BlockAt(store, next, height);
    forall h: nat | chain.lastCommitted < h <= height ensures CoveredAt(store, leader, chain, b, h) {
      if h < height {
        CoveredAtStays(store, leader, chain, a, b, h);
      }
    }
  }

  lemma CoveredAtStays(store: Store, leader: PublicKey, chain: Chain, a: Chains, b: Chains, h: nat)
    requires CoveredAt(store, leader, chain, a, h) && CountersOnly(a, b)
    ensures CoveredAt(store, leader, chain, b, h)
  {
    if LeaderAt(store, leader, chain, h) {
      CoveredStays(store, SortByKey(BlockAt(store, chain, h).value.references), a, b);
    }
  }

  lemma {:induction false} PrevCounted(d: nat, store: Store, leader: PublicKey, chains: Chains, chain: Chain,
                                       height: nat)
    requires CommitPrev(d, store, leader, chains, chain, height).Returned?
    requires CommitPrev(d, store, leader, chains, chain, height).ok
    ensures AllCovered(store, leader, chain, CommitPrev(d, store, leader, chains, chain, height).chains, height)
    decreases height
  {
    if chain.lastCommitted < height {
      PrevCounted(d, store, leader, chains, chain, height - 1);
      var p := CommitPrev(d, store, leader, chains, chain, height - 1);
      PrevFrame(d, store, leader, chains, chain, height - 1);
      HeightCounted(d, store, leader, chain, p.chains, p.chain, CommitNext(d, store, leader, p.chains, p.chain));
    }
  }

  lemma HeightCounted(d: nat, store: Store, leader: PublicKey, chain: Chain, cs: Chains, at: Chain, n: Call)
    requires at.heightToDigest == chain.heightToDigest && AllCovered(store, leader, chain, cs, at.lastCommitted)
    requires n == CommitNext(d, store, leader, cs, at) && n.Returned? && n.ok
    ensures AllCovered(store, leader, chain, n.chains, at.lastCommitted + 1)
  {
    NextCounted(d, store, leader, cs, at, n);
    OneMoreCovered(store, leader, chain, at, cs, n.chains, at.lastCommitted + 1);
  }

  lemma NextCounted(d: nat, store: Store, leader: PublicKey, chains: Chains, chain: Chain, n: Call)
    requires n == CommitNext(d, store, leader, chains, chain) && n.Returned? && n.ok
    ensures CountersOnly(chains, n.chains) && CoveredAt(store, leader, chain, n.chains, chain.lastCommitted + 1)
  {
    NextFrame(d, store, leader, chains, chain);
    if LeaderAt(store, leader, chain, chain.lastCommitted + 1) {
      RefsCounted(d, store, leader, chains, chain,
                  SortByKey(BlockAt(store, chain, chain.lastCommitted + 1).value.references));
    }
  }

  // ----- Without re-entry and without leader blocks on other chains, the commit is plain -----

  /** Some other chain's counter passed a block of the leader. */
  ghost predicate Strays(store: Store, leader: PublicKey, a: Chains, b: Chains) {
    exists x, k :: StraysAt(store, leader, a, b, x, k)
  }

  ghost predicate StraysAt(store: Store, leader: PublicKey, a: Chains, b: Chains, x: PublicKey, k: nat) {
    && x in a && x in b && x != leader && a[x].lastCommitted < k <= b[x].lastCommitted
    && LeaderAt(store, leader, a[x], k)
  }

  lemma NoStrayIsPlain(d: nat, store: Store, leader: PublicKey, chains: Chains, chain: Chain, height: nat)
    requires leader in chains && chains[leader].lastCommitted <= chain.lastCommitted
    requires CommitPrev(d, store, leader, chains, chain, height).Returned?
    requires var r := CommitPrev(d, store, leader, chains, chain, height);
             r.ok && !Strays(store, leader, chains, r.chains)
    requires NoReentry(store, leader, chains, chain, height)
    ensures CommitPrev(d, store, leader, chains, chain, height)
            == TakenOut(CommitLeader(store, leader, chains[leader := chain], height), leader, chains[leader])
  {
    PrevCounted(d, store, leader, chains, chain, height);
    NoStrayIsAllClear(store, leader, chains, CommitPrev(d, store, leader, chains, chain, height).chains, chain, height);
    DeeperPrev(d, d + 1, store, leader, chains, chain, height);
    PlainCommit(d + 1, store, leader, chains, chain, height);
  }

  lemma NoStrayIsAllClear(store: Store, leader: PublicKey, a: Chains, b: Chains, chain: Chain, height: nat)
    requires !Strays(store, leader, a, b) && AllCovered(store, leader, chain, b, height)
    ensures AllClear(store, leader, a, chain, height)
  {
    forall h: nat, q | chain.lastCommitted < h <= height && RefersAt(store, leader, chain, h, q)
      ensures Clear(store, leader, a, q)
    {
      assert CoveredAt(store, leader, chain, b, h);
      SortByKeyKeeps(BlockAt(store, chain, h).value.references, q);
      NoStrayIsClear(store, leader, a, b, q);
    }
  }

  lemma NoStrayIsClear(store: Store, leader: PublicKey, a: Chains, b: Chains, q: Reference)
    requires !Strays(store, leader, a, b) && Covered(store, [q], b)
    ensures Clear(store, leader, a, q)
  {
    assert q in [q];
    var t := GetBlock(store, q.digest).value;
    if t.author in a && t.author != leader {
      forall k | a[t.author].lastCommitted < k <= t.height ensures !LeaderAt(store, leader, a[t.author], k) {
        assert !StraysAt(store, leader, a, b, t.author, k);
      }
    }
  }

  // ----- Otherwise the leader's blocks outnumber its heights -----

  ghost function Leaders(out: seq<Block>, leader: PublicKey): nat {
    |FromAuthor(out, leader)|
  }

  /** Blocks of the leader fill its chain above the counter. */
  ghost predicate LeaderOnly(store: Store, leader: PublicKey, chain: Chain) {
    forall k :: chain.lastCommitted < k && BlockAt(store, chain, k).Some? ==> LeaderAt(store, leader, chain, k)
  }

  lemma PushedLeader(store: Store, leader: PublicKey, chain: Chain, out: seq<Block>, k: nat)
    requires PassedAt(store, leader, chain, out, k) && LeaderAt(store, leader, chain, k)
    ensures Leaders(out, leader) >= 1
  {
    FromAuthorMember(out, Presented(BlockAt(store, chain, k).value, leader));
  }

  lemma LeadersAdd(a: seq<Block>, b: seq<Block>, leader: PublicKey)
    ensures Leaders(a + b, leader) == Leaders(a, leader) + Leaders(b, leader)
  {
    FromAuthorConcat(a, b, leader);
  }

  ghost predicate CommitsAll(d: nat, store: Store, leader: PublicKey, chains: Chains, chain: Chain, height: nat,
                             r: Call) {
    r == CommitPrev(d, store, leader, chains, chain, height) && r.Returned? && r.ok
  }

  /** One more height pushes one more block of the leader, besides what its references push. */
  lemma HeightCounts(d: nat, store: Store, leader: PublicKey, chains: Chains, chain: Chain, height: nat, r: Call)
    returns (p: Call, refs: seq<Reference>, f: Call)
    requires chain.lastCommitted < height && LeaderOnly(store, leader, chain)
    requires CommitsAll(d, store, leader, chains, chain, height, r)
    ensures CommitsAll(d, store, leader, chains, chain, height - 1, p)
    ensures CountersOnly(chains, p.chains) && LeaderAt(store, leader, chain, height)
    ensures refs == SortByKey(BlockAt(store, chain, height).value.references)
    ensures f == FollowRefs(d, store, leader, p.chains, p.chain, refs)
    ensures f.Returned? && f.ok && f.chains == r.chains
    ensures Leaders(r.out, leader) == Leaders(p.out, leader) + Leaders(f.out, leader) + 1
  {
    PrevFrame(d, store, leader, chains, chain, height - 1);
    p := CommitPrev(d, store, leader, chains, chain, height - 1);
    var n := CommitNext(d, store, leader, p.chains, p.chain);
    var b := BlockAt(store, chain, height).value;
    assert LeaderAt(store, leader, chain, height);
    refs := SortByKey(b.references);
    f := FollowRefs(d, store, leader, p.chains, p.chain, refs);
    assert f == Follow(d, store, leader, p.chains, p.chain, b);
    LeadersAdd(f.out, [Presented(b, leader)], leader);
    LeadersAdd(p.out, n.out, leader);
    assert [Presented(b, leader)][..0] == [];
    assert FromAuthor([Presented(b, leader)], leader) == FromAuthor([], leader) + [Presented(b, leader)];
  }

  lemma {:induction false} LeadersCount(d: nat, store: Store, leader: PublicKey, chains: Chains, chain: Chain,
                                        height: nat, r: Call)
    requires LeaderOnly(store, leader, chain) && CommitsAll(d, store, leader, chains, chain, height, r)
    ensures Leaders(r.out, leader) + chain.lastCommitted >= height
    decreases height
  {
    if chain.lastCommitted < height {
      var p, _, f := HeightCounts(d, store, leader, chains, chain, height, r);
      LeadersCount(d, store, leader, chains, chain, height - 1, p);
    }
  }

  lemma {:induction false} StrayOutnumbers(d: nat, store: Store, leader: PublicKey, chains: Chains, chain: Chain,
                                           height: nat, r: Call, x: PublicKey, k: nat)
    requires LeaderOnly(store, leader, chain) && CommitsAll(d, store, leader, chains, chain, height, r)
    requires StraysAt(store, leader, chains, r.chains, x, k)
    ensures Leaders(r.out, leader) + chain.lastCommitted > height
    decreases height
  {
    if chain.lastCommitted < height {
      var p, n := HeightStrays(d, store, leader, chains, chain, height, r, x, k);
      if k <= p.chains[x].lastCommitted {
        StrayOutnumbers(d, store, leader, chains, chain, height - 1, p, x, k);
      } else {
        LeadersCount(d, store, leader, chains, chain, height - 1, p);
      }
    }
  }

  /** The last height pushes a block of the leader, and another one if that is where the commit strays. */
  lemma HeightStrays(d: nat, store: Store, leader: PublicKey, chains: Chains, chain: Chain, height: nat, r: Call,
                     x: PublicKey, k: nat) returns (p: Call, n: nat)
    requires chain.lastCommitted < height && LeaderOnly(store, leader, chain)
    requires CommitsAll(d, store, leader, chains, chain, height, r) && StraysAt(store, leader, chains, r.chains, x, k)
    ensures CommitsAll(d, store, leader, chains, chain, height - 1, p) && x in p.chains
    ensures k <= p.chains[x].lastCommitted ==> StraysAt(store, leader, chains, p.chains, x, k)
    ensures Leaders(r.out, leader) == Leaders(p.out, leader) + n + 1
    ensures p.chains[x].lastCommitted < k ==> n >= 1
  {
    var refs, f;
    p, refs, f := HeightCounts(d, store, leader, chains, chain, height, r);
    n := Leaders(f.out, leader);
    assert OnlyCounters(chains[x], p.chains[x]);
    if p.chains[x].lastCommitted < k {
      StrayIsPushed(d, store, leader, p.chains, p.chain, refs, f, x, k);
    }
  }

  lemma StrayIsPushed(d: nat, store: Store, leader: PublicKey, chains: Chains, chain: Chain, refs: seq<Reference>,
                      f: Call, x: PublicKey, k: nat)
    requires f == FollowRefs(d, store, leader, chains, chain, refs) && f.Returned?
    requires StraysAt(store, leader, chains, f.chains, x, k)
    ensures Leaders(f.out, leader) >= 1
  {
    RefsPass(d, store, leader, chains, chain, refs);
    assert Passed(store, leader, chains[x], f.chains[x], f.out);
    PushedLeader(store, leader, chains[x], f.out, k);
  }

  lemma StrayingOutnumbers(d: nat, store: Store, leader: PublicKey, chains: Chains, chain: Chain, height: nat, r: Call)
    requires LeaderOnly(store, leader, chain) && CommitsAll(d, store, leader, chains, chain, height, r)
    requires Strays(store, leader, chains, r.chains)
    ensures Leaders(r.out, leader) + chain.lastCommitted > height
  {
    var x, k :| StraysAt(store, leader, chains, r.chains, x, k);
    StrayOutnumbers(d, store, leader, chains, chain, height, r, x, k);
  }

  /** A reference back into the leader's chain that is followed to its end pushes a block of it. */
  lemma {:induction false} ReentryPushes(d: nat, store: Store, leader: PublicKey, chains: Chains, chain: Chain,
                                         refs: seq<Reference>, f: Call)
    requires leader in chains && LeaderOnly(store, leader, chains[leader])
    requires f == FollowRefs(d, store, leader, chains, chain, refs) && f.Returned? && f.ok
    requires exists q :: q in refs && !LeadsAway(store, leader, chains, q)
    ensures Leaders(f.out, leader) >= 1
    decreases |refs|
  {
    var front, last := refs[..|refs| - 1], refs[|refs| - 1];
    assert refs == front + [last];
    var p, b := FollowRefs(d, store, leader, chains, chain, front), GetBlock(store, last.digest).value;
    var s := FollowOne(d, store, leader, p.chains, chain, b);
    LeadersAdd(p.out, s.out, leader);
    if exists q :: q in front && !LeadsAway(store, leader, chains, q) {
      ReentryPushes(d, store, leader, chains, chain, front, p);
    } else if Strays(store, leader, chains, p.chains) {
      var x, k :| StraysAt(store, leader, chains, p.chains, x, k);
      StrayIsPushed(d, store, leader, chains, chain, front, p, x, k);
    } else {
      PlainSoFar(d, store, leader, chains, chain, front, p);
      ReentryPushesOne(d, store, leader, chains, p.chains, chain, last, b);
    }
  }

  lemma PlainSoFar(d: nat, store: Store, leader: PublicKey, chains: Chains, chain: Chain, refs: seq<Reference>, p: Call)
    requires leader in chains && forall q :: q in refs ==> LeadsAway(store, leader, chains, q)
    requires p == FollowRefs(d, store, leader, chains, chain, refs) && p.Returned? && p.ok
    requires !Strays(store, leader, chains, p.chains)
    ensures p.chains.Keys == chains.Keys && p.chains[leader] == chains[leader]
  {
    RefsCounted(d, store, leader, chains, chain, refs);
    forall q | q in refs ensures Clear(store, leader, chains, q) {
      NoStrayIsClear(store, leader, chains, p.chains, q);
    }
    DeeperRefs(d, d + 1, store, leader, chains, chain, refs);
    RefsWithoutLeader(d + 1, store, leader, chains, chain, refs);
    RefsFrame(store, leader, chains, refs);
  }

  lemma ReentryPushesOne(d: nat, store: Store, leader: PublicKey, chains: Chains, cs: Chains, chain: Chain,
                         q: Reference, b: Block)
    requires leader in chains && cs.Keys == chains.Keys && cs[leader] == chains[leader]
    requires LeaderOnly(store, leader, chains[leader])
    requires GetBlock(store, q.digest) == Some(b) && !LeadsAway(store, leader, chains, q)
    requires FollowOne(d, store, leader, cs, chain, b).Returned? && FollowOne(d, store, leader, cs, chain, b).ok
    ensures Leaders(FollowOne(d, store, leader, cs, chain, b).out, leader) >= 1
  {
    var s := CommitPrev(d - 1, store, leader, cs, cs[leader], b.height);
    PrevFrame(d - 1, store, leader, cs, cs[leader], b.height);
    PrevPasses(d - 1, store, leader, cs, cs[leader], b.height);
    var k := cs[leader].lastCommitted + 1;
    assert PassedAt(store, leader, cs[leader], s.out, k);
    PushedLeader(store, leader, cs[leader], s.out, k);
  }

  lemma {:induction false} ReentryOutnumbers(d: nat, store: Store, leader: PublicKey, chains: Chains, chain: Chain,
                                             height: nat, r: Call)
    requires leader in chains && chains[leader].lastCommitted <= chain.lastCommitted
    requires LeaderOnly(store, leader, chain) && LeaderOnly(store, leader, chains[leader])
    requires CommitsAll(d, store, leader, chains, chain, height, r)
    requires !NoReentry(store, leader, chains, chain, height)
    ensures Leaders(r.out, leader) + chain.lastCommitted > height
    decreases height
  {
    if chain.lastCommitted < height {
      var p, refs, f := HeightCounts(d, store, leader, chains, chain, height, r);
      if !NoReentry(store, leader, chains, chain, height - 1) {
        ReentryOutnumbers(d, store, leader, chains, chain, height - 1, p);
      } else if Strays(store, leader, chains, p.chains) {
        StrayingOutnumbers(d, store, leader, chains, chain, height - 1, p);
      } else {
        LeadersCount(d, store, leader, chains, chain, height - 1, p);
        ReentryAtHeight(d, store, leader, chains, chain, height, p, refs, f);
      }
    }
  }

  /** The first height that leads back pushes a second block of the leader. */
  lemma ReentryAtHeight(d: nat, store: Store, leader: PublicKey, chains: Chains, chain: Chain, height: nat,
                        p: Call, refs: seq<Reference>, f: Call)
    requires leader in chains && chains[leader].lastCommitted <= chain.lastCommitted < height
    requires LeaderOnly(store, leader, chains[leader]) && LeaderAt(store, leader, chain, height)
    requires CommitsAll(d, store, leader, chains, chain, height - 1, p) && !Strays(store, leader, chains, p.chains)
    requires NoReentry(store, leader, chains, chain, height - 1) && !NoReentry(store, leader, chains, chain, height)
    requires refs == SortByKey(BlockAt(store, chain, height).value.references)
    requires f == FollowRefs(d, store, leader, p.chains, p.chain, refs) && f.Returned? && f.ok
    ensures Leaders(f.out, leader) >= 1
  {
    PrevFrame(d, store, leader, chains, chain, height - 1);
    NoStrayIsPlain(d, store, leader, chains, chain, height - 1);
    assert p.chains[leader] == chains[leader];
    ReentersAt(store, leader, chains, p.chains, chain, height, refs);
    ReentryPushes(d, store, leader, p.chains, p.chain, refs, f);
  }

  lemma ReentersAt(store: Store, leader: PublicKey, chains: Chains, cs: Chains, chain: Chain, height: nat,
                   refs: seq<Reference>)
    requires height > 0 && leader in chains && cs.Keys == chains.Keys && cs[leader] == chains[leader]
    requires NoReentry(store, leader, chains, chain, height - 1) && !NoReentry(store, leader, chains, chain, height)
    requires LeaderAt(store, leader, chain, height)
    requires refs == SortByKey(BlockAt(store, chain, height).value.references)
    ensures exists q :: q in refs && !LeadsAway(store, leader, cs, q)
  {
    var h: nat, q :| chain.lastCommitted < h <= height && RefersAt(store, leader, chain, h, q)
                     && !LeadsAway(store, leader, chains, q);
    SortByKeyKeeps(BlockAt(store, chain, height).value.references, q);
    assert q in refs && !LeadsAway(store, leader, cs, q);
  }

  // ----- The commit specification -----

  /** The leader's chain as a handler holds it: a copy of an entry the table still has in an earlier
      state, with well-kept tables on every chain. */
  ghost predicate Held(store: Store, leader: PublicKey, chains: Chains, chain: Chain) {
    && leader in chains && chain.name == leader && chains[leader].lastCommitted <= chain.lastCommitted
    && WellKept(store, chains) && OwnEntries(store, chain)
  }

  /** Each chain delivers exactly its certified blocks between its counters, what a leader block
      refers to comes first, and the leader's counter reaches the height. */
  ghost predicate MeetsSpec(store: Store, leader: PublicKey, before: Chains, after: Chains, out: seq<Block>,
                            height: nat)
    requires leader in before
  {
    && Delivers(store, leader, before, after, out)
    && after[leader].lastCommitted == Max(before[leader].lastCommitted, height)
    && RefsPrecede(store, leader, before, out)
  }

  lemma HeldDoesNotStray(store: Store, leader: PublicKey, chains: Chains, chain: Chain, after: Chains)
    requires Held(store, leader, chains, chain)
    ensures !Strays(store, leader, chains, after)
    ensures LeaderOnly(store, leader, chain) && LeaderOnly(store, leader, chains[leader])
    ensures Committable(store, leader, chains[leader := chain])
  {
    forall x, k | x in chains && x != leader && chains[x].lastCommitted < k
      ensures !LeaderAt(store, leader, chains[x], k)
    {
      assert OwnEntries(store, chains[x]);
    }
    var put := chains[leader := chain];
    forall x | x in put ensures OwnEntries(store, put[x]) {
      assert x != leader ==> OwnEntries(store, chains[x]);
    }
    assert OwnEntries(store, chains[leader]);
  }

  lemma TooManyLeaders(store: Store, leader: PublicKey, before: Chains, after: Chains, out: seq<Block>)
    requires leader in before && leader in after
    requires Leaders(out, leader) + before[leader].lastCommitted > after[leader].lastCommitted
    ensures !Delivers(store, leader, before, after, out)
  {
    assert Delivers(store, leader, before, after, out) ==>
             ChainDelivers(store, leader, before[leader], after[leader], FromAuthor(out, leader));
  }

  /** A commit that returns true meets the commit specification exactly when no leader block still to
      be committed refers to the leader's chain beyond what the table counts as committed. */
  lemma TrueMeetsSpecIff(store: Store, leader: PublicKey, chains: Chains, chain: Chain, height: nat)
    requires Held(store, leader, chains, chain) && Returns(store, leader, chains, chain, height)
    requires CommitResult(store, leader, chains, chain, height).ok
    ensures var r := CommitResult(store, leader, chains, chain, height);
            MeetsSpec(store, leader, chains[leader := chain], r.chains[leader := r.chain], r.out, height)
            <==> NoReentry(store, leader, chains, chain, height)
  {
    var r := CommitResult(store, leader, chains, chain, height);
    var d := DepthOf(store, leader, chains, chain, height);
    HeldDoesNotStray(store, leader, chains, chain, r.chains);
    PrevFrame(d, store, leader, chains, chain, height);
    if NoReentry(store, leader, chains, chain, height) {
      NoStrayIsPlain(d, store, leader, chains, chain, height);
      PlainMeetsSpec(store, leader, chains, chain, height, r);
    } else {
      var before, after := chains[leader := chain], r.chains[leader := r.chain];
      if chain.lastCommitted < height {
        ReentryOutnumbers(d, store, leader, chains, chain, height, r);
        TooManyLeaders(store, leader, before, after, r.out);
      }
    }
  }

  lemma PlainMeetsSpec(store: Store, leader: PublicKey, chains: Chains, chain: Chain, height: nat, r: Call)
    requires leader in chains && Committable(store, leader, chains[leader := chain]) && r.Returned? && r.ok
    requires r == TakenOut(CommitLeader(store, leader, chains[leader := chain], height), leader, chains[leader])
    ensures MeetsSpec(store, leader, chains[leader := chain], r.chains[leader := r.chain], r.out, height)
  {
    var before := chains[leader := chain];
    var s := CommitLeader(store, leader, before, height);
    PutBackTakenOut(s, leader, chains[leader], r);
    CommitLeaderDelivers(store, leader, before, height);
    assert MeetsSpec(store, leader, before, s.chains, s.out, height);
  }

  lemma PutBackTakenOut(s: Committed, leader: PublicKey, stale: Chain, r: Call)
    requires leader in s.chains && r == TakenOut(s, leader, stale)
    ensures r.ok == s.ok && r.out == s.out && r.chains[leader := r.chain] == s.chains
  {
    PutBack(s.chains, leader, stale);
  }
}
