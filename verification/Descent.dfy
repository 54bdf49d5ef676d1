/** When the recursion of a commit comes to an end: a reference into the leader's own chain is followed
    on the entry the table still has, and from there the references have to lead down. */
module Descents {
  import opened Committees
  import opened Options
  import opened Messages
  import opened Aggregators
  import opened Commits
  import opened Reentries
  import opened ReentryTheorems

  // ----- References that lead down -----

  /** The reference, met at height h, leads to a known chain, and in the leader's own chain further down. */
  ghost predicate LeadsDown(store: Store, leader: PublicKey, known: set<PublicKey>, q: Reference, h: nat) {
    GetBlock(store, q.digest).Some? ==>
      var t := GetBlock(store, q.digest).value;
      t.author in known && (t.author == leader ==> t.height < h)
  }

  /** So do all references of the leader's blocks in a range of the chain. */
  ghost predicate Descends(store: Store, leader: PublicKey, known: set<PublicKey>, chain: Chain, low: nat, high: nat) {
    forall h: nat, q :: low < h <= high && RefersAt(store, leader, chain, h, q) ==>
      LeadsDown(store, leader, known, q, h)
  }

  /** The reference leads down, and what is still to be committed of the table's entry on the way down to
      its target descends as well. */
  ghost predicate Sinks(store: Store, leader: PublicKey, chains: Chains, q: Reference, h: nat)
    requires leader in chains
  {
    && LeadsDown(store, leader, chains.Keys, q, h)
    && (GetBlock(store, q.digest).Some? && GetBlock(store, q.digest).value.author == leader ==>
          Descends(store, leader, chains.Keys, chains[leader], chains[leader].lastCommitted,
                   GetBlock(store, q.digest).value.height))
  }

  ghost predicate SinksAt(store: Store, leader: PublicKey, chains: Chains, chain: Chain, h: nat)
    requires leader in chains
  {
    forall q :: RefersAt(store, leader, chain, h, q) ==> Sinks(store, leader, chains, q, h)
  }

  /** Every reference of a leader block still to be committed sinks. */
  ghost predicate AllSink(store: Store, leader: PublicKey, chains: Chains, chain: Chain, height: nat)
    requires leader in chains
  {
    forall h: nat :: chain.lastCommitted < h <= height ==> SinksAt(store, leader, chains, chain, h)
  }

  /** Blocks of the leader are still to be committed on its own chain only. */
  ghost predicate NoneElsewhere(store: Store, leader: PublicKey, chains: Chains) {
    forall x | x in chains && x != leader :: NoneAbove(store, leader, chains[x])
  }

  ghost predicate NoneAbove(store: Store, leader: PublicKey, chain: Chain) {
    forall k :: chain.lastCommitted < k ==> !LeaderAt(store, leader, chain, k)
  }

  /** Where both have an entry above height 0 they have the same. */
  ghost predicate SameEntries(a: Chain, b: Chain) {
    forall h | h in a.heightToDigest && h in b.heightToDigest && h > 0 :: a.heightToDigest[h] == b.heightToDigest[h]
  }

  lemma NoneElsewhereStays(store: Store, leader: PublicKey, a: Chains, b: Chains)
    requires NoneElsewhere(store, leader, a) && CountersOnly(a, b)
    ensures NoneElsewhere(store, leader, b)
  {
    forall x, k | x in b && x != leader && b[x].lastCommitted < k ensures !LeaderAt(store, leader, b[x], k) {
      assert OnlyCounters(a[x], b[x]) && NoneAbove(store, leader, a[x]);
      assert !LeaderAt(store, leader, a[x], k);
    }
  }

  lemma SinksStays(store: Store, leader: PublicKey, a: Chains, b: Chains, q: Reference, h: nat)
    requires leader in a && CountersOnly(a, b) && Sinks(store, leader, a, q, h)
    ensures Sinks(store, leader, b, q, h)
  {
    assert OnlyCounters(a[leader], b[leader]);
    forall k: nat, p | b[leader].lastCommitted < k && RefersAt(store, leader, b[leader], k, p)
      ensures RefersAt(store, leader, a[leader], k, p)
    {}
  }

  /** On the table's own entry, sinking is descending. */
  lemma OnEntry(store: Store, leader: PublicKey, chains: Chains, height: nat)
    requires leader in chains
    ensures var chain := chains[leader];
            AllSink(store, leader, chains, chain, height)
            <==> Descends(store, leader, chains.Keys, chain, chain.lastCommitted, height)
  {
    var chain := chains[leader];
    if AllSink(store, leader, chains, chain, height) {
      forall h: nat, q | chain.lastCommitted < h <= height && RefersAt(store, leader, chain, h, q)
        ensures LeadsDown(store, leader, chains.Keys, q, h)
      {
        assert SinksAt(store, leader, chains, chain, h);
      }
    }
  }

  // ----- A commit whose references sink returns -----

  lemma {:induction false} SinkingReturns(d: nat, store: Store, leader: PublicKey, chains: Chains, chain: Chain,
                                          height: nat)
    requires height < d && leader in chains && NoneElsewhere(store, leader, chains)
    requires AllSink(store, leader, chains, chain, height)
    ensures CommitPrev(d, store, leader, chains, chain, height).Returned?
    decreases d, 1, height
  {
    if chain.lastCommitted < height {
      SinkingReturns(d, store, leader, chains, chain, height - 1);
      var p := CommitPrev(d, store, leader, chains, chain, height - 1);
      if p.ok {
        PrevFrame(d, store, leader, chains, chain, height - 1);
        NoneElsewhereStays(store, leader, chains, p.chains);
        StillSinks(store, leader, chains, p.chains, chain, p.chain, height);
        NextReturns(d, store, leader, p.chains, p.chain);
      }
    }
  }

  lemma StillSinks(store: Store, leader: PublicKey, a: Chains, b: Chains, chain: Chain, at: Chain, h: nat)
    requires leader in a && CountersOnly(a, b) && OnlyCounters(chain, at) && SinksAt(store, leader, a, chain, h)
    ensures SinksAt(store, leader, b, at, h)
  {
    forall q | RefersAt(store, leader, at, h, q) ensures Sinks(store, leader, b, q, h) {
      assert RefersAt(store, leader, chain, h, q);
      SinksStays(store, leader, a, b, q, h);
    }
  }

  lemma {:induction false} NextReturns(d: nat, store: Store, leader: PublicKey, chains: Chains, chain: Chain)
    requires chain.lastCommitted + 1 < d && leader in chains && NoneElsewhere(store, leader, chains)
    requires SinksAt(store, leader, chains, chain, chain.lastCommitted + 1)
    ensures CommitNext(d, store, leader, chains, chain).Returned?
    decreases d, 1, 0
  {
    var h := chain.lastCommitted + 1;
    if LeaderAt(store, leader, chain, h) {
      var b := BlockAt(store, chain, h).value;
      var refs := SortByKey(b.references);
      forall q | q in refs ensures Sinks(store, leader, chains, q, h) {
        SortedRef(b.references, q);
        assert RefersAt(store, leader, chain, h, q);
      }
      RefsReturn(d, store, leader, chains, chain, refs, h);
    }
  }

  lemma {:induction false} RefsReturn(d: nat, store: Store, leader: PublicKey, chains: Chains, chain: Chain,
                                      refs: seq<Reference>, h: nat)
    requires h < d && leader in chains && NoneElsewhere(store, leader, chains)
    requires forall q | q in refs :: Sinks(store, leader, chains, q, h)
    ensures FollowRefs(d, store, leader, chains, chain, refs).Returned?
    decreases d, 0, |refs|
  {
    if refs != [] {
      var front, last := refs[..|refs| - 1], refs[|refs| - 1];
      RefsReturn(d, store, leader, chains, chain, front, h);
      var p := FollowRefs(d, store, leader, chains, chain, front);
      var b := GetBlock(store, last.digest);
      if p.ok && b.Some? {
        FollowRefsFrame(d, store, leader, chains, chain, front);
        NoneElsewhereStays(store, leader, chains, p.chains);
        SinksStays(store, leader, chains, p.chains, last, h);
        OneReturns(d, store, leader, p.chains, chain, last, h, b.value);
      }
    }
  }

  lemma {:induction false} OneReturns(d: nat, store: Store, leader: PublicKey, chains: Chains, chain: Chain,
                                      q: Reference, h: nat, b: Block)
    requires h < d && leader in chains && NoneElsewhere(store, leader, chains)
    requires GetBlock(store, q.digest) == Some(b) && Sinks(store, leader, chains, q, h)
    ensures FollowOne(d, store, leader, chains, chain, b).Returned?
    decreases d, 0, 0
  {
    if b.author == leader {
      OnEntry(store, leader, chains, b.height);
      SinkingReturns(d - 1, store, leader, chains, chains[leader], b.height);
    } else {
      assert NoneAbove(store, leader, chains[b.author]);
      RangeWithoutLeader(d - 1, store, leader, chains, chains[b.author], b.height);
    }
  }

  // ----- A commit that returns true has sunk -----

  /** The leader's entry has moved down a descending range. */
  ghost predicate Trod(store: Store, leader: PublicKey, a: Chains, b: Chains)
    requires leader in a && leader in b
  {
    Descends(store, leader, a.Keys, a[leader], a[leader].lastCommitted, b[leader].lastCommitted)
  }

  lemma TrodOn(store: Store, leader: PublicKey, a: Chains, b: Chains, e: Chains)
    requires leader in a && leader in b && leader in e && CountersOnly(a, b)
    requires Trod(store, leader, a, b) && Trod(store, leader, b, e)
    ensures Trod(store, leader, a, e)
  {
    assert OnlyCounters(a[leader], b[leader]);
    forall h: nat, q |
      a[leader].lastCommitted < h <= e[leader].lastCommitted && RefersAt(store, leader, a[leader], h, q)
      ensures LeadsDown(store, leader, a.Keys, q, h)
    {
      assert RefersAt(store, leader, b[leader], h, q);
    }
  }

  lemma SinksBefore(store: Store, leader: PublicKey, a: Chains, b: Chains, q: Reference, h: nat)
    requires leader in a && CountersOnly(a, b) && Trod(store, leader, a, b) && Sinks(store, leader, b, q, h)
    ensures Sinks(store, leader, a, q, h)
  {
    assert OnlyCounters(a[leader], b[leader]);
    if GetBlock(store, q.digest).Some? && GetBlock(store, q.digest).value.author == leader {
      var top := GetBlock(store, q.digest).value.height;
      forall k: nat, p | a[leader].lastCommitted < k <= top && RefersAt(store, leader, a[leader], k, p)
        ensures LeadsDown(store, leader, a.Keys, p, k)
      {
        assert RefersAt(store, leader, b[leader], k, p);
      }
    }
  }

  /** What the table has of the leader's chain is behind the chain at hand and as far as it goes the same. */
  ghost predicate Behind(leader: PublicKey, chains: Chains, chain: Chain) {
    && leader in chains && chains[leader].lastCommitted <= chain.lastCommitted && SameEntries(chains[leader], chain)
  }

  lemma {:induction false} TrueSinks(d: nat, store: Store, leader: PublicKey, chains: Chains, chain: Chain, height: nat,
                                     r: Call)
    requires CommitsAll(d, store, leader, chains, chain, height, r)
    requires Behind(leader, chains, chain) && NoneElsewhere(store, leader, chains)
    ensures CountersOnly(chains, r.chains) && AllSink(store, leader, chains, chain, height)
    ensures Trod(store, leader, chains, r.chains)
    ensures r.chains[leader].lastCommitted <= Max(chain.lastCommitted, height)
    decreases d, 1, height + 1
  {
    if chain.lastCommitted < height {
      var p := CommitPrev(d, store, leader, chains, chain, height - 1);
      TrueSinks(d, store, leader, chains, chain, height - 1, p);
      PrevFrame(d, store, leader, chains, chain, height - 1);
      var n := CommitNext(d, store, leader, p.chains, p.chain);
      assert r == After(p.out, n);
      NextSinksToo(d, store, leader, chains, chain, p, height, n);
      CountersOnlyOn(chains, p.chains, n.chains);
    }
  }

  lemma CountersOnlyOn(a: Chains, b: Chains, e: Chains)
    requires CountersOnly(a, b) && CountersOnly(b, e)
    ensures CountersOnly(a, e)
  {
    forall x | x in a ensures OnlyCounters(a[x], e[x]) {
      assert OnlyCounters(a[x], b[x]) && OnlyCounters(b[x], e[x]);
    }
  }

  lemma {:induction false} NextSinksToo(d: nat, store: Store, leader: PublicKey, chains: Chains, chain: Chain, p: Call,
                                        height: nat, n: Call)
    requires p.Returned? && OnlyCounters(chain, p.chain) && p.chain.lastCommitted + 1 == height
    requires Behind(leader, chains, chain) && NoneElsewhere(store, leader, chains)
    requires CountersOnly(chains, p.chains) && Trod(store, leader, chains, p.chains)
    requires p.chains[leader].lastCommitted <= p.chain.lastCommitted
    requires n == CommitNext(d, store, leader, p.chains, p.chain) && n.Returned? && n.ok
    ensures CountersOnly(p.chains, n.chains) && SinksAt(store, leader, chains, chain, height)
    ensures Trod(store, leader, chains, n.chains) && n.chains[leader].lastCommitted <= height
    decreases d, 1, 1
  {
    NoneElsewhereStays(store, leader, chains, p.chains);
    assert OnlyCounters(chains[leader], p.chains[leader]);
    NextSinks(d, store, leader, p.chains, p.chain, n);
    TrodOn(store, leader, chains, p.chains, n.chains);
    forall q | RefersAt(store, leader, chain, height, q) ensures Sinks(store, leader, chains, q, height) {
      assert RefersAt(store, leader, p.chain, height, q);
      SinksBefore(store, leader, chains, p.chains, q, height);
    }
  }

  lemma {:induction false} NextSinks(d: nat, store: Store, leader: PublicKey, chains: Chains, chain: Chain, n: Call)
    requires n == CommitNext(d, store, leader, chains, chain) && n.Returned? && n.ok
    requires Behind(leader, chains, chain) && NoneElsewhere(store, leader, chains)
    ensures CountersOnly(chains, n.chains)
    ensures SinksAt(store, leader, chains, chain, chain.lastCommitted + 1)
    ensures Trod(store, leader, chains, n.chains) && n.chains[leader].lastCommitted <= chain.lastCommitted
    decreases d, 1, 0
  {
    NextFrame(d, store, leader, chains, chain);
    var h := chain.lastCommitted + 1;
    if LeaderAt(store, leader, chain, h) {
      var b := BlockAt(store, chain, h).value;
      var refs := SortByKey(b.references);
      forall q ensures q in refs <==> RefersAt(store, leader, chain, h, q) {
        SortByKeyKeeps(b.references, q);
      }
      RefsSink(d, store, leader, chains, chain, refs, h, FollowRefs(d, store, leader, chains, chain, refs));
    }
  }

  lemma {:induction false} RefsSink(d: nat, store: Store, leader: PublicKey, chains: Chains, chain: Chain,
                                    refs: seq<Reference>, h: nat, f: Call)
    requires f == FollowRefs(d, store, leader, chains, chain, refs) && f.Returned? && f.ok
    requires leader in chains && SameEntries(chains[leader], chain) && NoneElsewhere(store, leader, chains)
    requires chains[leader].lastCommitted < h && forall q | q in refs :: RefersAt(store, leader, chain, h, q)
    ensures CountersOnly(chains, f.chains) && forall q | q in refs :: Sinks(store, leader, chains, q, h)
    ensures Trod(store, leader, chains, f.chains) && f.chains[leader].lastCommitted < h
    decreases d, 0, |refs|
  {
    FollowRefsFrame(d, store, leader, chains, chain, refs);
    if refs != [] {
      var front, last := refs[..|refs| - 1], refs[|refs| - 1];
      var p := FollowRefs(d, store, leader, chains, chain, front);
      RefsSink(d, store, leader, chains, chain, front, h, p);
      var b := GetBlock(store, last.digest).value;
      NoneElsewhereStays(store, leader, chains, p.chains);
      assert OnlyCounters(chains[leader], p.chains[leader]);
      var s := FollowOne(d, store, leader, p.chains, chain, b);
      OneSinks(d, store, leader, p.chains, chain, last, h, b, s);
      SinksBefore(store, leader, chains, p.chains, last, h);
      TrodOn(store, leader, chains, p.chains, s.chains);
      assert refs == front + [last];
    }
  }

  lemma {:induction false} OneSinks(d: nat, store: Store, leader: PublicKey, chains: Chains, chain: Chain,
                                    q: Reference, h: nat, b: Block, s: Call)
    requires GetBlock(store, q.digest) == Some(b)
    requires s == FollowOne(d, store, leader, chains, chain, b) && s.Returned? && s.ok
    requires leader in chains && SameEntries(chains[leader], chain) && NoneElsewhere(store, leader, chains)
    requires chains[leader].lastCommitted < h && RefersAt(store, leader, chain, h, q)
    ensures CountersOnly(chains, s.chains) && Sinks(store, leader, chains, q, h)
    ensures Trod(store, leader, chains, s.chains) && s.chains[leader].lastCommitted < h
    decreases d, 0, 0
  {
    FollowOneFrame(d, store, leader, chains, chain, b);
    if b.author == leader {
      var entry := chains[leader];
      var r := CommitPrev(d - 1, store, leader, chains, entry, b.height);
      TrueSinks(d - 1, store, leader, chains, entry, b.height, r);
      OnEntry(store, leader, chains, b.height);
      PrevFrame(d - 1, store, leader, chains, entry, b.height);
      if h <= b.height {
        PrevPasses(d - 1, store, leader, chains, entry, b.height);
        assert PassedAt(store, leader, entry, r.out, h);
        assert RefersAt(store, leader, entry, h, q);
        assert false;
      }
    } else {
      assert NoneAbove(store, leader, chains[b.author]);
      RangeWithoutLeader(d - 1, store, leader, chains, chains[b.author], b.height);
    }
  }

  // ----- Exactly when a commit returns -----

  /** A commit that does not return false returns exactly when every reference of a leader block still
      to be committed sinks. In any case it returns if they do. */
  lemma ReturnsIff(store: Store, leader: PublicKey, chains: Chains, chain: Chain, height: nat)
    requires leader in chains && NoneElsewhere(store, leader, chains)
    ensures AllSink(store, leader, chains, chain, height) ==> Returns(store, leader, chains, chain, height)
    ensures Behind(leader, chains, chain)
            && (Returns(store, leader, chains, chain, height) ==> CommitResult(store, leader, chains, chain, height).ok)
            ==> (Returns(store, leader, chains, chain, height) <==> AllSink(store, leader, chains, chain, height))
  {
    if AllSink(store, leader, chains, chain, height) {
      SinkingReturns(height + 1, store, leader, chains, chain, height);
    }
    if Behind(leader, chains, chain) && Returns(store, leader, chains, chain, height)
       && CommitResult(store, leader, chains, chain, height).ok {
      var d := DepthOf(store, leader, chains, chain, height);
      TrueSinks(d, store, leader, chains, chain, height, CommitPrev(d, store, leader, chains, chain, height));
    }
  }

  /** On the chain as the table has it: exactly when no leader block still to be committed refers to a
      stored block of the leader at or above its own height, or to one of an unknown author. */
  lemma OnEntryReturnsIff(store: Store, leader: PublicKey, chains: Chains, height: nat)
    requires leader in chains && NoneElsewhere(store, leader, chains)
    requires Returns(store, leader, chains, chains[leader], height) ==>
               CommitResult(store, leader, chains, chains[leader], height).ok
    ensures Returns(store, leader, chains, chains[leader], height)
            <==> Descends(store, leader, chains.Keys, chains[leader], chains[leader].lastCommitted, height)
  {
    OnEntry(store, leader, chains, height);
    ReturnsIff(store, leader, chains, chains[leader], height);
  }
}
