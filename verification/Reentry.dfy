/** When a commit meets a block of the leader on the way. The recursion then works on a copy of a
    chain that a call further out is already working on, and may push blocks a second time. These
    lemmas say exactly when that happens, and that otherwise a commit is the plain one of `Commits`. */
module Reentries {
  import opened Committees
  import opened Options
  import opened Messages
  import opened Aggregators
  import opened Commits

  // ----- Every commit moves commit counters only -----

  lemma {:induction false} PrevFrame(d: nat, store: Store, leader: PublicKey, chains: Chains, chain: Chain, height: nat)
    requires CommitPrev(d, store, leader, chains, chain, height).Returned?
    ensures var r := CommitPrev(d, store, leader, chains, chain, height);
            && CountersOnly(chains, r.chains) && OnlyCounters(chain, r.chain)
            && (if r.ok then r.chain.lastCommitted == Max(chain.lastCommitted, height)
                else r.chain.lastCommitted < height)
    decreases d, 1, height
  {
    if chain.lastCommitted < height {
      PrevFrame(d, store, leader, chains, chain, height - 1);
      var p := CommitPrev(d, store, leader, chains, chain, height - 1);
      if p.ok {
        NextFrame(d, store, leader, p.chains, p.chain);
      }
    }
  }

  lemma {:induction false} NextFrame(d: nat, store: Store, leader: PublicKey, chains: Chains, chain: Chain)
    requires CommitNext(d, store, leader, chains, chain).Returned?
    ensures var r := CommitNext(d, store, leader, chains, chain);
            && CountersOnly(chains, r.chains)
            && r.chain == chain.(lastCommitted := chain.lastCommitted + if r.ok then 1 else 0)
    decreases d, 1, 0
  {
    var b := BlockAt(store, chain, chain.lastCommitted + 1);
    if b.Some? {
      var f := Follow(d, store, leader, chains, chain, b.value);
      assert CommitNext(d, store, leader, chains, chain) == Push(leader, chain, b.value, f);
      FollowFrame(d, store, leader, chains, chain, b.value);
    }
  }

  lemma {:induction false} FollowFrame(d: nat, store: Store, leader: PublicKey, chains: Chains, chain: Chain, b: Block)
    requires Follow(d, store, leader, chains, chain, b).Returned?
    ensures var r := Follow(d, store, leader, chains, chain, b); CountersOnly(chains, r.chains) && r.chain == chain
    decreases d, 0, |b.references| + 1
  {
    SortKeepsLength(b.references);
    if b.author == leader {
      FollowRefsFrame(d, store, leader, chains, chain, SortByKey(b.references));
    }
  }

  lemma {:induction false} FollowRefsFrame(d: nat, store: Store, leader: PublicKey, chains: Chains, chain: Chain,
                                           refs: seq<Reference>)
    requires FollowRefs(d, store, leader, chains, chain, refs).Returned?
    ensures var r := FollowRefs(d, store, leader, chains, chain, refs);
            CountersOnly(chains, r.chains) && r.chain == chain
    decreases d, 0, |refs|
  {
    if refs != [] {
      FollowRefsFrame(d, store, leader, chains, chain, refs[..|refs| - 1]);
      var p := FollowRefs(d, store, leader, chains, chain, refs[..|refs| - 1]);
      var b := GetBlock(store, refs[|refs| - 1].digest);
      if p.ok && b.Some? {
        FollowOneFrame(d, store, leader, p.chains, chain, b.value);
      }
    }
  }

  lemma {:induction false} FollowOneFrame(d: nat, store: Store, leader: PublicKey, chains: Chains, chain: Chain,
                                          b: Block)
    requires FollowOne(d, store, leader, chains, chain, b).Returned?
    ensures var r := FollowOne(d, store, leader, chains, chain, b);
            && CountersOnly(chains, r.chains) && r.chain == chain && b.author in chains
            && (r.ok ==> b.height <= r.chains[b.author].lastCommitted)
    decreases d, 0, 0
  {
    PrevFrame(d - 1, store, leader, chains, chains[b.author], b.height);
  }

  lemma {:induction false} FailureStays(d: nat, store: Store, leader: PublicKey, chains: Chains, chain: Chain,
                                        low: nat, high: nat)
    requires chain.lastCommitted < low <= high
    requires var r := CommitPrev(d, store, leader, chains, chain, low); r.Stuck? || !r.ok
    ensures CommitPrev(d, store, leader, chains, chain, high) == CommitPrev(d, store, leader, chains, chain, low)
    decreases high
  {
    if low < high {
      FailureStays(d, store, leader, chains, chain, low, high - 1);
    }
  }

  lemma {:induction false} RefsFailureStays(d: nat, store: Store, leader: PublicKey, chains: Chains, chain: Chain,
                                            refs: seq<Reference>, i: nat)
    requires i <= |refs|
    requires var r := FollowRefs(d, store, leader, chains, chain, refs[..i]); r.Stuck? || !r.ok
    ensures FollowRefs(d, store, leader, chains, chain, refs) == FollowRefs(d, store, leader, chains, chain, refs[..i])
    decreases |refs|
  {
    if i < |refs| {
      assert refs[..|refs| - 1][..i] == refs[..i];
      RefsFailureStays(d, store, leader, chains, chain, refs[..|refs| - 1], i);
    } else {
      assert refs[..i] == refs;
    }
  }

  // ----- References that do not lead back -----

  ghost predicate LeaderAt(store: Store, leader: PublicKey, chain: Chain, h: nat) {
    BlockAt(store, chain, h).Some? && BlockAt(store, chain, h).value.author == leader
  }

  /** The reference leads to a known chain, and into the leader's own only as far as the table counts
      it as committed. */
  ghost predicate LeadsAway(store: Store, leader: PublicKey, chains: Chains, r: Reference) {
    GetBlock(store, r.digest).Some? ==>
      var t := GetBlock(store, r.digest).value;
      t.author in chains && (t.author == leader ==> t.height <= chains[leader].lastCommitted)
  }

  /** What the reference adds to another chain contains no block of the leader. */
  ghost predicate Clear(store: Store, leader: PublicKey, chains: Chains, r: Reference) {
    GetBlock(store, r.digest).Some? ==>
      var t := GetBlock(store, r.digest).value;
      t.author in chains && t.author != leader ==>
        forall k :: chains[t.author].lastCommitted < k <= t.height ==> !LeaderAt(store, leader, chains[t.author], k)
  }

  ghost predicate RefersAt(store: Store, leader: PublicKey, chain: Chain, h: nat, r: Reference) {
    LeaderAt(store, leader, chain, h) && r in BlockAt(store, chain, h).value.references
  }

  /** No leader block still to be committed refers to the leader's chain beyond what the table counts
      as committed, or to an unknown author. */
  ghost predicate NoReentry(store: Store, leader: PublicKey, chains: Chains, chain: Chain, height: nat) {
    forall h: nat, r :: chain.lastCommitted < h <= height && RefersAt(store, leader, chain, h, r) ==>
      LeadsAway(store, leader, chains, r)
  }

  ghost predicate AllClear(store: Store, leader: PublicKey, chains: Chains, chain: Chain, height: nat) {
    forall h: nat, r :: chain.lastCommitted < h <= height && RefersAt(store, leader, chain, h, r) ==>
      Clear(store, leader, chains, r)
  }

  // ----- A commit that does not lead back is the plain one -----

  lemma {:induction false} RangeWithoutLeader(d: nat, store: Store, leader: PublicKey, chains: Chains, chain: Chain,
                                              height: nat)
    requires forall k :: chain.lastCommitted < k <= height ==> !LeaderAt(store, leader, chain, k)
    ensures var (ok, out, c) := CommitRange(store, chain, height);
            CommitPrev(d, store, leader, chains, chain, height) == Returned(ok, out, c, chains)
    decreases height
  {
    if chain.lastCommitted < height {
      RangeWithoutLeader(d, store, leader, chains, chain, height - 1);
      var (ok, out, c) := CommitRange(store, chain, height - 1);
      PrevFrame(d, store, leader, chains, chain, height - 1);
      assert !LeaderAt(store, leader, chain, height);
      if ok {
        var n := CommitNext(d, store, leader, chains, c);
        PlainNext(d, store, leader, chains, c);
        assert CommitPrev(d, store, leader, chains, chain, height) == After(out, n);
        assert BlockAt(store, c, height) == BlockAt(store, chain, height);
        assert out + [] == out;
      }
    }
  }

  lemma PlainNext(d: nat, store: Store, leader: PublicKey, chains: Chains, chain: Chain)
    requires !LeaderAt(store, leader, chain, chain.lastCommitted + 1)
    ensures CommitNext(d, store, leader, chains, chain)
            == match BlockAt(store, chain, chain.lastCommitted + 1)
               case None => Returned(false, [], chain, chains)
               case Some(b) => Returned(true, [b], chain.(lastCommitted := chain.lastCommitted + 1), chains)
  {
    var b := BlockAt(store, chain, chain.lastCommitted + 1);
    if b.Some? {
      assert [] + [b.value] == [b.value];
    }
  }

  /** Each reference in turn: into the leader's chain nothing happens, into another it is a range. */
  lemma {:induction false} RefsWithoutLeader(d: nat, store: Store, leader: PublicKey, chains: Chains, chain: Chain,
                                             refs: seq<Reference>)
    requires d > 0 && leader in chains
    requires forall r | r in refs :: LeadsAway(store, leader, chains, r) && Clear(store, leader, chains, r)
    ensures var (ok, out, cs) := CommitRefs(store, leader, chains, refs);
            FollowRefs(d, store, leader, chains, chain, refs) == Returned(ok, out, chain, cs)
    decreases |refs|
  {
    if refs != [] {
      var front, last := refs[..|refs| - 1], refs[|refs| - 1];
      RefsWithoutLeader(d, store, leader, chains, chain, front);
      RefsFrame(store, leader, chains, front);
      var (ok, out, cs) := CommitRefs(store, leader, chains, front);
      var found := GetBlock(store, last.digest);
      if ok && found.Some? {
        assert LeadsAway(store, leader, chains, last) && Clear(store, leader, chains, last);
        OneWithoutLeader(d, store, leader, chains, cs, chain, last, found.value);
        assert out + [] == out;
      }
    }
  }

  lemma OneWithoutLeader(d: nat, store: Store, leader: PublicKey, chains: Chains, cs: Chains, chain: Chain,
                         r: Reference, b: Block)
    requires d > 0 && leader in chains && CountersOnly(chains, cs) && GetBlock(store, r.digest) == Some(b)
    requires LeadsAway(store, leader, chains, r) && Clear(store, leader, chains, r)
    ensures b.author in cs
    ensures FollowOne(d, store, leader, cs, chain, b)
            == if b.author == leader then Returned(true, [], chain, cs)
               else var (ok, out, c) := CommitRange(store, cs[b.author], b.height);
                    Returned(ok, out, chain, if ok then cs[b.author := c] else cs)
  {
    var x := b.author;
    assert OnlyCounters(chains[x], cs[x]);
    if x == leader {
      assert CommitPrev(d - 1, store, leader, cs, cs[x], b.height) == Returned(true, [], cs[x], cs);
      assert cs[x := cs[x]] == cs;
    } else {
      forall k | cs[x].lastCommitted < k <= b.height ensures !LeaderAt(store, leader, cs[x], k) {
        assert !LeaderAt(store, leader, chains[x], k);
      }
      RangeWithoutLeader(d - 1, store, leader, cs, cs[x], b.height);
    }
  }

  /** Plain references neither change nor depend on how far the leader's own entry is ahead. */
  lemma {:induction false} RefsIgnoreLeader(store: Store, leader: PublicKey, chains: Chains, c: Chain,
                                            refs: seq<Reference>)
    requires leader in chains && chains[leader].lastCommitted <= c.lastCommitted
    requires forall r | r in refs :: LeadsAway(store, leader, chains, r)
    ensures var (ok, out, cs) := CommitRefs(store, leader, chains, refs);
            CommitRefs(store, leader, chains[leader := c], refs) == (ok, out, cs[leader := c])
    decreases |refs|
  {
    if refs != [] {
      var front, last := refs[..|refs| - 1], refs[|refs| - 1];
      RefsIgnoreLeader(store, leader, chains, c, front);
      RefsFrame(store, leader, chains, front);
      var (ok, out, cs) := CommitRefs(store, leader, chains, front);
      var b := GetBlock(store, last.digest);
      if ok && b.Some? {
        assert LeadsAway(store, leader, chains, last);
        if b.value.author != leader {
          var e := CommitRange(store, cs[b.value.author], b.value.height).2;
          assert cs[leader := c][b.value.author := e] == cs[b.value.author := e][leader := c];
        }
      }
    }
  }

  /** What a commit in the table looks like on a chain that was taken out of it, leaving `stale`. */
  ghost function TakenOut(r: Committed, leader: PublicKey, stale: Chain): Call
    requires leader in r.chains
  {
    Returned(r.ok, r.out, r.chains[leader], r.chains[leader := stale])
  }

  lemma SortedRef(refs: seq<Reference>, r: Reference)
    requires r in SortByKey(refs)
    ensures r in refs
  {
    SortByKeyKeeps(refs, r);
  }

  lemma PlainHeight(d: nat, store: Store, leader: PublicKey, cs: Chains, chain: Chain)
    requires d > 0 && leader in cs && cs[leader].lastCommitted <= chain.lastCommitted
    requires forall r :: RefersAt(store, leader, chain, chain.lastCommitted + 1, r) ==>
               LeadsAway(store, leader, cs, r) && Clear(store, leader, cs, r)
    ensures CommitNext(d, store, leader, cs, chain)
            == TakenOut(OneHeight(store, leader, cs[leader := chain], chain.lastCommitted + 1), leader, cs[leader])
  {
    var b := BlockAt(store, chain, chain.lastCommitted + 1);
    var c := chain.(lastCommitted := chain.lastCommitted + 1);
    assert cs[leader := chain][leader := cs[leader]] == cs;
    if b.Some? {
      if b.value.author == leader {
        var refs := SortByKey(b.value.references);
        forall r | r in refs ensures LeadsAway(store, leader, cs, r) && Clear(store, leader, cs, r) {
          SortedRef(b.value.references, r);
          assert RefersAt(store, leader, chain, chain.lastCommitted + 1, r);
        }
        RefsWithoutLeader(d, store, leader, cs, chain, refs);
        RefsIgnoreLeader(store, leader, cs, chain, refs);
        RefsFrame(store, leader, cs, refs);
        var (ok, out, cs') := CommitRefs(store, leader, cs, refs);
        PutBackTwice(cs', leader, chain, c);
      } else {
        PutBackTwice(cs, leader, chain, c);
        assert [] + [b.value] == [b.value];
      }
    }
  }

  lemma PutBackTwice(cs: Chains, x: PublicKey, a: Chain, b: Chain)
    requires x in cs
    ensures cs[x := a][x := b][x := cs[x]] == cs && cs[x := a][x := a][x := cs[x]] == cs
  {}

  /** Counters that have moved leave references as plain as they were. */
  lemma StillPlain(store: Store, leader: PublicKey, a: Chains, b: Chains, r: Reference)
    requires CountersOnly(a, b) && LeadsAway(store, leader, a, r) && Clear(store, leader, a, r)
    ensures LeadsAway(store, leader, b, r) && Clear(store, leader, b, r)
  {
    if GetBlock(store, r.digest).Some? {
      var t := GetBlock(store, r.digest).value;
      assert OnlyCounters(a[t.author], b[t.author]);
      if t.author != leader {
        forall k | b[t.author].lastCommitted < k <= t.height ensures !LeaderAt(store, leader, b[t.author], k) {
          assert !LeaderAt(store, leader, a[t.author], k);
        }
      }
    }
  }

  /** A commit that does not lead back is the plain one, whether it succeeds or not. */
  lemma {:induction false} PlainCommit(d: nat, store: Store, leader: PublicKey, chains: Chains, chain: Chain,
                                       height: nat)
    requires d > 0 && leader in chains && chains[leader].lastCommitted <= chain.lastCommitted
    requires NoReentry(store, leader, chains, chain, height) && AllClear(store, leader, chains, chain, height)
    ensures CommitPrev(d, store, leader, chains, chain, height)
            == TakenOut(CommitLeader(store, leader, chains[leader := chain], height), leader, chains[leader])
    decreases height
  {
    if chain.lastCommitted < height {
      PlainCommit(d, store, leader, chains, chain, height - 1);
      var q := CommitLeader(store, leader, chains[leader := chain], height - 1);
      if q.ok {
        PlainOneMore(d, store, leader, chains, chain, height, q);
      }
    } else {
      assert chains[leader := chain][leader := chains[leader]] == chains;
    }
  }

  lemma PlainOneMore(d: nat, store: Store, leader: PublicKey, chains: Chains, chain: Chain, height: nat, q: Committed)
    requires d > 0 && leader in chains && chains[leader].lastCommitted <= chain.lastCommitted < height
    requires NoReentry(store, leader, chains, chain, height) && AllClear(store, leader, chains, chain, height)
    requires q == CommitLeader(store, leader, chains[leader := chain], height - 1) && q.ok
    requires CommitPrev(d, store, leader, chains, chain, height - 1) == TakenOut(q, leader, chains[leader])
    ensures CommitPrev(d, store, leader, chains, chain, height)
            == TakenOut(CommitLeader(store, leader, chains[leader := chain], height), leader, chains[leader])
  {
    LeaderFrame(store, leader, chains[leader := chain], height - 1);
    var cs, at := q.chains[leader := chains[leader]], q.chains[leader];
    var n, s := CommitNext(d, store, leader, cs, at), OneHeight(store, leader, q.chains, height);
    PutBack(q.chains, leader, chains[leader]);
    FramePutBack(chains, leader, chain, q.chains);
    PlainHeightAfter(d, store, leader, chains, chain, cs, at, height);
    assert CommitPrev(d, store, leader, chains, chain, height) == After(q.out, n);
    assert CommitLeader(store, leader, chains[leader := chain], height) == Committed(s.ok, q.out + s.out, s.chains);
  }

  lemma PutBack(cs: Chains, x: PublicKey, a: Chain)
    requires x in cs
    ensures cs[x := a][x := cs[x]] == cs
  {}

  lemma FramePutBack(chains: Chains, x: PublicKey, chain: Chain, cs: Chains)
    requires x in chains && CountersOnly(chains[x := chain], cs)
    ensures CountersOnly(chains, cs[x := chains[x]]) && OnlyCounters(chain, cs[x])
  {
    forall y | y in chains ensures OnlyCounters(chains[y], cs[x := chains[x]][y]) {
      assert OnlyCounters(chains[x := chain][y], cs[y]);
    }
  }

  lemma PlainHeightAfter(d: nat, store: Store, leader: PublicKey, chains: Chains, chain: Chain, cs: Chains, at: Chain,
                         height: nat)
    requires d > 0 && leader in chains && chains[leader].lastCommitted <= chain.lastCommitted < height
    requires NoReentry(store, leader, chains, chain, height) && AllClear(store, leader, chains, chain, height)
    requires CountersOnly(chains, cs) && OnlyCounters(chain, at)
    requires at.lastCommitted + 1 == height && cs[leader] == chains[leader]
    ensures CommitNext(d, store, leader, cs, at)
            == TakenOut(OneHeight(store, leader, cs[leader := at], height), leader, chains[leader])
  {
    forall r | RefersAt(store, leader, at, height, r)
      ensures LeadsAway(store, leader, cs, r) && Clear(store, leader, cs, r)
    {
      assert RefersAt(store, leader, chain, height, r);
      StillPlain(store, leader, chains, cs, r);
    }
    PlainHeight(d, store, leader, cs, at);
  }
}
