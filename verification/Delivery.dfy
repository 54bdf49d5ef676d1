/** The ideal delivery order: what a leader height delivers as a function of the certified digests
    alone, independently of any node's tables or store, and why commits refine it. */
module Delivery {
  import opened Committees
  import opened Options
  import opened Messages
  import opened Aggregators
  import opened Commits

  /** The certified digest of each chain and height, where there is one. */
  type Certified = imap<(PublicKey, nat), Digest>

  type Counters = map<PublicKey, nat>

  datatype Ideal = Ideal(ready: bool, out: seq<Digest>, counters: Counters)

  ghost function DeliverRange(g: Certified, cnt: Counters, x: PublicKey, height: nat): Ideal
    requires x in cnt
    decreases height
  {
    if height <= cnt[x] then Ideal(true, [], cnt)
    else
      var r := DeliverRange(g, cnt, x, height - 1);
      if r.ready && (x, height) in g then Ideal(true, r.out + [g[(x, height)]], r.counters[x := height])
      else Ideal(false, [], cnt)
  }

  /** References in turn; one into the leader's own chain must be counted already. */
  ghost function DeliverRefs(g: Certified, cnt: Counters, leader: PublicKey, refs: seq<Reference>): Ideal {
    if refs == [] then Ideal(true, [], cnt)
    else
      var r := DeliverRefs(g, cnt, leader, refs[..|refs| - 1]);
      var d := refs[|refs| - 1].digest;
      if !r.ready || d.Zero? || d.author !in r.counters then Ideal(false, [], cnt)
      else if d.author == leader then
        if d.height <= r.counters[leader] then r else Ideal(false, [], cnt)
      else
        var s := DeliverRange(g, r.counters, d.author, d.height);
        if s.ready then Ideal(true, r.out + s.out, s.counters) else Ideal(false, [], cnt)
  }

  /** Blocks of the leader are delivered with their references in key order. */
  function Shown(leader: PublicKey, d: Digest): Digest {
    if d.Of? && d.author == leader then d.(references := SortByKey(d.references)) else d
  }

  ghost function DeliverOne(g: Certified, cnt: Counters, leader: PublicKey, height: nat): Ideal {
    if (leader, height) !in g then Ideal(false, [], cnt)
    else DeliverBlock(g, cnt, leader, height, Shown(leader, g[(leader, height)]))
  }

  ghost function DeliverBlock(g: Certified, cnt: Counters, leader: PublicKey, height: nat, d: Digest): Ideal {
    var r := if d.Of? && d.author == leader then DeliverRefs(g, cnt, leader, d.references) else Ideal(true, [], cnt);
    if r.ready then Ideal(true, r.out + [d], r.counters[leader := height]) else Ideal(false, [], cnt)
  }

  /** Runs one step per height from lo + 1 to hi, threading the counters through. */
  ghost function Heights(step: (Counters, nat) -> Ideal, cnt: Counters, lo: nat, hi: nat): Ideal
    decreases hi
  {
    if hi <= lo then Ideal(true, [], cnt)
    else
      var r := Heights(step, cnt, lo, hi - 1);
      if !r.ready then Ideal(false, [], cnt)
      else
        var s := step(r.counters, hi);
        if s.ready then Ideal(true, r.out + s.out, s.counters) else Ideal(false, [], cnt)
  }

  ghost function Deliver(g: Certified, cnt: Counters, leader: PublicKey, height: nat): Ideal
    requires leader in cnt
  {
    Heights((c, h) => DeliverOne(g, c, leader, h), cnt, cnt[leader], height)
  }

  // ----- More certificates never change what is already determined -----

  ghost predicate Extends(g: Certified, g': Certified) {
    forall k | k in g :: k in g' && g'[k] == g[k]
  }

  /** Whatever the first has, the second has too, and looks the same when delivered. */
  ghost predicate Alike(leader: PublicKey, g: Certified, g': Certified) {
    forall k | k in g :: k in g' &&
      if k.0 == leader then Shown(leader, g'[k]) == Shown(leader, g[k]) else g'[k] == g[k]
  }

  lemma {:induction false} RangeAlike(leader: PublicKey, g: Certified, g': Certified, cnt: Counters, x: PublicKey,
                                      height: nat)
    requires x in cnt && x != leader && Alike(leader, g, g') && DeliverRange(g, cnt, x, height).ready
    ensures DeliverRange(g', cnt, x, height) == DeliverRange(g, cnt, x, height)
    decreases height
  {
    if cnt[x] < height {
      RangeAlike(leader, g, g', cnt, x, height - 1);
    }
  }

  lemma {:induction false} RefsAlike(leader: PublicKey, g: Certified, g': Certified, cnt: Counters,
                                     refs: seq<Reference>)
    requires Alike(leader, g, g') && DeliverRefs(g, cnt, leader, refs).ready
    ensures DeliverRefs(g', cnt, leader, refs) == DeliverRefs(g, cnt, leader, refs)
    decreases |refs|
  {
    if refs != [] {
      RefsAlike(leader, g, g', cnt, refs[..|refs| - 1]);
      var r, d := DeliverRefs(g, cnt, leader, refs[..|refs| - 1]), refs[|refs| - 1].digest;
      if d.author != leader {
        RangeAlike(leader, g, g', r.counters, d.author, d.height);
      }
    }
  }

  lemma OneAlike(leader: PublicKey, g: Certified, g': Certified, cnt: Counters, height: nat)
    requires Alike(leader, g, g') && DeliverOne(g, cnt, leader, height).ready
    ensures DeliverOne(g', cnt, leader, height) == DeliverOne(g, cnt, leader, height)
  {
    var d := Shown(leader, g[(leader, height)]);
    if d.Of? && d.author == leader {
      RefsAlike(leader, g, g', cnt, d.references);
    }
  }

  lemma {:induction false} HeightsStable(step: (Counters, nat) -> Ideal, step': (Counters, nat) -> Ideal,
                                         cnt: Counters, lo: nat, hi: nat)
    requires forall c, h :: step(c, h).ready ==> step'(c, h) == step(c, h)
    requires Heights(step, cnt, lo, hi).ready
    ensures Heights(step', cnt, lo, hi) == Heights(step, cnt, lo, hi)
    decreases hi
  {
    if lo < hi {
      HeightsStable(step, step', cnt, lo, hi - 1);
    }
  }

  /** Certificates that are added, or that differ only in what delivery does not show, change nothing
      that a leader height already delivers. */
  lemma DeliverStable(g: Certified, g': Certified, cnt: Counters, leader: PublicKey, height: nat)
    requires leader in cnt && Alike(leader, g, g') && Deliver(g, cnt, leader, height).ready
    ensures Deliver(g', cnt, leader, height) == Deliver(g, cnt, leader, height)
  {
    forall c, h | DeliverOne(g, c, leader, h).ready
      ensures DeliverOne(g', c, leader, h) == DeliverOne(g, c, leader, h)
    {
      OneAlike(leader, g, g', c, h);
    }
    HeightsStable((c, h) => DeliverOne(g, c, leader, h), (c, h) => DeliverOne(g', c, leader, h),
                  cnt, cnt[leader], height);
  }

  // ----- Committing in steps is committing at once -----

  lemma {:induction false} HeightsCompose(step: (Counters, nat) -> Ideal, cnt: Counters, lo: nat, mid: nat, hi: nat)
    requires lo <= mid <= hi
    requires var a := Heights(step, cnt, lo, mid); a.ready && Heights(step, a.counters, mid, hi).ready
    ensures var a := Heights(step, cnt, lo, mid);
            var b := Heights(step, a.counters, mid, hi);
            Heights(step, cnt, lo, hi) == Ideal(true, a.out + b.out, b.counters)
    decreases hi
  {
    if mid < hi {
      HeightsCompose(step, cnt, lo, mid, hi - 1);
    }
  }

  lemma {:induction false} HeightsPrefix(step: (Counters, nat) -> Ideal, cnt: Counters, lo: nat, mid: nat, hi: nat)
    requires mid <= hi && Heights(step, cnt, lo, hi).ready
    ensures Heights(step, cnt, lo, mid).ready
    ensures Heights(step, cnt, lo, mid).out <= Heights(step, cnt, lo, hi).out
    decreases hi
  {
    if lo < hi && mid < hi {
      HeightsPrefix(step, cnt, lo, mid, hi - 1);
    }
  }

  lemma DeliverCounter(g: Certified, cnt: Counters, leader: PublicKey, height: nat)
    requires leader in cnt && Deliver(g, cnt, leader, height).ready
    ensures leader in Deliver(g, cnt, leader, height).counters
    ensures Deliver(g, cnt, leader, height).counters[leader] == Max(cnt[leader], height)
  {
    if cnt[leader] < height {
      var r := Heights((c, h) => DeliverOne(g, c, leader, h), cnt, cnt[leader], height - 1);
      assert DeliverOne(g, r.counters, leader, height).ready;
    }
  }

  /** Committing h and then h' delivers what committing the higher of the two at once does. */
  lemma DeliverCompose(g: Certified, cnt: Counters, leader: PublicKey, h: nat, h': nat)
    requires leader in cnt && Deliver(g, cnt, leader, h).ready
    requires leader in Deliver(g, cnt, leader, h).counters
    requires Deliver(g, Deliver(g, cnt, leader, h).counters, leader, h').ready
    ensures var a := Deliver(g, cnt, leader, h);
            var b := Deliver(g, a.counters, leader, h');
            Deliver(g, cnt, leader, Max(h, h')) == Ideal(true, a.out + b.out, b.counters)
  {
    DeliverCounter(g, cnt, leader, h);
    var a := Deliver(g, cnt, leader, h);
    var mid := a.counters[leader];
    if mid < h' {
      HeightsCompose((c, k) => DeliverOne(g, c, leader, k), cnt, cnt[leader], mid, h');
    }
  }

  /** What a lower height delivers is a prefix of what a higher one delivers. */
  lemma DeliverPrefix(g: Certified, cnt: Counters, leader: PublicKey, h: nat, h': nat)
    requires leader in cnt && h <= h' && Deliver(g, cnt, leader, h').ready
    ensures Deliver(g, cnt, leader, h).ready
    ensures Deliver(g, cnt, leader, h).out <= Deliver(g, cnt, leader, h').out
  {
    HeightsPrefix((c, k) => DeliverOne(g, c, leader, k), cnt, cnt[leader], h, h');
  }

  // ----- Successful commits refine the ideal order -----

  function CountersOf(chains: Chains): Counters {
    map x | x in chains :: chains[x].lastCommitted
  }

  ghost function Digests(out: seq<Block>): seq<Digest> {
    seq(|out|, i requires 0 <= i < |out| => DigestOf(out[i]))
  }

  lemma DigestsConcat(a: seq<Block>, b: seq<Block>)
    ensures Digests(a + b) == Digests(a) + Digests(b)
  {}

  /** Each certified digest names a block of its chain at its height. */
  ghost predicate WellCertified(g: Certified) {
    forall k | k in g :: g[k].Of? && g[k].author == k.0 && g[k].height == k.1
  }

  /** What the chain has for the heights above its counter and up to `hi` is as in `g`. */
  ghost predicate AgreesUpTo(g: Certified, store: Store, x: PublicKey, chain: Chain, hi: nat) {
    forall h: nat :: chain.lastCommitted < h <= hi && BlockAt(store, chain, h).Some? ==>
      (x, h) in g && g[(x, h)] == DigestOf(BlockAt(store, chain, h).value)
  }

  /** So is what every chain delivers while its counter moves from `a` to `b`. */
  ghost predicate Agrees(g: Certified, store: Store, a: Chains, b: Chains) {
    forall x | x in a && x in b :: AgreesUpTo(g, store, x, a[x], b[x].lastCommitted)
  }

  lemma AgreesWithin(g: Certified, store: Store, a: Chains, b: Chains, d: Chains, e: Chains)
    requires Agrees(g, store, a, e) && CountersOnly(a, b) && CountersOnly(b, d) && CountersOnly(d, e)
    ensures Agrees(g, store, b, d)
  {
    forall x | x in b && x in d ensures AgreesUpTo(g, store, x, b[x], d[x].lastCommitted) {
      assert AgreesUpTo(g, store, x, a[x], e[x].lastCommitted);
      assert OnlyCounters(a[x], b[x]) && OnlyCounters(d[x], e[x]);
      forall h: nat | b[x].lastCommitted < h <= d[x].lastCommitted && BlockAt(store, b[x], h).Some?
        ensures (x, h) in g && g[(x, h)] == DigestOf(BlockAt(store, b[x], h).value)
      {
        assert BlockAt(store, a[x], h) == BlockAt(store, b[x], h);
      }
    }
  }

  lemma {:induction false} RangeRefines(g: Certified, store: Store, chain: Chain, cnt: Counters,
                                        x: PublicKey, height: nat)
    requires x in cnt && cnt[x] == chain.lastCommitted
    requires CommitRange(store, chain, height).0 && AgreesUpTo(g, store, x, chain, height)
    ensures var (_, out, c) := CommitRange(store, chain, height);
            && DeliverRange(g, cnt, x, height) == Ideal(true, Digests(out), cnt[x := c.lastCommitted])
            && c == chain.(lastCommitted := Max(chain.lastCommitted, height))
    decreases height
  {
    if chain.lastCommitted < height {
      RangeRefines(g, store, chain, cnt, x, height - 1);
      var (_, out, c) := CommitRange(store, chain, height - 1);
      var b := BlockAt(store, chain, height).value;
      assert (x, height) in g && DigestOf(b) == g[(x, height)];
      DigestsConcat(out, [b]);
      assert Digests([b]) == [g[(x, height)]];
    } else {
      assert cnt[x := chain.lastCommitted] == cnt;
    }
  }

  lemma {:induction false} RefsRefine(g: Certified, store: Store, leader: PublicKey, chains: Chains,
                                      refs: seq<Reference>)
    requires ContentAddressed(store) && DEFAULT_KEY !in chains && CommitRefs(store, leader, chains, refs).0
    requires Agrees(g, store, chains, CommitRefs(store, leader, chains, refs).2)
    ensures var (_, out, cs) := CommitRefs(store, leader, chains, refs);
            DeliverRefs(g, CountersOf(chains), leader, refs) == Ideal(true, Digests(out), CountersOf(cs))
    decreases |refs|
  {
    if refs != [] {
      var front, last := refs[..|refs| - 1], refs[|refs| - 1];
      var (_, out, cs) := CommitRefs(store, leader, chains, front);
      var (_, _, cs') := CommitRefs(store, leader, chains, refs);
      var b := GetBlock(store, last.digest).value;
      RefsFrame(store, leader, chains, front);
      RefsFrame(store, leader, chains, refs);
      RangeFrame(store, cs[b.author], b.height);
      assert CountersOnly(cs, cs');
      assert CountersOnly(chains, chains) && CountersOnly(cs', cs');
      AgreesWithin(g, store, chains, chains, cs, cs');
      RefsRefine(g, store, leader, chains, front);
      assert last.digest.Of? && DigestOf(b) == last.digest;
      if b.author != leader {
        AgreesWithin(g, store, chains, cs, cs', cs');
        RefRefines(g, store, leader, cs, cs', b);
        DigestsConcat(out, CommitRange(store, cs[b.author], b.height).1);
      }
    }
  }

  lemma RefRefines(g: Certified, store: Store, leader: PublicKey, cs: Chains, cs': Chains, b: Block)
    requires b.author in cs && CommitRange(store, cs[b.author], b.height).0
    requires cs' == cs[b.author := CommitRange(store, cs[b.author], b.height).2] && Agrees(g, store, cs, cs')
    ensures DeliverRange(g, CountersOf(cs), b.author, b.height)
            == Ideal(true, Digests(CommitRange(store, cs[b.author], b.height).1), CountersOf(cs'))
  {
    var (_, out, c) := CommitRange(store, cs[b.author], b.height);
    RangeFrame(store, cs[b.author], b.height);
    RangeCounts(store, cs[b.author], b.height);
    assert AgreesUpTo(g, store, b.author, cs[b.author], cs'[b.author].lastCommitted);
    RangeRefines(g, store, cs[b.author], CountersOf(cs), b.author, b.height);
    assert CountersOf(cs)[b.author := c.lastCommitted] == CountersOf(cs');
  }

  lemma {:induction false} RangeCounts(store: Store, chain: Chain, height: nat)
    requires CommitRange(store, chain, height).0
    ensures CommitRange(store, chain, height).2.lastCommitted == Max(chain.lastCommitted, height)
    decreases height
  {
    if chain.lastCommitted < height {
      RangeCounts(store, chain, height - 1);
    }
  }

  lemma OneRefines(g: Certified, store: Store, leader: PublicKey, chains: Chains, height: nat)
    requires ContentAddressed(store) && leader in chains && DEFAULT_KEY !in chains
    requires height == chains[leader].lastCommitted + 1 && OneHeight(store, leader, chains, height).ok
    requires Agrees(g, store, chains, OneHeight(store, leader, chains, height).chains)
    ensures var r := OneHeight(store, leader, chains, height);
            DeliverOne(g, CountersOf(chains), leader, height) == Ideal(true, Digests(r.out), CountersOf(r.chains))
  {
    var r, b := OneHeight(store, leader, chains, height), BlockAt(store, chains[leader], height).value;
    assert AgreesUpTo(g, store, leader, chains[leader], r.chains[leader].lastCommitted);
    var d := Shown(leader, DigestOf(b));
    assert (leader, height) in g && Shown(leader, g[(leader, height)]) == d == DigestOf(Presented(b, leader));
    assert Digests([Presented(b, leader)]) == [d];
    if b.author == leader {
      BlockRefines(g, store, leader, chains, height, b);
    } else {
      DigestsConcat([], [Presented(b, leader)]);
      assert CountersOf(r.chains) == CountersOf(chains)[leader := height];
    }
  }

  lemma BlockRefines(g: Certified, store: Store, leader: PublicKey, chains: Chains, height: nat, b: Block)
    requires ContentAddressed(store) && leader in chains && DEFAULT_KEY !in chains && b.author == leader
    requires BlockAt(store, chains[leader], height) == Some(b)
    requires height == chains[leader].lastCommitted + 1 && OneHeight(store, leader, chains, height).ok
    requires Agrees(g, store, chains, OneHeight(store, leader, chains, height).chains)
    ensures var r := OneHeight(store, leader, chains, height);
            DeliverBlock(g, CountersOf(chains), leader, height, Shown(leader, DigestOf(b)))
            == Ideal(true, Digests(r.out), CountersOf(r.chains))
  {
    var r, refs := OneHeight(store, leader, chains, height), SortByKey(b.references);
    var (_, out, cs) := CommitRefs(store, leader, chains, refs);
    RefsFrame(store, leader, chains, refs);
    assert CountersOnly(chains, chains) && CountersOnly(cs, r.chains);
    AgreesWithin(g, store, chains, chains, cs, r.chains);
    RefsRefine(g, store, leader, chains, refs);
    DigestsConcat(out, [Presented(b, leader)]);
    assert Digests([Presented(b, leader)]) == [Shown(leader, DigestOf(b))];
    assert CountersOf(r.chains) == CountersOf(cs)[leader := height];
  }

  /** Whatever the node's tables and store, a plain commit that succeeds delivers exactly the ideal
      order over what it delivered on each chain, and leaves exactly the ideal counters. */
  lemma {:induction false} CommitRefines(g: Certified, store: Store, leader: PublicKey, chains: Chains, height: nat)
    requires ContentAddressed(store) && leader in chains && DEFAULT_KEY !in chains
    requires CommitLeader(store, leader, chains, height).ok
    requires Agrees(g, store, chains, CommitLeader(store, leader, chains, height).chains)
    ensures var r := CommitLeader(store, leader, chains, height);
            Deliver(g, CountersOf(chains), leader, height) == Ideal(true, Digests(r.out), CountersOf(r.chains))
    decreases height
  {
    if chains[leader].lastCommitted < height {
      var p := CommitLeader(store, leader, chains, height - 1);
      PrefixAgrees(g, store, leader, chains, height, p);
      CommitRefines(g, store, leader, chains, height - 1);
      OneRefines(g, store, leader, p.chains, height);
      var s := OneHeight(store, leader, p.chains, height);
      DigestsConcat(p.out, s.out);
      DeliverOneMore(g, CountersOf(chains), leader, height, Digests(p.out), CountersOf(p.chains));
    }
  }

  lemma PrefixAgrees(g: Certified, store: Store, leader: PublicKey, chains: Chains, height: nat, p: Committed)
    requires leader in chains && chains[leader].lastCommitted < height && CommitLeader(store, leader, chains, height).ok
    requires p == CommitLeader(store, leader, chains, height - 1)
    requires Agrees(g, store, chains, CommitLeader(store, leader, chains, height).chains)
    ensures p.ok && p.chains.Keys == chains.Keys && p.chains[leader].lastCommitted == height - 1
    ensures Agrees(g, store, chains, p.chains)
    ensures Agrees(g, store, p.chains, OneHeight(store, leader, p.chains, height).chains)
  {
    LeaderFrame(store, leader, chains, height - 1);
    OneHeightFrame(store, leader, p.chains, p.chains, height);
    var after := OneHeight(store, leader, p.chains, height).chains;
    assert CountersOnly(chains, chains) && CountersOnly(after, after);
    AgreesWithin(g, store, chains, chains, p.chains, after);
    AgreesWithin(g, store, chains, p.chains, after, after);
  }

  lemma DeliverOneMore(g: Certified, cnt: Counters, leader: PublicKey, height: nat, out: seq<Digest>, mid: Counters)
    requires leader in cnt && cnt[leader] < height
    requires Deliver(g, cnt, leader, height - 1) == Ideal(true, out, mid) && DeliverOne(g, mid, leader, height).ready
    ensures var s := DeliverOne(g, mid, leader, height);
            Deliver(g, cnt, leader, height) == Ideal(true, out + s.out, s.counters)
  {}
}
