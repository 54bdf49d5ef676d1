/** Committing: the leader chain linearises the other chains through its references. */
module Commits {
  import opened Committees
  import opened Options
  import opened Messages
  import opened Aggregators

  datatype Chain = Chain(name: PublicKey, height: nat, lastVoted: nat, lastCommitted: nat,
                         aggregator: Tables, highQc: QC, heightToDigest: map<nat, Digest>, epoch: nat)

  type Chains = map<PublicKey, Chain>
  type Store = map<Digest, Block>

  /** The store is content-addressed. */
  ghost predicate ContentAddressed(store: Store) {
    forall d | d in store :: DigestOf(store[d]) == d
  }

  function GetBlock(store: Store, digest: Digest): Option<Block> {
    if digest == Zero then Some(GENESIS_BLOCK)
    else if digest in store then Some(store[digest])
    else None
  }

  function BlockAt(store: Store, chain: Chain, height: nat): Option<Block> {
    if height in chain.heightToDigest then GetBlock(store, chain.heightToDigest[height]) else None
  }

  // ----- Stable sorting of references by key -----

  predicate SortedByKey(refs: seq<Reference>) {
    forall i, j :: 0 <= i < j < |refs| ==> refs[i].key <= refs[j].key
  }

  /** Inserts after the references with the same key, so that sorting is stable. */
  function InsertByKey(refs: seq<Reference>, r: Reference): (s: seq<Reference>)
    ensures multiset(s) == multiset(refs) + multiset{r}
  {
    if refs == [] || refs[|refs| - 1].key <= r.key then refs + [r]
    else
      assert refs == refs[..|refs| - 1] + [refs[|refs| - 1]];
      InsertByKey(refs[..|refs| - 1], r) + [refs[|refs| - 1]]
  }

  function SortByKey(refs: seq<Reference>): (s: seq<Reference>)
    ensures multiset(s) == multiset(refs)
  {
    if refs == [] then []
    else
      assert refs == refs[..|refs| - 1] + [refs[|refs| - 1]];
      InsertByKey(SortByKey(refs[..|refs| - 1]), refs[|refs| - 1])
  }

  lemma {:induction false} InsertKeepsSorted(refs: seq<Reference>, r: Reference)
    requires SortedByKey(refs)
    ensures SortedByKey(InsertByKey(refs, r))
    decreases |refs|
  {
    if refs != [] && refs[|refs| - 1].key > r.key {
      var front := refs[..|refs| - 1];
      InsertKeepsSorted(front, r);
      var s := InsertByKey(front, r);
      forall i | 0 <= i < |s| ensures s[i].key <= refs[|refs| - 1].key {
        assert s[i] in multiset(s);
        assert s[i] == r || s[i] in multiset(front);
      }
    }
  }

  lemma {:induction false} SortByKeySorts(refs: seq<Reference>)
    ensures SortedByKey(SortByKey(refs))
    decreases |refs|
  {
    if refs != [] {
      SortByKeySorts(refs[..|refs| - 1]);
      InsertKeepsSorted(SortByKey(refs[..|refs| - 1]), refs[|refs| - 1]);
    }
  }

  lemma SortByKeyKeeps(refs: seq<Reference>, r: Reference)
    ensures r in SortByKey(refs) <==> r in refs
  {
    assert r in multiset(SortByKey(refs)) <==> r in multiset(refs);
  }

  lemma SortKeepsLength(refs: seq<Reference>)
    ensures |SortByKey(refs)| == |refs|
  {
    assert |multiset(SortByKey(refs))| == |multiset(refs)|;
  }

  /** A block of the leader is delivered with its references in key order. */
  function Presented(b: Block, leader: PublicKey): Block {
    if b.author == leader then b.(references := SortByKey(b.references)) else b
  }

  // ----- What commit_prev_block does -----

  /** How a call of the recursion ends: it never returns, or it returns whether it committed
      everything, the blocks it pushed, the chain it was given and the table of chains. */
  datatype Call =
    | Stuck
    | Returned(ok: bool, out: seq<Block>, chain: Chain, chains: Chains)

  function After(out: seq<Block>, r: Call): Call {
    if r.Stuck? then r else r.(out := out + r.out)
  }

  /** Commits the given chain up to the height, one height after the other. The chain has been taken
      out of the table by copying, so `chains` may still hold an earlier state of the same chain.
      `depth` bounds how deep calls nest. */
  function CommitPrev(depth: nat, store: Store, leader: PublicKey, chains: Chains, chain: Chain, height: nat): Call
    decreases depth, 1, height
  {
    if height <= chain.lastCommitted then Returned(true, [], chain, chains)
    else
      var p := CommitPrev(depth, store, leader, chains, chain, height - 1);
      if p.Stuck? || !p.ok then p else After(p.out, CommitNext(depth, store, leader, p.chains, p.chain))
  }

  /** The next height of the chain: for a block of the leader, what it refers to comes first. */
  function CommitNext(depth: nat, store: Store, leader: PublicKey, chains: Chains, chain: Chain): Call
    decreases depth, 1, 0
  {
    match BlockAt(store, chain, chain.lastCommitted + 1)
    case None => Returned(false, [], chain, chains)
    case Some(b) => Push(leader, chain, b, Follow(depth, store, leader, chains, chain, b))
  }

  function Follow(depth: nat, store: Store, leader: PublicKey, chains: Chains, chain: Chain, b: Block): Call
    decreases depth, 0, |b.references| + 1
  {
    SortKeepsLength(b.references);
    if b.author == leader then FollowRefs(depth, store, leader, chains, chain, SortByKey(b.references))
    else Returned(true, [], chain, chains)
  }

  function Push(leader: PublicKey, chain: Chain, b: Block, r: Call): Call {
    if r.Stuck? || !r.ok then r
    else Returned(true, r.out + [Presented(b, leader)], chain.(lastCommitted := chain.lastCommitted + 1), r.chains)
  }

  /** Each referenced block with its uncommitted ancestors, on the chain the table holds for its
      author, which goes back only if the call succeeds. Blocks already pushed stay pushed. */
  function FollowRefs(depth: nat, store: Store, leader: PublicKey, chains: Chains, chain: Chain,
                      refs: seq<Reference>): Call
    decreases depth, 0, |refs|
  {
    if refs == [] then Returned(true, [], chain, chains)
    else
      var p := FollowRefs(depth, store, leader, chains, chain, refs[..|refs| - 1]);
      if p.Stuck? || !p.ok then p
      else match GetBlock(store, refs[|refs| - 1].digest)
           case None => p.(ok := false)
           case Some(b) => After(p.out, FollowOne(depth, store, leader, p.chains, chain, b))
  }

  function FollowOne(depth: nat, store: Store, leader: PublicKey, chains: Chains, chain: Chain, b: Block): Call
    decreases depth, 0, 0
  {
    if b.author !in chains || depth == 0 then Stuck
    else
      var s := CommitPrev(depth - 1, store, leader, chains, chains[b.author], b.height);
      if s.Stuck? then s
      else Returned(s.ok, s.out, chain, if s.ok then s.chains[b.author := s.chain] else s.chains)
  }

  /** A call that returns needs only so much depth. */
  ghost predicate Returns(store: Store, leader: PublicKey, chains: Chains, chain: Chain, height: nat) {
    exists depth: nat :: CommitPrev(depth, store, leader, chains, chain, height).Returned?
  }

  ghost function CommitResult(store: Store, leader: PublicKey, chains: Chains, chain: Chain, height: nat): Call {
    if Returns(store, leader, chains, chain, height) then
      var depth: nat :| CommitPrev(depth, store, leader, chains, chain, height).Returned?;
      CommitPrev(depth, store, leader, chains, chain, height)
    else Stuck
  }

  // ----- Depth beyond what a call needs changes nothing -----

  lemma {:induction false} DeeperPrev(d: nat, d': nat, store: Store, leader: PublicKey, chains: Chains, chain: Chain,
                                      height: nat)
    requires d <= d' && CommitPrev(d, store, leader, chains, chain, height).Returned?
    ensures CommitPrev(d', store, leader, chains, chain, height) == CommitPrev(d, store, leader, chains, chain, height)
    decreases d, 1, height
  {
    if chain.lastCommitted < height {
      DeeperPrev(d, d', store, leader, chains, chain, height - 1);
      var p := CommitPrev(d, store, leader, chains, chain, height - 1);
      if p.ok {
        DeeperNext(d, d', store, leader, p.chains, p.chain);
      }
    }
  }

  lemma {:induction false} DeeperNext(d: nat, d': nat, store: Store, leader: PublicKey, chains: Chains, chain: Chain)
    requires d <= d' && CommitNext(d, store, leader, chains, chain).Returned?
    ensures CommitNext(d', store, leader, chains, chain) == CommitNext(d, store, leader, chains, chain)
    decreases d, 1, 0
  {
    var b := BlockAt(store, chain, chain.lastCommitted + 1);
    if b.Some? {
      DeeperFollow(d, d', store, leader, chains, chain, b.value);
    }
  }

  lemma {:induction false} DeeperFollow(d: nat, d': nat, store: Store, leader: PublicKey, chains: Chains, chain: Chain,
                                        b: Block)
    requires d <= d' && Follow(d, store, leader, chains, chain, b).Returned?
    ensures Follow(d', store, leader, chains, chain, b) == Follow(d, store, leader, chains, chain, b)
    decreases d, 0, |b.references| + 1
  {
    if b.author == leader {
      SortKeepsLength(b.references);
      DeeperRefs(d, d', store, leader, chains, chain, SortByKey(b.references));
    }
  }

  lemma {:induction false} DeeperRefs(d: nat, d': nat, store: Store, leader: PublicKey, chains: Chains, chain: Chain,
                                      refs: seq<Reference>)
    requires d <= d' && FollowRefs(d, store, leader, chains, chain, refs).Returned?
    ensures FollowRefs(d', store, leader, chains, chain, refs) == FollowRefs(d, store, leader, chains, chain, refs)
    decreases d, 0, |refs|
  {
    if refs != [] {
      DeeperRefs(d, d', store, leader, chains, chain, refs[..|refs| - 1]);
      var p := FollowRefs(d, store, leader, chains, chain, refs[..|refs| - 1]);
      var b := GetBlock(store, refs[|refs| - 1].digest);
      if p.ok && b.Some? {
        assert FollowOne(d, store, leader, p.chains, chain, b.value).Returned?;
        DeeperPrev(d - 1, d' - 1, store, leader, p.chains, p.chains[b.value.author], b.value.height);
      }
    }
  }

  /** The result does not depend on the depth it was computed with. */
  lemma ResultAt(depth: nat, store: Store, leader: PublicKey, chains: Chains, chain: Chain, height: nat)
    requires CommitPrev(depth, store, leader, chains, chain, height).Returned?
    ensures Returns(store, leader, chains, chain, height)
    ensures CommitResult(store, leader, chains, chain, height)
            == CommitPrev(depth, store, leader, chains, chain, height)
  {
    var d: nat :| CommitPrev(d, store, leader, chains, chain, height).Returned?
                  && CommitResult(store, leader, chains, chain, height)
                     == CommitPrev(d, store, leader, chains, chain, height);
    DeeperPrev(Least(d, depth), Max(d, depth), store, leader, chains, chain, height);
  }

  lemma DepthOf(store: Store, leader: PublicKey, chains: Chains, chain: Chain, height: nat) returns (depth: nat)
    requires Returns(store, leader, chains, chain, height)
    ensures CommitPrev(depth, store, leader, chains, chain, height)
            == CommitResult(store, leader, chains, chain, height)
    ensures CommitPrev(depth, store, leader, chains, chain, height).Returned?
  {
    depth :| CommitPrev(depth, store, leader, chains, chain, height).Returned?;
    ResultAt(depth, store, leader, chains, chain, height);
  }

  function Max(a: nat, b: nat): nat { if a <= b then b else a }

  function Least(a: nat, b: nat): nat { if a <= b then a else b }

  // ----- The same without re-entry -----

  /** On a chain that holds no block of the leader: one block per height, until one is missing. */
  function CommitRange(store: Store, chain: Chain, height: nat): (bool, seq<Block>, Chain)
    decreases height
  {
    if height <= chain.lastCommitted then (true, [], chain)
    else
      var (ok, out, c) := CommitRange(store, chain, height - 1);
      if !ok then (false, out, c)
      else match BlockAt(store, chain, height)
           case None => (false, out, c)
           case Some(b) => (true, out + [b], c.(lastCommitted := height))
  }

  /** Each referenced block with its uncommitted ancestors; a block of the leader must be counted
      already. The chain of a reference that fails is not put back, although its pushed blocks stay. */
  function CommitRefs(store: Store, leader: PublicKey, chains: Chains, refs: seq<Reference>):
    (bool, seq<Block>, Chains)
  {
    if refs == [] then (true, [], chains)
    else
      var (ok, out, cs) := CommitRefs(store, leader, chains, refs[..|refs| - 1]);
      if !ok then (false, out, cs)
      else match GetBlock(store, refs[|refs| - 1].digest)
           case None => (false, out, cs)
           case Some(b) =>
             if b.author !in cs then (false, out, cs)
             else if b.author == leader then (b.height <= cs[leader].lastCommitted, out, cs)
             else
               var (ok', out', c) := CommitRange(store, cs[b.author], b.height);
               (ok', out + out', if ok' then cs[b.author := c] else cs)
  }

  datatype Committed = Committed(ok: bool, out: seq<Block>, chains: Chains)

  /** One height of the leader's chain: what its block refers to, then the block. */
  function OneHeight(store: Store, leader: PublicKey, chains: Chains, height: nat): (r: Committed)
    requires leader in chains
    ensures leader in r.chains
  {
    match BlockAt(store, chains[leader], height)
    case None => Committed(false, [], chains)
    case Some(b) =>
      var (ok, out, cs) :=
        if b.author == leader then CommitRefs(store, leader, chains, SortByKey(b.references)) else (true, [], chains);
      if !ok || leader !in cs then Committed(false, out, cs[leader := chains[leader]])
      else Committed(true, out + [Presented(b, leader)],
                     cs[leader := chains[leader].(lastCommitted := height)])
  }

  function CommitLeader(store: Store, leader: PublicKey, chains: Chains, height: nat): (r: Committed)
    requires leader in chains
    ensures leader in r.chains
    decreases height
  {
    if height <= chains[leader].lastCommitted then Committed(true, [], chains)
    else
      var r := CommitLeader(store, leader, chains, height - 1);
      if !r.ok then r
      else
        var s := OneHeight(store, leader, r.chains, height);
        Committed(s.ok, r.out + s.out, s.chains)
  }

  // ----- The commit specification -----

  /** Every entry of the chain's table that resolves names a block of that chain at that height. */
  ghost predicate OwnEntries(store: Store, chain: Chain) {
    forall h | h in chain.heightToDigest :: h == 0 ||
      match GetBlock(store, chain.heightToDigest[h])
      case None => true
      case Some(b) => b.author == chain.name && b.height == h
  }

  ghost predicate WellKept(store: Store, chains: Chains) {
    forall x | x in chains :: chains[x].name == x && OwnEntries(store, chains[x])
  }

  /** The chain's certified blocks at heights lo + 1 to hi, as they are delivered. */
  ghost function ChainBlocks(store: Store, leader: PublicKey, chain: Chain, lo: nat, hi: nat): seq<Block> {
    if hi <= lo then []
    else ChainBlocks(store, leader, chain, lo, hi - 1)
         + match BlockAt(store, chain, hi) { case None => [] case Some(b) => [Presented(b, leader)] }
  }

  ghost function FromAuthor(out: seq<Block>, x: PublicKey): seq<Block> {
    if out == [] then []
    else FromAuthor(out[..|out| - 1], x)
         + if out[|out| - 1].author == x then [out[|out| - 1]] else []
  }

  lemma {:induction false} FromAuthorConcat(a: seq<Block>, b: seq<Block>, x: PublicKey)
    ensures FromAuthor(a + b, x) == FromAuthor(a, x) + FromAuthor(b, x)
    decreases |b|
  {
    if b == [] {
      assert a + b == a;
    } else {
      assert (a + b)[..|a + b| - 1] == a + b[..|b| - 1];
      FromAuthorConcat(a, b[..|b| - 1], x);
    }
  }

  lemma {:induction false} ChainBlocksConcat(store: Store, leader: PublicKey, chain: Chain, lo: nat, mid: nat, hi: nat)
    requires lo <= mid <= hi
    ensures ChainBlocks(store, leader, chain, lo, mid) + ChainBlocks(store, leader, chain, mid, hi)
            == ChainBlocks(store, leader, chain, lo, hi)
    decreases hi
  {
    if mid < hi {
      ChainBlocksConcat(store, leader, chain, lo, mid, hi - 1);
    }
  }

  /** Only the commit counter of a chain moves. */
  ghost predicate OnlyCounters(before: Chain, after: Chain) {
    after == before.(lastCommitted := after.lastCommitted) && before.lastCommitted <= after.lastCommitted
  }

  /** `mine` are exactly the chain's certified blocks between its two counters, none missing. */
  ghost predicate ChainDelivers(store: Store, leader: PublicKey, before: Chain, after: Chain, mine: seq<Block>) {
    && OnlyCounters(before, after)
    && mine == ChainBlocks(store, leader, before, before.lastCommitted, after.lastCommitted)
    && |mine| == after.lastCommitted - before.lastCommitted
  }

  /** Between two states of the chains, `out` delivers each chain from its one counter to its other. */
  ghost predicate Delivers(store: Store, leader: PublicKey, before: Chains, after: Chains, out: seq<Block>) {
    && before.Keys == after.Keys
    && forall x | x in before :: ChainDelivers(store, leader, before[x], after[x], FromAuthor(out, x))
  }

  ghost predicate CountersOnly(a: Chains, b: Chains) {
    a.Keys == b.Keys && forall x | x in a :: OnlyCounters(a[x], b[x])
  }

  lemma {:induction false} RangeFrame(store: Store, chain: Chain, height: nat)
    ensures OnlyCounters(chain, CommitRange(store, chain, height).2)
    ensures CommitRange(store, chain, height).2.lastCommitted <= Max(chain.lastCommitted, height)
    decreases height
  {
    if chain.lastCommitted < height {
      RangeFrame(store, chain, height - 1);
    }
  }

  lemma {:induction false} RefsFrame(store: Store, leader: PublicKey, chains: Chains, refs: seq<Reference>)
    ensures CountersOnly(chains, CommitRefs(store, leader, chains, refs).2)
    ensures leader in chains ==> CommitRefs(store, leader, chains, refs).2[leader] == chains[leader]
    decreases |refs|
  {
    if refs != [] {
      RefsFrame(store, leader, chains, refs[..|refs| - 1]);
      var (ok, out, cs) := CommitRefs(store, leader, chains, refs[..|refs| - 1]);
      var found := GetBlock(store, refs[|refs| - 1].digest);
      if ok && found.Some? && found.value.author in cs && found.value.author != leader {
        RangeFrame(store, cs[found.value.author], found.value.height);
      }
    }
  }

  /** Committing moves commit counters only, the leader's up to the height if it succeeds. */
  lemma {:induction false} LeaderFrame(store: Store, leader: PublicKey, chains: Chains, height: nat)
    requires leader in chains
    ensures var r := CommitLeader(store, leader, chains, height);
            && CountersOnly(chains, r.chains)
            && (r.ok ==> r.chains[leader].lastCommitted == Max(chains[leader].lastCommitted, height))
            && (!r.ok ==> r.chains[leader].lastCommitted < height)
    decreases height
  {
    if chains[leader].lastCommitted < height {
      LeaderFrame(store, leader, chains, height - 1);
      var r := CommitLeader(store, leader, chains, height - 1);
      if r.ok {
        OneHeightFrame(store, leader, chains, r.chains, height);
      }
    }
  }

  lemma OneHeightFrame(store: Store, leader: PublicKey, chains: Chains, now: Chains, height: nat)
    requires leader in now && CountersOnly(chains, now)
    requires chains[leader].lastCommitted < height
    requires now[leader].lastCommitted < height
    ensures var r := OneHeight(store, leader, now, height);
            && CountersOnly(chains, r.chains)
            && r.chains[leader].lastCommitted == if r.ok then height else now[leader].lastCommitted
  {
    var b := BlockAt(store, now[leader], height);
    if b.Some? {
      RefsFrame(store, leader, now, SortByKey(b.value.references));
    }
  }

  lemma {:induction false} CommitRangeDelivers(store: Store, leader: PublicKey, chain: Chain, height: nat)
    requires OwnEntries(store, chain) && chain.name != leader
    requires CommitRange(store, chain, height).0
    ensures var (_, out, c) := CommitRange(store, chain, height);
            && c == chain.(lastCommitted := Max(chain.lastCommitted, height))
            && ChainDelivers(store, leader, chain, c, out)
            && (forall x :: FromAuthor(out, x) == if x == chain.name then out else [])
    decreases height
  {
    var (_, out, c) := CommitRange(store, chain, height);
    if height <= chain.lastCommitted {
    } else {
      CommitRangeDelivers(store, leader, chain, height - 1);
      var (_, out', c') := CommitRange(store, chain, height - 1);
      assert out[..|out| - 1] == out';
    }
  }

  lemma ChainDeliversCompose(store: Store, leader: PublicKey, a: Chain, b: Chain, c: Chain,
                             mine1: seq<Block>, mine2: seq<Block>)
    requires ChainDelivers(store, leader, a, b, mine1) && ChainDelivers(store, leader, b, c, mine2)
    ensures ChainDelivers(store, leader, a, c, mine1 + mine2)
  {
    SameTableSameBlocks(store, leader, a, b, b.lastCommitted, c.lastCommitted);
    ChainBlocksConcat(store, leader, a, a.lastCommitted, b.lastCommitted, c.lastCommitted);
  }

  lemma DeliversCompose(store: Store, leader: PublicKey, a: Chains, b: Chains, c: Chains,
                        out1: seq<Block>, out2: seq<Block>)
    requires Delivers(store, leader, a, b, out1) && Delivers(store, leader, b, c, out2)
    ensures Delivers(store, leader, a, c, out1 + out2)
  {
    forall x | x in a ensures ChainDelivers(store, leader, a[x], c[x], FromAuthor(out1 + out2, x)) {
      FromAuthorConcat(out1, out2, x);
      ChainDeliversCompose(store, leader, a[x], b[x], c[x], FromAuthor(out1, x), FromAuthor(out2, x));
    }
  }

  lemma {:induction false} SameTableSameBlocks(store: Store, leader: PublicKey, c: Chain, d: Chain, lo: nat, hi: nat)
    requires c.heightToDigest == d.heightToDigest
    ensures ChainBlocks(store, leader, c, lo, hi) == ChainBlocks(store, leader, d, lo, hi)
    decreases hi
  {
    if lo < hi {
      SameTableSameBlocks(store, leader, c, d, lo, hi - 1);
    }
  }

  /** Every referenced block resolves and is covered by the counters. */
  ghost predicate Covered(store: Store, refs: seq<Reference>, chains: Chains) {
    forall r | r in refs ::
      && GetBlock(store, r.digest).Some?
      && var b := GetBlock(store, r.digest).value;
         b.author in chains && b.height <= chains[b.author].lastCommitted
  }

  lemma {:induction false} CommitRefsDelivers(store: Store, leader: PublicKey, chains: Chains, refs: seq<Reference>)
    requires WellKept(store, chains)
    requires CommitRefs(store, leader, chains, refs).0
    ensures var (_, out, cs) := CommitRefs(store, leader, chains, refs);
            && Delivers(store, leader, chains, cs, out)
            && Covered(store, refs, cs)
            && (forall b | b in out :: b.author != leader)
            && (leader in chains ==> cs[leader] == chains[leader])
    decreases |refs|
  {
    if refs != [] {
      var front, last := refs[..|refs| - 1], refs[|refs| - 1];
      assert refs == front + [last];
      CommitRefsDelivers(store, leader, chains, front);
      var (_, out, cs) := CommitRefs(store, leader, chains, front);
      var b := GetBlock(store, last.digest).value;
      if b.author != leader {
        var (_, out', c) := CommitRange(store, cs[b.author], b.height);
        NextRefDelivers(store, leader, chains, front, out, cs, last, b);
        assert CommitRefs(store, leader, chains, refs) == (true, out + out', cs[b.author := c]);
      }
    } else {
      assert forall x | x in chains ::
        ChainBlocks(store, leader, chains[x], chains[x].lastCommitted, chains[x].lastCommitted) == [];
    }
  }

  lemma NextRefDelivers(store: Store, leader: PublicKey, chains: Chains, front: seq<Reference>, out: seq<Block>,
                        cs: Chains, last: Reference, b: Block)
    requires WellKept(store, chains) && Delivers(store, leader, chains, cs, out) && Covered(store, front, cs)
    requires forall x | x in out :: x.author != leader
    requires GetBlock(store, last.digest) == Some(b) && b.author in cs && b.author != leader
    requires CommitRange(store, cs[b.author], b.height).0
    ensures var (_, out', c) := CommitRange(store, cs[b.author], b.height);
            && Delivers(store, leader, chains, cs[b.author := c], out + out')
            && Covered(store, front + [last], cs[b.author := c])
            && (forall x | x in out + out' :: x.author != leader)
  {
    assert OnlyCounters(chains[b.author], cs[b.author]);
    RangeStep(store, leader, cs, b.author, b.height);
    var (_, out', c) := CommitRange(store, cs[b.author], b.height);
    DeliversCompose(store, leader, chains, cs, cs[b.author := c], out, out');
    RangeFrame(store, cs[b.author], b.height);
    CoveredStays(store, front, cs, cs[b.author := c]);
  }

  lemma CoveredStays(store: Store, refs: seq<Reference>, a: Chains, b: Chains)
    requires Covered(store, refs, a) && CountersOnly(a, b)
    ensures Covered(store, refs, b)
  {}

  lemma RangeStep(store: Store, leader: PublicKey, cs: Chains, x: PublicKey, height: nat)
    requires x in cs && x != leader && cs[x].name == x && OwnEntries(store, cs[x])
    requires CommitRange(store, cs[x], height).0
    ensures var (_, out, c) := CommitRange(store, cs[x], height);
            && Delivers(store, leader, cs, cs[x := c], out)
            && height <= c.lastCommitted
            && (forall b | b in out :: b.author != leader)
  {
    CommitRangeDelivers(store, leader, cs[x], height);
    var (_, out, c) := CommitRange(store, cs[x], height);
    forall b | b in out ensures b.author != leader {
      FromAuthorMember(out, b);
    }
    RangeAlone(store, leader, cs, x, c, out);
  }

  lemma RangeAlone(store: Store, leader: PublicKey, cs: Chains, x: PublicKey, c: Chain, out: seq<Block>)
    requires x in cs && ChainDelivers(store, leader, cs[x], c, out)
    requires forall y :: FromAuthor(out, y) == if y == x then out else []
    ensures Delivers(store, leader, cs, cs[x := c], out)
  {
    forall y | y in cs ensures ChainDelivers(store, leader, cs[y], cs[x := c][y], FromAuthor(out, y)) {
      if y != x {
        assert ChainBlocks(store, leader, cs[y], cs[y].lastCommitted, cs[y].lastCommitted) == [];
      }
    }
  }

  lemma {:induction false} FromAuthorMember(out: seq<Block>, b: Block)
    requires b in out
    ensures b in FromAuthor(out, b.author)
    decreases |out|
  {
    if out[|out| - 1] != b {
      assert b in out[..|out| - 1];
      FromAuthorMember(out[..|out| - 1], b);
    }
  }

  ghost predicate Committable(store: Store, leader: PublicKey, chains: Chains) {
    leader in chains && WellKept(store, chains)
  }

  lemma CommittableStays(store: Store, leader: PublicKey, before: Chains, after: Chains, out: seq<Block>)
    requires Committable(store, leader, before) && Delivers(store, leader, before, after, out)
    ensures Committable(store, leader, after)
  {}

  lemma DeliversNothing(store: Store, leader: PublicKey, chains: Chains)
    ensures Delivers(store, leader, chains, chains, [])
  {}

  lemma OneLeaderBlock(store: Store, leader: PublicKey, chains: Chains, c: Chain, b: Block)
    requires leader in chains && c == chains[leader].(lastCommitted := chains[leader].lastCommitted + 1)
    requires BlockAt(store, c, c.lastCommitted) == Some(b) && b.author == leader
    ensures Delivers(store, leader, chains, chains[leader := c], [Presented(b, leader)])
  {
    DeliversNothing(store, leader, chains);
    var out := [Presented(b, leader)];
    assert out[..0] == [];
    var d := chains[leader];
    assert ChainBlocks(store, leader, d, d.lastCommitted, d.lastCommitted) == [];
  }

  /** Everything `out[i]` refers to, with its uncommitted ancestors, comes before it. */
  ghost predicate Precedes(store: Store, leader: PublicKey, before: Chains, out: seq<Block>, i: nat)
    requires i < |out|
  {
    exists mid :: Delivers(store, leader, before, mid, out[..i]) && Covered(store, out[i].references, mid)
  }

  ghost predicate RefsPrecede(store: Store, leader: PublicKey, before: Chains, out: seq<Block>) {
    forall i | 0 <= i < |out| :: out[i].author == leader ==> Precedes(store, leader, before, out, i)
  }

  lemma OneHeightDelivers(store: Store, leader: PublicKey, chains: Chains, height: nat)
    requires Committable(store, leader, chains) && height == chains[leader].lastCommitted + 1
    requires OneHeight(store, leader, chains, height).ok
    ensures var r := OneHeight(store, leader, chains, height);
            && Delivers(store, leader, chains, r.chains, r.out)
            && r.chains[leader].lastCommitted == height
            && RefsPrecede(store, leader, chains, r.out)
  {
    assert OwnEntries(store, chains[leader]);
    var b := BlockAt(store, chains[leader], height).value;
    var refs := SortByKey(b.references);
    CommitRefsDelivers(store, leader, chains, refs);
    var (_, out, mid) := CommitRefs(store, leader, chains, refs);
    var after := mid[leader := mid[leader].(lastCommitted := height)];
    OneLeaderBlock(store, leader, mid, after[leader], b);
    DeliversCompose(store, leader, chains, mid, after, out, [Presented(b, leader)]);
    LastAlonePrecedes(store, leader, chains, mid, out, b);
  }

  lemma LastAlonePrecedes(store: Store, leader: PublicKey, chains: Chains, mid: Chains, out: seq<Block>, b: Block)
    requires Delivers(store, leader, chains, mid, out) && Covered(store, SortByKey(b.references), mid)
    requires b.author == leader && forall x | x in out :: x.author != leader
    ensures RefsPrecede(store, leader, chains, out + [Presented(b, leader)])
  {}

  lemma RefsPrecedeCompose(store: Store, leader: PublicKey, a: Chains, b: Chains, out1: seq<Block>, out2: seq<Block>)
    requires Delivers(store, leader, a, b, out1)
    requires RefsPrecede(store, leader, a, out1) && RefsPrecede(store, leader, b, out2)
    ensures RefsPrecede(store, leader, a, out1 + out2)
  {
    var all := out1 + out2;
    forall i | 0 <= i < |all| && all[i].author == leader
      ensures Precedes(store, leader, a, all, i)
    {
      if i < |out1| {
        assert Precedes(store, leader, a, out1, i);
        assert all[..i] == out1[..i];
      } else {
        var j := i - |out1|;
        assert Precedes(store, leader, b, out2, j);
        var mid :| Delivers(store, leader, b, mid, out2[..j]) && Covered(store, out2[j].references, mid);
        DeliversCompose(store, leader, a, b, mid, out1, out2[..j]);
        assert all[..i] == out1 + out2[..j];
      }
    }
  }

  /** The commit specification: each touched chain delivers its certified blocks from its counter
      upwards, what a leader block refers to precedes it, and the counters equal what was delivered. */
  lemma {:induction false} CommitLeaderDelivers(store: Store, leader: PublicKey, chains: Chains, height: nat)
    requires Committable(store, leader, chains)
    requires CommitLeader(store, leader, chains, height).ok
    ensures var r := CommitLeader(store, leader, chains, height);
            && Delivers(store, leader, chains, r.chains, r.out)
            && r.chains[leader].lastCommitted == Max(chains[leader].lastCommitted, height)
            && RefsPrecede(store, leader, chains, r.out)
    decreases height
  {
    if height <= chains[leader].lastCommitted {
      DeliversNothing(store, leader, chains);
    } else {
      CommitLeaderDelivers(store, leader, chains, height - 1);
      var p := CommitLeader(store, leader, chains, height - 1);
      CommittableStays(store, leader, chains, p.chains, p.out);
      OneHeightDelivers(store, leader, p.chains, height);
      var s := OneHeight(store, leader, p.chains, height);
      DeliversCompose(store, leader, chains, p.chains, s.chains, p.out, s.out);
      RefsPrecedeCompose(store, leader, chains, p.chains, p.out, s.out);
    }
  }

  // ----- What that says of the delivered sequence -----

  lemma {:induction false} AtMostOnePerHeight(store: Store, leader: PublicKey, chain: Chain, lo: nat, hi: nat)
    requires lo <= hi
    ensures |ChainBlocks(store, leader, chain, lo, hi)| <= hi - lo
    decreases hi
  {
    if lo < hi {
      AtMostOnePerHeight(store, leader, chain, lo, hi - 1);
    }
  }

  /** If none is missing, the k-th block delivered for a chain is the one k + 1 above its counter. */
  lemma {:induction false} ChainBlocksAt(store: Store, leader: PublicKey, chain: Chain, lo: nat, hi: nat, k: nat)
    requires OwnEntries(store, chain) && k < hi - lo == |ChainBlocks(store, leader, chain, lo, hi)|
    ensures ChainBlocks(store, leader, chain, lo, hi)[k].height == lo + 1 + k
    decreases hi
  {
    AtMostOnePerHeight(store, leader, chain, lo, hi - 1);
    if k < hi - 1 - lo {
      ChainBlocksAt(store, leader, chain, lo, hi - 1, k);
    }
  }

  /** The blocks of one author before position i number its place among that author's blocks. */
  lemma FromAuthorAt(out: seq<Block>, i: nat)
    requires i < |out|
    ensures var x, p := out[i].author, |FromAuthor(out[..i], out[i].author)|;
            p < |FromAuthor(out, x)| && FromAuthor(out, x)[p] == out[i]
            && FromAuthor(out[..i + 1], x) == FromAuthor(out[..i], x) + [out[i]]
  {
    var x := out[i].author;
    assert out[..i + 1][..i] == out[..i];
    assert out == out[..i + 1] + out[i + 1..];
    FromAuthorConcat(out[..i + 1], out[i + 1..], x);
  }

  lemma PlacesRise(out: seq<Block>, i: nat, j: nat)
    requires i < j <= |out|
    ensures |FromAuthor(out[..i], out[i].author)| < |FromAuthor(out[..j], out[i].author)|
  {
    FromAuthorAt(out, i);
    assert out[..j] == out[..i + 1] + out[i + 1..j];
    FromAuthorConcat(out[..i + 1], out[i + 1..j], out[i].author);
  }

  lemma DeliveredHeight(store: Store, leader: PublicKey, a: Chain, b: Chain, mine: seq<Block>, k: nat)
    requires ChainDelivers(store, leader, a, b, mine) && OwnEntries(store, a) && k < |mine|
    ensures mine[k].height == a.lastCommitted + 1 + k <= b.lastCommitted
  {
    ChainBlocksAt(store, leader, a, a.lastCommitted, b.lastCommitted, k);
  }

  /** Each chain's blocks are delivered one height after the other, so no block twice. */
  lemma DeliversInOrder(store: Store, leader: PublicKey, before: Chains, after: Chains, out: seq<Block>, i: nat, j: nat)
    requires Delivers(store, leader, before, after, out) && WellKept(store, before)
    requires i < j < |out| && out[i].author == out[j].author && out[i].author in before
    ensures before[out[i].author].lastCommitted < out[i].height < out[j].height
    ensures out[j].height <= after[out[j].author].lastCommitted
  {
    var x := out[i].author;
    var mine := FromAuthor(out, x);
    var p, q := |FromAuthor(out[..i], x)|, |FromAuthor(out[..j], x)|;
    FromAuthorAt(out, i);
    FromAuthorAt(out, j);
    PlacesRise(out, i, j);
    assert ChainDelivers(store, leader, before[x], after[x], mine);
    DeliveredHeight(store, leader, before[x], after[x], mine, p);
    DeliveredHeight(store, leader, before[x], after[x], mine, q);
  }
}
