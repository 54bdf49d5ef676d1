/** The commit loop walks up a chain one height at a time and pushes blocks on a deque; the functions
    of `Commits` recurse from the top height down. These lemmas make the two meet. */
module CommitLoops {
  import opened Committees
  import opened Options
  import opened Messages
  import opened Aggregators
  import opened Commits
  import opened Reentries
  import opened Nodes

  // ----- Pushing in front and popping from the back -----

  function Reversed(s: seq<Block>): (r: seq<Block>)
    ensures |r| == |s|
  {
    if s == [] then [] else Reversed(s[1..]) + [s[0]]
  }

  lemma {:induction false} ReversedConcat(a: seq<Block>, b: seq<Block>)
    ensures Reversed(a + b) == Reversed(b) + Reversed(a)
    decreases |a|
  {
    if a == [] {
      assert a + b == b;
    } else {
      assert (a + b)[1..] == a[1..] + b;
      ReversedConcat(a[1..], b);
    }
  }

  /** `after` is `before` with the blocks of `out` pushed in front, one after another. */
  ghost predicate Pushed(out: seq<Block>, before: seq<Block>, after: seq<Block>) {
    after == Reversed(out) + before
  }

  lemma PushMore(a: seq<Block>, b: seq<Block>, s: seq<Block>, t: seq<Block>, u: seq<Block>)
    requires Pushed(a, s, t) && Pushed(b, t, u)
    ensures Pushed(a + b, s, u)
  {
    ReversedConcat(a, b);
  }

  lemma PushOne(out: seq<Block>, b: Block, s: seq<Block>, t: seq<Block>)
    requires Pushed(out, s, t)
    ensures Pushed(out + [b], s, [b] + t)
  {
    ReversedOne(out, b);
  }

  lemma ReversedOne(out: seq<Block>, b: Block)
    ensures Reversed(out + [b]) == [b] + Reversed(out)
  {
    ReversedConcat(out, [b]);
    assert Reversed([b]) == [b];
  }

  lemma {:induction false} ReversedTwice(s: seq<Block>)
    ensures Reversed(Reversed(s) + []) == s
    decreases |s|
  {
    assert Reversed(s) + [] == Reversed(s);
    if s != [] {
      ReversedTwice(s[1..]);
      assert Reversed(s[1..]) + [] == Reversed(s[1..]);
      ReversedOne(Reversed(s[1..]), s[0]);
    }
  }

  // ----- The loop over heights -----

  /** What the loop keeps: `p` is what committing up to the chain's counter does. */
  ghost predicate CommittedSoFar(d: nat, store: Store, leader: PublicKey, chains: Chains, chain: Chain, p: Call) {
    p.Returned? && p.ok && chain.lastCommitted <= p.chain.lastCommitted
    && p == CommitPrev(d, store, leader, chains, chain, p.chain.lastCommitted)
  }

  lemma SoFarNext(d: nat, store: Store, leader: PublicKey, chains: Chains, chain: Chain, p: Call, high: nat)
    requires CommittedSoFar(d, store, leader, chains, chain, p) && p.chain.lastCommitted < high
    requires CommitPrev(d, store, leader, chains, chain, high).Returned?
    ensures CommitNext(d, store, leader, p.chains, p.chain).Returned?
    ensures var q := After(p.out, CommitNext(d, store, leader, p.chains, p.chain));
            if q.ok then
              CommittedSoFar(d, store, leader, chains, chain, q) && q.chain.lastCommitted == p.chain.lastCommitted + 1
            else q == CommitPrev(d, store, leader, chains, chain, high)
  {
    var next := p.chain.lastCommitted + 1;
    var n := CommitNext(d, store, leader, p.chains, p.chain);
    assert CommitPrev(d, store, leader, chains, chain, next) == After(p.out, n);
    if n.Stuck? || !n.ok {
      FailureStays(d, store, leader, chains, chain, next, high);
    } else {
      NextFrame(d, store, leader, p.chains, p.chain);
    }
  }

  lemma SoFarEnough(d: nat, store: Store, leader: PublicKey, chains: Chains, chain: Chain, p: Call, high: nat)
    requires CommittedSoFar(d, store, leader, chains, chain, p)
    requires p.chain.lastCommitted == Max(chain.lastCommitted, high)
    ensures p == CommitPrev(d, store, leader, chains, chain, high)
  {}

  // ----- The loop over references -----

  lemma RefMissing(d: nat, store: Store, leader: PublicKey, chains: Chains, chain: Chain, refs: seq<Reference>, i: nat,
                   p: Call)
    requires i < |refs| && p == FollowRefs(d, store, leader, chains, chain, refs[..i]) && p.Returned? && p.ok
    requires GetBlock(store, refs[i].digest).None?
    ensures FollowRefs(d, store, leader, chains, chain, refs) == p.(ok := false)
  {
    assert refs[..i + 1][..i] == refs[..i];
    RefsFailureStays(d, store, leader, chains, chain, refs, i + 1);
  }

  /** Following one more reference, when following all comes to an end. */
  lemma OneMoreRef(d: nat, store: Store, leader: PublicKey, chains: Chains, chain: Chain, refs: seq<Reference>, i: nat,
                   p: Call, b: Block)
    requires i < |refs| && p == FollowRefs(d, store, leader, chains, chain, refs[..i]) && p.Returned? && p.ok
    requires GetBlock(store, refs[i].digest) == Some(b)
    requires FollowRefs(d, store, leader, chains, chain, refs).Returned?
    ensures FollowOne(d, store, leader, p.chains, p.chain, b).Returned?
    ensures var q := After(p.out, FollowOne(d, store, leader, p.chains, p.chain, b));
            if q.ok then q == FollowRefs(d, store, leader, chains, chain, refs[..i + 1])
            else q == FollowRefs(d, store, leader, chains, chain, refs)
  {
    FollowRefsFrame(d, store, leader, chains, chain, refs[..i]);
    assert refs[..i + 1][..i] == refs[..i];
    var r := FollowRefs(d, store, leader, chains, chain, refs[..i + 1]);
    assert r == After(p.out, FollowOne(d, store, leader, p.chains, chain, b));
    if r.Stuck? || !r.ok {
      RefsFailureStays(d, store, leader, chains, chain, refs, i + 1);
    }
  }

  /** Committing a chain taken out of the table and counting it in the record is the step's commit. */
  lemma HeadSpec(c: Committee, n: Core, n': Core, chains: Chains, chain: Chain, height: nat, r: Call)
    requires chain.name == LeaderOf(c, n.epoch) && chain.name in chains
    requires n.ledger.chains == chains[chain.name := chain]
    requires r == CommitResult(n.ledger.store, chain.name, chains, chain, height) && r.Returned?
    requires n' == n.(ledger := n.ledger.(
                        chains := r.chains[chain.name := r.chain],
                        record := AfterRecord(n.ledger, n.name, chain.name, chains[chain.name], height, r)))
    ensures n' == CommitTo(c, n, chains[chain.name], Some(height))
  {
    TakenFromTable(n.ledger, chains, chain);
  }

  lemma TakenFromTable(l: Ledger, chains: Chains, chain: Chain)
    requires chain.name in chains && l.chains == chains[chain.name := chain]
    ensures l.chains[chain.name := chains[chain.name]] == chains && l.chains[chain.name] == chain
  {}
}
