/** Concrete commits that go wrong, by failing and by leading back to the leader's chain. Every block is
    one that nodes accept. */
module CommitExamples {
  import opened Committees
  import opened Options
  import opened Messages
  import opened Aggregators
  import opened Commits
  import opened Reentries
  import opened Nodes
  import opened ThreeNodes

  // ----- A commit that fails and is repeated delivers a block twice -----

  const FIRST := SignedBlock(GENESIS_QC, OTHER, 1, 0, [], [])
  const SECOND := SignedBlock(Cert(FIRST), OTHER, 2, 0, [], [])
  const TOP := SignedBlock(GENESIS_QC, LEADER, 1, 0, [], [Reference(OTHER, DigestOf(SECOND))])

  function Holding(name: PublicKey, table: map<nat, Digest>): Chain {
    Chain(name, 1, 0, 0, EMPTY_TABLES, GENESIS_QC, table, 0)
  }

  function Blocks(): Store {
    map[DigestOf(FIRST) := FIRST][DigestOf(SECOND) := SECOND][DigestOf(TOP) := TOP]
  }

  const PART := Holding(OTHER, map[1 := DigestOf(FIRST)])
  const FULL := Holding(OTHER, map[1 := DigestOf(FIRST), 2 := DigestOf(SECOND)])

  /** The chains before and after the certificate for the second block arrives. */
  function With(other: Chain): Chains {
    map[LEADER := Holding(LEADER, map[1 := DigestOf(TOP)]), OTHER := other]
  }

  lemma Lookups()
    ensures GetBlock(Blocks(), DigestOf(FIRST)) == Some(FIRST)
    ensures GetBlock(Blocks(), DigestOf(SECOND)) == Some(SECOND)
    ensures GetBlock(Blocks(), DigestOf(TOP)) == Some(TOP)
  {}

  lemma Ranges()
    ensures CommitRange(Blocks(), PART, 2) == (false, [FIRST], PART.(lastCommitted := 1))
    ensures CommitRange(Blocks(), FULL, 2) == (true, [FIRST, SECOND], FULL.(lastCommitted := 2))
  {
    Lookups();
    RangeOfOne(PART);
    RangeOfOne(FULL);
    assert BlockAt(Blocks(), FULL, 2) == Some(SECOND);
    assert [FIRST] + [SECOND] == [FIRST, SECOND];
  }

  lemma RangeOfOne(chain: Chain)
    requires chain.lastCommitted == 0 && BlockAt(Blocks(), chain, 1) == Some(FIRST)
    ensures CommitRange(Blocks(), chain, 1) == (true, [FIRST], chain.(lastCommitted := 1))
  {
    assert CommitRange(Blocks(), chain, 0) == (true, [], chain);
    assert [] + [FIRST] == [FIRST];
  }

  lemma RefsOfTop(other: Chain)
    ensures SortByKey(TOP.references) == TOP.references
    ensures var (ok, out, chain) := CommitRange(Blocks(), other, 2);
            CommitRefs(Blocks(), LEADER, With(other), TOP.references)
            == (ok, out, if ok then With(chain) else With(other))
  {
    Lookups();
    var refs := TOP.references;
    assert refs[..0] == [];
    assert SortByKey(refs[..0]) == [];
    assert CommitRefs(Blocks(), LEADER, With(other), refs[..0]) == (true, [], With(other));
    var (ok, out, chain) := CommitRange(Blocks(), other, 2);
    assert With(other)[OTHER := chain] == With(chain);
    assert [] + out == out;
  }

  lemma ExamplesAreAccepted()
    ensures BlockAccepted(Three(), FIRST) && BlockAccepted(Three(), SECOND) && BlockAccepted(Three(), TOP)
    ensures BlockAccepted(Three(), LOWER) && BlockAccepted(Three(), UPPER)
    ensures BlockAccepted(Three(), TWIN) && BlockAccepted(Three(), ENDLESS)
  {
    ThreeIsValid();
    CertIsAccepted(FIRST);
    CertIsAccepted(LOWER);
  }

  /** The certificate for the second block is missing: the commit fails after pushing the first
      block. When it has arrived, the same commit succeeds and delivers the first block again. */
  lemma FailedCommitDeliversAgain()
    ensures BlockAccepted(Three(), FIRST) && BlockAccepted(Three(), SECOND) && BlockAccepted(Three(), TOP)
    ensures var r := CommitResult(Blocks(), LEADER, With(PART), With(PART)[LEADER], 1);
            r == Returned(false, [FIRST], With(PART)[LEADER], With(PART))
    ensures var s := CommitResult(Blocks(), LEADER, With(FULL), With(FULL)[LEADER], 1);
            s.Returned? && s.ok && s.out == [FIRST, SECOND, TOP]
  {
    ExamplesAreAccepted();
    Lookups();
    Ranges();
    RefsOfTop(PART);
    RefsOfTop(FULL);
    OneOfTop(PART);
    OneOfTop(FULL);
    TopIsPlain(PART);
    TopIsPlain(FULL);
  }

  lemma TopIsPlain(other: Chain)
    requires other == PART || other == FULL
    ensures CommitResult(Blocks(), LEADER, With(other), With(other)[LEADER], 1)
            == TakenOut(CommitLeader(Blocks(), LEADER, With(other), 1), LEADER, With(other)[LEADER])
  {
    Lookups();
    var cs := With(other);
    assert cs[LEADER := cs[LEADER]] == cs;
    assert BlockAt(Blocks(), cs[LEADER], 1) == Some(TOP);
    PlainCommit(1, Blocks(), LEADER, cs, cs[LEADER], 1);
    ResultAt(1, Blocks(), LEADER, cs, cs[LEADER], 1);
  }

  lemma OneOfTop(other: Chain)
    ensures var (ok, out, chain) := CommitRange(Blocks(), other, 2);
            var r := CommitLeader(Blocks(), LEADER, With(other), 1);
            && r.ok == ok && r.out == (if ok then out + [TOP] else out)
            && (!ok ==> r.chains == With(other))
  {
    Lookups();
    RefsOfTop(other);
    assert CommitLeader(Blocks(), LEADER, With(other), 0) == Committed(true, [], With(other));
    assert BlockAt(Blocks(), With(other)[LEADER], 1) == Some(TOP);
    assert Presented(TOP, LEADER) == TOP;
    var (ok, out, cs) := CommitRefs(Blocks(), LEADER, With(other), TOP.references);
    assert [] + out == out && [] + (out + [TOP]) == out + [TOP];
    assert !ok ==> cs[LEADER := With(other)[LEADER]] == With(other);
  }

  // ----- A leader block that refers to the leader's chain -----

  const LOWER := SignedBlock(GENESIS_QC, LEADER, 1, 0, [], [])
  const UPPER := SignedBlock(Cert(LOWER), LEADER, 2, 0, [], [Reference(LEADER, DigestOf(LOWER))])

  /** The leader's chain as the table has it, with two blocks certified and some heights committed. */
  ghost predicate StackedOn(lower: Block, upper: Block, store: Store, chains: Chains, chain: Chain, committed: nat) {
    && LEADER in chains && chains[LEADER] == chain && chain.lastCommitted == committed
    && BlockAt(store, chain, 1) == Some(lower) && BlockAt(store, chain, 2) == Some(upper)
    && GetBlock(store, DigestOf(lower)) == Some(lower)
  }

  ghost predicate Stacked(store: Store, chains: Chains, chain: Chain, committed: nat) {
    StackedOn(LOWER, UPPER, store, chains, chain, committed)
  }

  lemma AsPresented()
    ensures SortByKey(LOWER.references) == [] && SortByKey(UPPER.references) == UPPER.references
    ensures Presented(LOWER, LEADER) == LOWER && Presented(UPPER, LEADER) == UPPER
  {
    assert SortByKey([]) == [];
    var refs := UPPER.references;
    assert refs[..0] == [] && SortByKey(refs[..0]) == [];
  }

  lemma FollowsLower(d: nat, store: Store, chains: Chains, chain: Chain)
    ensures Follow(d, store, LEADER, chains, chain, LOWER) == Returned(true, [], chain, chains)
  {
    AsPresented();
    assert FollowRefs(d, store, LEADER, chains, chain, []) == Returned(true, [], chain, chains);
  }

  lemma NextLower(d: nat, store: Store, chains: Chains, chain: Chain)
    requires chain.lastCommitted == 0 && BlockAt(store, chain, 1) == Some(LOWER)
    ensures CommitNext(d, store, LEADER, chains, chain)
            == Returned(true, [LOWER], chain.(lastCommitted := 1), chains)
  {
    AsPresented();
    FollowsLower(d, store, chains, chain);
    assert [] + [LOWER] == [LOWER];
  }

  lemma CommitsLower(d: nat, store: Store, chains: Chains, chain: Chain)
    requires chain.lastCommitted == 0 && BlockAt(store, chain, 1) == Some(LOWER)
    ensures CommitPrev(d, store, LEADER, chains, chain, 1)
            == Returned(true, [LOWER], chain.(lastCommitted := 1), chains)
  {
    NextLower(d, store, chains, chain);
    assert CommitPrev(d, store, LEADER, chains, chain, 0) == Returned(true, [], chain, chains);
    assert [] + [LOWER] == [LOWER];
  }

  /** The upper block's reference, while the chain at hand counts one height and the table n. */
  lemma FollowsUpper(store: Store, chains: Chains, chain: Chain, at: Chain, n: nat)
    requires Stacked(store, chains, chain, n) && n <= 1
    ensures FollowRefs(1, store, LEADER, chains, at, UPPER.references)
            == Returned(true, if n == 0 then [LOWER] else [], at, chains[LEADER := chain.(lastCommitted := 1)])
  {
    var refs := UPPER.references;
    assert refs[..0] == [];
    assert FollowRefs(1, store, LEADER, chains, at, refs[..0]) == Returned(true, [], at, chains);
    if n == 0 {
      CommitsLower(0, store, chains, chain);
    } else {
      assert CommitPrev(0, store, LEADER, chains, chain, 1) == Returned(true, [], chain, chains);
    }
    assert [] + [LOWER] == [LOWER];
  }

  lemma CommitsUpper(store: Store, chains: Chains, chain: Chain, n: nat)
    requires Stacked(store, chains, chain, n) && n <= 1
    ensures CommitNext(1, store, LEADER, chains, chain.(lastCommitted := 1))
            == Returned(true, if n == 0 then [LOWER, UPPER] else [UPPER], chain.(lastCommitted := 2),
                        chains[LEADER := chain.(lastCommitted := 1)])
  {
    var at := chain.(lastCommitted := 1);
    AsPresented();
    FollowsUpper(store, chains, chain, at, n);
    assert BlockAt(store, at, 2) == Some(UPPER);
    assert Follow(1, store, LEADER, chains, at, UPPER) == FollowRefs(1, store, LEADER, chains, at, UPPER.references);
    assert [LOWER] + [UPPER] == [LOWER, UPPER] && [] + [UPPER] == [UPPER];
  }

  lemma AtOnce(store: Store, chains: Chains, chain: Chain)
    requires Stacked(store, chains, chain, 0)
    ensures CommitResult(store, LEADER, chains, chain, 2)
            == Returned(true, [LOWER, LOWER, UPPER], chain.(lastCommitted := 2),
                        chains[LEADER := chain.(lastCommitted := 1)])
  {
    CommitsLower(1, store, chains, chain);
    CommitsUpper(store, chains, chain, 0);
    assert [LOWER] + [LOWER, UPPER] == [LOWER, LOWER, UPPER];
    ResultAt(1, store, LEADER, chains, chain, 2);
  }

  lemma LowerFirst(store: Store, chains: Chains, chain: Chain)
    requires Stacked(store, chains, chain, 0)
    ensures CommitResult(store, LEADER, chains, chain, 1)
            == Returned(true, [LOWER], chain.(lastCommitted := 1), chains)
  {
    CommitsLower(0, store, chains, chain);
    ResultAt(0, store, LEADER, chains, chain, 1);
  }

  lemma ThenUpper(store: Store, chains: Chains, chain: Chain)
    requires Stacked(store, chains, chain, 1)
    ensures CommitResult(store, LEADER, chains, chain, 2)
            == Returned(true, [UPPER], chain.(lastCommitted := 2), chains)
  {
    CommitsUpper(store, chains, chain, 1);
    assert chain.(lastCommitted := 1) == chain && chains[LEADER := chain] == chains;
    assert CommitPrev(1, store, LEADER, chains, chain, 1) == Returned(true, [], chain, chains);
    assert [] + [UPPER] == [UPPER];
    ResultAt(1, store, LEADER, chains, chain, 2);
  }

  /** Two certified blocks of the leader, the upper of which refers to the lower. Committed in one call,
      the lower is delivered twice; committed in two, once. Every call returns true and the counters
      end alike, so success and equal counters do not make deliveries prefix-comparable. */
  lemma ReentryDeliversTwice(store: Store, chains: Chains, chain: Chain)
    requires Stacked(store, chains, chain, 0)
    ensures BlockAccepted(Three(), LOWER) && BlockAccepted(Three(), UPPER)
    ensures var one := chain.(lastCommitted := 1);
            && CommitResult(store, LEADER, chains, chain, 2)
               == Returned(true, [LOWER, LOWER, UPPER], chain.(lastCommitted := 2), chains[LEADER := one])
            && CommitResult(store, LEADER, chains, chain, 1) == Returned(true, [LOWER], one, chains)
            && CommitResult(store, LEADER, chains[LEADER := one], one, 2)
               == Returned(true, [UPPER], chain.(lastCommitted := 2), chains[LEADER := one])
    ensures !([LOWER, LOWER, UPPER] <= [LOWER] + [UPPER]) && !([LOWER] + [UPPER] <= [LOWER, LOWER, UPPER])
  {
    var one := chain.(lastCommitted := 1);
    ExamplesAreAccepted();
    AtOnce(store, chains, chain);
    LowerFirst(store, chains, chain);
    assert BlockAt(store, one, 1) == Some(LOWER) && BlockAt(store, one, 2) == Some(UPPER);
    ThenUpper(store, chains[LEADER := one], one);
    assert [LOWER, LOWER, UPPER][1] != ([LOWER] + [UPPER])[1];
  }

  const TWIN := SignedBlock(GENESIS_QC, LEADER, 1, 0, [7], [])
  const ENDLESS := SignedBlock(GENESIS_QC, LEADER, 1, 0, [], [Reference(LEADER, DigestOf(TWIN))])

  function EndlessBlocks(): Store {
    map[DigestOf(TWIN) := TWIN][DigestOf(ENDLESS) := ENDLESS]
  }

  const ENDLESS_CHAIN := Holding(LEADER, map[1 := DigestOf(ENDLESS)])

  lemma EndlessLookups()
    ensures SortByKey(ENDLESS.references) == ENDLESS.references
    ensures GetBlock(EndlessBlocks(), DigestOf(TWIN)) == Some(TWIN)
    ensures BlockAt(EndlessBlocks(), ENDLESS_CHAIN, 1) == Some(ENDLESS)
  {
    var refs := ENDLESS.references;
    assert refs[..0] == [] && SortByKey(refs[..0]) == [];
  }

  lemma EndlessReference(d: nat, cs: Chains)
    requires cs == map[LEADER := ENDLESS_CHAIN]
    requires d > 0 ==> CommitPrev(d - 1, EndlessBlocks(), LEADER, cs, ENDLESS_CHAIN, 1) == Stuck
    ensures FollowRefs(d, EndlessBlocks(), LEADER, cs, ENDLESS_CHAIN, ENDLESS.references) == Stuck
  {
    EndlessLookups();
    var refs := ENDLESS.references;
    assert refs[..0] == [];
    assert FollowRefs(d, EndlessBlocks(), LEADER, cs, ENDLESS_CHAIN, refs[..0])
           == Returned(true, [], ENDLESS_CHAIN, cs);
    assert FollowOne(d, EndlessBlocks(), LEADER, cs, ENDLESS_CHAIN, TWIN) == Stuck;
  }

  /** A certified block that refers to another block of the leader at its own height is met again in
      every nested call: the commit never returns. */
  lemma {:induction false} ReentryNeverReturns(d: nat)
    ensures CommitPrev(d, EndlessBlocks(), LEADER, map[LEADER := ENDLESS_CHAIN], ENDLESS_CHAIN, 1) == Stuck
  {
    var cs: Chains := map[LEADER := ENDLESS_CHAIN];
    if d > 0 {
      ReentryNeverReturns(d - 1);
    }
    EndlessLookups();
    EndlessReference(d, cs);
    assert Follow(d, EndlessBlocks(), LEADER, cs, ENDLESS_CHAIN, ENDLESS) == Stuck;
    assert CommitNext(d, EndlessBlocks(), LEADER, cs, ENDLESS_CHAIN) == Stuck;
    assert CommitPrev(d, EndlessBlocks(), LEADER, cs, ENDLESS_CHAIN, 0) == Returned(true, [], ENDLESS_CHAIN, cs);
  }
}
