/** Why the delivery theorems ask for certified entries on a node's own chain. A run of two honest nodes
    and one faulty authority, which leads the first epoch: it votes for another block on one node's
    chain, and that vote is counted last. Both nodes commit the leader's first block, every call
    returning true, and deliver different blocks for the same reference. */
module MixedVotes {
  import opened Committees
  import opened Options
  import opened Messages
  import opened Aggregators
  import opened Commits
  import opened Delivery
  import opened Overlays
  import opened Reentries
  import opened Nodes
  import opened NodeSafety
  import opened Worlds
  import opened Systems
  import opened Records
  import opened DeliveryTheorems
  import opened ThreeNodes
  import opened ThreeRuns

  // ----- The blocks and certificates -----

  /** The first blocks of the two honest nodes. */
  const PROPOSED := SignedBlock(GENESIS_QC, OWNER, 1, 0, [], [])
  const FOREIGN := SignedBlock(GENESIS_QC, OTHER, 1, 0, [], [])

  /** The leader's blocks; the first refers to what the owner proposed. */
  const LOWEST := SignedBlock(GENESIS_QC, LEADER, 1, 0, [], [Reference(OWNER, DigestOf(PROPOSED))])
  const MIDDLE := SignedBlock(Cert(LOWEST), LEADER, 2, 0, [], [])
  const HIGHEST := SignedBlock(Cert(MIDDLE), LEADER, 3, 0, [], [])

  /** One node's ledger at the end of a run, before it has committed anything. */
  ghost predicate Snap(tr: seq<World>, x: PublicKey, chains: Chains, store: Store, log: seq<ChainEvent>) {
    At(tr, x, chains, store, log, Fresh())
  }

  // ----- The leader's first two blocks -----

  const ABOVE_LOWEST := QcOnChain(0, NewChain(LEADER).(lastVoted := 1), Cert(LOWEST))
  const ABOVE_MIDDLE := QcOnChain(0, ABOVE_LOWEST.(lastVoted := 2), Cert(MIDDLE))

  function WithBlocks(store: Store): Store {
    store[DigestOf(LOWEST) := LOWEST][DigestOf(MIDDLE) := MIDDLE]
  }

  lemma LeaderBlocksAreProper(w: World)
    requires w.Keys == {OWNER, OTHER}
    ensures ProperBlock(Three(), Known(w), LOWEST)
    ensures Certificate(Three(), Known(w), Cert(LOWEST)) ==> ProperBlock(Three(), Known(w), MIDDLE)
    ensures Certificate(Three(), Known(w), Cert(MIDDLE)) ==> ProperBlock(Three(), Known(w), HIGHEST)
  {
    ThreeIsValid();
    CertIsAccepted(LOWEST);
    CertIsAccepted(MIDDLE);
  }

  lemma LowBlocksCommitNothing(store: Store)
    ensures CommitsNothing(store[DigestOf(LOWEST) := LOWEST], LOWEST)
    ensures CommitsNothing(WithBlocks(store), MIDDLE)
  {}

  lemma LowBlocksAreVotable()
    ensures Votable(NewChain(LEADER), LOWEST) && Votable(ABOVE_LOWEST, MIDDLE)
  {}

  /** The leader's first two blocks with their certificates. */
  lemma Climb(tr: seq<World>, x: PublicKey, chains: Chains, store: Store, log: seq<ChainEvent>)
    returns (tr': seq<World>)
    requires Snap(tr, x, chains, store, log) && LEADER in chains && chains[LEADER] == NewChain(LEADER)
    requires x == OTHER || (OtherVoted(tr, LOWEST) && OtherVoted(tr, MIDDLE))
    ensures Onward(tr, tr', x) && OtherVoted(tr', MIDDLE)
    ensures Snap(tr', x, chains[LEADER := ABOVE_MIDDLE], WithBlocks(store),
                 log + [Voted(LOWEST, 0)] + [Voted(MIDDLE, 0)])
  {
    LowBlocksCommitNothing(store);
    var tr1 := ClimbLowest(tr, x, chains, store, log);
    tr' := ClimbMiddle(tr1, x, chains[LEADER := ABOVE_LOWEST], store[DigestOf(LOWEST) := LOWEST],
                       log + [Voted(LOWEST, 0)]);
    PutTwice(chains, LEADER, ABOVE_LOWEST, ABOVE_MIDDLE);
    OnwardOn(tr, tr1, tr', x);
  }

  lemma ClimbLowest(tr: seq<World>, x: PublicKey, chains: Chains, store: Store, log: seq<ChainEvent>)
    returns (tr': seq<World>)
    requires Snap(tr, x, chains, store, log) && LEADER in chains && chains[LEADER] == NewChain(LEADER)
    requires x == OTHER || OtherVoted(tr, LOWEST)
    ensures Onward(tr, tr', x) && OtherVoted(tr', LOWEST)
    ensures Snap(tr', x, chains[LEADER := ABOVE_LOWEST], store[DigestOf(LOWEST) := LOWEST], log + [Voted(LOWEST, 0)])
  {
    LowBlocksAreVotable();
    LowBlocksCommitNothing(store);
    LeaderBlocksAreProper(Last(tr));
    tr' := LeaderRound(tr, x, chains, store, log, Fresh(), LOWEST);
  }

  lemma MiddleIsProper(tr: seq<World>)
    requires Ran(tr) && OtherVoted(tr, LOWEST)
    ensures ProperBlock(Three(), Known(Last(tr)), MIDDLE)
  {
    CertExists(Last(tr), LOWEST);
    LeaderBlocksAreProper(Last(tr));
  }

  lemma ClimbMiddle(tr: seq<World>, x: PublicKey, chains: Chains, store: Store, log: seq<ChainEvent>)
    returns (tr': seq<World>)
    requires Snap(tr, x, chains, store, log) && LEADER in chains && chains[LEADER] == ABOVE_LOWEST
    requires OtherVoted(tr, LOWEST) && (x == OTHER || OtherVoted(tr, MIDDLE))
    requires CommitsNothing(store[DigestOf(MIDDLE) := MIDDLE], MIDDLE)
    ensures Onward(tr, tr', x) && OtherVoted(tr', MIDDLE)
    ensures Snap(tr', x, chains[LEADER := ABOVE_MIDDLE], store[DigestOf(MIDDLE) := MIDDLE], log + [Voted(MIDDLE, 0)])
  {
    LowBlocksAreVotable();
    MiddleIsProper(tr);
    tr' := LeaderRound(tr, x, chains, store, log, Fresh(), MIDDLE);
  }

  // ----- The commit -----

  /** What the node has before it commits: the leader's blocks, and a block for height 1 of the owner. */
  ghost predicate ReadyToCommit(chains: Chains, store: Store, third: Block) {
    && chains.Keys == {LEADER, OWNER, OTHER} && chains[LEADER] == ABOVE_MIDDLE
    && chains[OWNER].name == OWNER && chains[OWNER].lastCommitted == 0
    && BlockAt(store, chains[OWNER], 1) == Some(third) && third.author != LEADER
    && GetBlock(store, DigestOf(PROPOSED)) == Some(PROPOSED)
    && GetBlock(store, DigestOf(LOWEST)) == Some(LOWEST)
  }

  const COMMITTED_ONE := ABOVE_MIDDLE.(lastCommitted := 1)

  function OwnerCounted(chains: Chains): Chains
    requires OWNER in chains
  {
    chains[OWNER := chains[OWNER].(lastCommitted := 1)]
  }

  lemma FollowsReference(chains: Chains, store: Store, third: Block)
    requires ReadyToCommit(chains, store, third)
    ensures SortByKey(LOWEST.references) == LOWEST.references
    ensures CommitRefs(store, LEADER, chains, LOWEST.references) == (true, [third], OwnerCounted(chains))
  {
    var refs := LOWEST.references;
    assert refs[..0] == [] && SortByKey(refs[..0]) == [];
    assert CommitRefs(store, LEADER, chains, refs[..0]) == (true, [], chains);
    assert CommitRange(store, chains[OWNER], 0) == (true, [], chains[OWNER]);
    assert [] + [third] == [third];
    assert CommitRange(store, chains[OWNER], 1) == (true, [third], chains[OWNER].(lastCommitted := 1));
  }

  lemma LowestIsCommitted(chains: Chains, store: Store, third: Block)
    requires ReadyToCommit(chains, store, third)
    ensures CommitLeader(store, LEADER, chains, 1)
            == Committed(true, [third, LOWEST], OwnerCounted(chains)[LEADER := COMMITTED_ONE])
  {
    FollowsReference(chains, store, third);
    assert CommitLeader(store, LEADER, chains, 0) == Committed(true, [], chains);
    assert BlockAt(store, chains[LEADER], 1) == Some(LOWEST);
    assert Presented(LOWEST, LEADER) == LOWEST;
    assert [third] + [LOWEST] == [third, LOWEST];
    assert [] + [third, LOWEST] == [third, LOWEST];
    assert OneHeight(store, LEADER, chains, 1)
           == Committed(true, [third] + [LOWEST], OwnerCounted(chains)[LEADER := COMMITTED_ONE]);
  }

  lemma NothingInTheWay(chains: Chains, store: Store, third: Block)
    requires ReadyToCommit(chains, store, third)
    ensures NoReentry(store, LEADER, chains, chains[LEADER], 1) && AllClear(store, LEADER, chains, chains[LEADER], 1)
  {
    assert BlockAt(store, chains[LEADER], 1) == Some(LOWEST);
    assert !LeaderAt(store, LEADER, chains[OWNER], 1);
  }

  lemma CommitIsDirect(chains: Chains, store: Store, third: Block)
    requires ReadyToCommit(chains, store, third)
    ensures CommitResult(store, LEADER, chains, chains[LEADER], 1)
            == Returned(true, [third, LOWEST], COMMITTED_ONE, OwnerCounted(chains))
  {
    LowestIsCommitted(chains, store, third);
    NothingInTheWay(chains, store, third);
    SameEntry(chains, LEADER);
    PlainCommit(1, store, LEADER, chains, chains[LEADER], 1);
    ResultAt(1, store, LEADER, chains, chains[LEADER], 1);
    PutTwice(OwnerCounted(chains), LEADER, COMMITTED_ONE, chains[LEADER]);
    SameEntry(OwnerCounted(chains), LEADER);
  }

  ghost predicate RecordIs(n: Core, third: Block) {
    && n.ledger.past == []
    && n.ledger.record == Record(0, CountersOf(NewChains(Three())), true, true, [third, LOWEST], 1,
                                 if n.name == OWNER then map[1 := DigestOf(third)] else map[])
  }

  lemma OwnOfCommit(chains: Chains, store: Store, third: Block, x: PublicKey)
    requires ReadyToCommit(chains, store, third) && (x == OWNER || x == OTHER)
    ensures Delivered(store, chains, OwnerCounted(chains)[LEADER := COMMITTED_ONE], x)
            == if x == OWNER then map[1 := DigestOf(third)] else map[]
  {}

  lemma RecordOfCommit(chains: Chains, store: Store, x: PublicKey, third: Block)
    requires ReadyToCommit(chains, store, third) && (x == OWNER || x == OTHER)
    ensures CommitResult(store, LEADER, chains, chains[LEADER], 1)
            == Returned(true, [third, LOWEST], COMMITTED_ONE, OwnerCounted(chains))
    ensures RecordAfter(x, chains, store, Fresh(), 1, CommitResult(store, LEADER, chains, chains[LEADER], 1))
            == Record(0, CountersOf(NewChains(Three())), true, true, [third, LOWEST], 1,
                      if x == OWNER then map[1 := DigestOf(third)] else map[])
  {
    SameEntry(chains, LEADER);
    CommitIsDirect(chains, store, third);
    NothingInTheWay(chains, store, third);
    OwnOfCommit(chains, store, third, x);
    assert [] + [third, LOWEST] == [third, LOWEST];
  }

  /** Processing the leader's third block commits its first. */
  lemma CommitRound(tr: seq<World>, x: PublicKey, chains: Chains, store: Store, log: seq<ChainEvent>, third: Block)
    returns (tr': seq<World>)
    requires Snap(tr, x, chains, store, log) && OtherVoted(tr, MIDDLE) && (x == OWNER || x == OTHER)
    requires ReadyToCommit(chains, store[DigestOf(HIGHEST) := HIGHEST], third)
    requires GetBlock(store, DigestOf(MIDDLE)) == Some(MIDDLE)
    ensures Onward(tr, tr', x) && RecordIs(Last(tr')[x], third)
  {
    var store' := store[DigestOf(HIGHEST) := HIGHEST];
    HighestIsProper(tr);
    RecordOfCommit(chains, store', x, third);
    HighestCommits(chains, store);
    tr' := TakeCommit(tr, x, chains, store, log, Fresh(), HIGHEST, 1,
                      CommitResult(store', LEADER, chains, chains[LEADER], 1));
  }

  lemma HighestIsProper(tr: seq<World>)
    requires Ran(tr) && OtherVoted(tr, MIDDLE)
    ensures ProperBlock(Three(), Known(Last(tr)), HIGHEST)
  {
    CertExists(Last(tr), MIDDLE);
    LeaderBlocksAreProper(Last(tr));
  }

  lemma HighestCommits(chains: Chains, store: Store)
    requires LEADER in chains && chains[LEADER] == ABOVE_MIDDLE
    requires GetBlock(store, DigestOf(MIDDLE)) == Some(MIDDLE)
    requires GetBlock(store[DigestOf(HIGHEST) := HIGHEST], DigestOf(LOWEST)) == Some(LOWEST)
    ensures CommitsHeight(store[DigestOf(HIGHEST) := HIGHEST], HIGHEST, 1) && Votable(chains[LEADER], HIGHEST)
  {}

  // ----- The other node: a real certificate for what the owner proposed -----

  const CERTIFIED := QcOnChain(0, OnceVoted(OWNER), Cert(PROPOSED))

  function OtherChains(): Chains {
    NewChains(Three())[OWNER := CERTIFIED]
  }

  function OtherStore(): Store {
    map[DigestOf(PROPOSED) := PROPOSED]
  }

  function OtherLog(): seq<ChainEvent> {
    [Proposed(FOREIGN), Voted(PROPOSED, 0)]
  }

  lemma ProposedIsProper(w: World, x: PublicKey)
    requires w.Keys == {OWNER, OTHER} && (x == OWNER || x == OTHER)
    requires w[x].ledger.log != [] && w[x].ledger.log[0] == Proposed(FirstBlock(x))
    ensures ProperBlock(Three(), Known(w), FirstBlock(x))
  {
    ThreeIsValid();
    assert w[x].ledger.log[0] in w[x].ledger.log;
    assert SignedLedger(w[x].ledger.log, BlockS(DigestOf(FirstBlock(x))));
  }

  lemma FirstIsVotable(x: PublicKey)
    ensures Votable(NewChain(x), FirstBlock(x)) && (x != LEADER ==> CommitsNothing(map[], FirstBlock(x)))
  {}

  ghost predicate ProposedFirst(tr: seq<World>, y: PublicKey)
    requires tr != []
  {
    y in Last(tr) && Last(tr)[y].ledger.log != [] && Last(tr)[y].ledger.log[0] == Proposed(FirstBlock(y))
  }

  function OnceVoted(y: PublicKey): Chain {
    NewChain(y).(lastVoted := 1)
  }

  /** A first block of one of the honest nodes. */
  lemma TakeFirst(tr: seq<World>, x: PublicKey, y: PublicKey, chains: Chains, store: Store, log: seq<ChainEvent>)
    returns (tr': seq<World>)
    requires Snap(tr, x, chains, store, log) && LEADER in chains && y in chains && chains[y] == NewChain(y)
    requires (y == OWNER || y == OTHER) && ProposedFirst(tr, y)
    ensures Onward(tr, tr', x)
    ensures Snap(tr', x, chains[y := OnceVoted(y)], store[DigestOf(FirstBlock(y)) := FirstBlock(y)],
                 log + [Voted(FirstBlock(y), 0)])
  {
    ProposedIsProper(Last(tr), y);
    FirstIsVotable(y);
    tr' := TakeBlock(tr, x, chains, store, log, Fresh(), FirstBlock(y));
  }

  lemma OtherPrepares(tr: seq<World>) returns (tr': seq<World>)
    requires Snap(tr, OWNER, NewChains(Three()), map[], [Proposed(PROPOSED)])
    requires Snap(tr, OTHER, NewChains(Three()), map[], [Proposed(FOREIGN)])
    ensures Onward(tr, tr', OTHER) && Snap(tr', OTHER, OtherChains(), OtherStore(), OtherLog())
  {
    ThreeIsValid();
    var cs := NewChains(Three());
    var tr1 := TakeFirst(tr, OTHER, OWNER, cs, map[], [Proposed(FOREIGN)]);
    VotedNow(tr1, OTHER, [Proposed(FOREIGN)], PROPOSED);
    assert [Proposed(FOREIGN)] + [Voted(PROPOSED, 0)] == OtherLog();
    tr' := OtherCertifies(tr1, cs[OWNER := OnceVoted(OWNER)]);
    PutTwice(cs, OWNER, OnceVoted(OWNER), CERTIFIED);
    OnwardOn(tr, tr1, tr', OTHER);
  }

  lemma OtherCertifies(tr: seq<World>, chains: Chains) returns (tr': seq<World>)
    requires Snap(tr, OTHER, chains, OtherStore(), OtherLog()) && OtherVoted(tr, PROPOSED)
    requires OWNER in chains && chains[OWNER] == OnceVoted(OWNER)
    ensures Onward(tr, tr', OTHER) && Snap(tr', OTHER, chains[OWNER := CERTIFIED], OtherStore(), OtherLog())
  {
    CertExists(Last(tr), PROPOSED);
    tr' := TakeQc(tr, OTHER, chains, OtherStore(), OtherLog(), Fresh(), OWNER, Cert(PROPOSED));
  }

  // ----- The owner: a certificate over mixed votes -----

  function VoteFor(b: Block, author: PublicKey): Vote {
    Vote(DigestOf(b), 0, 1, author, OWNER, Signature(author, VoteS(DigestOf(b), 0, 1, OWNER)))
  }

  /** What the owner's maker emits: the vote counted last decides the hash. */
  const MIXED := QC(DigestOf(FOREIGN), 0, 1, OWNER, [(OTHER, VoteFor(PROPOSED, OTHER).signature),
                                                     (LEADER, VoteFor(FOREIGN, LEADER).signature)])

  const OWN_VOTED := OnceVoted(OWNER)

  function OneVote(): VoteMaker {
    Maker(2, [(OTHER, VoteFor(PROPOSED, OTHER).signature)], {OTHER})
  }

  function TwoVotes(): VoteMaker {
    Maker(0, MIXED.votes, {OTHER, LEADER})
  }

  lemma MixedIsMade()
    ensures QcAppend(Three(), EmptyMaker(), VoteFor(PROPOSED, OTHER)) == (OneVote(), Pending)
    ensures QcAppend(Three(), OneVote(), VoteFor(FOREIGN, LEADER)) == (TwoVotes(), Made(MIXED))
    ensures VoteAccepted(Three(), VoteFor(PROPOSED, OTHER)) && VoteAccepted(Three(), VoteFor(FOREIGN, LEADER))
  {
    ThreeIsValid();
    var none: VoteMaker := EmptyMaker();
    var a, b := VoteFor(PROPOSED, OTHER), VoteFor(FOREIGN, LEADER);
    assert none.votes + [(OTHER, a.signature)] == OneVote().votes && none.used + {OTHER} == {OTHER};
    assert OneVote().votes + [(LEADER, b.signature)] == MIXED.votes && OneVote().used + {LEADER} == {OTHER, LEADER};
    assert QcAppend(Three(), none, a).0 == Maker(0 + 2, none.votes + [(OTHER, a.signature)], none.used + {OTHER});
    assert Aggregators.Counted(Three(), OneVote(), LEADER, (LEADER, b.signature))
           == Maker(2 + 1, OneVote().votes + [(LEADER, b.signature)], OneVote().used + {LEADER});
  }

  function Ballots(m: VoteMaker): Tables {
    EMPTY_TABLES.(votes := map[1 := m])
  }

  const ONE_COUNTED := OWN_VOTED.(aggregator := Ballots(OneVote()))
  const MIXED_CHAIN := QcOnChain(0, OWN_VOTED.(aggregator := Ballots(TwoVotes())), MIXED)

  lemma FirstIsCounted(n: Core)
    requires n.name == OWNER && OWNER in n.ledger.chains && n.ledger.chains[OWNER] == OWN_VOTED
    ensures HandleVote(Three(), n, VoteFor(PROPOSED, OTHER), NO_DRAFT)
            == n.(ledger := n.ledger.(chains := n.ledger.chains[OWNER := ONE_COUNTED]))
  {
    MixedIsMade();
    assert EMPTY_TABLES.votes[1 := OneVote()] == map[1 := OneVote()];
  }

  lemma SecondIsCounted(n: Core)
    requires n.name == OWNER && OWNER in n.ledger.chains && n.ledger.chains[OWNER] == ONE_COUNTED && n.epoch == 0
    ensures HandleVote(Three(), n, VoteFor(FOREIGN, LEADER), NO_DRAFT)
            == n.(ledger := n.ledger.(
                    chains := n.ledger.chains[OWNER := MIXED_CHAIN],
                    log := n.ledger.log
                           + [Proposed(Proposal(n.ledger.chains[OWNER := MIXED_CHAIN], OWNER, false, NO_DRAFT))]))
  {
    MixedIsMade();
    assert Ballots(OneVote()).votes[1 := TwoVotes()] == map[1 := TwoVotes()];
  }

  lemma MixedEntry()
    ensures MIXED_CHAIN.name == OWNER && MIXED_CHAIN.lastCommitted == 0
    ensures MIXED_CHAIN.heightToDigest == map[1 := DigestOf(FOREIGN)]
  {}

  function OwnStore(): Store {
    map[DigestOf(PROPOSED) := PROPOSED][DigestOf(FOREIGN) := FOREIGN]
  }

  function OwnChains(owner: Chain): Chains {
    NewChains(Three())[OWNER := owner][OTHER := OnceVoted(OTHER)]
  }

  function OwnLog(): seq<ChainEvent> {
    [Proposed(PROPOSED), Voted(PROPOSED, 0), Voted(FOREIGN, 0)]
  }

  /** What the owner needs of the other node's past. */
  ghost predicate OtherReady(tr: seq<World>)
    requires tr != []
  {
    && ProposedFirst(tr, OTHER)
    && OtherVoted(tr, PROPOSED) && OtherVoted(tr, LOWEST) && OtherVoted(tr, MIDDLE)
  }

  lemma OwnerStores(tr: seq<World>) returns (tr': seq<World>)
    requires Snap(tr, OWNER, NewChains(Three()), map[], [Proposed(PROPOSED)]) && OtherReady(tr)
    ensures Onward(tr, tr', OWNER) && Snap(tr', OWNER, OwnChains(OWN_VOTED), OwnStore(), OwnLog())
  {
    ThreeIsValid();
    var cs, log := NewChains(Three()), [Proposed(PROPOSED)];
    var tr1 := TakeFirst(tr, OWNER, OWNER, cs, map[], log);
    tr' := TakeFirst(tr1, OWNER, OTHER, cs[OWNER := OnceVoted(OWNER)], map[DigestOf(PROPOSED) := PROPOSED],
                     log + [Voted(PROPOSED, 0)]);
    OwnParts(log);
    OnwardOn(tr, tr1, tr', OWNER);
  }

  lemma OwnParts(log: seq<ChainEvent>)
    requires log == [Proposed(PROPOSED)]
    ensures log + [Voted(PROPOSED, 0)] + [Voted(FOREIGN, 0)] == OwnLog()
    ensures NewChains(Three())[OWNER := OnceVoted(OWNER)][OTHER := OnceVoted(OTHER)] == OwnChains(OWN_VOTED)
    ensures map[DigestOf(PROPOSED) := PROPOSED][DigestOf(FOREIGN) := FOREIGN] == OwnStore()
  {}

  lemma BallotsExist(w: World)
    requires w.Keys == {OWNER, OTHER} && Voted(PROPOSED, 0) in w[OTHER].ledger.log
    ensures Unforged(Known(w), VoteFor(PROPOSED, OTHER).signature)
    ensures Unforged(Known(w), VoteFor(FOREIGN, LEADER).signature)
  {
    assert IsVote(Voted(PROPOSED, 0), VoteS(DigestOf(PROPOSED), 0, 1, OWNER));
    assert SignedLedger(w[OTHER].ledger.log, VoteS(DigestOf(PROPOSED), 0, 1, OWNER));
  }

  lemma OwnerCountsOne(tr: seq<World>) returns (tr': seq<World>)
    requires Snap(tr, OWNER, OwnChains(OWN_VOTED), OwnStore(), OwnLog()) && OtherVoted(tr, PROPOSED)
    ensures Onward(tr, tr', OWNER) && Snap(tr', OWNER, OwnChains(ONE_COUNTED), OwnStore(), OwnLog())
  {
    BallotsExist(Last(tr));
    FirstIsCounted(Last(tr)[OWNER]);
    tr' := Go(tr, OWNER, OnVote(VoteFor(PROPOSED, OTHER), NO_DRAFT));
    SwapOwner(OWN_VOTED, ONE_COUNTED);
  }

  lemma SwapOwner(a: Chain, b: Chain)
    ensures OwnChains(a)[OWNER := b] == OwnChains(b) && OWNER in OwnChains(a) && OwnChains(a)[OWNER] == a
  {}

  const SECOND_BLOCK := Proposal(OwnChains(MIXED_CHAIN), OWNER, false, NO_DRAFT)

  lemma OwnerCountsTwo(tr: seq<World>) returns (tr': seq<World>)
    requires Snap(tr, OWNER, OwnChains(ONE_COUNTED), OwnStore(), OwnLog()) && OtherVoted(tr, PROPOSED)
    ensures Onward(tr, tr', OWNER)
    ensures Snap(tr', OWNER, OwnChains(MIXED_CHAIN), OwnStore(), OwnLog() + [Proposed(SECOND_BLOCK)])
  {
    BallotsExist(Last(tr));
    SwapOwner(ONE_COUNTED, MIXED_CHAIN);
    SecondIsCounted(Last(tr)[OWNER]);
    tr' := Go(tr, OWNER, OnVote(VoteFor(FOREIGN, LEADER), NO_DRAFT));
  }

  // ----- The run -----

  lemma Lookups()
    ensures ReadyToCommit(OwnChains(MIXED_CHAIN)[LEADER := ABOVE_MIDDLE],
                          WithBlocks(OwnStore())[DigestOf(HIGHEST) := HIGHEST], FOREIGN)
    ensures ReadyToCommit(OtherChains()[LEADER := ABOVE_MIDDLE],
                          WithBlocks(OtherStore())[DigestOf(HIGHEST) := HIGHEST], PROPOSED)
    ensures GetBlock(WithBlocks(OwnStore()), DigestOf(MIDDLE)) == Some(MIDDLE)
    ensures GetBlock(WithBlocks(OtherStore()), DigestOf(MIDDLE)) == Some(MIDDLE)
    ensures OwnChains(MIXED_CHAIN)[LEADER] == NewChain(LEADER) && OtherChains()[LEADER] == NewChain(LEADER)
  {
    ThreeIsValid();
    MixedEntry();
    assert CERTIFIED.heightToDigest == map[1 := DigestOf(PROPOSED)];
  }

  lemma OwnerDelivers(tr: seq<World>) returns (tr': seq<World>)
    requires Snap(tr, OWNER, NewChains(Three()), map[], [Proposed(PROPOSED)]) && OtherReady(tr)
    ensures Onward(tr, tr', OWNER) && RecordIs(Last(tr')[OWNER], FOREIGN)
  {
    Lookups();
    var tr1 := OwnerStores(tr);
    var tr2 := OwnerCountsOne(tr1);
    var tr3 := OwnerCountsTwo(tr2);
    var log := OwnLog() + [Proposed(SECOND_BLOCK)];
    var tr4 := Climb(tr3, OWNER, OwnChains(MIXED_CHAIN), OwnStore(), log);
    tr' := CommitRound(tr4, OWNER, OwnChains(MIXED_CHAIN)[LEADER := ABOVE_MIDDLE], WithBlocks(OwnStore()),
                       log + [Voted(LOWEST, 0)] + [Voted(MIDDLE, 0)], FOREIGN);
    OnwardOn(tr, tr1, tr2, OWNER);
    OnwardOn(tr, tr2, tr3, OWNER);
    OnwardOn(tr, tr3, tr4, OWNER);
    OnwardOn(tr, tr4, tr', OWNER);
  }

  /** Both nodes committed the leader's first height, every commit returned true and none led back; from
      the same counters they delivered different blocks. What the owner delivered on its own chain is
      not certified. */
  ghost predicate Diverged(tr: seq<World>) {
    && Ran(tr)
    && var g, r, s := CertifiedAt(Three(), tr), RecordsOf(Last(tr)[OWNER])[0], RecordsOf(Last(tr)[OTHER])[0];
       && Plain(r) && Plain(s) && r.epoch == s.epoch == 0 && r.start == s.start && r.top == s.top == 1
       && r.out == [FOREIGN, LOWEST] && s.out == [PROPOSED, LOWEST]
       && !PrefixComparable(Digests(r.out), Digests(s.out))
       && !OwnIsCertified(Three(), g, OWNER, r) && OwnIsCertified(Three(), g, OTHER, s)
  }

  lemma ForeignIsNotCertified(g: Certified, r: Record)
    requires WellCertified(g) && r.epoch == 0 && 1 in r.own && r.own[1] == DigestOf(FOREIGN)
    ensures !OwnIsCertified(Three(), g, OWNER, r)
  {
    ThreeIsValid();
    assert Shown(LEADER, r.own[1]).author == OTHER;
    assert (OWNER, 1) in g ==> Shown(LEADER, g[(OWNER, 1)]).author == OWNER;
  }

  lemma NotComparable()
    ensures !PrefixComparable(Digests([FOREIGN, LOWEST]), Digests([PROPOSED, LOWEST]))
  {
    assert Digests([FOREIGN, LOWEST])[0] != Digests([PROPOSED, LOWEST])[0];
  }

  lemma RunIsCertified(tr: seq<World>)
    requires Ran(tr)
    ensures WellCertified(CertifiedAt(Three(), tr))
  {
    RunKeepsInv(Three(), tr);
    DigestsAreWellCertified(Three(), Last(tr));
  }

  lemma RecordsDiverge(tr: seq<World>)
    requires Ran(tr) && RecordIs(Last(tr)[OWNER], FOREIGN) && RecordIs(Last(tr)[OTHER], PROPOSED)
    requires Last(tr)[OWNER].name == OWNER && Last(tr)[OTHER].name == OTHER
    ensures Diverged(tr)
  {
    RunIsCertified(tr);
    ForeignIsNotCertified(CertifiedAt(Three(), tr), RecordsOf(Last(tr)[OWNER])[0]);
    NotComparable();
  }

  lemma OtherIsReady(tr: seq<World>, log: seq<ChainEvent>)
    requires Ran(tr) && Last(tr)[OTHER].ledger.log == log
    requires log == OtherLog() + [Voted(LOWEST, 0)] + [Voted(MIDDLE, 0)]
    ensures OtherReady(tr)
  {
    assert log[1] == Voted(PROPOSED, 0) && log[2] == Voted(LOWEST, 0) && log[3] == Voted(MIDDLE, 0);
  }

  /** There is a run in which two honest nodes diverge. */
  lemma HonestNodesDiverge()
    ensures exists tr: seq<World> :: Diverged(tr)
  {
    Lookups();
    var tr0 := Starts();
    var tr1 := OtherPrepares(tr0);
    var tr2 := Climb(tr1, OTHER, OtherChains(), OtherStore(), OtherLog());
    var log := OtherLog() + [Voted(LOWEST, 0)] + [Voted(MIDDLE, 0)];
    OtherIsReady(tr2, log);
    var tr3 := OwnerDelivers(tr2);
    var tr4 := CommitRound(tr3, OTHER, OtherChains()[LEADER := ABOVE_MIDDLE], WithBlocks(OtherStore()), log, PROPOSED);
    RunKeepsInv(Three(), tr4);
    RecordsDiverge(tr4);
  }
}
