/** Runs of the two honest nodes of `ThreeNodes`, step by step. The third authority has signed whatever
    it takes. */
module ThreeRuns {
  import opened Committees
  import opened Options
  import opened Messages
  import opened Aggregators
  import opened Commits
  import opened Delivery
  import opened Reentries
  import opened Nodes
  import opened NodeSafety
  import opened Worlds
  import opened Systems
  import opened Certification
  import opened ThreeNodes
  import T = Turns
  import D = DeliveryTheorems

  const NO_DRAFT := Draft([], [])

  /** The faulty leader can have signed anything. */
  lemma CertExists(w: World, b: Block)
    requires LEADER !in w && OTHER in w && b.epoch == 0 && Voted(b, 0) in w[OTHER].ledger.log
    ensures Certificate(Three(), Known(w), Cert(b))
  {
    CertIsAccepted(b);
    var s := VoteS(DigestOf(b), b.epoch, b.height, b.author);
    assert IsVote(Voted(b, 0), s);
    assert SignedLedger(w[OTHER].ledger.log, s);
  }

  // ----- Runs -----

  /** One node's ledger at the end of a run, in the first epoch. */
  ghost predicate At(tr: seq<World>, x: PublicKey, chains: Chains, store: Store, log: seq<ChainEvent>, rec: Record) {
    && Ran(tr) && x in Last(tr) && NodeInv(Three(), Last(tr)[x])
    && var n := Last(tr)[x];
       && n.name == x && n.epoch == 0 && !n.viewChange
       && n.ledger == Ledger(chains, store, log, rec, [])
  }

  /** The record of a node that has committed nothing. */
  ghost function Fresh(): Record {
    NewRecord(0, NewChains(Three()))
  }

  ghost predicate Ran(tr: seq<World>) {
    Run(Three(), tr) && FaultBound(Three(), tr[0]) && Last(tr).Keys == {OWNER, OTHER}
  }

  /** The run goes on with steps of x alone. */
  ghost predicate Onward(tr: seq<World>, tr': seq<World>, x: PublicKey) {
    && Ran(tr) && Ran(tr')
    && (forall y :: y in Last(tr) && y != x ==> Last(tr')[y] == Last(tr)[y])
    && Known(Last(tr)) <= Known(Last(tr'))
  }

  lemma OnwardOn(a: seq<World>, b: seq<World>, d: seq<World>, x: PublicKey)
    requires Onward(a, b, x) && Onward(b, d, x)
    ensures Onward(a, d, x)
  {}

  lemma Steps(w: World, x: PublicKey, a: Action) returns (w': World)
    requires x in w && NodeInv(Three(), w[x]) && Enabled(Three(), Known(w), w[x], a)
    ensures Step(Three(), w, w') && w'.Keys == w.Keys && w' == w[x := Apply(Three(), Known(w), w[x], a)]
    ensures NodeInv(Three(), w'[x]) && Known(w) <= Known(w')
  {
    var n' := Apply(Three(), Known(w), w[x], a);
    w' := w[x := n'];
    assert StepBy(Three(), w, w', x, a);
    ActionKeepsNode(Three(), Known(w), w[x], a);
    ActionGrowsLogs(Three(), Known(w), w[x], a);
    KnownGrows(w, x, n');
  }

  lemma Go(tr: seq<World>, x: PublicKey, a: Action) returns (tr': seq<World>)
    requires Ran(tr) && x in Last(tr) && NodeInv(Three(), Last(tr)[x])
    requires Enabled(Three(), Known(Last(tr)), Last(tr)[x], a)
    ensures Onward(tr, tr', x) && x in Last(tr') && NodeInv(Three(), Last(tr')[x])
    ensures Last(tr')[x] == Apply(Three(), Known(Last(tr)), Last(tr)[x], a)
  {
    var w' := Steps(Last(tr), x, a);
    T.ReachesStep(Three(), Last(tr), w');
    tr' := T.RunGoesOn(Three(), tr, w');
  }

  // ----- One block, one certificate -----

  ghost predicate CommitsNothing(store: Store, b: Block) {
    b.author == LEADER ==>
      match Ancestors(store, b) case None => true case Some(bs) => Committing(LEADER, bs.0, bs.1).None?
  }

  ghost predicate Votable(chain: Chain, b: Block) {
    && b.epoch == 0 && chain.epoch == 0 && chain.height == b.height && chain.lastVoted < b.height
    && b.qc.height + 1 == b.height && b.qc.height <= chain.highQc.height
  }

  /** The table's own entry of the leader's chain is always a state it may stand in. */
  lemma EntryStands(tr: seq<World>, x: PublicKey)
    requires Ran(tr) && x in Last(tr) && NodeInv(Three(), Last(tr)[x]) && Last(tr)[x].epoch == 0
    ensures LeaderOf(Three(), 0) == LEADER && LEADER in Last(tr)[x].ledger.chains
    ensures Standing(Three(), Known(Last(tr)), Last(tr)[x], Last(tr)[x].ledger.chains[LEADER])
  {
    ThreeIsValid();
    D.RunNode(Three(), tr, x);
    assert ChainBacked(Three(), Known(Last(tr)), x, LEADER, Last(tr)[x].ledger.chains[LEADER]);
  }

  /** A block that is voted for and commits nothing. */
  lemma TakeBlock(tr: seq<World>, x: PublicKey, chains: Chains, store: Store, log: seq<ChainEvent>, rec: Record,
                  b: Block)
    returns (tr': seq<World>)
    requires At(tr, x, chains, store, log, rec) && LEADER in chains
    requires b.author in chains && Votable(chains[b.author], b)
    requires ProperBlock(Three(), Known(Last(tr)), b) || Proposed(b) in log
    requires CommitsNothing(store[DigestOf(b) := b], b)
    ensures Onward(tr, tr', x)
    ensures At(tr', x, chains[b.author := chains[b.author].(lastVoted := b.height)], store[DigestOf(b) := b],
               log + [Voted(b, 0)], rec)
  {
    var n, stale := Last(tr)[x], chains[LEADER];
    BlockIsTaken(n, stale, b);
    EntryStands(tr, x);
    tr' := Go(tr, x, OnBlock(b, stale));
  }

  lemma BlockIsTaken(n: Core, stale: Chain, b: Block)
    requires NodeInv(Three(), n) && n.epoch == 0 && !n.viewChange && b.author in n.ledger.chains
    requires Votable(n.ledger.chains[b.author], b) && CommitsNothing(n.ledger.store[DigestOf(b) := b], b)
    ensures LeaderOf(Three(), 0) == LEADER && BlockReturns(Three(), n, stale, b)
    ensures ProcessBlock(Three(), n, stale, b)
            == n.(ledger := n.ledger.(
                    chains := n.ledger.chains[b.author := n.ledger.chains[b.author].(lastVoted := b.height)],
                    store := n.ledger.store[DigestOf(b) := b], log := n.ledger.log + [Voted(b, 0)]))
  {
    ThreeIsValid();
    var n1 := StoreBlock(n, b);
    assert TwoChain(Three(), n1, b).None?;
    assert CommitTo(Three(), n1, stale, None) == n1;
    assert CastsVote(Three(), n1, b);
  }

  /** A block of the leader that comes too late to be voted for and commits nothing is only stored. */
  lemma TakeLate(tr: seq<World>, x: PublicKey, chains: Chains, store: Store, log: seq<ChainEvent>, rec: Record,
                 b: Block) returns (tr': seq<World>)
    requires At(tr, x, chains, store, log, rec) && LEADER in chains && b.author == LEADER
    requires b.height < chains[LEADER].height && !IsGenesis(b.qc) && b.qc.height <= chains[LEADER].highQc.height
    requires ProperBlock(Three(), Known(Last(tr)), b) && CommitsNothing(store[DigestOf(b) := b], b)
    ensures Onward(tr, tr', x) && At(tr', x, chains, store[DigestOf(b) := b], log, rec)
  {
    var n, stale := Last(tr)[x], chains[LEADER];
    EntryStands(tr, x);
    var n1 := StoreBlock(n, b);
    assert TwoChain(Three(), n1, b).None?;
    assert CommitTo(Three(), n1, stale, None) == n1;
    assert !CastsVote(Three(), n1, b);
    tr' := Go(tr, x, OnBlock(b, stale));
  }

  ghost predicate CommitsHeight(store: Store, b: Block, height: nat) {
    match Ancestors(store, b) case None => false case Some(bs) => Committing(LEADER, bs.0, bs.1) == Some(height)
  }

  /** The record after a commit on the chain as the table has it. */
  ghost function RecordAfter(x: PublicKey, chains: Chains, store: Store, rec: Record, height: nat, r: Call): Record
    requires LEADER in chains && r.Returned?
  {
    AfterRecord(Ledger(chains, store, [], rec, []), x, LEADER, chains[LEADER], height, r)
  }

  /** A block of the leader that is voted for and commits a height. */
  lemma TakeCommit(tr: seq<World>, x: PublicKey, chains: Chains, store: Store, log: seq<ChainEvent>, rec: Record,
                   b: Block, height: nat, r: Call) returns (tr': seq<World>)
    requires At(tr, x, chains, store, log, rec) && LEADER in chains && b.author == LEADER && Votable(chains[LEADER], b)
    requires ProperBlock(Three(), Known(Last(tr)), b) && CommitsHeight(store[DigestOf(b) := b], b, height)
    requires r == CommitResult(store[DigestOf(b) := b], LEADER, chains, chains[LEADER], height) && r.Returned?
    ensures Onward(tr, tr', x)
    ensures At(tr', x, r.chains[LEADER := r.chain.(lastVoted := b.height)], store[DigestOf(b) := b],
               log + [Voted(b, 0)], RecordAfter(x, chains, store[DigestOf(b) := b], rec, height, r))
  {
    EntryStands(tr, x);
    BlockCommits(Last(tr)[x], b, height, r);
    tr' := Go(tr, x, OnBlock(b, chains[LEADER]));
  }

  lemma BlockCommits(n: Core, b: Block, height: nat, r: Call)
    requires NodeInv(Three(), n) && n.epoch == 0 && !n.viewChange && LEADER in n.ledger.chains && b.author == LEADER
    requires Votable(n.ledger.chains[LEADER], b) && CommitsHeight(n.ledger.store[DigestOf(b) := b], b, height)
    requires r == CommitResult(n.ledger.store[DigestOf(b) := b], LEADER, n.ledger.chains, n.ledger.chains[LEADER],
                               height)
    requires r.Returned?
    ensures LeaderOf(Three(), 0) == LEADER && BlockReturns(Three(), n, n.ledger.chains[LEADER], b)
    ensures var store := n.ledger.store[DigestOf(b) := b];
            ProcessBlock(Three(), n, n.ledger.chains[LEADER], b)
            == n.(ledger := Ledger(r.chains[LEADER := r.chain.(lastVoted := b.height)], store,
                                   n.ledger.log + [Voted(b, 0)],
                                   RecordAfter(n.name, n.ledger.chains, store, n.ledger.record, height, r),
                                   n.ledger.past))
  {
    ThreeIsValid();
    var n1, stale := StoreBlock(n, b), n.ledger.chains[LEADER];
    SameEntry(n.ledger.chains, LEADER);
    assert TwoChain(Three(), n1, b) == Some(height);
    assert r == Attempt(n1.ledger, LEADER, stale, height);
    AttemptFrame(n1.ledger, LEADER, stale, height);
    var n2 := CommitTo(Three(), n1, stale, Some(height));
    assert n2.ledger.chains == r.chains[LEADER := r.chain];
    assert CastsVote(Three(), n2, b);
    PutTwice(r.chains, LEADER, r.chain, r.chain.(lastVoted := b.height));
  }

  lemma TakeQc(tr: seq<World>, x: PublicKey, chains: Chains, store: Store, log: seq<ChainEvent>, rec: Record,
               z: PublicKey, qc: QC)
    returns (tr': seq<World>)
    requires At(tr, x, chains, store, log, rec) && z in chains
    requires Certificate(Three(), Known(Last(tr)), qc) && qc.proposer == z
    ensures Onward(tr, tr', x) && At(tr', x, chains[z := QcOnChain(0, chains[z], qc)], store, log, rec)
  {
    tr' := Go(tr, x, OnQc(z, qc));
  }

  ghost predicate OtherVoted(tr: seq<World>, b: Block)
    requires tr != []
  {
    OTHER in Last(tr) && Voted(b, 0) in Last(tr)[OTHER].ledger.log
  }

  lemma PutTwice(chains: Chains, x: PublicKey, a: Chain, b: Chain)
    ensures chains[x := a][x := b] == chains[x := b]
  {}

  lemma SameEntry(chains: Chains, x: PublicKey)
    requires x in chains
    ensures chains[x := chains[x]] == chains
  {}

  lemma VotedNow(tr: seq<World>, x: PublicKey, log: seq<ChainEvent>, b: Block)
    requires Ran(tr) && x in Last(tr)
    requires x == OTHER ==> Last(tr)[x].ledger.log == log + [Voted(b, 0)]
    requires x != OTHER ==> OtherVoted(tr, b)
    ensures OtherVoted(tr, b) && LEADER !in Last(tr)
  {
    if x == OTHER {
      assert Last(tr)[x].ledger.log[|log|] == Voted(b, 0);
    }
  }

  /** A leader block and its certificate. The other node's vote in it is cast now or was cast before. */
  lemma LeaderRound(tr: seq<World>, x: PublicKey, chains: Chains, store: Store, log: seq<ChainEvent>, rec: Record,
                  b: Block)
    returns (tr': seq<World>)
    requires At(tr, x, chains, store, log, rec) && LEADER in chains && b.author == LEADER && Votable(chains[LEADER], b)
    requires ProperBlock(Three(), Known(Last(tr)), b) && CommitsNothing(store[DigestOf(b) := b], b)
    requires x == OTHER || OtherVoted(tr, b)
    ensures Onward(tr, tr', x) && OtherVoted(tr', b)
    ensures At(tr', x, chains[LEADER := QcOnChain(0, chains[LEADER].(lastVoted := b.height), Cert(b))],
               store[DigestOf(b) := b], log + [Voted(b, 0)], rec)
  {
    var tr1 := TakeBlock(tr, x, chains, store, log, rec, b);
    VotedNow(tr1, x, log, b);
    CertExists(Last(tr1), b);
    var once := chains[LEADER].(lastVoted := b.height);
    tr' := TakeQc(tr1, x, chains[LEADER := once], store[DigestOf(b) := b], log + [Voted(b, 0)], rec, LEADER,
                  Cert(b));
    PutTwice(chains, LEADER, once, QcOnChain(0, once, Cert(b)));
    OnwardOn(tr, tr1, tr', x);
    VotedNow(tr', x, log, b);
  }

  // ----- The start -----

  function FirstBlock(x: PublicKey): Block {
    SignedBlock(GENESIS_QC, x, 1, 0, [], [])
  }

  lemma Starts() returns (tr: seq<World>)
    ensures At(tr, OWNER, NewChains(Three()), map[], [Proposed(FirstBlock(OWNER))], Fresh())
    ensures At(tr, OTHER, NewChains(Three()), map[], [Proposed(FirstBlock(OTHER))], Fresh())
  {
    ThreeIsValid();
    var a, b := FirstState(Three(), OWNER, NO_DRAFT), FirstState(Three(), OTHER, NO_DRAFT);
    IsFirst(OWNER);
    IsFirst(OTHER);
    var w: World := map[OWNER := a, OTHER := b];
    assert Three().Members() - w.Keys == {LEADER};
    tr := [w];
  }

  lemma IsFirst(x: PublicKey)
    requires x == OWNER || x == OTHER
    ensures var n := FirstState(Three(), x, NO_DRAFT);
            IsInitial(Three(), n, NO_DRAFT) && NodeInv(Three(), n)
            && n.ledger == Ledger(NewChains(Three()), map[], [Proposed(FirstBlock(x))],
                                  Fresh(), [])
  {
    ThreeIsValid();
    assert References(NewChains(Three()), x, []) == [];
  }
}
