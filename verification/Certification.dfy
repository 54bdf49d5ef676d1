/** What a node's chains hold is certified: every table entry and every high certificate of another
    authority's chain goes back to an accepted certificate of that chain. What the node assembled for
    its own chain is made of votes that were really cast, though perhaps not for one block. */
module Certification {
  import opened Committees
  import opened Options
  import opened Messages
  import opened Aggregators
  import opened Commits
  import opened Nodes
  import opened NodeSafety
  import opened Worlds
  import opened Systems

  ghost predicate OwnQc(c: Committee, k: Knowledge, x: PublicKey, qc: QC) {
    IsGenesis(qc) || (Certificate(c, k, qc) && qc.proposer == x)
  }

  /** Made of votes that were cast for the chain: a certificate of it, if it is accepted. */
  ghost predicate OwnMade(k: Knowledge, x: PublicKey, qc: QC) {
    IsGenesis(qc) || (VotesUnforged(k, qc.votes) && qc.proposer == x)
  }

  lemma AcceptedIsCertificate(c: Committee, k: Knowledge, x: PublicKey, qc: QC)
    requires OwnMade(k, x, qc) && (IsGenesis(qc) || QcAccepted(c, qc))
    ensures OwnQc(c, k, x, qc)
  {}

  ghost predicate ChainCertified(c: Committee, k: Knowledge, x: PublicKey, chain: Chain) {
    EntriesCertified(c, k, x, chain) && OwnQc(c, k, x, chain.highQc)
  }

  ghost predicate BallotsInv(k: Knowledge, chain: Chain) {
    forall h | h in chain.aggregator.votes :: VotesUnforged(k, chain.aggregator.votes[h].votes)
  }

  /** What an own proposal extends. */
  ghost predicate ProposalInv(c: Committee, k: Knowledge, n: Core, b: Block) {
    && n.name in n.ledger.chains && b.author == n.name && b.epoch <= n.ledger.chains[n.name].epoch
    && Said(n.name, BlockS(DigestOf(b))) in k
    && (b.epoch == 0 ==> b.height == b.qc.height + 1) && OwnMade(k, n.name, b.qc)
  }

  ghost predicate SignedEvent(c: Committee, k: Knowledge, n: Core, ev: ChainEvent) {
    match ev
    case Voted(b, _) => ProperBlock(c, k, b) || Proposed(b) in n.ledger.log
    case Proposed(b) => ProposalInv(c, k, n, b)
    case TimedOut(_, _) => true
  }

  ghost predicate EventsInv(c: Committee, k: Knowledge, n: Core) {
    forall i :: 0 <= i < |n.ledger.log| ==> SignedEvent(c, k, n, n.ledger.log[i])
  }

  /** Other authorities' chains are certified throughout. */
  ghost predicate ChainBacked(c: Committee, k: Knowledge, name: PublicKey, x: PublicKey, chain: Chain) {
    if x == name then OwnMade(k, x, chain.highQc) else ChainCertified(c, k, x, chain)
  }

  ghost predicate ChainsCertified(c: Committee, k: Knowledge, n: Core) {
    forall x | x in n.ledger.chains ::
      BallotsInv(k, n.ledger.chains[x]) && ChainBacked(c, k, n.name, x, n.ledger.chains[x])
  }

  /** A chain in its owner's first tenure is one above its high certificate. */
  ghost predicate NextToTop(n: Core) {
    forall x | x in n.ledger.chains ::
      n.ledger.chains[x].epoch == 0 ==> n.ledger.chains[x].height == n.ledger.chains[x].highQc.height + 1
  }

  ghost predicate CertInv(c: Committee, k: Knowledge, n: Core) {
    ContentAddressed(n.ledger.store) && ChainsCertified(c, k, n) && EventsInv(c, k, n) && NextToTop(n)
  }

  // ----- Growth -----

  lemma CertificateGrows(c: Committee, k: Knowledge, k': Knowledge, q: QC)
    requires k <= k' && Certificate(c, k, q)
    ensures Certificate(c, k', q)
  {}

  lemma OwnQcGrows(c: Committee, k: Knowledge, k': Knowledge, x: PublicKey, qc: QC)
    requires k <= k' && OwnQc(c, k, x, qc)
    ensures OwnQc(c, k', x, qc)
  {}

  lemma CertGrows(c: Committee, k: Knowledge, k': Knowledge, n: Core)
    requires k <= k' && CertInv(c, k, n)
    ensures CertInv(c, k', n)
  {}

  // ----- Steps that assemble nothing -----

  /** The chain keeps or loses ballots and entries, and keeps its certificate. */
  ghost predicate Keeps(a: Chain, b: Chain) {
    && b.highQc == a.highQc && b.height == a.height && b.epoch == a.epoch
    && b.heightToDigest == a.heightToDigest && b.aggregator.votes == a.aggregator.votes
  }

  ghost predicate KeepsAll(n: Core, n': Core) {
    && n'.name == n.name
    && n'.ledger.chains.Keys == n.ledger.chains.Keys
    && forall x | x in n.ledger.chains :: Keeps(n.ledger.chains[x], n'.ledger.chains[x])
  }

  /** Events stay in order when the log grows and the own chain's epoch does not fall. */
  lemma EventsKeep(c: Committee, k: Knowledge, n: Core, n': Core)
    requires EventsInv(c, k, n) && n'.name == n.name && n.ledger.log <= n'.ledger.log
    requires n.name in n.ledger.chains ==>
               n.name in n'.ledger.chains && n.ledger.chains[n.name].epoch <= n'.ledger.chains[n.name].epoch
    requires forall i :: |n.ledger.log| <= i < |n'.ledger.log| ==> SignedEvent(c, k, n', n'.ledger.log[i])
    ensures EventsInv(c, k, n')
  {}

  lemma QuietCert(c: Committee, k: Knowledge, n: Core, n': Core)
    requires CertInv(c, k, n) && KeepsAll(n, n') && ContentAddressed(n'.ledger.store)
    requires n.ledger.log <= n'.ledger.log
    requires forall i :: |n.ledger.log| <= i < |n'.ledger.log| ==> SignedEvent(c, k, n', n'.ledger.log[i])
    ensures CertInv(c, k, n')
  {}

  lemma CommitCert(c: Committee, k: Knowledge, n: Core, stale: Chain, height: Option<nat>)
    requires NodeInv(c, n) && CertInv(c, k, n)
    ensures CertInv(c, k, CommitTo(c, n, stale, height))
  {
    var n' := CommitTo(c, n, stale, height);
    CommitToKeeps(c, n, stale, height);
    forall x | x in n.ledger.chains ensures Keeps(n.ledger.chains[x], n'.ledger.chains[x]) {
      assert OnlyCounters(n.ledger.chains[x], n'.ledger.chains[x]);
    }
    QuietCert(c, k, n, n');
  }

  lemma VoteOnCert(c: Committee, k: Knowledge, n: Core, b: Block)
    requires CertInv(c, k, n) && b.author in n.ledger.chains
    requires ProperBlock(c, k, b) || Proposed(b) in n.ledger.log
    ensures CertInv(c, k, VoteOn(c, n, b))
  {}

  lemma StoreBlockCert(c: Committee, k: Knowledge, n: Core, b: Block)
    requires CertInv(c, k, n)
    ensures CertInv(c, k, StoreBlock(n, b))
  {}

  lemma ProcessBlockCert(c: Committee, k: Knowledge, n: Core, stale: Chain, b: Block)
    requires NodeInv(c, n) && CertInv(c, k, n) && b.author in n.ledger.chains
    requires ProperBlock(c, k, b) || Proposed(b) in n.ledger.log
    ensures CertInv(c, k, ProcessBlock(c, n, stale, b))
  {
    var n1 := StoreBlock(n, b);
    StoreBlockCert(c, k, n, b);
    CommitToKeeps(c, n1, stale, TwoChain(c, n1, b));
    CommitCert(c, k, n1, stale, TwoChain(c, n1, b));
    VoteOnCert(c, k, CommitTo(c, n1, stale, TwoChain(c, n1, b)), b);
  }

  lemma CountTimeoutCert(c: Committee, k: Knowledge, n: Core, t: Timeout)
    requires CertInv(c, k, n) && LeaderOf(c, t.epoch) in n.ledger.chains
    ensures CertInv(c, k, CountTimeout(c, n, t))
  {
    CountTimeoutFrame(c, n, t);
    var n' := CountTimeout(c, n, t);
    forall x | x in n.ledger.chains ensures Keeps(n.ledger.chains[x], n'.ledger.chains[x]) {
      assert OnlyTimers(n.ledger.chains[x], n'.ledger.chains[x]);
    }
    QuietCert(c, k, n, n');
  }

  lemma SignTimeoutCert(c: Committee, k: Knowledge, n: Core)
    requires CertInv(c, k, n) && LeaderOf(c, n.epoch) in n.ledger.chains
    ensures CertInv(c, k, SignTimeout(c, n))
  {}

  // ----- Certificates -----

  lemma OneChainCert(c: Committee, k: Knowledge, n: Core, n': Core, x: PublicKey)
    requires ChainsCertified(c, k, n) && NextToTop(n) && x in n.ledger.chains && x in n'.ledger.chains
    requires n'.ledger.chains == n.ledger.chains[x := n'.ledger.chains[x]]
    requires n'.name == n.name && BallotsInv(k, n'.ledger.chains[x])
    requires ChainBacked(c, k, n.name, x, n'.ledger.chains[x])
    requires n'.ledger.chains[x].epoch == 0 ==> n'.ledger.chains[x].height == n'.ledger.chains[x].highQc.height + 1
    ensures ChainsCertified(c, k, n') && NextToTop(n')
  {}

  lemma QcShape(k: Knowledge, epoch: nat, chain: Chain, qc: QC)
    requires BallotsInv(k, chain) && (chain.epoch == 0 ==> chain.height == chain.highQc.height + 1)
    ensures var chain' := QcOnChain(epoch, chain, qc);
            && BallotsInv(k, chain') && chain'.epoch == chain.epoch
            && (chain'.epoch == 0 ==> chain'.height == chain'.highQc.height + 1)
  {}

  lemma ProcessQcCert(c: Committee, k: Knowledge, n: Core, x: PublicKey, qc: QC)
    requires CertInv(c, k, n) && x in n.ledger.chains
    requires OwnQc(c, k, x, qc) || qc == n.ledger.chains[x].highQc
    ensures CertInv(c, k, ProcessQc(n, x, qc))
  {}

  lemma AppendBallot(c: Committee, k: Knowledge, m: VoteMaker, vote: Vote)
    requires VotesUnforged(k, m.votes) && Unforged(k, vote.signature)
    ensures VotesUnforged(k, QcAppend(c, m, vote).0.votes)
    ensures QcAppend(c, m, vote).1.Made? ==> OwnMade(k, vote.proposer, QcAppend(c, m, vote).1.value)
  {}

  /** The own proposal made at the chain's new state. */
  lemma ProposalIsOwn(c: Committee, k: Knowledge, n': Core, tag: bool, draft: Draft)
    requires n'.name in n'.ledger.chains
    requires var b, chain := Proposal(n'.ledger.chains, n'.name, tag, draft), n'.ledger.chains[n'.name];
             && Said(n'.name, BlockS(DigestOf(b))) in k
             && (tag ==> chain.epoch > 0)
             && (chain.epoch == 0 ==> chain.height == chain.highQc.height + 1)
             && OwnMade(k, n'.name, chain.highQc)
    ensures ProposalInv(c, k, n', Proposal(n'.ledger.chains, n'.name, tag, draft))
  {}

  /** The signatures on the proposals just made exist. */
  ghost predicate OwnBlocksKnown(k: Knowledge, n: Core) {
    forall b :: Proposed(b) in n.ledger.log ==> Said(n.name, BlockS(DigestOf(b))) in k
  }

  lemma CountedVoteCert(c: Committee, k: Knowledge, n: Core, vote: Vote, draft: Draft)
    requires CertInv(c, k, n) && vote.proposer == n.name && n.name in n.ledger.chains
    requires Unforged(k, vote.signature)
    ensures var l := CountVote(c, n.epoch, n.ledger, vote, draft);
            && ChainsCertified(c, k, n.(ledger := l)) && NextToTop(n.(ledger := l))
            && n.name in l.chains && l.chains[n.name].epoch == n.ledger.chains[n.name].epoch
  {
    var x, chain := n.name, n.ledger.chains[n.name];
    var m := Entry(chain.aggregator.votes, vote.height);
    AppendBallot(c, k, m, vote);
    var (tables, r) := AddVote(c, chain.aggregator, vote);
    var chain1 := chain.(aggregator := tables);
    assert BallotsInv(k, chain1);
    var l := CountVote(c, n.epoch, n.ledger, vote, draft);
    if r.Made? {
      QcShape(k, n.epoch, chain1, r.value);
    }
    OneChainCert(c, k, n, n.(ledger := l), x);
  }

  lemma HandleVoteCert(c: Committee, k: Knowledge, n: Core, vote: Vote, draft: Draft)
    requires CertInv(c, k, n) && vote.proposer == n.name && n.name in n.ledger.chains
    requires Unforged(k, vote.signature) && OwnBlocksKnown(k, HandleVote(c, n, vote, draft))
    ensures CertInv(c, k, HandleVote(c, n, vote, draft))
  {
    if vote.height >= n.ledger.chains[n.name].height && VoteAccepted(c, vote) {
      var n' := HandleVote(c, n, vote, draft);
      CountedVoteCert(c, k, n, vote, draft);
      if |n'.ledger.log| > |n.ledger.log| {
        assert n'.ledger.log[|n.ledger.log|] in n'.ledger.log;
        ProposalIsOwn(c, k, n', false, draft);
      }
      EventsKeep(c, k, n, n');
    }
  }

  lemma NextEpochCert(c: Committee, k: Knowledge, n: Core, draft: Draft)
    requires NodeInv(c, n) && CertInv(c, k, n) && n.aba.output.Some?
    requires OwnBlocksKnown(k, NextEpoch(c, n, draft))
    ensures CertInv(c, k, NextEpoch(c, n, draft))
  {
    var x, n' := LeaderOf(c, n.epoch), NextEpoch(c, n, draft);
    var l := NextEpochLedger(n.ledger, x, n.name, n.epoch + 1, n.aba.output.value, draft);
    assert n'.ledger == l;
    var chain := n.ledger.chains[x];
    RestartedBacked(c, k, n.name, x, chain, n.aba.output.value);
    OneChainCert(c, k, n, n', x);
    if x == n.name {
      assert l.log[|n.ledger.log|] in l.log;
      ProposalIsOwn(c, k, n', true, draft);
    }
    EventsKeep(c, k, n, n');
  }

  lemma RestartedBacked(c: Committee, k: Knowledge, name: PublicKey, x: PublicKey, chain: Chain, output: nat)
    requires ChainBacked(c, k, name, x, chain)
    ensures ChainBacked(c, k, name, x, Restarted(chain, output))
  {}

  lemma CloseEpochCert(c: Committee, k: Knowledge, n: Core, draft: Draft)
    requires NodeInv(c, n) && CertInv(c, k, n) && n.aba.output.Some?
    requires OwnBlocksKnown(k, CloseEpoch(c, n, draft))
    ensures CertInv(c, k, CloseEpoch(c, n, draft))
  {
    var stale, b := n.ledger.chains[LeaderOf(c, n.epoch)], Closing(c, n);
    if b.Some? {
      CommitToKeeps(c, n, stale, Some(b.value.height));
      CommitCert(c, k, n, stale, Some(b.value.height));
      var n1 := ClosingCommit(c, n, b.value);
      assert CloseEpoch(c, n, draft) == NextEpoch(c, n1, draft);
      NextEpochCert(c, k, n1, draft);
    }
  }

  lemma SameLedgerCert(c: Committee, k: Knowledge, n: Core, n': Core)
    requires CertInv(c, k, n) && n'.ledger == n.ledger && n'.name == n.name
    ensures CertInv(c, k, n')
  {}

  // ----- Whole runs -----

  ghost predicate AllCert(c: Committee, w: World) {
    forall x | x in w :: CertInv(c, Known(w), w[x])
  }

  lemma ActionKeepsCert(c: Committee, k: Knowledge, k': Knowledge, n: Core, a: Action)
    requires NodeInv(c, n) && Enabled(c, k, n, a) && k <= k'
    requires CertInv(c, k', n) && OwnBlocksKnown(k', Apply(c, k, n, a))
    ensures CertInv(c, k', Apply(c, k, n, a))
  {
    match a
    case OnQc(x, qc) =>
      if OwnQc(c, k, x, qc) {
        OwnQcGrows(c, k, k', x, qc);
      }
      ProcessQcCert(c, k', n, x, qc);
    case OnBlock(b, stale) =>
      if ProperBlock(c, k, b) {
        OwnQcGrows(c, k, k', b.author, b.qc);
      }
      ProcessBlockCert(c, k', n, stale, b);
    case OnVote(v, draft) => HandleVoteCert(c, k', n, v, draft);
    case OnTimeout(t) => CountTimeoutCert(c, k', n, t);
    case TimeOut => SignTimeoutCert(c, k', n);
    case Close(draft) => CloseEpochCert(c, k', n, draft);
    case _ => OtherActionCert(c, k, k', n, a);
  }

  lemma OtherActionCert(c: Committee, k: Knowledge, k': Knowledge, n: Core, a: Action)
    requires NodeInv(c, n) && Enabled(c, k, n, a) && CertInv(c, k', n)
    requires !OnChains(a) || a.OnTc? || a.EnterViewChange?
    requires !a.Close?
    ensures CertInv(c, k', Apply(c, k, n, a))
  {
    var n' := Apply(c, k, n, a);
    OtherActionFrame(c, k, n, a);
    ActionGrowsLogs(c, k, n, a);
    SameLedgerCert(c, k', n, n');
  }

  lemma OwnBlocksAreKnown(w: World, x: PublicKey)
    requires x in w && w[x].name == x
    ensures OwnBlocksKnown(Known(w), w[x])
  {}

  lemma ActorCert(c: Committee, w: World, w': World, x: PublicKey, a: Action)
    requires SystemInv(c, w) && AllCert(c, w) && StepBy(c, w, w', x, a)
    ensures x in w' && w' == w[x := w'[x]] && Known(w) <= Known(w')
    ensures CertInv(c, Known(w'), w'[x])
  {
    StepGrows(c, w, w', x, a);
    CertGrows(c, Known(w), Known(w'), w[x]);
    OwnBlocksAreKnown(w', x);
    ActionKeepsCert(c, Known(w), Known(w'), w[x], a);
  }

  lemma OthersCert(c: Committee, w: World, w': World, x: PublicKey)
    requires AllCert(c, w) && x in w' && w' == w[x := w'[x]] && Known(w) <= Known(w')
    requires CertInv(c, Known(w'), w'[x])
    ensures AllCert(c, w')
  {}

  lemma StepKeepsCert(c: Committee, w: World, w': World)
    requires SystemInv(c, w) && AllCert(c, w) && Step(c, w, w')
    ensures AllCert(c, w')
  {
    var x, a :| StepBy(c, w, w', x, a);
    ActorCert(c, w, w', x, a);
    OthersCert(c, w, w', x);
  }

  lemma StartCert(c: Committee, w: World)
    requires Start(c, w)
    ensures AllCert(c, w)
  {}

  lemma {:induction false} RunKeepsCert(c: Committee, tr: seq<World>)
    requires Run(c, tr) && FaultBound(c, tr[0])
    ensures AllCert(c, Last(tr))
    decreases |tr|
  {
    if |tr| == 1 {
      StartCert(c, tr[0]);
    } else {
      var front := tr[..|tr| - 1];
      PrefixRun(c, tr, |tr| - 1);
      RunKeepsCert(c, front);
      RunKeepsInv(c, front);
      assert Step(c, tr[|tr| - 2], tr[|tr| - 1]);
      StepKeepsCert(c, Last(front), Last(tr));
    }
  }
}
