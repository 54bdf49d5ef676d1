/** Commits as the nodes make them, and the height at which a leader's chain restarts. */
module RestartTheorems {
  import opened Committees
  import opened Options
  import opened Messages
  import opened Aggregators
  import opened Commits
  import opened Nodes
  import opened NodeSafety
  import opened Voting
  import opened Worlds
  import opened Justified
  import opened Systems
  import opened ChainTheorems
  import opened Certification
  import opened Records
  import opened Heights
  import A = AgreementTheorems

  // ----- The 2-chain rule as a node applies it -----

  /** The node is about to process the block and the 2-chain rule fires. */
  ghost predicate Fires(c: Committee, tr: seq<World>, x: PublicKey, block: Block, stale: Chain) {
    && Run(c, tr) && FaultBound(c, tr[0]) && x in Last(tr) && NodeInv(c, Last(tr)[x])
    && Enabled(c, Known(Last(tr)), Last(tr)[x], OnBlock(block, stale))
    && TwoChain(c, StoreBlock(Last(tr)[x], block), block).Some?
  }

  ghost function FiredHeight(c: Committee, tr: seq<World>, x: PublicKey, block: Block, stale: Chain): nat
    requires Fires(c, tr, x, block, stale)
  {
    TwoChain(c, StoreBlock(Last(tr)[x], block), block).value
  }

  /** When a node about to process a block commits a height by the 2-chain rule, the two blocks below
      are what `TimeoutCoversCommit` is about exactly when the block's certificate verifies. */
  lemma TwoChainCommits(c: Committee, tr: seq<World>, x: PublicKey, block: Block, stale: Chain)
    requires Fires(c, tr, x, block, stale)
    ensures (exists b0: Block, b1: Block ::
               && b0.height == FiredHeight(c, tr, x, block, stale)
               && CommitsBlock(c, Known(Last(tr)), Last(tr)[x].epoch, b0, b1, block.qc))
            <==> QcAccepted(c, block.qc)
  {
    if QcAccepted(c, block.qc) {
      RunFacts(c, tr);
      var w := Last(tr);
      var n := StoreBlock(w[x], block);
      StoreBlockCert(c, Known(w), w[x], block);
      OwnOrProper(c, Known(w), w[x], block);
      TwoChainFires(c, w, n, block);
    }
  }

  lemma OwnOrProper(c: Committee, k: Knowledge, n: Core, block: Block)
    requires CertInv(c, k, n) && QcAccepted(c, block.qc)
    requires ProperBlock(c, k, block) || Proposed(block) in n.ledger.log
    ensures OwnQc(c, k, block.author, block.qc)
  {
    if Proposed(block) in n.ledger.log {
      var i := InSeq(n.ledger.log, Proposed(block));
      assert SignedEvent(c, k, n, n.ledger.log[i]);
      AcceptedIsCertificate(c, k, n.name, block.qc);
    }
  }

  lemma TwoChainFires(c: Committee, w: World, n: Core, block: Block)
    requires FaultBound(c, w) && ContentAddressed(n.ledger.store)
    requires block.author in n.ledger.chains && block.author != DEFAULT_KEY
    requires OwnQc(c, Known(w), block.author, block.qc) && TwoChain(c, n, block).Some?
    ensures exists b0: Block, b1: Block ::
              b0.height == TwoChain(c, n, block).value && CommitsBlock(c, Known(w), n.epoch, b0, b1, block.qc)
  {
    var b1 := GetBlock(n.ledger.store, block.qc.hash).value;
    var b0 := GetBlock(n.ledger.store, b1.qc.hash).value;
    if IsGenesis(block.qc) {
      assert false;
    }
    CertificateNamesBlock(c, w, block.qc);
    assert CommitsBlock(c, Known(w), n.epoch, b0, b1, block.qc);
  }

  /** In a leader's first tenure, whenever an honest node commits a height by the 2-chain rule on a
      certificate of that tenure, every accepted timeout certificate of the epoch reports it. */
  lemma FirstTenureCommitIsReported(c: Committee, tr: seq<World>, x: PublicKey, block: Block, stale: Chain, tc: TC)
    requires Fires(c, tr, x, block, stale) && QcAccepted(c, block.qc) && block.qc.epoch == 0
    requires var e := Last(tr)[x].epoch; Tenure(c, LeaderOf(c, e), e) == 0 && tc.epoch == e
    requires TimeoutCertificate(c, Known(Last(tr)), tc)
    ensures HighQcRounds(tc) != [] && FiredHeight(c, tr, x, block, stale) <= Maximum(HighQcRounds(tc))
  {
    var b0, b1 := FiredBlocks(c, tr, x, block, stale);
    TimeoutCoversCommit(c, tr, Last(tr)[x].epoch, b0, b1, block.qc, tc);
  }

  /** So no round-1 decision of the epoch undercuts it. */
  lemma FirstTenureCommitIsKept(c: Committee, tr: seq<World>, x: PublicKey, block: Block, stale: Chain,
                                y: PublicKey, v: nat)
    requires Fires(c, tr, x, block, stale) && QcAccepted(c, block.qc) && block.qc.epoch == 0
    requires var e := Last(tr)[x].epoch; Tenure(c, LeaderOf(c, e), e) == 0
    requires y in Last(tr) && Decided(Last(tr)[x].epoch, 1, v) in Last(tr)[y].aba.log
    ensures FiredHeight(c, tr, x, block, stale) <= v
  {
    var b0, b1 := FiredBlocks(c, tr, x, block, stale);
    ClosingNeverUndercuts(c, tr, y, Last(tr)[x].epoch, v, b0, b1, block.qc);
  }

  lemma FiredBlocks(c: Committee, tr: seq<World>, x: PublicKey, block: Block, stale: Chain)
    returns (b0: Block, b1: Block)
    requires Fires(c, tr, x, block, stale) && QcAccepted(c, block.qc) && block.qc.epoch == 0
    requires var e := Last(tr)[x].epoch; Tenure(c, LeaderOf(c, e), e) == 0
    ensures b0.height == FiredHeight(c, tr, x, block, stale)
    ensures CommitsBlock(c, Known(Last(tr)), Last(tr)[x].epoch, b0, b1, block.qc)
    ensures CastWithin(c, Last(tr), block.qc, b1, Last(tr)[x].epoch)
  {
    RunFacts(c, tr);
    TwoChainCommits(c, tr, x, block, stale);
    b0, b1 :| b0.height == FiredHeight(c, tr, x, block, stale)
              && CommitsBlock(c, Known(Last(tr)), Last(tr)[x].epoch, b0, b1, block.qc);
    CertificateNamesBlock(c, Last(tr), block.qc);
    FirstTenureCastsWithin(c, tr, Last(tr)[x].epoch, block.qc, b1);
  }

  // ----- Votes of a first tenure -----

  /** In the first tenure the casting condition of the covering theorems always holds. */
  lemma FirstTenureCastsWithin(c: Committee, tr: seq<World>, e: nat, q: QC, b: Block)
    requires Run(c, tr) && FaultBound(c, tr[0])
    requires LeaderOf(c, e) == b.author && Tenure(c, b.author, e) == 0 && b.epoch == 0
    ensures CastWithin(c, Last(tr), q, b, e)
  {
    RunVotes(c, tr);
    var w := Last(tr);
    forall a, ev | a in w && ev in w[a].ledger.log && ev.Voted? && DigestOf(ev.block) == DigestOf(b)
      ensures ev.voterEpoch <= e && Tenure(c, b.author, ev.voterEpoch) == Tenure(c, b.author, e)
    {
      FirstTenureVote(c, w[a], e, ev);
    }
  }

  lemma FirstTenureVote(c: Committee, n: Core, e: nat, ev: ChainEvent)
    requires LogInv(c, n) && ev in n.ledger.log && ev.Voted? && ev.block.epoch == 0
    requires LeaderOf(c, e) == ev.block.author && Tenure(c, ev.block.author, e) == 0
    ensures ev.voterEpoch <= e && Tenure(c, ev.block.author, ev.voterEpoch) == 0
  {
    var i := InSeq(n.ledger.log, ev);
    assert EventInv(c, n, n.ledger.log[i]);
    if e < ev.voterEpoch {
      TenureGrows(c, ev.block.author, e, ev.voterEpoch);
    }
  }

  /** The block extends genesis or a certificate of its own chain made in the first tenure. */
  ghost predicate ExtendsOwn(c: Committee, k: Knowledge, b: Block) {
    && b.qc.height + 1 == b.height
    && (IsGenesis(b.qc) || (Certificate(c, k, b.qc) && b.qc.proposer == b.author && b.qc.epoch == 0))
  }

  /** The leader extends its own certificates, as far as honest voters can tell. */
  ghost predicate Extending(c: Committee, w: World, x: PublicKey) {
    forall a, ev :: a in w && ev in w[a].ledger.log && FirstBallot(x, ev) ==> ExtendsOwn(c, Known(w), ev.block)
  }

  ghost predicate FirstBallot(x: PublicKey, ev: ChainEvent) {
    ev.Voted? && ev.block.author == x && ev.block.epoch == 0
  }

  ghost predicate BallotAt(n: Core, x: PublicKey, h: nat) {
    exists ev :: ev in n.ledger.log && FirstBallot(x, ev) && ev.block.height == h
  }

  /** A height a quorum voted for in the first tenure is at most one above what every timeout
      certificate of the tenure reports. */
  lemma QuorumReported(c: Committee, w: World, e: nat, h: nat, s: set<PublicKey>, tc: TC)
    requires FaultBound(c, w) && AllVoting(c, w) && Tenure(c, LeaderOf(c, e), e) == 0
    requires Extending(c, w, LeaderOf(c, e))
    requires c.Sum(s) >= QuorumThreshold(c) && forall a | a in s && a in w :: BallotAt(w[a], LeaderOf(c, e), h)
    requires TimeoutCertificate(c, Known(w), tc) && tc.epoch == e
    ensures HighQcRounds(tc) != [] && h <= Maximum(HighQcRounds(tc)) + 1
  {
    AcceptedTcHasVotes(c, tc);
    var a := QuorumsShareHonest(c, w, s, Elements(TcNames(tc.votes)));
    var t := NamedTimeout(Known(w), c, tc, a);
    assert HighQcRounds(tc)[t] == tc.votes[t].2;
    var ev :| ev in w[a].ledger.log && FirstBallot(LeaderOf(c, e), ev) && ev.block.height == h;
    assert ExtendsOwn(c, Known(w), ev.block);
    var j := HonestTimeout(w, a, e, tc.votes[t].2);
    BallotCovered(c, w[a], e, ev, j, tc.votes[t].2);
  }

  lemma BallotCovered(c: Committee, n: Core, e: nat, ev: ChainEvent, j: nat, high: nat)
    requires LogInv(c, n) && ev in n.ledger.log && FirstBallot(LeaderOf(c, e), ev)
    requires ev.block.qc.height + 1 == ev.block.height && Tenure(c, LeaderOf(c, e), e) == 0
    requires j < |n.ledger.log| && n.ledger.log[j] == TimedOut(e, high)
    ensures ev.block.height <= high + 1
  {
    FirstTenureVote(c, n, e, ev);
    var i := InSeq(n.ledger.log, ev);
    assert Covers(c, n.ledger.log[j], n.ledger.log[i]);
  }

  lemma CertificateReported(c: Committee, w: World, e: nat, q: QC, tc: TC)
    requires FaultBound(c, w) && AllVoting(c, w) && Tenure(c, LeaderOf(c, e), e) == 0
    requires Extending(c, w, LeaderOf(c, e))
    requires Certificate(c, Known(w), q) && q.proposer == LeaderOf(c, e) && q.epoch == 0
    requires TimeoutCertificate(c, Known(w), tc) && tc.epoch == e
    ensures HighQcRounds(tc) != [] && q.height <= Maximum(HighQcRounds(tc)) + 1
  {
    var s := Elements(Names(q.votes));
    forall a | a in s && a in w ensures BallotAt(w[a], q.proposer, q.height) {
      NamedSaid(Known(w), q.votes, QcStatement(q), a);
      var i := HonestVote(w, a, QcStatement(q));
      assert FirstBallot(q.proposer, w[a].ledger.log[i]);
    }
    QuorumReported(c, w, e, q.height, s, tc);
  }

  lemma BallotReported(c: Committee, w: World, e: nat, a: PublicKey, ev: ChainEvent, tc: TC)
    requires FaultBound(c, w) && AllVoting(c, w) && Tenure(c, LeaderOf(c, e), e) == 0
    requires Extending(c, w, LeaderOf(c, e))
    requires a in w && ev in w[a].ledger.log && FirstBallot(LeaderOf(c, e), ev)
    requires TimeoutCertificate(c, Known(w), tc) && tc.epoch == e
    ensures HighQcRounds(tc) != [] && ev.block.height <= Maximum(HighQcRounds(tc)) + 2
  {
    AcceptedTcHasVotes(c, tc);
    assert ExtendsOwn(c, Known(w), ev.block);
    if !IsGenesis(ev.block.qc) {
      CertificateReported(c, w, e, ev.block.qc, tc);
    }
  }

  /** Nobody honest has voted on the leader's restarted chain yet. */
  ghost predicate NotRestarted(w: World, x: PublicKey) {
    forall a, ev :: a in w && ev in w[a].ledger.log && ev.Voted? && ev.block.author == x ==> ev.block.epoch == 0
  }

  lemma HighQcReported(c: Committee, w: World, e: nat, a: PublicKey, tc: TC)
    requires FaultBound(c, w) && AllVoting(c, w) && Tenure(c, LeaderOf(c, e), e) == 0
    requires Extending(c, w, LeaderOf(c, e)) && NotRestarted(w, LeaderOf(c, e))
    requires a in w && HeightsInv(c, Known(w), w[a]) && LeaderOf(c, e) in w[a].ledger.chains
    requires TimeoutCertificate(c, Known(w), tc) && tc.epoch == e
    ensures HighQcRounds(tc) != []
    ensures w[a].ledger.chains[LeaderOf(c, e)].highQc.height <= Maximum(HighQcRounds(tc)) + 1
  {
    var x := LeaderOf(c, e);
    var h := w[a].ledger.chains[x].highQc.height;
    AcceptedTcHasVotes(c, tc);
    assert TopInv(c, Known(w), x, w[a].ledger.chains[x]);
    if h != 0 {
      var s :| QuorumAt(c, Known(w), x, h, s);
      forall b | b in s && b in w ensures BallotAt(w[b], x, h) {
        assert VotedAt(Known(w), b, x, h);
        var hash, epoch :| Said(b, VoteS(hash, epoch, h, x)) in Known(w);
        var i := HonestVote(w, b, VoteS(hash, epoch, h, x));
        assert w[b].ledger.log[i] in w[b].ledger.log && FirstBallot(x, w[b].ledger.log[i]);
      }
      QuorumReported(c, w, e, h, s, tc);
    }
  }

  /** What the restart leaves behind, measured by a height m. */
  ghost predicate BoundedBy(c: Committee, w: World, x: PublicKey, m: nat) {
    && (forall q :: Certificate(c, Known(w), q) && q.proposer == x && q.epoch == 0 ==> q.height <= m + 1)
    && (forall a, ev :: a in w && ev in w[a].ledger.log && FirstBallot(x, ev) ==> ev.block.height <= m + 2)
    && (NotRestarted(w, x) ==>
          forall a :: a in w && x in w[a].ledger.chains && w[a].ledger.chains[x].epoch == 0 ==>
            && w[a].ledger.chains[x].highQc.height <= m + 1
            && w[a].ledger.chains[x].lastVoted <= m + 2)
  }

  lemma TcBounds(c: Committee, w: World, e: nat, tc: TC)
    requires FaultBound(c, w) && AllVoting(c, w) && AllHeights(c, w) && Tenure(c, LeaderOf(c, e), e) == 0
    requires Extending(c, w, LeaderOf(c, e))
    requires TimeoutCertificate(c, Known(w), tc) && tc.epoch == e && HighQcRounds(tc) != []
    ensures BoundedBy(c, w, LeaderOf(c, e), Maximum(HighQcRounds(tc)))
  {
    var x, m := LeaderOf(c, e), Maximum(HighQcRounds(tc));
    forall q | Certificate(c, Known(w), q) && q.proposer == x && q.epoch == 0 ensures q.height <= m + 1 {
      CertificateReported(c, w, e, q, tc);
    }
    forall a, ev | a in w && ev in w[a].ledger.log && FirstBallot(x, ev) ensures ev.block.height <= m + 2 {
      BallotReported(c, w, e, a, ev, tc);
    }
    if NotRestarted(w, x) {
      forall a | a in w && x in w[a].ledger.chains && w[a].ledger.chains[x].epoch == 0
        ensures w[a].ledger.chains[x].highQc.height <= m + 1
        ensures w[a].ledger.chains[x].lastVoted <= m + 2
      {
        HighQcReported(c, w, e, a, tc);
        LastVotedReported(w[a], x, m);
      }
    }
  }

  lemma LastVotedReported(n: Core, x: PublicKey, m: nat)
    requires x in n.ledger.chains && n.ledger.chains[x].epoch == 0
    requires LastVoteInv(x, n.ledger.chains[x], n.ledger.log) && n.ledger.chains[x].highQc.height <= m + 1
    requires forall ev :: ev in n.ledger.log && ev.Voted? && ev.block.author == x ==>
               FirstBallot(x, ev) && ev.block.height <= m + 2
    ensures n.ledger.chains[x].lastVoted <= m + 2
  {}

  /** In its leader's first tenure, every certificate of the leader is at most one above, and every
      vote at most two above, what any timeout certificate of the epoch reports. */
  lemma TcBoundsTenure(c: Committee, tr: seq<World>, e: nat, tc: TC)
    requires Run(c, tr) && FaultBound(c, tr[0])
    requires Tenure(c, LeaderOf(c, e), e) == 0 && Extending(c, Last(tr), LeaderOf(c, e))
    requires TimeoutCertificate(c, Known(Last(tr)), tc) && tc.epoch == e
    ensures HighQcRounds(tc) != [] && BoundedBy(c, Last(tr), LeaderOf(c, e), Maximum(HighQcRounds(tc)))
  {
    RunVotes(c, tr);
    RunKeepsHeights(c, tr);
    AcceptedTcHasVotes(c, tc);
    TcBounds(c, Last(tr), e, tc);
  }

  /** Everything certified and voted for in the first tenure lies below the height; so do the votes and
      certificates the nodes still hold for the chain, until somebody votes for the restarted one. */
  ghost predicate AllBelow(c: Committee, w: World, x: PublicKey, height: nat) {
    && (forall q :: Certificate(c, Known(w), q) && q.proposer == x && q.epoch == 0 ==> q.height < height)
    && (forall a, ev :: a in w && ev in w[a].ledger.log && FirstBallot(x, ev) ==> ev.block.height < height)
    && (NotRestarted(w, x) ==>
          forall a :: a in w && x in w[a].ledger.chains && w[a].ledger.chains[x].epoch == 0 ==>
            w[a].ledger.chains[x].highQc.height < height && w[a].ledger.chains[x].lastVoted < height)
  }

  /** So the height at which the chain restarts after a round-1 decision is above all of them. */
  lemma RestartIsFresh(c: Committee, tr: seq<World>, e: nat, x: PublicKey, v: nat)
    requires Run(c, tr) && FaultBound(c, tr[0])
    requires Tenure(c, LeaderOf(c, e), e) == 0 && Extending(c, Last(tr), LeaderOf(c, e))
    requires x in Last(tr) && Decided(e, 1, v) in Last(tr)[x].aba.log
    ensures AllBelow(c, Last(tr), LeaderOf(c, e), Restarted(NewChain(LeaderOf(c, e)), v).height)
  {
    RunVotes(c, tr);
    A.RunIsJust(c, tr);
    RoundOneDecisionIsReported(c, Last(tr), x, e, v);
    var tc :| TcReports(c, Known(Last(tr)), tc, e, v);
    TcBoundsTenure(c, tr, e, tc);
  }

  // ----- An honest leader extends its own certificates -----

  /** A step's own proposal carries the current epoch of the node's chain. */
  ghost predicate Proposes(n: Core, n': Core) {
    && n.ledger.log <= n'.ledger.log
    && forall i :: |n.ledger.log| <= i < |n'.ledger.log| && n'.ledger.log[i].Proposed? ==>
         n'.name in n'.ledger.chains && n'.ledger.log[i].block.epoch == n'.ledger.chains[n'.name].epoch
  }

  lemma HandleVoteProposes(c: Committee, n: Core, vote: Vote, draft: Draft)
    requires vote.proposer == n.name && n.name in n.ledger.chains
    ensures Proposes(n, HandleVote(c, n, vote, draft))
  {}

  lemma ProcessBlockProposes(c: Committee, n: Core, stale: Chain, b: Block)
    requires NodeInv(c, n) && b.author in n.ledger.chains
    ensures Proposes(n, ProcessBlock(c, n, stale, b))
  {}

  lemma NextEpochProposes(c: Committee, n: Core, draft: Draft)
    requires NodeInv(c, n) && n.aba.output.Some?
    ensures Proposes(n, NextEpoch(c, n, draft))
  {}

  lemma CloseEpochProposes(c: Committee, n: Core, draft: Draft)
    requires NodeInv(c, n) && n.aba.output.Some?
    ensures Proposes(n, CloseEpoch(c, n, draft))
  {
    var stale, b := n.ledger.chains[LeaderOf(c, n.epoch)], Closing(c, n);
    if b.Some? {
      var n1 := ClosingCommit(c, n, b.value);
      CommitToKeeps(c, n, stale, Some(b.value.height));
      assert CloseEpoch(c, n, draft) == NextEpoch(c, n1, draft);
      NextEpochProposes(c, n1, draft);
    }
  }

  lemma ActionProposes(c: Committee, k: Knowledge, n: Core, a: Action)
    requires NodeInv(c, n) && Enabled(c, k, n, a)
    ensures Proposes(n, Apply(c, k, n, a))
  {
    match a
    case OnBlock(b, stale) => ProcessBlockProposes(c, n, stale, b);
    case OnVote(v, draft) => HandleVoteProposes(c, n, v, draft);
    case Close(draft) => CloseEpochProposes(c, n, draft);
    case OnQc(x, qc) => ProcessQcProposes(n, x, qc);
    case OnTimeout(t) => CountTimeoutProposes(c, n, t);
    case TimeOut => SignTimeoutProposes(c, n);
    case _ => OtherActionProposes(c, k, n, a);
  }

  lemma OtherActionProposes(c: Committee, k: Knowledge, n: Core, a: Action)
    requires NodeInv(c, n) && Enabled(c, k, n, a)
    requires !OnChains(a) || a.OnTc? || a.EnterViewChange?
    requires !a.Close?
    ensures Proposes(n, Apply(c, k, n, a))
  {
    var n' := Apply(c, k, n, a);
    ActionGrowsLogs(c, k, n, a);
    OtherActionFrame(c, k, n, a);
    assert n'.ledger == n.ledger;
  }

  lemma CountTimeoutProposes(c: Committee, n: Core, t: Timeout)
    requires LeaderOf(c, t.epoch) in n.ledger.chains
    ensures Proposes(n, CountTimeout(c, n, t))
  {}

  lemma ProcessQcProposes(n: Core, x: PublicKey, qc: QC)
    requires x in n.ledger.chains
    ensures Proposes(n, ProcessQc(n, x, qc))
  {}

  lemma SignTimeoutProposes(c: Committee, n: Core)
    requires LeaderOf(c, n.epoch) in n.ledger.chains
    ensures Proposes(n, SignTimeout(c, n))
  {}

  /** A block an honest node voted for was proposed by its author, if that is honest. */
  lemma VotedIsProposed(c: Committee, w: World, x: PublicKey, a: PublicKey, ev: ChainEvent) returns (b: Block)
    requires x in w && w[x].name == x && a in w && w[a].name == a && AllCert(c, w)
    requires ev in w[a].ledger.log && ev.Voted? && ev.block.author == x
    ensures Proposed(b) in w[x].ledger.log && DigestOf(b) == DigestOf(ev.block)
    ensures ProposalInv(c, Known(w), w[x], b)
    ensures ProperBlock(c, Known(w), ev.block) || b == ev.block
  {
    var i := InSeq(w[a].ledger.log, ev);
    assert SignedEvent(c, Known(w), w[a], w[a].ledger.log[i]);
    if ProperBlock(c, Known(w), ev.block) {
      assert SignedBy(w[x], BlockS(DigestOf(ev.block)));
      var e :| e in w[x].ledger.log && e.Proposed? && DigestOf(e.block) == DigestOf(ev.block);
      b := e.block;
    } else {
      var j := InSeq(w[a].ledger.log, Proposed(ev.block));
      assert SignedEvent(c, Known(w), w[a], w[a].ledger.log[j]);
      b := ev.block;
    }
    var j := InSeq(w[x].ledger.log, Proposed(b));
    assert SignedEvent(c, Known(w), w[x], w[x].ledger.log[j]);
  }

  /** No certificate is ahead of the epoch of an honest owner's chain. */
  lemma CertificateEpoch(c: Committee, w: World, x: PublicKey, q: QC)
    requires FaultBound(c, w) && AllCert(c, w) && x in w && forall y | y in w :: w[y].name == y
    requires Certificate(c, Known(w), q) && q.proposer == x
    ensures x in w[x].ledger.chains && q.epoch <= w[x].ledger.chains[x].epoch
  {
    var s := Elements(Names(q.votes));
    var a := MoreThanFaultyIsHonest(c, w, s);
    NamedSaid(Known(w), q.votes, QcStatement(q), a);
    var i := HonestVote(w, a, QcStatement(q));
    assert w[a].ledger.log[i] in w[a].ledger.log;
    var b := VotedIsProposed(c, w, x, a, w[a].ledger.log[i]);
  }

  /** What first-tenure proposals extend, if it is a certificate, was certified in the first tenure. */
  ghost predicate FirstParent(c: Committee, b: Block) {
    b.epoch == 0 && QcAccepted(c, b.qc) ==> IsGenesis(b.qc) || b.qc.epoch == 0
  }

  ghost predicate FirstParents(c: Committee, n: Core) {
    forall b :: Proposed(b) in n.ledger.log ==> FirstParent(c, b)
  }

  lemma NewParents(c: Committee, w: World, x: PublicKey, n: Core)
    requires FaultBound(c, w) && AllCert(c, w) && x in w && forall y | y in w :: w[y].name == y
    requires FirstParents(c, n) && Proposes(n, w[x])
    ensures FirstParents(c, w[x])
  {
    forall b | Proposed(b) in w[x].ledger.log ensures FirstParent(c, b) {
      var i := InSeq(w[x].ledger.log, Proposed(b));
      assert SignedEvent(c, Known(w), w[x], w[x].ledger.log[i]);
      if i < |n.ledger.log| {
        assert n.ledger.log[i] in n.ledger.log;
      } else if !IsGenesis(b.qc) && QcAccepted(c, b.qc) {
        CertificateEpoch(c, w, x, b.qc);
      }
    }
  }

  lemma StepParents(c: Committee, v: World, w: World, x: PublicKey)
    requires FaultBound(c, w) && AllCert(c, w) && forall y | y in w :: w[y].name == y
    requires Step(c, v, w) && x in w && x in v && FirstParents(c, v[x])
    ensures FirstParents(c, w[x])
  {
    var y, a :| StepBy(c, v, w, y, a);
    if x == y {
      ActionProposes(c, Known(v), v[x], a);
      NewParents(c, w, x, v[x]);
    }
  }

  lemma {:induction false} RunParents(c: Committee, tr: seq<World>, x: PublicKey)
    requires Run(c, tr) && FaultBound(c, tr[0]) && x in Last(tr)
    ensures FirstParents(c, Last(tr)[x])
    decreases |tr|
  {
    if |tr| == 1 {
      var draft :| IsInitial(c, Last(tr)[x], draft);
    } else {
      var front := tr[..|tr| - 1];
      PrefixRun(c, tr, |tr| - 1);
      assert Step(c, tr[|tr| - 2], tr[|tr| - 1]);
      StepSameNodes(c, Last(front), Last(tr));
      RunParents(c, front, x);
      RunFacts(c, tr);
      StepParents(c, Last(front), Last(tr), x);
    }
  }

  lemma StepSameNodes(c: Committee, v: World, w: World)
    requires Step(c, v, w)
    ensures v.Keys == w.Keys
  {}

  lemma RunFacts(c: Committee, tr: seq<World>)
    requires Run(c, tr) && FaultBound(c, tr[0])
    ensures FaultBound(c, Last(tr)) && AllVoting(c, Last(tr)) && AllCert(c, Last(tr))
    ensures forall y | y in Last(tr) :: Last(tr)[y].name == y
  {
    RunKeepsInv(c, tr);
    RunKeepsCert(c, tr);
  }

  /** Every first-tenure proposal of the node extends genesis or a certificate that verifies. */
  ghost predicate ProposesOnCertificates(c: Committee, n: Core) {
    forall b :: Proposed(b) in n.ledger.log && b.epoch == 0 ==> IsGenesis(b.qc) || QcAccepted(c, b.qc)
  }

  /** If the leader is honest and its first-tenure proposals carry certificates that verify, `Extending`
      holds. */
  lemma HonestLeaderExtends(c: Committee, tr: seq<World>, x: PublicKey)
    requires Run(c, tr) && FaultBound(c, tr[0])
    requires x in Last(tr) && ProposesOnCertificates(c, Last(tr)[x])
    ensures Extending(c, Last(tr), x)
  {
    RunFacts(c, tr);
    RunParents(c, tr, x);
    var w := Last(tr);
    forall a, ev | a in w && ev in w[a].ledger.log && FirstBallot(x, ev)
      ensures ExtendsOwn(c, Known(w), ev.block)
    {
      var b := VotedIsProposed(c, w, x, a, ev);
      SameParent(c, w, ev.block, b);
    }
  }

  /** Two blocks with the same digest extend the same block, whatever their certificates look like. */
  lemma SameParent(c: Committee, w: World, b: Block, own: Block)
    requires FaultBound(c, w) && DigestOf(own) == DigestOf(b) && b.epoch == 0
    requires own.height == own.qc.height + 1 && FirstParent(c, own)
    requires OwnMade(Known(w), own.author, own.qc) && (IsGenesis(own.qc) || QcAccepted(c, own.qc))
    requires ProperBlock(c, Known(w), b) || own == b
    ensures ExtendsOwn(c, Known(w), b)
  {
    if !IsGenesis(own.qc) {
      AcceptedIsCertificate(c, Known(w), own.author, own.qc);
      CertificateNamesBlock(c, w, own.qc);
    }
    if !IsGenesis(b.qc) && ProperBlock(c, Known(w), b) {
      CertificateNamesBlock(c, w, b.qc);
    }
  }
}
