/** Which heights a chain can reach: a certificate at a height needs a quorum of votes at that
    height, and during its owner's first tenure the chain's height and last vote stay next to its
    high certificate. */
module Heights {
  import opened Committees
  import opened Options
  import opened Messages
  import opened Aggregators
  import opened Commits
  import opened Nodes
  import opened NodeSafety
  import opened Worlds
  import opened Systems
  import opened Certification

  ghost predicate VotedAt(k: Knowledge, a: PublicKey, x: PublicKey, h: nat) {
    exists hash, epoch :: Said(a, VoteS(hash, epoch, h, x)) in k
  }

  /** A quorum voted for blocks of the chain at this height, though not necessarily for the same one:
      makers are keyed by height alone. */
  ghost predicate VotedQuorum(c: Committee, k: Knowledge, x: PublicKey, h: nat) {
    exists s :: QuorumAt(c, k, x, h, s)
  }

  ghost predicate QuorumAt(c: Committee, k: Knowledge, x: PublicKey, h: nat, s: set<PublicKey>) {
    c.Sum(s) >= QuorumThreshold(c) && forall a | a in s :: VotedAt(k, a, x, h)
  }

  ghost predicate MakerInv(c: Committee, k: Knowledge, x: PublicKey, h: nat, m: VoteMaker) {
    m.weight <= c.Sum(m.used) && forall a | a in m.used :: VotedAt(k, a, x, h)
  }

  ghost predicate MakersInv(c: Committee, k: Knowledge, x: PublicKey, chain: Chain) {
    forall h | h in chain.aggregator.votes :: MakerInv(c, k, x, h, chain.aggregator.votes[h])
  }

  ghost predicate TopInv(c: Committee, k: Knowledge, x: PublicKey, chain: Chain) {
    chain.highQc.height == 0 || VotedQuorum(c, k, x, chain.highQc.height)
  }

  ghost predicate LastVoteInv(x: PublicKey, chain: Chain, log: seq<ChainEvent>) {
    chain.epoch == 0 ==>
      || chain.lastVoted <= chain.highQc.height + 1
      || exists ev :: ev in log && ev.Voted? && ev.block.author == x && ev.block.height == chain.lastVoted
  }

  ghost predicate HeightsInv(c: Committee, k: Knowledge, n: Core) {
    forall x | x in n.ledger.chains ::
      && MakersInv(c, k, x, n.ledger.chains[x]) && TopInv(c, k, x, n.ledger.chains[x])
      && LastVoteInv(x, n.ledger.chains[x], n.ledger.log)
  }

  // ----- Growth -----

  lemma MakersGrow(c: Committee, k: Knowledge, k': Knowledge, x: PublicKey, chain: Chain)
    requires k <= k' && MakersInv(c, k, x, chain) && TopInv(c, k, x, chain)
    ensures MakersInv(c, k', x, chain) && TopInv(c, k', x, chain)
  {
    forall h | h in chain.aggregator.votes ensures MakerInv(c, k', x, h, chain.aggregator.votes[h]) {
      assert MakerInv(c, k, x, h, chain.aggregator.votes[h]);
      forall a | a in chain.aggregator.votes[h].used ensures VotedAt(k', a, x, h) {
        VotedAtGrows(k, k', a, x, h);
      }
    }
    if chain.highQc.height != 0 {
      var s :| QuorumAt(c, k, x, chain.highQc.height, s);
      forall a | a in s ensures VotedAt(k', a, x, chain.highQc.height) {
        VotedAtGrows(k, k', a, x, chain.highQc.height);
      }
      assert QuorumAt(c, k', x, chain.highQc.height, s);
    }
  }

  lemma VotedAtGrows(k: Knowledge, k': Knowledge, a: PublicKey, x: PublicKey, h: nat)
    requires k <= k' && VotedAt(k, a, x, h)
    ensures VotedAt(k', a, x, h)
  {}

  lemma HeightsGrow(c: Committee, k: Knowledge, k': Knowledge, n: Core)
    requires k <= k' && HeightsInv(c, k, n)
    ensures HeightsInv(c, k', n)
  {
    forall x | x in n.ledger.chains
      ensures MakersInv(c, k', x, n.ledger.chains[x]) && TopInv(c, k', x, n.ledger.chains[x])
    {
      MakersGrow(c, k, k', x, n.ledger.chains[x]);
    }
  }

  // ----- Steps on one chain -----

  /** What a step may do to a chain without touching what the invariant is about. */
  ghost predicate Tame(a: Chain, b: Chain) {
    && b.highQc == a.highQc && b.height == a.height && b.epoch == a.epoch && b.lastVoted == a.lastVoted
    && forall h | h in b.aggregator.votes :: h in a.aggregator.votes && b.aggregator.votes[h] == a.aggregator.votes[h]
  }

  lemma TameKeeps(c: Committee, k: Knowledge, n: Core, n': Core)
    requires HeightsInv(c, k, n) && n'.ledger.chains.Keys == n.ledger.chains.Keys
    requires n'.ledger.log == n.ledger.log
    requires forall x | x in n.ledger.chains :: Tame(n.ledger.chains[x], n'.ledger.chains[x])
    ensures HeightsInv(c, k, n')
  {}

  lemma QcChainKeeps(c: Committee, k: Knowledge, epoch: nat, x: PublicKey, chain: Chain, qc: QC, log: seq<ChainEvent>)
    requires MakersInv(c, k, x, chain) && TopInv(c, k, x, chain) && LastVoteInv(x, chain, log)
    requires qc.height == 0 || qc == chain.highQc || VotedQuorum(c, k, x, qc.height)
    ensures var chain' := QcOnChain(epoch, chain, qc);
            MakersInv(c, k, x, chain') && TopInv(c, k, x, chain') && LastVoteInv(x, chain', log)
  {}

  lemma OneChainKeeps(c: Committee, k: Knowledge, n: Core, n': Core, x: PublicKey)
    requires HeightsInv(c, k, n) && x in n.ledger.chains && x in n'.ledger.chains
    requires n'.ledger.chains == n.ledger.chains[x := n'.ledger.chains[x]] && n.ledger.log <= n'.ledger.log
    requires MakersInv(c, k, x, n'.ledger.chains[x]) && TopInv(c, k, x, n'.ledger.chains[x])
    requires LastVoteInv(x, n'.ledger.chains[x], n'.ledger.log)
    ensures HeightsInv(c, k, n')
  {}

  lemma LastVoteGrows(x: PublicKey, chain: Chain, log: seq<ChainEvent>, log': seq<ChainEvent>)
    requires LastVoteInv(x, chain, log) && log <= log'
    ensures LastVoteInv(x, chain, log')
  {}

  lemma CertificateIsQuorum(c: Committee, k: Knowledge, qc: QC)
    requires Certificate(c, k, qc)
    ensures VotedQuorum(c, k, qc.proposer, qc.height)
  {
    var s := Elements(Names(qc.votes));
    forall a | a in s ensures VotedAt(k, a, qc.proposer, qc.height) {
      NamedSaid(k, qc.votes, QcStatement(qc), a);
    }
    assert QuorumAt(c, k, qc.proposer, qc.height, s);
  }

  lemma ProcessQcHeights(c: Committee, k: Knowledge, n: Core, x: PublicKey, qc: QC)
    requires HeightsInv(c, k, n) && x in n.ledger.chains
    requires IsGenesis(qc) || (Certificate(c, k, qc) && qc.proposer == x) || qc == n.ledger.chains[x].highQc
    ensures HeightsInv(c, k, ProcessQc(n, x, qc))
  {
    if Certificate(c, k, qc) {
      CertificateIsQuorum(c, k, qc);
    }
    QcChainKeeps(c, k, n.epoch, x, n.ledger.chains[x], qc, n.ledger.log);
    OneChainKeeps(c, k, n, ProcessQc(n, x, qc), x);
  }

  lemma AppendKeeps(c: Committee, k: Knowledge, m: VoteMaker, vote: Vote)
    requires MakerInv(c, k, vote.proposer, vote.height, m)
    requires Said(vote.author, VoteStatement(vote)) in k
    ensures MakerInv(c, k, vote.proposer, vote.height, QcAppend(c, m, vote).0)
    ensures QcAppend(c, m, vote).1.Made? ==>
              QcAppend(c, m, vote).1.value.height == vote.height && VotedQuorum(c, k, vote.proposer, vote.height)
  {
    if vote.author !in m.used {
      assert VotedAt(k, vote.author, vote.proposer, vote.height);
      SumAdd(c, m.used, vote.author);
      if QcAppend(c, m, vote).1.Made? {
        assert QuorumAt(c, k, vote.proposer, vote.height, m.used + {vote.author});
      }
    }
  }

  lemma HandleVoteHeights(c: Committee, k: Knowledge, n: Core, vote: Vote, draft: Draft)
    requires HeightsInv(c, k, n) && vote.proposer == n.name && n.name in n.ledger.chains
    requires Unforged(k, vote.signature)
    ensures HeightsInv(c, k, HandleVote(c, n, vote, draft))
  {
    var x := n.name;
    var chain := n.ledger.chains[x];
    if vote.height >= chain.height && VoteAccepted(c, vote) {
      SumEmpty(c);
      assert MakersInv(c, k, x, chain) && TopInv(c, k, x, chain) && LastVoteInv(x, chain, n.ledger.log);
      AppendKeeps(c, k, Entry(chain.aggregator.votes, vote.height), vote);
      var (tables, r) := AddVote(c, chain.aggregator, vote);
      var chain1 := chain.(aggregator := tables);
      assert MakersInv(c, k, x, chain1);
      var n' := HandleVote(c, n, vote, draft);
      if r.Made? {
        QcChainKeeps(c, k, n.epoch, x, chain1, r.value, n.ledger.log);
      }
      LastVoteGrows(x, n'.ledger.chains[x], n.ledger.log, n'.ledger.log);
      OneChainKeeps(c, k, n, n', x);
    }
  }

  lemma VoteOnHeights(c: Committee, k: Knowledge, n: Core, b: Block)
    requires HeightsInv(c, k, n) && b.author in n.ledger.chains
    ensures HeightsInv(c, k, VoteOn(c, n, b))
  {}

  lemma ProcessBlockHeights(c: Committee, k: Knowledge, n: Core, stale: Chain, b: Block)
    requires NodeInv(c, n) && HeightsInv(c, k, n) && b.author in n.ledger.chains
    ensures HeightsInv(c, k, ProcessBlock(c, n, stale, b))
  {
    var n1 := StoreBlock(n, b);
    CommitToKeeps(c, n1, stale, TwoChain(c, n1, b));
    var n2 := CommitTo(c, n1, stale, TwoChain(c, n1, b));
    forall x | x in n1.ledger.chains ensures Tame(n1.ledger.chains[x], n2.ledger.chains[x]) {
      assert OnlyCounters(n1.ledger.chains[x], n2.ledger.chains[x]);
    }
    TameKeeps(c, k, n, n2);
    VoteOnHeights(c, k, n2, b);
  }

  lemma SignTimeoutHeights(c: Committee, k: Knowledge, n: Core)
    requires HeightsInv(c, k, n) && NextToTop(n) && LeaderOf(c, n.epoch) in n.ledger.chains
    ensures HeightsInv(c, k, SignTimeout(c, n))
  {}

  lemma NextEpochHeights(c: Committee, k: Knowledge, n: Core, draft: Draft)
    requires NodeInv(c, n) && HeightsInv(c, k, n) && n.aba.output.Some?
    ensures HeightsInv(c, k, NextEpoch(c, n, draft))
  {}

  lemma CloseEpochHeights(c: Committee, k: Knowledge, n: Core, draft: Draft)
    requires NodeInv(c, n) && HeightsInv(c, k, n) && n.aba.output.Some?
    ensures HeightsInv(c, k, CloseEpoch(c, n, draft))
  {
    var stale, b := n.ledger.chains[LeaderOf(c, n.epoch)], Closing(c, n);
    if b.Some? {
      CommitToKeeps(c, n, stale, Some(b.value.height));
      var n1 := ClosingCommit(c, n, b.value);
      forall x | x in n.ledger.chains ensures Tame(n.ledger.chains[x], n1.ledger.chains[x]) {
        assert OnlyCounters(n.ledger.chains[x], n1.ledger.chains[x]);
      }
      TameKeeps(c, k, n, n1);
      assert CloseEpoch(c, n, draft) == NextEpoch(c, n1, draft);
      NextEpochHeights(c, k, n1, draft);
    }
  }

  lemma CountTimeoutHeights(c: Committee, k: Knowledge, n: Core, t: Timeout)
    requires HeightsInv(c, k, n) && LeaderOf(c, t.epoch) in n.ledger.chains
    ensures HeightsInv(c, k, CountTimeout(c, n, t))
  {
    CountTimeoutFrame(c, n, t);
    var n' := CountTimeout(c, n, t);
    forall x | x in n.ledger.chains ensures Tame(n.ledger.chains[x], n'.ledger.chains[x]) {
      assert OnlyTimers(n.ledger.chains[x], n'.ledger.chains[x]);
    }
    TameKeeps(c, k, n, n');
  }

  lemma ActionKeepsHeights(c: Committee, k: Knowledge, n: Core, a: Action)
    requires NodeInv(c, n) && HeightsInv(c, k, n) && NextToTop(n) && Enabled(c, k, n, a)
    ensures HeightsInv(c, k, Apply(c, k, n, a))
  {
    match a
    case OnQc(x, qc) => ProcessQcHeights(c, k, n, x, qc);
    case OnBlock(b, stale) => ProcessBlockHeights(c, k, n, stale, b);
    case OnVote(v, draft) => HandleVoteHeights(c, k, n, v, draft);
    case OnTimeout(t) => CountTimeoutHeights(c, k, n, t);
    case TimeOut => SignTimeoutHeights(c, k, n);
    case Close(draft) => CloseEpochHeights(c, k, n, draft);
    case _ => SameLedgerHeights(c, k, n, a);
  }

  lemma SameLedgerHeights(c: Committee, k: Knowledge, n: Core, a: Action)
    requires NodeInv(c, n) && HeightsInv(c, k, n) && Enabled(c, k, n, a)
    requires !OnChains(a) || a.OnTc? || a.EnterViewChange?
    requires !a.Close?
    ensures HeightsInv(c, k, Apply(c, k, n, a))
  {
    var n' := Apply(c, k, n, a);
    OtherActionFrame(c, k, n, a);
    SameLedgerKeeps(c, k, n, n');
  }

  lemma SameLedgerKeeps(c: Committee, k: Knowledge, n: Core, n': Core)
    requires HeightsInv(c, k, n) && n'.ledger == n.ledger
    ensures HeightsInv(c, k, n')
  {}

  // ----- Whole runs -----

  ghost predicate AllHeights(c: Committee, w: World) {
    forall x | x in w :: HeightsInv(c, Known(w), w[x])
  }

  lemma ActorHeights(c: Committee, w: World, w': World, x: PublicKey, a: Action)
    requires SystemInv(c, w) && AllCert(c, w) && AllHeights(c, w) && StepBy(c, w, w', x, a)
    ensures x in w' && w' == w[x := w'[x]] && Known(w) <= Known(w')
    ensures HeightsInv(c, Known(w'), w'[x])
  {
    StepGrows(c, w, w', x, a);
    assert CertInv(c, Known(w), w[x]);
    ActionKeepsHeights(c, Known(w), w[x], a);
    HeightsGrow(c, Known(w), Known(w'), w'[x]);
  }

  lemma OthersHeights(c: Committee, w: World, w': World, x: PublicKey)
    requires AllHeights(c, w) && x in w' && w' == w[x := w'[x]] && Known(w) <= Known(w')
    requires HeightsInv(c, Known(w'), w'[x])
    ensures AllHeights(c, w')
  {
    forall y | y in w' ensures HeightsInv(c, Known(w'), w'[y]) {
      if y != x {
        HeightsGrow(c, Known(w), Known(w'), w[y]);
      }
    }
  }

  lemma StepKeepsHeights(c: Committee, w: World, w': World)
    requires SystemInv(c, w) && AllCert(c, w) && AllHeights(c, w) && Step(c, w, w')
    ensures AllHeights(c, w')
  {
    var x, a :| StepBy(c, w, w', x, a);
    ActorHeights(c, w, w', x, a);
    OthersHeights(c, w, w', x);
  }

  lemma StartHeights(c: Committee, w: World)
    requires Start(c, w)
    ensures AllHeights(c, w)
  {}

  lemma {:induction false} RunKeepsHeights(c: Committee, tr: seq<World>)
    requires Run(c, tr) && FaultBound(c, tr[0])
    ensures AllHeights(c, Last(tr))
    decreases |tr|
  {
    if |tr| == 1 {
      StartHeights(c, tr[0]);
    } else {
      var front := tr[..|tr| - 1];
      PrefixRun(c, tr, |tr| - 1);
      RunKeepsHeights(c, front);
      RunKeepsInv(c, front);
      RunKeepsCert(c, front);
      assert Step(c, tr[|tr| - 2], tr[|tr| - 1]);
      StepKeepsHeights(c, Last(front), Last(tr));
    }
  }
}
