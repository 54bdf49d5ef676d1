/** Runs of the whole system. Honest nodes take the steps of `Nodes` in any order and interleaving;
    everybody else may send whatever it can sign, and the network may delay, repeat or drop. */
module Worlds {
  import opened Committees
  import opened Options
  import opened Messages
  import opened Aggregators
  import opened Commits
  import opened Delivery
  import opened Nodes

  /** The honest nodes. */
  type World = map<PublicKey, Core>

  datatype Said = Said(author: PublicKey, statement: Statement)

  /** Which signatures can exist. */
  type Knowledge = iset<Said>

  /** A value some honest node gave as its own input to a round. */
  datatype Choice = Choice(epoch: nat, round: nat, val: nat)

  ghost predicate SignedAba(log: seq<AbaEvent>, s: Statement) {
    match s
    case AbaS(e, r, v, p) =>
      || (p == VAL_PHASE && (Input(e, r, v) in log || Relay(e, r, v) in log))
      || (p == AUX_PHASE && Aux(e, r, v) in log)
    case CoinS(e, r) => CoinSent(e, r) in log
    case _ => false
  }

  ghost predicate SignedLedger(log: seq<ChainEvent>, s: Statement) {
    match s
    case VoteS(hash, epoch, height, proposer) => exists ev :: ev in log && IsVote(ev, s)
    case TimeoutS(e, h) => TimedOut(e, h) in log
    case BlockS(d) => exists ev :: ev in log && ev.Proposed? && DigestOf(ev.block) == d
    case _ => false
  }

  ghost predicate IsVote(ev: ChainEvent, s: Statement) {
    ev.Voted? && s == VoteS(DigestOf(ev.block), ev.block.epoch, ev.block.height, ev.block.author)
  }

  ghost predicate SignedBy(n: Core, s: Statement) {
    SignedAba(n.aba.log, s) || SignedLedger(n.ledger.log, s)
  }

  /** Honest nodes' signatures cannot be forged; anybody else can have signed anything. */
  ghost function Known(w: World): Knowledge {
    iset s: Said | s.author in w ==> SignedBy(w[s.author], s.statement)
  }

  ghost function Chosen(w: World): iset<Choice> {
    iset x: Choice | exists a :: a in w && Input(x.epoch, x.round, x.val) in w[a].aba.log
  }

  // ----- What can be delivered -----

  ghost predicate Unforged(k: Knowledge, sig: Signature) {
    Said(sig.signer, sig.statement) in k
  }

  ghost predicate VotesUnforged(k: Knowledge, votes: seq<(PublicKey, Signature)>) {
    forall i :: 0 <= i < |votes| ==> Unforged(k, votes[i].1)
  }

  ghost predicate TcUnforged(k: Knowledge, tc: TC) {
    forall i :: 0 <= i < |tc.votes| ==> Unforged(k, tc.votes[i].1)
  }

  /** A certificate that is accepted and carries no forged signature. */
  ghost predicate Certificate(c: Committee, k: Knowledge, qc: QC) {
    QcAccepted(c, qc) && VotesUnforged(k, qc.votes)
  }

  ghost predicate CertifiedBy(c: Committee, k: Knowledge, x: PublicKey, h: nat, d: Digest) {
    exists q :: Certificate(c, k, q) && q.proposer == x && q.height == h && q.hash == d
  }

  /** Entry 0 may also be genesis. */
  ghost predicate EntriesCertified(c: Committee, k: Knowledge, x: PublicKey, chain: Chain) {
    forall h | h in chain.heightToDigest :: h == 0 || CertifiedBy(c, k, x, h, chain.heightToDigest[h])
  }

  ghost predicate TimeoutCertificate(c: Committee, k: Knowledge, tc: TC) {
    TcAccepted(c, tc) && TcUnforged(k, tc)
  }

  ghost predicate AbaCertificate(c: Committee, k: Knowledge, p: ABAProof) {
    ProofAccepted(c, p) && VotesUnforged(k, p.votes)
  }

  /** A block from the network: accepted, signed by its author, and extending either genesis or a
      certificate of the author's own chain. */
  ghost predicate ProperBlock(c: Committee, k: Knowledge, b: Block) {
    && BlockAccepted(c, b) && Unforged(k, b.signature)
    && (IsGenesis(b.qc) || (Certificate(c, k, b.qc) && b.qc.proposer == b.author))
  }

  /** What the table may hold of the leader's chain while it is worked on: an earlier state, with
      certified entries unless the chain is the node's own. */
  ghost predicate Standing(c: Committee, k: Knowledge, n: Core, stale: Chain)
    requires LeaderOf(c, n.epoch) in n.ledger.chains
  {
    var leader := LeaderOf(c, n.epoch);
    Earlier(stale, n.ledger.chains[leader]) && (leader != n.name ==> EntriesCertified(c, k, leader, stale))
  }

  // ----- Steps -----

  /** One step of one node. */
  datatype Action =
    | OnQc(x: PublicKey, qc: QC)
    | OnBlock(block: Block, stale: Chain)
    | OnVote(vote: Vote, draft: Draft)
    | OnTimeout(timeout: Timeout)
    | OnTc(tc: TC)
    | EnterViewChange
    | TimeOut
    | OnAbaVal(val: ABAVal)
    | OnAbaProof(proof: ABAProof)
    | OnCoinShare(share: Share, combined: Option<nat>)
    | Phases
    | UseTc
    | UseVal1
    | UseVal2
    | UseAux(combined: Option<nat>)
    | UseCoin
    | UseProof
    | Close(draft: Draft)

  /** When a node with the given knowledge around it may take the step. A certificate processed on a
      chain names that chain's owner; a block is processed once its certificate has been, with the
      leader's entry of the table as it may stand. A step ends, so its commit returns. */
  ghost predicate Enabled(c: Committee, k: Knowledge, n: Core, a: Action)
    requires NodeInv(c, n)
  {
    match a
    case OnQc(x, qc) =>
      && x in n.ledger.chains
      && (IsGenesis(qc) || (Certificate(c, k, qc) && qc.proposer == x) || qc == n.ledger.chains[x].highQc)
    case OnBlock(b, stale) =>
      && b.author in n.ledger.chains && b.qc.height <= n.ledger.chains[b.author].highQc.height
      && (ProperBlock(c, k, b) || Proposed(b) in n.ledger.log)
      && Standing(c, k, n, stale)
      && BlockReturns(c, n, stale, b)
    case OnVote(v, _) => v.proposer == n.name && Unforged(k, v.signature)
    case OnTimeout(t) => n.epoch <= t.epoch && TimeoutAccepted(c, t) && Unforged(k, t.signature)
    case OnTc(tc) => TcUnforged(k, tc)
    case EnterViewChange => n.epoch in n.tcs
    case TimeOut => !n.viewChange && n.epoch !in n.tcs && LeaderLags(c, n)
    case OnAbaVal(m) => Unforged(k, m.signature)
    case OnAbaProof(p) => VotesUnforged(k, p.votes)
    case OnCoinShare(s, _) => Unforged(k, s.signature)
    case Phases => n.viewChange
    case Close(_) => n.viewChange && n.aba.output.Some? && ClosingReturns(c, n)
    case UseProof => n.viewChange
    case _ => n.viewChange && n.aba.output.None?
  }

  ghost function Apply(c: Committee, k: Knowledge, n: Core, a: Action): Core
    requires NodeInv(c, n) && Enabled(c, k, n, a)
  {
    match a
    case OnQc(x, qc) => ProcessQc(n, x, qc)
    case OnBlock(b, stale) => ProcessBlock(c, n, stale, b)
    case OnVote(v, draft) => HandleVote(c, n, v, draft)
    case OnTimeout(t) => CountTimeout(c, n, t)
    case OnTc(tc) => HandleTc(c, n, tc)
    case EnterViewChange => n.(viewChange := true)
    case TimeOut => SignTimeout(c, n)
    case OnAbaVal(m) => HandleAbaVal(c, n, m).0
    case OnAbaProof(p) => HandleAbaProof(c, n, p).0
    case OnCoinShare(s, combined) => HandleCoinShare(c, n, s, combined).0
    case Phases => EnterPhases(c, n)
    case UseTc => TcStep(c, n).0
    case UseVal1 => Val1Step(c, n).0
    case UseVal2 => Val2Step(c, n).0
    case UseAux(combined) => AuxStep(c, n, combined).0
    case UseCoin => CoinStep(c, n).0
    case UseProof => ProofStep(n)
    case Close(draft) => CloseEpoch(c, n, draft)
  }

  ghost predicate StepBy(c: Committee, w: World, w': World, x: PublicKey, a: Action) {
    && x in w && NodeInv(c, w[x]) && Enabled(c, Known(w), w[x], a)
    && w' == w[x := Apply(c, Known(w), w[x], a)]
  }

  ghost predicate Step(c: Committee, w: World, w': World) {
    exists x, a :: StepBy(c, w, w', x, a)
  }

  ghost predicate Start(c: Committee, w: World) {
    forall x | x in w :: w[x].name == x && exists draft :: IsInitial(c, w[x], draft)
  }

  /** A run: from a start, step by step. */
  ghost predicate Run(c: Committee, tr: seq<World>) {
    && tr != [] && Start(c, tr[0])
    && forall i :: 0 <= i < |tr| - 1 ==> Step(c, tr[i], tr[i + 1])
  }

  /** The committee has distinct keys and 3f + 1 stake, of which at most f is not honest. */
  ghost predicate FaultBound(c: Committee, w: World) {
    && ValidCommittee(c)
    && c.Total() == 3 * MaxFaulty(c) + 1
    && c.Sum(c.Members() - w.Keys) <= MaxFaulty(c)
  }

  // ----- Quorums and honest nodes -----

  lemma MoreThanFaultyIsHonest(c: Committee, w: World, s: set<PublicKey>) returns (a: PublicKey)
    requires FaultBound(c, w) && c.Sum(s) > MaxFaulty(c)
    ensures a in s && a in w
  {
    if s * w.Keys == {} {
      SumMembersOnly(c, s);
      assert forall x :: x in s ==> x !in w.Keys by {
        assert forall x :: x in s && x in w.Keys ==> x in s * w.Keys;
      }
      SumMonotone(c, s * c.Members(), c.Members() - w.Keys);
      assert false;
    }
    a :| a in s * w.Keys;
  }

  lemma QuorumsShareHonest(c: Committee, w: World, s: set<PublicKey>, t: set<PublicKey>) returns (a: PublicKey)
    requires FaultBound(c, w)
    requires c.Sum(s) >= QuorumThreshold(c) && c.Sum(t) >= QuorumThreshold(c)
    ensures a in s && a in t && a in w
  {
    QuorumOverlap(c, s, t);
    a := MoreThanFaultyIsHonest(c, w, s * t);
  }

  lemma NamedSaid(k: Knowledge, votes: seq<(PublicKey, Signature)>, statement: Statement, a: PublicKey)
    requires VotesUnforged(k, votes) && a in Elements(Names(votes))
    requires forall i :: 0 <= i < |votes| ==> SignatureOk(votes[i].1, statement, votes[i].0)
    ensures Said(a, statement) in k
  {}

  // ----- Knowledge only grows -----

  ghost predicate LogsGrow(n: Core, n': Core) {
    n.aba.log <= n'.aba.log && n.ledger.log <= n'.ledger.log
  }

  lemma KnownGrows(w: World, x: PublicKey, n': Core)
    requires x in w && LogsGrow(w[x], n')
    ensures Known(w) <= Known(w[x := n'])
  {}

  lemma ChosenGrows(w: World, x: PublicKey, n': Core)
    requires x in w && LogsGrow(w[x], n')
    ensures Chosen(w) <= Chosen(w[x := n'])
  {
    forall j | j in Chosen(w) ensures j in Chosen(w[x := n']) {
      var a :| a in w && Input(j.epoch, j.round, j.val) in w[a].aba.log;
      if a == x {
        var i :| 0 <= i < |w[x].aba.log| && w[x].aba.log[i] == Input(j.epoch, j.round, j.val);
        assert n'.aba.log[i] == Input(j.epoch, j.round, j.val);
      }
      assert a in w[x := n'];
    }
  }
}
