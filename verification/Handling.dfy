/** What becomes of a message that is handled: it is counted, filed, stored or voted for exactly when it
    should be, and nothing that is due is left at the end of a pass. */
module Handling {
  import opened Committees
  import opened Options
  import opened Messages
  import opened Aggregators
  import opened Commits
  import opened Delivery
  import opened Nodes
  import opened NodeSafety
  import opened Passes
  import opened Worlds
  import opened Systems
  import opened Certification
  import opened Proposals

  // ----- Counting -----

  /** The collection has one more message, of an author not counted before, and that author's stake. */
  ghost predicate HasCounted<V>(c: Committee, m: Maker<V>, m': Maker<V>, author: PublicKey, v: V) {
    && author !in m.used && m'.used == m.used + {author} && m'.votes == m.votes + [v]
    && (m.weight + c.Stake(author) < QuorumThreshold(c) ==> m'.weight == m.weight + c.Stake(author))
  }

  /** A vote on an own block that does not complete a quorum is counted, once per author; one that is late or
      not accepted changes nothing. */
  lemma VoteIsCounted(c: Committee, n: Core, vote: Vote, draft: Draft)
    requires NodeInv(c, n) && vote.proposer == n.name && !Proposals.Completes(c, n, vote)
    ensures var n' := HandleVote(c, n, vote, draft);
            var m := Entry(n.ledger.chains[n.name].aggregator.votes, vote.height);
            if vote.height < n.ledger.chains[n.name].height || !VoteAccepted(c, vote) || vote.author in m.used
            then n' == n
            else n.name in n'.ledger.chains
                 && HasCounted(c, m, Entry(n'.ledger.chains[n.name].aggregator.votes, vote.height), vote.author,
                               (vote.author, vote.signature))
  {
    var chain := n.ledger.chains[n.name];
    var m := Entry(chain.aggregator.votes, vote.height);
    if vote.author in m.used && vote.height >= chain.height && VoteAccepted(c, vote) {
      assert chain.aggregator.votes[vote.height := m] == chain.aggregator.votes;
      assert n.ledger.chains[n.name := chain] == n.ledger.chains;
      assert n.ledger.log + [] == n.ledger.log;
    }
  }

  /** The chain has entered the certificate and is past it. */
  ghost predicate HasTaken(a: Chain, b: Chain, qc: QC) {
    && b.heightToDigest == a.heightToDigest[qc.height := qc.hash]
    && b.height == Max(a.height, qc.height + 1)
    && b.highQc == (if qc.height > a.highQc.height then qc else a.highQc)
    && b.lastVoted == a.lastVoted && b.lastCommitted == a.lastCommitted && b.epoch == a.epoch
  }

  lemma CertificateTaken(n: Core, x: PublicKey, qc: QC, e: nat)
    requires x in n.ledger.chains && e >= n.epoch
    ensures var a, b := n.ledger.chains[x], ProcessQc(n, x, qc).ledger.chains[x];
            HasTaken(a, b, qc) && Entry(b.aggregator.timeouts, e) == Entry(a.aggregator.timeouts, e)
  {}

  /** The author of the timeout has been counted, before or now. */
  ghost predicate TimeoutCounted(c: Committee, a: Chain, b: Chain, t: Timeout) {
    var m, m' := Entry(a.aggregator.timeouts, t.epoch), Entry(b.aggregator.timeouts, t.epoch);
    if t.author in m.used then m' == m else HasCounted(c, m, m', t.author, (t.author, t.signature, t.highQc.height))
  }

  ghost predicate TimeoutCompletes(c: Committee, a: Chain, t: Timeout) {
    var m := Entry(a.aggregator.timeouts, t.epoch);
    t.author !in m.used && m.weight + c.Stake(t.author) >= QuorumThreshold(c)
  }

  /** A quorum leaves a certificate for the epoch, of everything counted. */
  ghost predicate TimeoutsCollected(c: Committee, tcs: map<nat, TC>, a: Chain, t: Timeout, tcs': map<nat, TC>) {
    var votes := Entry(a.aggregator.timeouts, t.epoch).votes + [(t.author, t.signature, t.highQc.height)];
    tcs' == if TimeoutCompletes(c, a, t) then tcs[t.epoch := TC(t.epoch, votes)] else tcs
  }

  lemma CountingTimeout(c: Committee, n: Core, t: Timeout)
    requires LeaderOf(c, t.epoch) in n.ledger.chains
    ensures var n', x := CountTimeout(c, n, t), LeaderOf(c, t.epoch);
            && x in n'.ledger.chains && TimeoutCounted(c, n.ledger.chains[x], n'.ledger.chains[x], t)
            && n'.ledger.chains[x] == n.ledger.chains[x].(aggregator := n'.ledger.chains[x].aggregator)
            && TimeoutsCollected(c, n.tcs, n.ledger.chains[x], t, n'.tcs)
  {}

  /** An accepted timeout of the current or a later epoch is counted, once per author, and its certificate
      entered; others change nothing. */
  lemma TimeoutIsCounted(c: Committee, n: Core, t: Timeout)
    requires LeaderOf(c, t.epoch) in n.ledger.chains
    ensures var n', x := HandleTimeout(c, n, t), LeaderOf(c, t.epoch);
            if t.epoch >= n.epoch && TimeoutAccepted(c, t)
            then x in n'.ledger.chains && HasTaken(n.ledger.chains[x], n'.ledger.chains[x], t.highQc)
                 && TimeoutCounted(c, n.ledger.chains[x], n'.ledger.chains[x], t)
                 && TimeoutsCollected(c, n.tcs, n.ledger.chains[x], t, n'.tcs)
            else n' == n
  {
    if t.epoch >= n.epoch && TimeoutAccepted(c, t) {
      var x := LeaderOf(c, t.epoch);
      var n1 := ProcessQc(n, x, t.highQc);
      CertificateTaken(n, x, t.highQc, t.epoch);
      CountingTimeout(c, n1, t);
      SameCount(c, n.ledger.chains[x], n1.ledger.chains[x], CountTimeout(c, n1, t).ledger.chains[x], t);
    }
  }

  lemma SameCount(c: Committee, a: Chain, b: Chain, d: Chain, t: Timeout)
    requires Entry(b.aggregator.timeouts, t.epoch) == Entry(a.aggregator.timeouts, t.epoch)
    requires TimeoutCounted(c, b, d, t)
    ensures TimeoutCounted(c, a, d, t)
  {}

  /** A first- or second-phase message of an undecided node's current or a later round is counted, once per
      author and value; nothing else is. */
  lemma ValIsCounted(c: Committee, n: Core, m: ABAVal)
    ensures var a, key := n.aba.tables.vals, ValKey(m.epoch, m.round, m.phase, m.val);
            var b := HandleAbaVal(c, n, m).0.aba.tables.vals;
            if Current(n, m.epoch, m.round) && (m.phase == VAL_PHASE || m.phase == AUX_PHASE) && ValAccepted(m)
               && m.author !in Entry(a, key).used
            then b == a[key := Entry(b, key)]
                 && HasCounted(c, Entry(a, key), Entry(b, key), m.author, (m.author, m.signature))
            else forall k :: Entry(b, k) == Entry(a, k)
  {}

  /** So are shares. */
  lemma ShareIsCounted(c: Committee, n: Core, s: Share, combined: Option<nat>)
    ensures var a, key := n.aba.tables.coins, Round(s.epoch, s.round);
            var b := HandleCoinShare(c, n, s, combined).0.aba.tables.coins;
            if Current(n, s.epoch, s.round) && ShareAccepted(c, s) && s.author !in Entry(a, key).used
            then b == a[key := Entry(b, key)] && HasCounted(c, Entry(a, key), Entry(b, key), s.author, s)
            else forall k :: Entry(b, k) == Entry(a, k)
  {}

  ghost predicate Current(n: Core, epoch: nat, round: nat) {
    n.aba.output.None? && (epoch > n.epoch || (epoch == n.epoch && round >= n.aba.round))
  }

  // ----- Proposals -----

  /** What lets a node vote for a proposal it receives, whose certificate it takes first. */
  ghost predicate VotableOnArrival(c: Committee, n: Core, b: Block)
    requires b.author in n.ledger.chains
  {
    var chain, onGenesis := n.ledger.chains[b.author], b.qc.hash == Zero && b.qc.height == 0;
    && (b.height == Max(chain.height, b.qc.height + 1) || onGenesis) && b.epoch >= chain.epoch
    && (b.author == LeaderOf(c, n.epoch) ==> !n.viewChange)
    && b.height > chain.lastVoted && (b.height == b.qc.height + 1 || onGenesis)
  }

  /** A proposal that is not accepted changes nothing; otherwise its certificate is taken, and with the payload
      at hand it is stored, and voted for exactly when it is votable. */
  lemma ProposalIsHandled(c: Committee, n: Core, b: Block, payloadKnown: bool)
    requires NodeInv(c, n) && b.author in n.ledger.chains
    ensures var n' := HandleProposal(c, n, b, payloadKnown);
            if !BlockAccepted(c, b) then n' == n
            else b.author in n'.ledger.chains
                 && TakenAndVoted(n, n', b, payloadKnown && VotableOnArrival(c, n, b))
                 && n'.ledger.store == if payloadKnown then n.ledger.store[DigestOf(b) := b] else n.ledger.store
  {
    if BlockAccepted(c, b) && payloadKnown {
      TakenBlockIsHandled(c, n, b, n.ledger.chains[LeaderOf(c, n.epoch)]);
    }
  }

  lemma TakenBlockIsHandled(c: Committee, n: Core, b: Block, stale: Chain)
    requires NodeInv(c, n) && b.author in n.ledger.chains
    ensures var n' := ProcessBlock(c, ProcessQc(n, b.author, b.qc), stale, b);
            && b.author in n'.ledger.chains && TakenAndVoted(n, n', b, VotableOnArrival(c, n, b))
            && n'.ledger.store == n.ledger.store[DigestOf(b) := b]
  {
    var n1 := ProcessQc(n, b.author, b.qc);
    ProcessQcKeeps(c, n, b.author, b.qc);
    var n2, n3 := ProcessBlockSteps(c, n1, stale, b);
    BlockIsVotedFor(c, n1, n2, n3, stale, b);
    CertificateTaken(n, b.author, b.qc, n.epoch);
    assert Votable(c, n1, b) <==> VotableOnArrival(c, n, b);
  }

  ghost predicate TakenAndVoted(n: Core, n': Core, b: Block, cast: bool)
    requires b.author in n.ledger.chains && b.author in n'.ledger.chains
  {
    var chain, chain' := n.ledger.chains[b.author], n'.ledger.chains[b.author];
    && HasTaken(chain, chain'.(lastVoted := chain.lastVoted, lastCommitted := chain.lastCommitted), b.qc)
    && n'.ledger.log == n.ledger.log + (if cast then [Voted(b, n.epoch)] else [])
    && chain'.lastVoted == if cast then b.height else chain.lastVoted
  }

  lemma BlockIsVotedFor(c: Committee, n: Core, n1: Core, n2: Core, stale: Chain, b: Block)
    requires NodeInv(c, n) && NodeInv(c, n1) && b.author in n.ledger.chains && n1 == StoreBlock(n, b)
    requires n2 == CommitTo(c, n1, stale, TwoChain(c, n1, b)) && b.author in n2.ledger.chains
    ensures var n', chain := VoteOn(c, n2, b), n.ledger.chains[b.author];
            var chain' := n'.ledger.chains[b.author];
            && n'.ledger.store == n.ledger.store[DigestOf(b) := b]
            && chain' == chain.(lastVoted := chain'.lastVoted, lastCommitted := chain'.lastCommitted)
            && n'.ledger.log == n.ledger.log + (if Votable(c, n, b) then [Voted(b, n.epoch)] else [])
            && chain'.lastVoted == if Votable(c, n, b) then b.height else chain.lastVoted
  {
    CommitToKeeps(c, n1, stale, TwoChain(c, n1, b));
    assert OnlyCounters(n.ledger.chains[b.author], n2.ledger.chains[b.author]);
    assert n2.ledger.log == n.ledger.log && n2.ledger.store == n1.ledger.store;
    VoteOnExactly(c, n2, b);
  }

  // ----- A pass leaves nothing due -----

  ghost predicate InputDone(n: Core) {
    n.epoch in n.tcs ==> n.aba.tcProcessed
  }

  ghost predicate RelayDone(n: Core) {
    n.aba.phase >= VAL_PHASE && Now(n) in n.aba.val1 && n.aba.round in n.aba.input ==>
      n.aba.valSent || n.aba.val1[Now(n)].val == n.aba.input[n.aba.round]
  }

  ghost predicate AcceptanceDone(n: Core) {
    n.aba.phase >= VAL_PHASE && Now(n) in n.aba.val2 ==> n.aba.val2[Now(n)].val in n.aba.bin
  }

  ghost predicate OpeningDone(n: Core) {
    n.aba.phase >= AUX_PHASE && Now(n) in n.aba.aux ==> n.aba.coinSent
  }

  ghost predicate ProofDone(n: Core) {
    n.viewChange && Now(n) in n.aba.proofs && Now(n) in n.aba.coin ==>
      n.aba.proofs[Now(n)].val % 2 != n.aba.coin[Now(n)]
  }

  /** The node has input its value, relayed and accepted what has support, sent its share, and has neither a
      round nor a proof to decide on. */
  ghost predicate NothingDue(n: Core) {
    InputDone(n) && RelayDone(n) && AcceptanceDone(n) && OpeningDone(n) && n.aba.phase < COIN_PHASE && ProofDone(n)
  }

  lemma InputIsDone(c: Committee, n: Core)
    requires NodeInv(c, n) && TcStep(c, n).1
    ensures InputDone(TcStep(c, n).0) && TcStep(c, n).0.aba.round == n.aba.round
  {
    TcStepFrame(c, n);
  }

  lemma RelayIsDone(c: Committee, n: Core)
    requires NodeInv(c, n) && Val1Step(c, n).1 && InputDone(n)
    ensures var n' := Val1Step(c, n).0; InputDone(n') && RelayDone(n') && n'.aba.round == n.aba.round
  {
    Val1StepFrame(c, n);
  }

  /** The same round, and nothing more to input, relay or accept. */
  ghost predicate NoMoreDue(n: Core, n': Core) {
    && n'.epoch == n.epoch && n'.tcs == n.tcs && n'.viewChange == n.viewChange
    && n'.aba.round == n.aba.round && n'.aba.phase == n.aba.phase && n'.aba.tcProcessed == n.aba.tcProcessed
    && n'.aba.input == n.aba.input && n'.aba.valSent == n.aba.valSent && n.aba.bin <= n'.aba.bin
    && n'.aba.val1 == n.aba.val1 && n'.aba.val2 == n.aba.val2
  }

  lemma StillDone(n: Core, n': Core)
    requires NoMoreDue(n, n')
    ensures InputDone(n) ==> InputDone(n')
    ensures RelayDone(n) ==> RelayDone(n')
    ensures AcceptanceDone(n) ==> AcceptanceDone(n')
  {}

  lemma OwnAuxFrame(c: Committee, n: Core, p: ABAProof)
    ensures NoMoreDue(n, HandleAbaVal(c, AuxLogged(n, p), OwnVal(n, p.epoch, p.round, p.val, AUX_PHASE)).0)
  {}

  lemma AcceptanceFrame(c: Committee, n: Core)
    requires n.aba.phase >= VAL_PHASE && Now(n) in n.aba.val2 && Val2Step(c, n).1
    ensures NoMoreDue(n, Val2Step(c, n).0) && n.aba.val2[Now(n)].val in Val2Step(c, n).0.aba.bin
  {
    OwnAuxFrame(c, n, n.aba.val2[Now(n)]);
  }

  lemma AcceptanceIsDone(c: Committee, n: Core)
    requires Val2Step(c, n).1 && InputDone(n) && RelayDone(n)
    ensures var n' := Val2Step(c, n).0;
            InputDone(n') && RelayDone(n') && AcceptanceDone(n') && n'.aba.round == n.aba.round
  {
    if n.aba.phase >= VAL_PHASE && Now(n) in n.aba.val2 {
      AcceptanceFrame(c, n);
      StillDone(n, Val2Step(c, n).0);
    }
  }

  lemma OwnShareFrame(c: Committee, n: Core, s: Share, combined: Option<nat>)
    ensures NoMoreDue(n, HandleCoinShare(c, n, s, combined).0)
    ensures HandleCoinShare(c, n, s, combined).0.aba.coinSent == n.aba.coinSent
  {}

  lemma OpeningFrame(c: Committee, n: Core, combined: Option<nat>)
    ensures NoMoreDue(n, AuxStep(c, n, combined).0) && OpeningDone(AuxStep(c, n, combined).0)
  {
    if n.aba.phase >= AUX_PHASE && Now(n) in n.aba.aux && !n.aba.coinSent {
      var p := n.aba.aux[Now(n)];
      var n1 := Logged(n.(aba := n.aba.(coinSent := true)), CoinSent(p.epoch, p.round));
      OwnShareFrame(c, n1, Share(p.epoch, p.round, n.name, Signature(n.name, CoinS(p.epoch, p.round))), combined);
    }
  }

  lemma OpeningIsDone(c: Committee, n: Core, combined: Option<nat>)
    requires InputDone(n) && RelayDone(n) && AcceptanceDone(n)
    ensures var n' := AuxStep(c, n, combined).0;
            InputDone(n') && RelayDone(n') && AcceptanceDone(n') && OpeningDone(n') && n'.aba.round == n.aba.round
  {
    OpeningFrame(c, n, combined);
    StillDone(n, AuxStep(c, n, combined).0);
  }

  lemma DecidingDecides(n: Core, v: nat, p: ABAProof)
    ensures SendProof(Decide(n, v), p).aba.output.Some?
  {}

  lemma AdvancingAdvances(c: Committee, n: Core, v: nat)
    ensures AdvanceRound(c, n, v).0.aba.round == n.aba.round + 1
  {
    HandleAbaValFrame(c, RoundStarted(n, v), OwnVal(n, n.epoch, n.aba.round + 1, v, VAL_PHASE));
  }

  /** The coin ends the round or decides. */
  lemma CoinMovesOn(c: Committee, n: Core)
    requires NodeInv(c, n)
    ensures var n' := CoinStep(c, n).0;
            if n.aba.phase == COIN_PHASE then n'.aba.round > n.aba.round || n'.aba.output.Some? else n' == n
  {
    if n.aba.phase == COIN_PHASE {
      var decided, v := CoinStepCases(c, n);
      if decided {
        DecidingDecides(n, v, n.aba.aux[Now(n)]);
      } else {
        AdvancingAdvances(c, n, v);
      }
    }
  }

  lemma ProofIsDone(c: Committee, n: Core)
    requires NodeInv(c, n)
    ensures var n' := ProofStep(n);
            n'.aba.round == n.aba.round && (n'.aba.output.Some? || (n' == n && ProofDone(n)))
  {
    if n.viewChange && Now(n) in n.aba.proofs {
      var p := n.aba.proofs[Now(n)];
      assert Round(p.epoch, p.round) == Now(n);
    }
  }

  lemma SharesSent(c: Committee, n: Core, combined: Option<nat>)
    requires Undecided(c, n) && AuxPass(c, n, combined).1
    ensures var n' := AuxPass(c, n, combined).0;
            InputDone(n') && RelayDone(n') && AcceptanceDone(n') && OpeningDone(n') && n'.aba.round == n.aba.round
  {
    TcStepUndecided(c, n);
    InputIsDone(c, n);
    var n1 := TcStep(c, n).0;
    RelayIsDone(c, n1);
    var n2 := Val1Pass(c, n).0;
    AcceptanceIsDone(c, n2);
    OpeningIsDone(c, Val2Pass(c, n).0, combined);
  }

  /** A pass that ends without an error has decided, has begun another round, or leaves nothing due. */
  lemma PassLeavesNothingDue(c: Committee, n: Core, combined: Option<nat>)
    requires Undecided(c, n) && AbaPass(c, n, combined).1
    ensures var n' := AbaPass(c, n, combined).0;
            n'.aba.output.Some? || n'.aba.round > n.aba.round || NothingDue(n')
  {
    SharesSent(c, n, combined);
    var n4 := AuxPass(c, n, combined).0;
    CoinMovesOn(c, n4);
    ProofIsDone(c, CoinPass(c, n, combined).0);
  }

  // ----- Own messages -----

  ghost predicate CountsVal(n: Core, epoch: nat, round: nat, phase: nat, val: nat, x: PublicKey) {
    x in Entry(n.aba.tables.vals, ValKey(epoch, round, phase, val)).used
  }

  lemma OwnValCounts(c: Committee, n: Core, round: nat, val: nat, phase: nat)
    requires n.aba.output.None? && round >= n.aba.round && (phase == VAL_PHASE || phase == AUX_PHASE)
    ensures CountsVal(HandleAbaVal(c, n, OwnVal(n, n.epoch, round, val, phase)).0, n.epoch, round, phase, val, n.name)
  {
    ValIsCounted(c, n, OwnVal(n, n.epoch, round, val, phase));
  }

  /** The input of round 1 a node takes from its certificate is counted with the node itself. */
  lemma InputIsCounted(c: Committee, n: Core)
    requires Undecided(c, n) && !n.aba.tcProcessed && n.epoch in n.tcs
    ensures var v := Maximum(HighQcRounds(n.tcs[n.epoch]));
            CountsVal(TcStep(c, n).0, n.epoch, 1, VAL_PHASE, v, n.name)
  {
    var v := Maximum(HighQcRounds(n.tcs[n.epoch]));
    var n1 := Logged(n.(aba := n.aba.(input := n.aba.input[1 := v])), Input(n.epoch, 1, v));
    OwnValCounts(c, n1, 1, v, VAL_PHASE);
  }

  /** A value the node relays is counted with the node itself. */
  lemma RelayIsCounted(c: Committee, n: Core)
    requires Undecided(c, n) && n.aba.phase >= VAL_PHASE && Now(n) in n.aba.val1 && n.aba.round in n.aba.input
    requires !n.aba.valSent && n.aba.input[n.aba.round] != n.aba.val1[Now(n)].val
    ensures CountsVal(Val1Step(c, n).0, n.epoch, n.aba.round, VAL_PHASE, n.aba.val1[Now(n)].val, n.name)
  {
    var p := n.aba.val1[Now(n)];
    assert Round(p.epoch, p.round) == Now(n);
    OwnValCounts(c, Logged(n.(aba := n.aba.(valSent := true)), Relay(p.epoch, p.round, p.val)), n.aba.round, p.val,
                 VAL_PHASE);
  }

  /** A value the node confirms is counted with the node itself. */
  lemma AuxIsCountedToo(c: Committee, n: Core)
    requires Undecided(c, n) && n.aba.phase >= VAL_PHASE && Now(n) in n.aba.val2
    requires !n.aba.auxSent && n.aba.bin != {}
    ensures CountsVal(Val2Step(c, n).0, n.epoch, n.aba.round, AUX_PHASE, n.aba.val2[Now(n)].val, n.name)
  {
    var p := n.aba.val2[Now(n)];
    assert Round(p.epoch, p.round) == Now(n);
    OwnValCounts(c, AuxLogged(n, p), n.aba.round, p.val, AUX_PHASE);
  }

  /** The value the node goes on to the next round with is counted with the node itself. */
  lemma CarriedValueIsCounted(c: Committee, n: Core, v: nat)
    requires n.aba.output.None?
    ensures CountsVal(AdvanceRound(c, n, v).0, n.epoch, n.aba.round + 1, VAL_PHASE, v, n.name)
  {
    OwnValCounts(c, RoundStarted(n, v), n.aba.round + 1, v, VAL_PHASE);
  }

  /** The node's share of the coin is counted, if it holds stake. */
  lemma OwnShareIsCounted(c: Committee, n: Core, combined: Option<nat>)
    requires Undecided(c, n) && n.aba.phase >= AUX_PHASE && Now(n) in n.aba.aux && !n.aba.coinSent
    requires c.Stake(n.name) > 0
    ensures n.name in Entry(AuxStep(c, n, combined).0.aba.tables.coins, Now(n)).used
  {
    var p := n.aba.aux[Now(n)];
    assert Round(p.epoch, p.round) == Now(n);
    var n1 := Logged(n.(aba := n.aba.(coinSent := true)), CoinSent(p.epoch, p.round));
    ShareIsCounted(c, n1, Share(p.epoch, p.round, n.name, Signature(n.name, CoinS(p.epoch, p.round))), combined);
  }

  /** The timeout the node signs when the leader lags is counted, if its certificate is accepted. */
  lemma OwnTimeoutIsCounted(c: Committee, n: Core)
    requires NodeInv(c, n) && !n.viewChange && n.epoch !in n.tcs && LeaderLags(c, n) && c.Stake(n.name) > 0
    requires var qc := n.ledger.chains[LeaderOf(c, n.epoch)].highQc; IsGenesis(qc) || QcAccepted(c, qc)
    ensures var n', leader := CheckTimeout(c, n), LeaderOf(c, n.epoch);
            leader in n'.ledger.chains && n.name in Entry(n'.ledger.chains[leader].aggregator.timeouts, n.epoch).used
  {
    TimeoutIsCounted(c, SignTimeout(c, n), OwnTimeout(c, n));
  }

  /** What a member with stake sends is accepted everywhere; a block or a timeout as long as the certificate it
      carries is. */
  lemma OwnMessagesAreAccepted(c: Committee, n: Core, b: Block, epoch: nat, round: nat, val: nat, phase: nat,
                               tag: bool, draft: Draft)
    requires NodeInv(c, n) && c.Stake(n.name) > 0
    ensures ValAccepted(OwnVal(n, epoch, round, val, phase))
    ensures ShareAccepted(c, Share(epoch, round, n.name, Signature(n.name, CoinS(epoch, round))))
    ensures VoteAccepted(c, Vote(DigestOf(b), b.epoch, b.height, n.name, b.author,
                                 Signature(n.name, VoteS(DigestOf(b), b.epoch, b.height, b.author))))
    ensures var qc := n.ledger.chains[LeaderOf(c, n.epoch)].highQc;
            TimeoutAccepted(c, OwnTimeout(c, n)) <==> IsGenesis(qc) || QcAccepted(c, qc)
    ensures var own := Proposal(n.ledger.chains, n.name, tag, draft);
            BlockAccepted(c, own) <==> IsGenesis(own.qc) || QcAccepted(c, own.qc)
  {}

  /** Over runs the timeout a node signs against another leader is accepted everywhere. */
  lemma OwnTimeoutIsAccepted(c: Committee, tr: seq<World>, x: PublicKey)
    requires Run(c, tr) && FaultBound(c, tr[0]) && x in Last(tr) && c.Stake(x) > 0
    requires LeaderOf(c, Last(tr)[x].epoch) in Last(tr)[x].ledger.chains && LeaderOf(c, Last(tr)[x].epoch) != x
    ensures TimeoutAccepted(c, OwnTimeout(c, Last(tr)[x]))
  {
    RunKeepsInv(c, tr);
    RunKeepsCert(c, tr);
    TopIsAccepted(c, Known(Last(tr)), Last(tr)[x], LeaderOf(c, Last(tr)[x].epoch));
  }

  lemma TopIsAccepted(c: Committee, k: Knowledge, n: Core, y: PublicKey)
    requires CertInv(c, k, n) && y in n.ledger.chains && y != n.name
    ensures IsGenesis(n.ledger.chains[y].highQc) || QcAccepted(c, n.ledger.chains[y].highQc)
  {
    assert ChainBacked(c, k, n.name, y, n.ledger.chains[y]);
  }
}
