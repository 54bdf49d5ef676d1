/** Every step of a node keeps its local invariant, so the partial operations of the agreement are
    defined in every reachable state, and commits touch nothing but commit counters. */
module NodeSafety {
  import opened Committees
  import opened Options
  import opened Messages
  import opened Aggregators
  import opened Commits
  import opened Delivery
  import opened Reentries
  import opened Nodes

  // ----- Steps on the chains -----

  lemma ProcessQcKeeps(c: Committee, n: Core, x: PublicKey, qc: QC)
    requires NodeInv(c, n) && x in n.ledger.chains
    ensures NodeInv(c, ProcessQc(n, x, qc))
  {}

  /** Commits move commit counters only, whether they succeed or not and wherever they lead. */
  lemma AttemptFrame(l: Ledger, leader: PublicKey, stale: Chain, height: nat)
    requires leader in l.chains && Attempt(l, leader, stale, height).Returned?
    ensures var r := Attempt(l, leader, stale, height);
            && CountersOnly(l.chains[leader := stale], r.chains) && OnlyCounters(l.chains[leader], r.chain)
            && CountersOnly(l.chains, r.chains[leader := r.chain])
            && (r.ok ==> r.chain.lastCommitted == Max(l.chains[leader].lastCommitted, height))
  {
    var table, chain := l.chains[leader := stale], l.chains[leader];
    var d := DepthOf(l.store, leader, table, chain, height);
    PrevFrame(d, l.store, leader, table, chain, height);
    var r := Attempt(l, leader, stale, height);
    forall x | x in l.chains ensures OnlyCounters(l.chains[x], r.chains[leader := r.chain][x]) {
      assert x != leader ==> OnlyCounters(table[x], r.chains[x]);
    }
  }

  lemma CommitToKeeps(c: Committee, n: Core, stale: Chain, height: Option<nat>)
    requires NodeInv(c, n)
    ensures NodeInv(c, CommitTo(c, n, stale, height))
    ensures CountersOnly(n.ledger.chains, CommitTo(c, n, stale, height).ledger.chains)
  {
    if height.Some? && CommitReturns(c, n, stale, height) {
      AttemptFrame(n.ledger, LeaderOf(c, n.epoch), stale, height.value);
    }
  }

  lemma VoteOnKeeps(c: Committee, n: Core, block: Block)
    requires NodeInv(c, n) && block.author in n.ledger.chains
    ensures NodeInv(c, VoteOn(c, n, block))
  {}

  lemma ProcessBlockKeeps(c: Committee, n: Core, stale: Chain, block: Block)
    requires NodeInv(c, n) && block.author in n.ledger.chains
    ensures NodeInv(c, ProcessBlock(c, n, stale, block))
  {
    var n1 := StoreBlock(n, block);
    CommitToKeeps(c, n1, stale, TwoChain(c, n1, block));
    VoteOnKeeps(c, CommitTo(c, n1, stale, TwoChain(c, n1, block)), block);
  }

  /** Processing a block stores it, commits what its 2-chain commits and votes. */
  lemma ProcessBlockSteps(c: Committee, n: Core, stale: Chain, block: Block) returns (n1: Core, n2: Core)
    requires NodeInv(c, n) && block.author in n.ledger.chains
    ensures n1 == StoreBlock(n, block) && NodeInv(c, n1)
    ensures n2 == CommitTo(c, n1, stale, TwoChain(c, n1, block)) && NodeInv(c, n2)
    ensures block.author in n2.ledger.chains && ProcessBlock(c, n, stale, block) == VoteOn(c, n2, block)
  {
    n1 := StoreBlock(n, block);
    CommitToKeeps(c, n1, stale, TwoChain(c, n1, block));
    n2 := CommitTo(c, n1, stale, TwoChain(c, n1, block));
  }

  lemma HandleVoteKeeps(c: Committee, n: Core, vote: Vote, draft: Draft)
    requires NodeInv(c, n) && vote.proposer == n.name
    ensures NodeInv(c, HandleVote(c, n, vote, draft))
  {}

  /** Counting a timeout touches one table of one chain, and perhaps the collected certificates. */
  ghost predicate OnlyTimers(a: Chain, b: Chain) {
    b == a.(aggregator := a.aggregator.(timeouts := b.aggregator.timeouts))
  }

  lemma CountTimeoutFrame(c: Committee, n: Core, t: Timeout)
    requires LeaderOf(c, t.epoch) in n.ledger.chains
    ensures var n' := CountTimeout(c, n, t);
            && n' == n.(tcs := n'.tcs, ledger := n.ledger.(chains := n'.ledger.chains))
            && n'.ledger.chains.Keys == n.ledger.chains.Keys
            && forall x | x in n.ledger.chains :: OnlyTimers(n.ledger.chains[x], n'.ledger.chains[x])
  {}

  lemma CountTimeoutTcs(c: Committee, n: Core, t: Timeout)
    requires LeaderOf(c, t.epoch) in n.ledger.chains && TcsInv(n)
    ensures TcsInv(CountTimeout(c, n, t))
  {}

  lemma CountTimeoutKeeps(c: Committee, n: Core, t: Timeout)
    requires NodeInv(c, n) && LeaderOf(c, t.epoch) in n.ledger.chains
    ensures NodeInv(c, CountTimeout(c, n, t))
  {
    CountTimeoutTcs(c, n, t);
    CountTimeoutFrame(c, n, t);
    var n' := CountTimeout(c, n, t);
    forall x | x in n'.ledger.chains ensures n'.ledger.chains[x].name == x {
      assert OnlyTimers(n.ledger.chains[x], n'.ledger.chains[x]);
    }
  }

  lemma SignTimeoutKeeps(c: Committee, n: Core)
    requires NodeInv(c, n) && LeaderOf(c, n.epoch) in n.ledger.chains
    ensures NodeInv(c, SignTimeout(c, n))
  {}

  lemma HandleTcKeeps(c: Committee, n: Core, tc: TC)
    requires NodeInv(c, n)
    ensures NodeInv(c, HandleTc(c, n, tc))
  {
    if TcAccepted(c, tc) {
      AcceptedTcHasVotes(c, tc);
    }
  }

  // ----- Steps of the agreement -----

  lemma MadeProofKey(c: Committee, a: Aba, m: ABAVal)
    requires AddVal(c, a.tables, m).1.Made?
    ensures var p := AddVal(c, a.tables, m).1.value;
            (p.epoch, p.round, p.phase, p.val) == (m.epoch, m.round, m.phase, m.val)
  {}

  lemma HandleAbaValKeeps(c: Committee, n: Core, m: ABAVal)
    requires NodeInv(c, n)
    ensures NodeInv(c, HandleAbaVal(c, n, m).0)
  {
    if TakesVal(n, m) && AddVal(c, n.aba.tables, m).1.Made? {
      MadeProofKey(c, n.aba, m);
    }
  }

  lemma HandleCoinShareKeeps(c: Committee, n: Core, s: Share, combined: Option<nat>)
    requires NodeInv(c, n)
    ensures NodeInv(c, HandleCoinShare(c, n, s, combined).0)
  {}

  lemma HandleAbaProofKeeps(c: Committee, n: Core, p: ABAProof)
    requires NodeInv(c, n)
    ensures NodeInv(c, HandleAbaProof(c, n, p).0)
  {}

  /** The certificate's maximum becomes the node's own input of round 1. */
  lemma InputLoggedKeeps(c: Committee, n: Core, v: nat)
    requires NodeInv(c, n) && !n.aba.tcProcessed
    ensures NodeInv(c, Logged(n.(aba := n.aba.(input := n.aba.input[1 := v])), Input(n.epoch, 1, v)))
  {}

  lemma TcStepKeeps(c: Committee, n: Core)
    requires NodeInv(c, n)
    ensures NodeInv(c, TcStep(c, n).0)
  {
    if !n.aba.tcProcessed && n.epoch in n.tcs {
      var v := Maximum(HighQcRounds(n.tcs[n.epoch]));
      var n1 := Logged(n.(aba := n.aba.(input := n.aba.input[1 := v])), Input(n.epoch, 1, v));
      InputLoggedKeeps(c, n, v);
      HandleAbaValKeeps(c, n1, OwnVal(n, n.epoch, 1, v, VAL_PHASE));
    }
  }

  lemma Val1StepKeeps(c: Committee, n: Core)
    requires NodeInv(c, n)
    ensures NodeInv(c, Val1Step(c, n).0)
  {
    if n.aba.phase >= VAL_PHASE && Now(n) in n.aba.val1 {
      var p := n.aba.val1[Now(n)];
      var n1 := Logged(n.(aba := n.aba.(valSent := true)), Relay(p.epoch, p.round, p.val));
      assert NodeInv(c, n1);
      HandleAbaValKeeps(c, n1, OwnVal(n, p.epoch, p.round, p.val, p.phase));
    }
  }

  lemma BinGrowsKeeps(c: Committee, n: Core, v: nat)
    requires NodeInv(c, n)
    ensures NodeInv(c, WithBin(n, v))
  {
    assert |n.aba.bin + {v}| >= |n.aba.bin| by {
      if v !in n.aba.bin {
      } else {
        assert n.aba.bin + {v} == n.aba.bin;
      }
    }
  }

  lemma Val2StepKeeps(c: Committee, n: Core)
    requires NodeInv(c, n)
    ensures NodeInv(c, Val2Step(c, n).0)
  {
    if n.aba.phase >= VAL_PHASE && Now(n) in n.aba.val2 {
      var p, n2 := Val2StepCases(c, n);
      assert NodeInv(c, AuxLogged(n, p));
      HandleAbaValKeeps(c, AuxLogged(n, p), OwnVal(n, p.epoch, p.round, p.val, AUX_PHASE));
      BinGrowsKeeps(c, n2, p.val);
    }
  }

  lemma AuxStepKeeps(c: Committee, n: Core, combined: Option<nat>)
    requires NodeInv(c, n)
    ensures NodeInv(c, AuxStep(c, n, combined).0)
  {
    if n.aba.phase >= AUX_PHASE && Now(n) in n.aba.aux {
      var (e, r) := (n.aba.aux[Now(n)].epoch, n.aba.aux[Now(n)].round);
      var n1 := Logged(n.(aba := n.aba.(coinSent := true)), CoinSent(e, r));
      assert NodeInv(c, n1);
      HandleCoinShareKeeps(c, n1, Share(e, r, n.name, Signature(n.name, CoinS(e, r))), combined);
    }
  }

  lemma RoundStartedKeeps(c: Committee, n: Core, v: nat)
    requires NodeInv(c, n) && n.aba.tcProcessed && n.aba.output.None?
    ensures NodeInv(c, RoundStarted(n, v))
  {}

  lemma AdvanceRoundKeeps(c: Committee, n: Core, v: nat)
    requires NodeInv(c, n) && n.aba.tcProcessed && n.aba.output.None?
    ensures NodeInv(c, AdvanceRound(c, n, v).0)
  {
    RoundStartedKeeps(c, n, v);
    var n1, own := RoundStarted(n, v), OwnVal(n, n.epoch, n.aba.round + 1, v, VAL_PHASE);
    assert AdvanceRound(c, n, v) == HandleAbaVal(c, n1, own);
    HandleAbaValKeeps(c, n1, own);
  }

  lemma NextEpochKeeps(a: Aba, epoch: nat)
    requires CacheInv(a)
    ensures CacheInv(NextEpochAba(a, epoch))
  {}

  lemma DecideKeeps(c: Committee, n: Core, v: nat)
    requires NodeInv(c, n) && Now(n) in n.aba.coin && v % 2 == n.aba.coin[Now(n)]
    ensures NodeInv(c, Decide(n, v))
  {}

  lemma SendProofKeeps(c: Committee, n: Core, p: ABAProof)
    requires NodeInv(c, n)
    ensures NodeInv(c, SendProof(n, p))
  {}

  lemma CoinStepKeeps(c: Committee, n: Core)
    requires NodeInv(c, n) && n.aba.output.None?
    ensures NodeInv(c, CoinStep(c, n).0)
  {
    if n.aba.phase == COIN_PHASE {
      var decided, v := CoinStepCases(c, n);
      if decided {
        DecideKeeps(c, n, v);
        SendProofKeeps(c, Decide(n, v), n.aba.aux[Now(n)]);
      } else {
        AdvanceRoundKeeps(c, n, v);
      }
    }
  }

  lemma ProofStepKeeps(c: Committee, n: Core)
    requires NodeInv(c, n)
    ensures NodeInv(c, ProofStep(n))
  {}

  lemma EnterPhasesKeeps(c: Committee, n: Core)
    requires NodeInv(c, n)
    ensures NodeInv(c, EnterPhases(c, n))
  {}

  lemma NextEpochKeepsAll(c: Committee, n: Core, draft: Draft)
    requires NodeInv(c, n) && n.aba.output.Some?
    ensures NodeInv(c, NextEpoch(c, n, draft))
  {
    NextEpochKeeps(n.aba, n.epoch + 1);
  }

  lemma CloseEpochKeeps(c: Committee, n: Core, draft: Draft)
    requires NodeInv(c, n) && n.aba.output.Some?
    ensures NodeInv(c, CloseEpoch(c, n, draft))
  {
    var b := Closing(c, n);
    if b.Some? {
      CommitToKeeps(c, n, n.ledger.chains[LeaderOf(c, n.epoch)], Some(b.value.height));
      NextEpochKeepsAll(c, ClosingCommit(c, n, b.value), draft);
    }
  }
}
