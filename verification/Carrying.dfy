/** Over a run a node loses nothing it still needs: what it has filed for its epoch and its round or a
    later one stays, and what it has signed, stored, delivered and promised is never taken back. */
module Carrying {
  import opened Committees
  import opened Options
  import opened Messages
  import opened Aggregators
  import opened Commits
  import opened Delivery
  import opened Nodes
  import opened NodeSafety
  import opened Worlds
  import opened Systems

  // ----- What is carried from one state of a node to a later one -----

  ghost predicate ChainsCarried(n: Core, n': Core) {
    && n'.name == n.name && n.epoch <= n'.epoch && n.ledger.log <= n'.ledger.log && n.ledger.past <= n'.ledger.past
    && (n.epoch == n'.epoch && n.viewChange ==> n'.viewChange)
    && (forall e | e in n.tcs && n'.epoch <= e :: e in n'.tcs)
    && (forall d | d in n.ledger.store :: d in n'.ledger.store)
    && n'.ledger.chains.Keys == n.ledger.chains.Keys
    && forall x | x in n.ledger.chains :: n.ledger.chains[x].lastVoted <= n'.ledger.chains[x].lastVoted
  }

  /** The entries of the epoch for the given round and later ones are still there. */
  ghost predicate Kept<V>(a: map<Round, V>, b: map<Round, V>, epoch: nat, round: nat) {
    forall k | k in a && k.epoch == epoch && k.round >= round :: k in b
  }

  ghost predicate Counted(a: map<Round, nat>, b: map<Round, nat>, epoch: nat, round: nat) {
    forall k | k in a && k.epoch == epoch && k.round >= round :: k in b && a[k] <= b[k]
  }

  ghost predicate CachesCarried(a: Aba, b: Aba, epoch: nat) {
    && a.round <= b.round
    && Kept(a.val1, b.val1, epoch, b.round) && Kept(a.val2, b.val2, epoch, b.round)
    && Kept(a.aux, b.aux, epoch, b.round) && Kept(a.proofs, b.proofs, epoch, b.round)
    && Counted(a.auxNums, b.auxNums, epoch, b.round) && Kept(a.coin, b.coin, epoch, 0)
  }

  ghost predicate AbaCarried(n: Core, n': Core) {
    n.aba.log <= n'.aba.log && (n.epoch == n'.epoch ==> CachesCarried(n.aba, n'.aba, n.epoch))
  }

  ghost predicate Carries(n: Core, n': Core) {
    ChainsCarried(n, n') && AbaCarried(n, n')
  }

  lemma CarriesOn(a: Core, b: Core, d: Core)
    requires Carries(a, b) && Carries(b, d)
    ensures Carries(a, d)
  {
    forall x | x in a.ledger.chains ensures a.ledger.chains[x].lastVoted <= d.ledger.chains[x].lastVoted {
      assert a.ledger.chains[x].lastVoted <= b.ledger.chains[x].lastVoted;
    }
  }

  // ----- The steps -----

  lemma CommitCarries(c: Committee, n: Core, stale: Chain, height: Option<nat>)
    requires NodeInv(c, n)
    ensures Carries(n, CommitTo(c, n, stale, height))
  {
    var n' := CommitTo(c, n, stale, height);
    CommitToKeeps(c, n, stale, height);
    forall x | x in n.ledger.chains ensures n.ledger.chains[x].lastVoted <= n'.ledger.chains[x].lastVoted {
      assert OnlyCounters(n.ledger.chains[x], n'.ledger.chains[x]);
    }
  }

  lemma BlockCarries(c: Committee, n: Core, stale: Chain, b: Block)
    requires NodeInv(c, n) && b.author in n.ledger.chains
    ensures Carries(n, ProcessBlock(c, n, stale, b))
  {
    var n1, n2 := ProcessBlockSteps(c, n, stale, b);
    StoreCarries(n, b);
    CommitCarries(c, n1, stale, TwoChain(c, n1, b));
    CarriesOn(n, n1, n2);
    VoteOnCarries(c, n2, b);
    CarriesOn(n, n2, VoteOn(c, n2, b));
  }

  lemma StoreCarries(n: Core, b: Block)
    ensures Carries(n, StoreBlock(n, b))
  {}

  lemma VoteOnCarries(c: Committee, n: Core, b: Block)
    requires b.author in n.ledger.chains
    ensures Carries(n, VoteOn(c, n, b))
  {}

  lemma TimeoutCarries(c: Committee, n: Core, t: Timeout)
    requires LeaderOf(c, t.epoch) in n.ledger.chains
    ensures Carries(n, CountTimeout(c, n, t))
  {}

  lemma ClosingCarries(c: Committee, n: Core, draft: Draft)
    requires NodeInv(c, n) && n.aba.output.Some?
    ensures Carries(n, CloseEpoch(c, n, draft))
  {
    var b := Closing(c, n);
    if b.Some? {
      var n1 := ClosingCommit(c, n, b.value);
      CommitToKeeps(c, n, n.ledger.chains[LeaderOf(c, n.epoch)], Some(b.value.height));
      CommitCarries(c, n, n.ledger.chains[LeaderOf(c, n.epoch)], Some(b.value.height));
      EpochCarries(c, n1, draft);
      CarriesOn(n, n1, NextEpoch(c, n1, draft));
    }
  }

  lemma EpochCarries(c: Committee, n: Core, draft: Draft)
    requires NodeInv(c, n) && n.aba.output.Some?
    ensures Carries(n, NextEpoch(c, n, draft))
  {}

  lemma VoteCarries(c: Committee, n: Core, vote: Vote, draft: Draft)
    requires vote.proposer == n.name && n.name in n.ledger.chains
    ensures Carries(n, HandleVote(c, n, vote, draft))
  {}

  lemma QcCarries(n: Core, x: PublicKey, qc: QC)
    requires x in n.ledger.chains
    ensures Carries(n, ProcessQc(n, x, qc))
  {}

  lemma SignCarries(c: Committee, n: Core)
    requires LeaderOf(c, n.epoch) in n.ledger.chains
    ensures Carries(n, SignTimeout(c, n))
  {}

  lemma ValCarries(c: Committee, n: Core, m: ABAVal)
    ensures Carries(n, HandleAbaVal(c, n, m).0)
  {}

  lemma ShareCarries(c: Committee, n: Core, s: Share, combined: Option<nat>)
    ensures Carries(n, HandleCoinShare(c, n, s, combined).0)
  {}

  /** Sending something and then handling it. */
  lemma HandledCarries(c: Committee, n: Core, n1: Core, m: ABAVal, n2: Core)
    requires Carries(n, n1) && n2 == HandleAbaVal(c, n1, m).0
    ensures Carries(n, n2)
  {
    ValCarries(c, n1, m);
    CarriesOn(n, n1, n2);
  }

  lemma InputCarries(n: Core, v: nat)
    ensures Carries(n, Logged(n.(aba := n.aba.(input := n.aba.input[1 := v])), Input(n.epoch, 1, v)))
  {}

  lemma FlagCarries(n: Core, n2: Core)
    requires Carries(n, n2)
    ensures Carries(n, n2.(aba := n2.aba.(tcProcessed := true)))
  {}

  lemma TcStepCarries(c: Committee, n: Core)
    requires NodeInv(c, n)
    ensures Carries(n, TcStep(c, n).0)
  {
    if !n.aba.tcProcessed && n.epoch in n.tcs {
      var v := Maximum(HighQcRounds(n.tcs[n.epoch]));
      var n1 := Logged(n.(aba := n.aba.(input := n.aba.input[1 := v])), Input(n.epoch, 1, v));
      var own := OwnVal(n, n.epoch, 1, v, VAL_PHASE);
      var n2 := HandleAbaVal(c, n1, own).0;
      InputCarries(n, v);
      HandledCarries(c, n, n1, own, n2);
      FlagCarries(n, n2);
    }
  }

  lemma Val1StepCarries(c: Committee, n: Core)
    requires NodeInv(c, n)
    ensures Carries(n, Val1Step(c, n).0)
  {
    if n.aba.phase >= VAL_PHASE && Now(n) in n.aba.val1 {
      var p := n.aba.val1[Now(n)];
      var n1 := Logged(n.(aba := n.aba.(valSent := true)), Relay(p.epoch, p.round, p.val));
      var own := OwnVal(n, p.epoch, p.round, p.val, p.phase);
      HandledCarries(c, n, n1, own, HandleAbaVal(c, n1, own).0);
    }
  }

  lemma Val2StepCarries(c: Committee, n: Core)
    ensures Carries(n, Val2Step(c, n).0)
  {
    if n.aba.phase >= VAL_PHASE && Now(n) in n.aba.val2 {
      var p, n2 := Val2StepCases(c, n);
      var own := OwnVal(n, p.epoch, p.round, p.val, AUX_PHASE);
      HandledCarries(c, n, AuxLogged(n, p), own, HandleAbaVal(c, AuxLogged(n, p), own).0);
      CarriesOn(n, n2, WithBin(n2, p.val));
    }
  }

  lemma AuxStepCarries(c: Committee, n: Core, combined: Option<nat>)
    ensures Carries(n, AuxStep(c, n, combined).0)
  {
    if n.aba.phase >= AUX_PHASE && Now(n) in n.aba.aux {
      var p := n.aba.aux[Now(n)];
      var n1 := Logged(n.(aba := n.aba.(coinSent := true)), CoinSent(p.epoch, p.round));
      var own := Share(p.epoch, p.round, n.name, Signature(n.name, CoinS(p.epoch, p.round)));
      ShareCarries(c, n1, own, combined);
      CarriesOn(n, n1, HandleCoinShare(c, n1, own, combined).0);
    }
  }

  lemma RoundCarries(n: Core, v: nat)
    ensures Carries(n, RoundStarted(n, v))
  {}

  lemma DecisionCarries(n: Core, v: nat, p: ABAProof)
    ensures Carries(n, SendProof(Decide(n, v), p))
  {}

  lemma AdvanceCarries(c: Committee, n: Core, v: nat)
    ensures Carries(n, AdvanceRound(c, n, v).0)
  {
    var n1, own := RoundStarted(n, v), OwnVal(n, n.epoch, n.aba.round + 1, v, VAL_PHASE);
    RoundCarries(n, v);
    HandledCarries(c, n, n1, own, HandleAbaVal(c, n1, own).0);
  }

  lemma CoinStepCarries(c: Committee, n: Core)
    requires NodeInv(c, n)
    ensures Carries(n, CoinStep(c, n).0)
  {
    if n.aba.phase == COIN_PHASE {
      var decided, v := CoinStepCases(c, n);
      if decided {
        DecisionCarries(n, v, n.aba.aux[Now(n)]);
      } else {
        AdvanceCarries(c, n, v);
      }
    }
  }

  lemma AbaProofCarries(c: Committee, n: Core, p: ABAProof)
    ensures Carries(n, HandleAbaProof(c, n, p).0)
  {}

  lemma ProofStepCarries(n: Core)
    ensures Carries(n, ProofStep(n))
  {}

  lemma PhasesCarry(c: Committee, n: Core)
    ensures Carries(n, EnterPhases(c, n))
  {}

  lemma TcCarries(c: Committee, n: Core, tc: TC)
    ensures Carries(n, HandleTc(c, n, tc))
  {}

  lemma ViewChangeCarries(n: Core)
    ensures Carries(n, n.(viewChange := true))
  {}

  lemma ChainActionCarries(c: Committee, k: Knowledge, n: Core, a: Action)
    requires NodeInv(c, n) && Enabled(c, k, n, a) && OnChains(a)
    ensures Carries(n, Apply(c, k, n, a))
  {
    match a
    case OnQc(x, qc) => QcCarries(n, x, qc);
    case OnBlock(b, stale) => BlockCarries(c, n, stale, b);
    case OnVote(v, draft) => VoteCarries(c, n, v, draft);
    case OnTimeout(t) => TimeoutCarries(c, n, t);
    case OnTc(tc) => TcCarries(c, n, tc);
    case EnterViewChange => ViewChangeCarries(n);
    case TimeOut => SignCarries(c, n);
  }

  lemma AbaActionCarries(c: Committee, k: Knowledge, n: Core, a: Action)
    requires NodeInv(c, n) && Enabled(c, k, n, a) && !OnChains(a) && !a.Close?
    ensures Carries(n, Apply(c, k, n, a))
  {
    match a
    case OnAbaVal(m) => ValCarries(c, n, m);
    case OnAbaProof(p) => AbaProofCarries(c, n, p);
    case OnCoinShare(s, combined) => ShareCarries(c, n, s, combined);
    case Phases => PhasesCarry(c, n);
    case UseTc => TcStepCarries(c, n);
    case UseVal1 => Val1StepCarries(c, n);
    case UseVal2 => Val2StepCarries(c, n);
    case UseAux(combined) => AuxStepCarries(c, n, combined);
    case UseCoin => CoinStepCarries(c, n);
    case UseProof => ProofStepCarries(n);
  }

  lemma ActionCarries(c: Committee, k: Knowledge, n: Core, a: Action)
    requires NodeInv(c, n) && Enabled(c, k, n, a)
    ensures Carries(n, Apply(c, k, n, a))
  {
    if OnChains(a) {
      ChainActionCarries(c, k, n, a);
    } else if a.Close? {
      ClosingCarries(c, n, a.draft);
    } else {
      AbaActionCarries(c, k, n, a);
    }
  }

  // ----- Whole runs -----

  lemma StepCarries(c: Committee, w: World, w': World, y: PublicKey)
    requires Step(c, w, w') && y in w
    ensures y in w' && Carries(w[y], w'[y])
  {
    var x, a :| StepBy(c, w, w', x, a);
    if x == y {
      ActionCarries(c, Known(w), w[x], a);
    }
  }

  /** One world of a run leads to the next. */
  ghost predicate StepTo(c: Committee, tr: seq<World>, j: nat) {
    0 < j < |tr| && Step(c, tr[j - 1], tr[j])
  }

  ghost predicate StepByStep(c: Committee, tr: seq<World>) {
    forall j: nat {:trigger StepTo(c, tr, j)} | 0 < j < |tr| :: StepTo(c, tr, j)
  }

  lemma RunGoesStepByStep(c: Committee, tr: seq<World>)
    requires Run(c, tr)
    ensures StepByStep(c, tr)
  {
    forall j: nat | 0 < j < |tr| ensures StepTo(c, tr, j) {
      assert Step(c, tr[j - 1], tr[j - 1 + 1]);
    }
  }

  lemma {:induction false} StepsCarry(c: Committee, tr: seq<World>, i: nat, j: nat, x: PublicKey)
    requires StepByStep(c, tr) && i <= j < |tr| && x in tr[i]
    ensures x in tr[j] && Carries(tr[i][x], tr[j][x])
    decreases j
  {
    if i < j {
      StepsCarry(c, tr, i, j - 1, x);
      assert StepTo(c, tr, j);
      StepCarries(c, tr[j - 1], tr[j], x);
      CarriesOn(tr[i][x], tr[j - 1][x], tr[j][x]);
    }
  }

  /** From any state of a run to any later one, a node carries everything with it. */
  lemma RunCarries(c: Committee, tr: seq<World>, i: nat, j: nat, x: PublicKey)
    requires Run(c, tr) && i <= j < |tr| && x in tr[i]
    ensures x in tr[j] && Carries(tr[i][x], tr[j][x])
  {
    RunGoesStepByStep(c, tr);
    StepsCarry(c, tr, i, j, x);
  }

  lemma RunInvAt(c: Committee, tr: seq<World>, i: nat)
    requires Run(c, tr) && FaultBound(c, tr[0]) && i < |tr|
    ensures SystemInv(c, tr[i])
  {
    PrefixRun(c, tr, i + 1);
    RunKeepsInv(c, tr[..i + 1]);
    assert Last(tr[..i + 1]) == tr[i];
  }

  lemma StepAt(c: Committee, tr: seq<World>, i: nat)
    requires Run(c, tr) && i + 1 < |tr|
    ensures Step(c, tr[i], tr[i + 1])
  {}
}
