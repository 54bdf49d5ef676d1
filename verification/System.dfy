/** The invariant of whole runs: every step of every honest node, whatever the others send, keeps
    all the local and global invariants. */
module Systems {
  import opened Committees
  import opened Options
  import opened Messages
  import opened Aggregators
  import opened Commits
  import opened Delivery
  import opened Nodes
  import opened NodeSafety
  import O = OnceOnly
  import V = Voting
  import opened Worlds
  import opened Agreement
  import opened Justified

  // ----- Timeouts collected so far are backed by signatures -----

  ghost predicate TimerInv(c: Committee, k: Knowledge, epoch: nat, m: TimeoutMaker) {
    WellTimed(c, m, epoch) && forall i :: 0 <= i < |m.votes| ==> Unforged(k, m.votes[i].1)
  }

  ghost predicate TimersInv(c: Committee, k: Knowledge, chain: Chain) {
    forall e | e in chain.aggregator.timeouts :: TimerInv(c, k, e, chain.aggregator.timeouts[e])
  }

  ghost predicate AllTimers(c: Committee, k: Knowledge, n: Core) {
    forall x | x in n.ledger.chains :: TimersInv(c, k, n.ledger.chains[x])
  }

  lemma TimersGrow(c: Committee, k: Knowledge, k': Knowledge, n: Core)
    requires k <= k' && AllTimers(c, k, n)
    ensures AllTimers(c, k', n)
  {}

  ghost predicate FewerTimers(a: Chain, b: Chain) {
    forall e | e in b.aggregator.timeouts ::
      e in a.aggregator.timeouts && b.aggregator.timeouts[e] == a.aggregator.timeouts[e]
  }

  lemma FewerKeeps(c: Committee, k: Knowledge, n: Core, n': Core)
    requires AllTimers(c, k, n) && n'.ledger.chains.Keys == n.ledger.chains.Keys
    requires forall x | x in n.ledger.chains :: FewerTimers(n.ledger.chains[x], n'.ledger.chains[x])
    ensures AllTimers(c, k, n')
  {}

  lemma CountTimeoutTimers(c: Committee, k: Knowledge, n: Core, t: Timeout)
    requires AllTimers(c, k, n) && TcsJust(c, k, n.tcs) && LeaderOf(c, t.epoch) in n.ledger.chains
    requires TimeoutAccepted(c, t) && Unforged(k, t.signature)
    ensures AllTimers(c, k, CountTimeout(c, n, t)) && TcsJust(c, k, CountTimeout(c, n, t).tcs)
  {
    var x := LeaderOf(c, t.epoch);
    var chain := n.ledger.chains[x];
    var m := Entry(chain.aggregator.timeouts, t.epoch);
    SumEmpty(c);
    assert TimersInv(c, k, chain);
    assert TimerInv(c, k, t.epoch, m);
    MadeTcIsAccepted(c, m, t);
    assert TimerInv(c, k, t.epoch, TcAppend(c, m, t).0);
    var n' := CountTimeout(c, n, t);
    forall y | y in n'.ledger.chains ensures TimersInv(c, k, n'.ledger.chains[y]) {
      assert TimersInv(c, k, n.ledger.chains[y]);
    }
  }

  // ----- What each kind of step leaves alone -----

  ghost predicate OnChains(a: Action) {
    a.OnQc? || a.OnBlock? || a.OnVote? || a.OnTimeout? || a.OnTc? || a.EnterViewChange? || a.TimeOut?
  }

  ghost predicate OnlyAba(n: Core, n': Core) {
    n' == n.(aba := n'.aba) && n.aba.log <= n'.aba.log
  }

  lemma ChainActionFrame(c: Committee, k: Knowledge, n: Core, a: Action)
    requires NodeInv(c, n) && Enabled(c, k, n, a) && OnChains(a)
    ensures var n' := Apply(c, k, n, a);
            n'.name == n.name && n'.epoch == n.epoch && n'.aba == n.aba && n.ledger.log <= n'.ledger.log
  {
    if a.OnBlock? {
      ProcessBlockFrame(c, n, a.stale, a.block);
    }
  }

  lemma ProcessBlockFrame(c: Committee, n: Core, stale: Chain, b: Block)
    requires NodeInv(c, n) && b.author in n.ledger.chains
    ensures var n' := ProcessBlock(c, n, stale, b);
            n'.name == n.name && n'.epoch == n.epoch && n'.aba == n.aba && n.ledger.log <= n'.ledger.log
  {
    var n1, n2 := ProcessBlockSteps(c, n, stale, b);
    assert n2.ledger.log == n.ledger.log;
  }

  lemma TcStepFrame(c: Committee, n: Core)
    requires NodeInv(c, n)
    ensures OnlyAba(n, TcStep(c, n).0)
  {
    if !n.aba.tcProcessed && n.epoch in n.tcs {
      var v := Maximum(HighQcRounds(n.tcs[n.epoch]));
      var n1 := Logged(n.(aba := n.aba.(input := n.aba.input[1 := v])), Input(n.epoch, 1, v));
      HandleAbaValFrame(c, n1, OwnVal(n, n.epoch, 1, v, VAL_PHASE));
    }
  }

  lemma Val1StepFrame(c: Committee, n: Core)
    requires NodeInv(c, n)
    ensures OnlyAba(n, Val1Step(c, n).0)
  {}

  lemma Val2StepFrame(c: Committee, n: Core)
    ensures OnlyAba(n, Val2Step(c, n).0)
  {
    if n.aba.phase >= VAL_PHASE && Now(n) in n.aba.val2 {
      var p, n2 := Val2StepCases(c, n);
      HandleAbaValFrame(c, AuxLogged(n, p), OwnVal(n, p.epoch, p.round, p.val, AUX_PHASE));
      assert OnlyAba(n, n2);
    }
  }

  lemma AuxStepFrame(c: Committee, n: Core, combined: Option<nat>)
    requires NodeInv(c, n)
    ensures OnlyAba(n, AuxStep(c, n, combined).0)
  {
    if n.aba.phase >= AUX_PHASE && Now(n) in n.aba.aux {
      var p := n.aba.aux[Now(n)];
      var n1 := Logged(n.(aba := n.aba.(coinSent := true)), CoinSent(p.epoch, p.round));
      var own := Share(p.epoch, p.round, n.name, Signature(n.name, CoinS(p.epoch, p.round)));
      HandleCoinShareFrame(c, n1, own, combined);
    }
  }

  lemma AdvanceRoundFrame(c: Committee, n: Core, v: nat)
    ensures OnlyAba(n, AdvanceRound(c, n, v).0)
  {}

  lemma DecideFrame(n: Core, v: nat, p: ABAProof)
    ensures OnlyAba(n, SendProof(Decide(n, v), p))
  {}

  lemma CoinStepFrame(c: Committee, n: Core)
    requires NodeInv(c, n)
    ensures OnlyAba(n, CoinStep(c, n).0)
  {
    if n.aba.phase == COIN_PHASE {
      var decided, v := CoinStepCases(c, n);
      if decided {
        DecideFrame(n, v, n.aba.aux[Now(n)]);
      } else {
        AdvanceRoundFrame(c, n, v);
      }
    }
  }

  lemma EnterPhasesFrame(c: Committee, n: Core)
    ensures OnlyAba(n, EnterPhases(c, n))
  {}

  lemma ProofStepFrame(n: Core)
    ensures OnlyAba(n, ProofStep(n))
  {}

  lemma CachesFrame(n: Core, n': Core)
    requires OnlyCaches(n, n')
    ensures OnlyAba(n, n')
  {}

  lemma AbaActionFrame(c: Committee, k: Knowledge, n: Core, a: Action)
    requires NodeInv(c, n) && Enabled(c, k, n, a) && !OnChains(a) && !a.Close?
    ensures OnlyAba(n, Apply(c, k, n, a))
  {
    if Receives(a) {
      ReceiveFrame(c, k, n, a);
      CachesFrame(n, Apply(c, k, n, a));
    } else {
      match a
      case Phases => EnterPhasesFrame(c, n);
      case UseTc => TcStepFrame(c, n);
      case UseVal1 => Val1StepFrame(c, n);
      case UseVal2 => Val2StepFrame(c, n);
      case UseAux(combined) => AuxStepFrame(c, n, combined);
      case UseCoin => CoinStepFrame(c, n);
      case UseProof => ProofStepFrame(n);
    }
  }

  lemma CloseFrame(c: Committee, n: Core, draft: Draft)
    requires NodeInv(c, n) && n.aba.output.Some?
    ensures var n' := CloseEpoch(c, n, draft);
            n'.name == n.name && LogsGrow(n, n')
  {}

  lemma ActionGrowsLogs(c: Committee, k: Knowledge, n: Core, a: Action)
    requires NodeInv(c, n) && Enabled(c, k, n, a)
    ensures LogsGrow(n, Apply(c, k, n, a)) && Apply(c, k, n, a).name == n.name
  {
    if OnChains(a) {
      ChainActionFrame(c, k, n, a);
    } else if a.Close? {
      CloseFrame(c, n, a.draft);
    } else {
      AbaActionFrame(c, k, n, a);
    }
  }

  // ----- The invariant -----

  ghost predicate NodeOk(c: Committee, k: Knowledge, j: iset<Choice>, n: Core) {
    && NodeInv(c, n) && O.OnceInv(n) && V.VotingInv(c, n)
    && CachesBacked(c, k, n.aba) && JustInv(c, k, j, n) && AllTimers(c, k, n)
  }

  ghost predicate SystemInv(c: Committee, w: World) {
    && FaultBound(c, w)
    && forall x | x in w :: w[x].name == x && NodeOk(c, Known(w), Chosen(w), w[x])
  }

  lemma InSeq<T>(s: seq<T>, e: T) returns (i: nat)
    requires e in s
    ensures i < |s| && s[i] == e
  {
    i :| 0 <= i < |s| && s[i] == e;
  }

  /** A node that has signed a value for round 1 of its epoch has used a timeout certificate. */
  lemma SignedAfterTc(c: Committee, n: Core, v: nat)
    requires NodeInv(c, n) && O.OnceInv(n) && SignedAba(n.aba.log, AbaS(n.epoch, 1, v, VAL_PHASE))
    ensures n.aba.tcProcessed
  {}

  lemma UsedAfterTc(c: Committee, w: World, x: PublicKey, v: nat)
    requires SystemInv(c, w) && x in w
    requires x in Entry(w[x].aba.tables.vals, ValKey(w[x].epoch, 1, VAL_PHASE, v)).used
    ensures w[x].aba.tcProcessed
  {
    var n, key := w[x], ValKey(w[x].epoch, 1, VAL_PHASE, v);
    assert KeyInv(c, Known(w), key, n.aba.tables.vals[key]);
    assert Said(x, AbaS(n.epoch, 1, v, VAL_PHASE)) in Known(w);
    SignedAfterTc(c, n, v);
  }

  /** The node's own first input is always accepted by its own table: nobody, itself included, has
      filed it there before. */
  lemma OwnInputIsAccepted(c: Committee, w: World, x: PublicKey)
    requires SystemInv(c, w) && x in w && w[x].aba.output.None?
    ensures TcStep(c, w[x]).1
  {
    var n := w[x];
    if !n.aba.tcProcessed && n.epoch in n.tcs {
      var v := Maximum(HighQcRounds(n.tcs[n.epoch]));
      if x in Entry(n.aba.tables.vals, ValKey(n.epoch, 1, VAL_PHASE, v)).used {
        UsedAfterTc(c, w, x, v);
      }
      OwnInputAppends(c, n, v);
    }
  }

  lemma OwnInputAppends(c: Committee, n: Core, v: nat)
    requires NodeInv(c, n) && !n.aba.tcProcessed && n.aba.output.None?
    requires n.epoch in n.tcs && v == Maximum(HighQcRounds(n.tcs[n.epoch]))
    requires n.name !in Entry(n.aba.tables.vals, ValKey(n.epoch, 1, VAL_PHASE, v)).used
    ensures TcStep(c, n).1
  {}

  // ----- Every action keeps every part -----

  lemma ActionKeepsNode(c: Committee, k: Knowledge, n: Core, a: Action)
    requires NodeInv(c, n) && Enabled(c, k, n, a)
    ensures NodeInv(c, Apply(c, k, n, a))
  {
    match a
    case OnQc(x, qc) => ProcessQcKeeps(c, n, x, qc);
    case OnBlock(b, stale) => ProcessBlockKeeps(c, n, stale, b);
    case OnVote(v, draft) => HandleVoteKeeps(c, n, v, draft);
    case OnTimeout(t) => CountTimeoutKeeps(c, n, t);
    case OnTc(tc) => HandleTcKeeps(c, n, tc);
    case EnterViewChange =>
    case TimeOut => SignTimeoutKeeps(c, n);
    case OnAbaVal(m) => HandleAbaValKeeps(c, n, m);
    case OnAbaProof(p) => HandleAbaProofKeeps(c, n, p);
    case OnCoinShare(s, combined) => HandleCoinShareKeeps(c, n, s, combined);
    case Phases => EnterPhasesKeeps(c, n);
    case UseTc => TcStepKeeps(c, n);
    case UseVal1 => Val1StepKeeps(c, n);
    case UseVal2 => Val2StepKeeps(c, n);
    case UseAux(combined) => AuxStepKeeps(c, n, combined);
    case UseCoin => CoinStepKeeps(c, n);
    case UseProof => ProofStepKeeps(c, n);
    case Close(draft) => CloseEpochKeeps(c, n, draft);
  }

  ghost predicate Receives(a: Action) {
    a.OnAbaVal? || a.OnAbaProof? || a.OnCoinShare?
  }

  lemma ReceiveFrame(c: Committee, k: Knowledge, n: Core, a: Action)
    requires NodeInv(c, n) && Enabled(c, k, n, a) && Receives(a)
    ensures OnlyCaches(n, Apply(c, k, n, a))
  {
    match a
    case OnAbaVal(m) => HandleAbaValFrame(c, n, m);
    case OnAbaProof(p) => HandleAbaProofFrame(c, n, p);
    case OnCoinShare(s, combined) => HandleCoinShareFrame(c, n, s, combined);
  }

  lemma ActionKeepsOnce(c: Committee, w: World, x: PublicKey, a: Action)
    requires SystemInv(c, w) && x in w && Enabled(c, Known(w), w[x], a)
    ensures O.OnceInv(Apply(c, Known(w), w[x], a)) && O.NotBefore(w[x], Apply(c, Known(w), w[x], a))
  {
    var k, n := Known(w), w[x];
    if OnChains(a) {
      ChainActionFrame(c, k, n, a);
      O.QuietKeeps(n, Apply(c, k, n, a));
    } else if Receives(a) {
      ReceiveFrame(c, k, n, a);
      O.CachesKeep(n, Apply(c, k, n, a));
    } else {
      match a
      case Phases => O.EnterPhasesOnce(c, n);
      case UseTc =>
        OwnInputIsAccepted(c, w, x);
        O.TcStepOnce(c, n);
      case UseVal1 => O.Val1StepOnce(c, n);
      case UseVal2 => O.Val2StepOnce(c, n);
      case UseAux(combined) => O.AuxStepOnce(c, n, combined);
      case UseCoin => O.CoinStepOnce(c, n);
      case UseProof => O.ProofStepOnce(n);
      case Close(draft) => O.CloseEpochOnce(c, n, draft);
    }
  }

  lemma ActionKeepsVoting(c: Committee, k: Knowledge, n: Core, a: Action)
    requires NodeInv(c, n) && V.VotingInv(c, n) && Enabled(c, k, n, a)
    ensures V.VotingInv(c, Apply(c, k, n, a))
  {
    match a
    case OnQc(x, qc) => V.ProcessQcVoting(c, n, x, qc);
    case OnBlock(b, stale) => V.ProcessBlockVoting(c, n, stale, b);
    case OnVote(v, draft) => V.HandleVoteVoting(c, n, v, draft);
    case OnTimeout(t) => V.CountTimeoutVoting(c, n, t);
    case TimeOut => V.SignTimeoutVoting(c, n);
    case Close(draft) => V.CloseEpochVoting(c, n, draft);
    case _ => OtherActionVoting(c, k, n, a);
  }

  lemma OtherActionVoting(c: Committee, k: Knowledge, n: Core, a: Action)
    requires NodeInv(c, n) && V.VotingInv(c, n) && Enabled(c, k, n, a)
    requires !OnChains(a) || a.OnTc? || a.EnterViewChange?
    requires !a.Close?
    ensures V.VotingInv(c, Apply(c, k, n, a))
  {
    var n' := Apply(c, k, n, a);
    OtherActionFrame(c, k, n, a);
    V.QuietKeeps(c, n, n');
  }

  lemma OtherActionFrame(c: Committee, k: Knowledge, n: Core, a: Action)
    requires NodeInv(c, n) && Enabled(c, k, n, a)
    requires !OnChains(a) || a.OnTc? || a.EnterViewChange?
    requires !a.Close?
    ensures var n' := Apply(c, k, n, a);
            n'.ledger == n.ledger && n'.epoch == n.epoch && (n.viewChange ==> n'.viewChange)
  {
    if !OnChains(a) {
      AbaActionFrame(c, k, n, a);
    }
  }

  lemma ActionKeepsBacked(c: Committee, k: Knowledge, k': Knowledge, n: Core, a: Action)
    requires NodeInv(c, n) && Enabled(c, k, n, a) && k <= k'
    requires CachesBacked(c, k', n.aba) && OwnKnown(k', Apply(c, k, n, a))
    ensures CachesBacked(c, k', Apply(c, k, n, a).aba)
  {
    if OnChains(a) {
      ChainActionFrame(c, k, n, a);
    } else {
      match a
      case OnAbaVal(m) => HandleAbaValBacked(c, k', n, m);
      case OnAbaProof(p) =>
        assert forall i :: 0 <= i < |p.votes| ==> Unforged(k, p.votes[i].1);
        HandleAbaProofBacked(c, k', n, p);
      case OnCoinShare(s, combined) => HandleCoinShareBacked(c, k', n, s, combined);
      case Phases =>
      case UseTc => TcStepBacked(c, k', n);
      case UseVal1 => Val1StepBacked(c, k', n);
      case UseVal2 => Val2StepBacked(c, k', n);
      case UseAux(combined) => AuxStepBacked(c, k', n, combined);
      case UseCoin => CoinStepBacked(c, k', n);
      case UseProof =>
      case Close(draft) => CloseEpochBacked(c, k', n, draft);
    }
  }

  lemma ReceivingKeepsJust(c: Committee, k: Knowledge, j: iset<Choice>, n: Core, a: Action)
    requires NodeInv(c, n) && JustInv(c, k, j, n) && AllTimers(c, k, n) && Enabled(c, k, n, a)
    requires OnChains(a) || Receives(a)
    ensures JustInv(c, k, j, Apply(c, k, n, a))
  {
    if OnChains(a) {
      ChainActionFrame(c, k, n, a);
      if a.OnTimeout? {
        CountTimeoutTimers(c, k, n, a.timeout);
      }
    } else {
      ReceiveFrame(c, k, n, a);
      QuietJust(c, k, j, n, Apply(c, k, n, a));
    }
  }

  lemma ActionKeepsJust(c: Committee, w: World, x: PublicKey, a: Action)
    requires SystemInv(c, w) && x in w && Enabled(c, Known(w), w[x], a)
    ensures JustInv(c, Known(w), Chosen(w), Apply(c, Known(w), w[x], a))
  {
    var k, j, n := Known(w), Chosen(w), w[x];
    assert AllJust(c, w);
    if OnChains(a) || Receives(a) {
      ReceivingKeepsJust(c, k, j, n, a);
    } else {
      match a
      case Phases => QuietJust(c, k, j, n, EnterPhases(c, n));
      case UseTc => TcStepJust(c, k, j, n);
      case UseVal1 => Val1StepJust(c, w, n);
      case UseVal2 => Val2StepJust(c, w, n);
      case UseAux(combined) => AuxStepJust(c, k, j, n, combined);
      case UseCoin => CoinStepJust(c, w, n);
      case UseProof => ProofStepJust(c, w, n);
      case Close(draft) =>
        CloseEpochShape(c, n, draft);
        QuietJust(c, k, j, n, CloseEpoch(c, n, draft));
    }
  }

  lemma CommitTimers(c: Committee, n: Core, stale: Chain, height: Option<nat>)
    requires NodeInv(c, n)
    ensures forall x | x in n.ledger.chains ::
              x in CommitTo(c, n, stale, height).ledger.chains
              && FewerTimers(n.ledger.chains[x], CommitTo(c, n, stale, height).ledger.chains[x])
  {
    CommitToKeeps(c, n, stale, height);
    forall x | x in n.ledger.chains
      ensures FewerTimers(n.ledger.chains[x], CommitTo(c, n, stale, height).ledger.chains[x])
    {
      assert OnlyCounters(n.ledger.chains[x], CommitTo(c, n, stale, height).ledger.chains[x]);
    }
  }

  lemma VoteOnTimers(c: Committee, k: Knowledge, n: Core, b: Block)
    requires AllTimers(c, k, n) && b.author in n.ledger.chains
    ensures AllTimers(c, k, VoteOn(c, n, b))
  {}

  lemma CommitToTimers(c: Committee, k: Knowledge, n: Core, stale: Chain, height: Option<nat>)
    requires NodeInv(c, n) && AllTimers(c, k, n)
    ensures AllTimers(c, k, CommitTo(c, n, stale, height))
  {
    CommitTimers(c, n, stale, height);
    CommitToKeeps(c, n, stale, height);
    FewerKeeps(c, k, n, CommitTo(c, n, stale, height));
  }

  lemma BlockTimers(c: Committee, k: Knowledge, n: Core, stale: Chain, b: Block)
    requires NodeInv(c, n) && AllTimers(c, k, n) && b.author in n.ledger.chains
    ensures AllTimers(c, k, ProcessBlock(c, n, stale, b))
  {
    var n1 := StoreBlock(n, b);
    var height := TwoChain(c, n1, b);
    CommitToKeeps(c, n1, stale, height);
    CommitToTimers(c, k, n1, stale, height);
    var n2 := CommitTo(c, n1, stale, height);
    assert ProcessBlock(c, n, stale, b) == VoteOn(c, n2, b);
    VoteOnTimers(c, k, n2, b);
  }

  lemma VoteTimers(c: Committee, k: Knowledge, n: Core, vote: Vote, draft: Draft)
    requires NodeInv(c, n) && AllTimers(c, k, n) && vote.proposer == n.name
    ensures AllTimers(c, k, HandleVote(c, n, vote, draft))
  {}

  lemma CloseTimers(c: Committee, k: Knowledge, n: Core, draft: Draft)
    requires NodeInv(c, n) && AllTimers(c, k, n) && n.aba.output.Some?
    ensures AllTimers(c, k, CloseEpoch(c, n, draft))
  {
    var stale, b := n.ledger.chains[LeaderOf(c, n.epoch)], Closing(c, n);
    if b.Some? {
      var n1 := ClosingCommit(c, n, b.value);
      CommitToKeeps(c, n, stale, Some(b.value.height));
      CommitToTimers(c, k, n, stale, Some(b.value.height));
      assert CloseEpoch(c, n, draft) == NextEpoch(c, n1, draft);
      FewerKeeps(c, k, n1, NextEpoch(c, n1, draft));
    }
  }

  lemma ProcessQcTimers(c: Committee, k: Knowledge, n: Core, x: PublicKey, qc: QC)
    requires AllTimers(c, k, n) && x in n.ledger.chains
    ensures AllTimers(c, k, ProcessQc(n, x, qc))
  {}

  lemma SignTimeoutTimers(c: Committee, k: Knowledge, n: Core)
    requires AllTimers(c, k, n) && LeaderOf(c, n.epoch) in n.ledger.chains
    ensures AllTimers(c, k, SignTimeout(c, n))
  {}

  lemma ActionKeepsTimers(c: Committee, k: Knowledge, n: Core, a: Action)
    requires NodeInv(c, n) && AllTimers(c, k, n) && TcsJust(c, k, n.tcs) && Enabled(c, k, n, a)
    ensures AllTimers(c, k, Apply(c, k, n, a))
  {
    match a
    case OnQc(x, qc) => ProcessQcTimers(c, k, n, x, qc);
    case OnBlock(b, stale) => BlockTimers(c, k, n, stale, b);
    case OnVote(v, draft) => VoteTimers(c, k, n, v, draft);
    case OnTimeout(t) => CountTimeoutTimers(c, k, n, t);
    case TimeOut => SignTimeoutTimers(c, k, n);
    case Close(draft) => CloseTimers(c, k, n, draft);
    case _ => OtherActionFrame(c, k, n, a);
  }

  // ----- Whole runs -----

  lemma OwnSignaturesKnown(w: World, x: PublicKey)
    requires x in w && w[x].name == x
    ensures OwnKnown(Known(w), w[x])
  {}

  lemma NodeOkGrows(c: Committee, k: Knowledge, k': Knowledge, j: iset<Choice>, j': iset<Choice>, n: Core)
    requires k <= k' && j <= j' && NodeOk(c, k, j, n)
    ensures NodeOk(c, k', j', n)
  {
    BackedGrows(c, k, k', n.aba);
    JustGrows(c, k, k', j, j', n);
    TimersGrow(c, k, k', n);
  }

  lemma ActorIsOk(c: Committee, w: World, w': World, x: PublicKey, a: Action)
    requires SystemInv(c, w) && StepBy(c, w, w', x, a)
    requires Known(w) <= Known(w') && Chosen(w) <= Chosen(w')
    ensures NodeOk(c, Known(w'), Chosen(w'), w'[x])
  {
    var k, k', j, j', n := Known(w), Known(w'), Chosen(w), Chosen(w'), w[x];
    ActionGrowsLogs(c, k, n, a);
    ActionKeepsNode(c, k, n, a);
    ActionKeepsOnce(c, w, x, a);
    ActionKeepsVoting(c, k, n, a);
    ActionKeepsTimers(c, k, n, a);
    TimersGrow(c, k, k', w'[x]);
    ActionKeepsJust(c, w, x, a);
    JustGrows(c, k, k', j, j', w'[x]);
    BackedGrows(c, k, k', n.aba);
    OwnSignaturesKnown(w', x);
    ActionKeepsBacked(c, k, k', n, a);
  }

  lemma StepGrows(c: Committee, w: World, w': World, x: PublicKey, a: Action)
    requires SystemInv(c, w) && StepBy(c, w, w', x, a)
    ensures x in w' && w'[x].name == x && w' == w[x := w'[x]]
    ensures Known(w) <= Known(w') && Chosen(w) <= Chosen(w')
  {
    ActionGrowsLogs(c, Known(w), w[x], a);
    KnownGrows(w, x, w'[x]);
    ChosenGrows(w, x, w'[x]);
  }

  lemma OthersStayOk(c: Committee, w: World, w': World, x: PublicKey)
    requires SystemInv(c, w) && x in w && x in w' && w' == w[x := w'[x]]
    requires Known(w) <= Known(w') && Chosen(w) <= Chosen(w')
    requires w'[x].name == x && NodeOk(c, Known(w'), Chosen(w'), w'[x])
    ensures SystemInv(c, w')
  {
    forall y | y in w' {
      OneStaysOk(c, w, w', x, y);
    }
    assert w'.Keys == w.Keys;
  }

  lemma OneStaysOk(c: Committee, w: World, w': World, x: PublicKey, y: PublicKey)
    requires SystemInv(c, w) && x in w && x in w' && w' == w[x := w'[x]] && y in w'
    requires Known(w) <= Known(w') && Chosen(w) <= Chosen(w')
    requires w'[x].name == x && NodeOk(c, Known(w'), Chosen(w'), w'[x])
    ensures w'[y].name == y && NodeOk(c, Known(w'), Chosen(w'), w'[y])
  {
    if y != x {
      NodeOkGrows(c, Known(w), Known(w'), Chosen(w), Chosen(w'), w[y]);
    }
  }

  /** Every step keeps the invariant, and nobody ever unsigns or unchooses anything. */
  lemma StepKeepsInv(c: Committee, w: World, w': World)
    requires SystemInv(c, w) && Step(c, w, w')
    ensures SystemInv(c, w') && w'.Keys == w.Keys
    ensures Known(w) <= Known(w') && Chosen(w) <= Chosen(w')
  {
    var x, a :| StepBy(c, w, w', x, a);
    StepGrows(c, w, w', x, a);
    ActorIsOk(c, w, w', x, a);
    OthersStayOk(c, w, w', x);
  }

  lemma InitialIsOk(c: Committee, k: Knowledge, j: iset<Choice>, n: Core, draft: Draft)
    requires IsInitial(c, n, draft)
    ensures NodeOk(c, k, j, n)
  {
    SumEmpty(c);
  }

  lemma StartIsOk(c: Committee, w: World)
    requires Start(c, w) && FaultBound(c, w)
    ensures SystemInv(c, w)
  {
    forall x | x in w ensures NodeOk(c, Known(w), Chosen(w), w[x]) {
      var draft :| IsInitial(c, w[x], draft);
      InitialIsOk(c, Known(w), Chosen(w), w[x], draft);
    }
  }

  ghost function Last(tr: seq<World>): World
    requires tr != []
  {
    tr[|tr| - 1]
  }

  lemma PrefixRun(c: Committee, tr: seq<World>, n: nat)
    requires Run(c, tr) && 0 < n <= |tr|
    ensures Run(c, tr[..n])
  {}

  /** The invariant holds at the end of every run with at most f faulty stake. */
  lemma {:induction false} RunKeepsInv(c: Committee, tr: seq<World>)
    requires Run(c, tr) && FaultBound(c, tr[0])
    ensures SystemInv(c, Last(tr))
    decreases |tr|
  {
    if |tr| == 1 {
      StartIsOk(c, tr[0]);
    } else {
      var front := tr[..|tr| - 1];
      PrefixRun(c, tr, |tr| - 1);
      RunKeepsInv(c, front);
      assert Step(c, tr[|tr| - 2], tr[|tr| - 1]);
      StepKeepsInv(c, Last(front), Last(tr));
    }
  }

  function FirstState(c: Committee, name: PublicKey, draft: Draft): Core {
    Core(name, 0, false, map[],
         Ledger(NewChains(c), map[], [Proposed(Proposal(NewChains(c), name, false, draft))],
                NewRecord(0, NewChains(c)), []),
         NEW_ABA)
  }

  /** Every admissible committee, with any choice of honest members, has runs to speak about. */
  lemma RunsExist(c: Committee, honest: set<PublicKey>, draft: Draft)
    requires ValidCommittee(c) && c.Total() == 3 * MaxFaulty(c) + 1
    requires honest <= c.Members() && c.Sum(c.Members() - honest) <= MaxFaulty(c)
    ensures exists w: World :: w.Keys == honest && Run(c, [w]) && FaultBound(c, w)
  {
    var w := map x | x in honest :: FirstState(c, x, draft);
    assert w.Keys == honest;
    forall x | x in w ensures w[x].name == x && exists d :: IsInitial(c, w[x], d) {
      assert IsInitial(c, w[x], draft);
    }
    assert Start(c, [w][0]);
    assert Run(c, [w]);
  }
}
