/** A node never goes back in (epoch, round, phase) and sends each kind of message at most once per
    epoch and round. */
module OnceOnly {
  import opened Committees
  import opened Options
  import opened Messages
  import opened Aggregators
  import opened Commits
  import opened Nodes

  ghost predicate Behind(n: Core, epoch: nat, round: nat) {
    epoch < n.epoch || (epoch == n.epoch && round < n.aba.round)
  }

  ghost predicate AtNow(n: Core, epoch: nat, round: nat) {
    epoch == n.epoch && round == n.aba.round
  }

  /** The node's flags say that a message like `e` may have been sent already. */
  ghost predicate Spent(n: Core, e: AbaEvent) {
    match e
    case Input(ep, r, _) => ep < n.epoch || (ep == n.epoch && n.aba.tcProcessed && r <= n.aba.round)
    case Relay(ep, r, _) => Behind(n, ep, r) || (AtNow(n, ep, r) && n.aba.valSent)
    case Aux(ep, r, _) => Behind(n, ep, r) || (AtNow(n, ep, r) && n.aba.auxSent)
    case CoinSent(ep, r) => Behind(n, ep, r) || (AtNow(n, ep, r) && n.aba.coinSent)
    case ProofSent(p) => Behind(n, p.epoch, p.round) || (AtNow(n, p.epoch, p.round) && n.aba.proofSent)
    case Decided(ep, r, _) => Behind(n, ep, r) || AtNow(n, ep, r)
  }

  /** Two sends of the same kind for the same epoch and round. Decisions are not sends. */
  ghost predicate SameSlot(a: AbaEvent, b: AbaEvent) {
    match (a, b)
    case (Input(e, r, _), Input(e', r', _)) => e == e' && r == r'
    case (Relay(e, r, _), Relay(e', r', _)) => e == e' && r == r'
    case (Aux(e, r, _), Aux(e', r', _)) => e == e' && r == r'
    case (CoinSent(e, r), CoinSent(e', r')) => e == e' && r == r'
    case (ProofSent(p), ProofSent(q)) => p.epoch == q.epoch && p.round == q.round
    case _ => false
  }

  ghost predicate AllSpent(n: Core) {
    forall i :: 0 <= i < |n.aba.log| ==> Spent(n, n.aba.log[i])
  }

  ghost predicate NoSlotTwice(log: seq<AbaEvent>) {
    forall i, j :: 0 <= i < j < |log| ==> !SameSlot(log[i], log[j])
  }

  ghost predicate OnceInv(n: Core) {
    AllSpent(n) && NoSlotTwice(n.aba.log)
  }

  /** The order in which a node moves: by epoch, then by round, then flags only rise. */
  ghost predicate Progress(n: Core, n': Core) {
    || n.epoch < n'.epoch
    || (n.epoch == n'.epoch && (n.aba.tcProcessed ==> n'.aba.tcProcessed)
        && (n.aba.round < n'.aba.round
            || (n.aba.round == n'.aba.round
                && (n.aba.valSent ==> n'.aba.valSent) && (n.aba.auxSent ==> n'.aba.auxSent)
                && (n.aba.coinSent ==> n'.aba.coinSent) && (n.aba.proofSent ==> n'.aba.proofSent))))
  }

  /** (epoch, round, phase) in lexicographic order. */
  ghost predicate NotBefore(n: Core, n': Core) {
    || n.epoch < n'.epoch
    || (n.epoch == n'.epoch && (n.aba.round < n'.aba.round
                                || (n.aba.round == n'.aba.round && n.aba.phase <= n'.aba.phase)))
  }

  lemma QuietKeeps(n: Core, n': Core)
    requires OnceInv(n) && Progress(n, n') && n'.aba.log == n.aba.log
    ensures OnceInv(n')
  {}

  lemma SendKeeps(n: Core, n': Core, e: AbaEvent)
    requires OnceInv(n) && Progress(n, n') && n'.aba.log == n.aba.log + [e]
    requires (e.Decided? || !Spent(n, e)) && Spent(n', e)
    ensures OnceInv(n')
  {}

  // ----- The steps -----

  lemma CachesKeep(n: Core, n': Core)
    requires OnceInv(n) && OnlyCaches(n, n')
    ensures OnceInv(n') && Progress(n, n') && NotBefore(n, n')
  {}

  /** Sending `e` and then handling it locally. */
  lemma SendAndHandleKeeps(n: Core, n1: Core, n2: Core, e: AbaEvent)
    requires OnceInv(n) && Progress(n, n1) && n1.aba.log == n.aba.log + [e]
    requires (e.Decided? || !Spent(n, e)) && Spent(n1, e) && OnlyCaches(n1, n2)
    ensures OnceInv(n2)
  {}

  /** The input of round 1 is sent once, provided the node's own message is accepted. */
  lemma TcStepOnce(c: Committee, n: Core)
    requires NodeInv(c, n) && OnceInv(n) && TcStep(c, n).1
    ensures OnceInv(TcStep(c, n).0) && NotBefore(n, TcStep(c, n).0)
  {
    if !n.aba.tcProcessed && n.epoch in n.tcs {
      var v := Maximum(HighQcRounds(n.tcs[n.epoch]));
      var n1 := Logged(n.(aba := n.aba.(input := n.aba.input[1 := v])), Input(n.epoch, 1, v));
      var own := OwnVal(n, n.epoch, 1, v, VAL_PHASE);
      HandleAbaValFrame(c, n1, own);
      SendKeeps(n, n1.(aba := n1.aba.(tcProcessed := true)), Input(n.epoch, 1, v));
      CachesKeep(n1.(aba := n1.aba.(tcProcessed := true)), TcStep(c, n).0);
    }
  }

  lemma Val1StepOnce(c: Committee, n: Core)
    requires NodeInv(c, n) && OnceInv(n)
    ensures OnceInv(Val1Step(c, n).0) && NotBefore(n, Val1Step(c, n).0)
  {
    if n.aba.phase >= VAL_PHASE && Now(n) in n.aba.val1 {
      var p := n.aba.val1[Now(n)];
      var e := Relay(p.epoch, p.round, p.val);
      var n1 := Logged(n.(aba := n.aba.(valSent := true)), e);
      var own := OwnVal(n, p.epoch, p.round, p.val, p.phase);
      HandleAbaValFrame(c, n1, own);
      if !n.aba.valSent {
        SendAndHandleKeeps(n, n1, HandleAbaVal(c, n1, own).0, e);
      }
    }
  }

  lemma SendAuxOnce(c: Committee, n: Core, p: ABAProof)
    requires OnceInv(n) && !n.aba.auxSent && Round(p.epoch, p.round) == Now(n)
    ensures var n2 := HandleAbaVal(c, AuxLogged(n, p), OwnVal(n, p.epoch, p.round, p.val, AUX_PHASE)).0;
            OnceInv(n2) && NotBefore(n, n2)
  {
    var n1, own := AuxLogged(n, p), OwnVal(n, p.epoch, p.round, p.val, AUX_PHASE);
    HandleAbaValFrame(c, n1, own);
    SendAndHandleKeeps(n, n1, HandleAbaVal(c, n1, own).0, Aux(p.epoch, p.round, p.val));
  }

  lemma Val2StepOnce(c: Committee, n: Core)
    requires NodeInv(c, n) && OnceInv(n)
    ensures OnceInv(Val2Step(c, n).0) && NotBefore(n, Val2Step(c, n).0)
  {
    if n.aba.phase >= VAL_PHASE && Now(n) in n.aba.val2 {
      var p, n2 := Val2StepCases(c, n);
      if n.aba.bin != {} && !n.aba.auxSent {
        SendAuxOnce(c, n, p);
      }
      QuietKeeps(n2, WithBin(n2, p.val));
    }
  }

  lemma AuxStepOnce(c: Committee, n: Core, combined: Option<nat>)
    requires NodeInv(c, n) && OnceInv(n)
    ensures OnceInv(AuxStep(c, n, combined).0) && NotBefore(n, AuxStep(c, n, combined).0)
  {
    if n.aba.phase >= AUX_PHASE && Now(n) in n.aba.aux && !n.aba.coinSent {
      var e := CoinSent(n.epoch, n.aba.round);
      var n1 := Logged(n.(aba := n.aba.(coinSent := true)), e);
      var own := Share(n.epoch, n.aba.round, n.name, Signature(n.name, CoinS(n.epoch, n.aba.round)));
      HandleCoinShareFrame(c, n1, own, combined);
      SendAndHandleKeeps(n, n1, HandleCoinShare(c, n1, own, combined).0, e);
    }
  }

  lemma AdvanceRoundOnce(c: Committee, n: Core, v: nat)
    requires NodeInv(c, n) && OnceInv(n) && n.aba.tcProcessed
    ensures OnceInv(AdvanceRound(c, n, v).0) && NotBefore(n, AdvanceRound(c, n, v).0)
  {
    var n1, own := RoundStarted(n, v), OwnVal(n, n.epoch, n.aba.round + 1, v, VAL_PHASE);
    assert AdvanceRound(c, n, v) == HandleAbaVal(c, n1, own);
    HandleAbaValFrame(c, n1, own);
    SendAndHandleKeeps(n, n1, HandleAbaVal(c, n1, own).0, Input(n.epoch, n.aba.round + 1, v));
  }

  lemma DecideOnce(n: Core, v: nat)
    requires OnceInv(n)
    ensures OnceInv(Decide(n, v)) && NotBefore(n, Decide(n, v))
  {}

  lemma SendProofOnce(n: Core, p: ABAProof)
    requires OnceInv(n) && Round(p.epoch, p.round) == Now(n)
    ensures OnceInv(SendProof(n, p)) && NotBefore(n, SendProof(n, p))
  {}

  lemma CoinStepOnce(c: Committee, n: Core)
    requires NodeInv(c, n) && OnceInv(n)
    ensures OnceInv(CoinStep(c, n).0) && NotBefore(n, CoinStep(c, n).0)
  {
    if n.aba.phase == COIN_PHASE {
      var decided, v := CoinStepCases(c, n);
      if decided {
        DecideOnce(n, v);
        SendProofOnce(Decide(n, v), n.aba.aux[Now(n)]);
      } else {
        AdvanceRoundOnce(c, n, v);
      }
    }
  }

  lemma ProofStepOnce(n: Core)
    requires OnceInv(n)
    ensures OnceInv(ProofStep(n)) && NotBefore(n, ProofStep(n))
  {}

  lemma EnterPhasesOnce(c: Committee, n: Core)
    requires OnceInv(n)
    ensures OnceInv(EnterPhases(c, n)) && NotBefore(n, EnterPhases(c, n))
  {}

  lemma CloseEpochOnce(c: Committee, n: Core, draft: Draft)
    requires NodeInv(c, n) && OnceInv(n) && n.aba.output.Some?
    ensures OnceInv(CloseEpoch(c, n, draft)) && NotBefore(n, CloseEpoch(c, n, draft))
  {
    var n' := CloseEpoch(c, n, draft);
    CloseEpochShape(c, n, draft);
    QuietKeeps(n, n');
  }
}
