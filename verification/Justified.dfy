/** Every value a node sends, accepts or decides in the agreement is some honest node's input. */
module Justified {
  import opened Committees
  import opened Options
  import opened Messages
  import opened Aggregators
  import opened Commits
  import opened Nodes
  import opened NodeSafety
  import opened OnceOnly
  import opened Worlds
  import opened Agreement

  /** Two different values were honest inputs to the round. */
  ghost predicate Split(j: iset<Choice>, epoch: nat, round: nat) {
    exists v, w :: v != w && Choice(epoch, round, v) in j && Choice(epoch, round, w) in j
  }

  /** The value is the maximum height of a timeout certificate for the epoch. */
  ghost predicate TcGives(c: Committee, k: Knowledge, epoch: nat, v: nat) {
    exists tc :: TcReports(c, k, tc, epoch, v)
  }

  ghost predicate TcReports(c: Committee, k: Knowledge, tc: TC, epoch: nat, v: nat) {
    && TimeoutCertificate(c, k, tc) && tc.epoch == epoch
    && HighQcRounds(tc) != [] && Maximum(HighQcRounds(tc)) == v
  }

  /** An input of round 1 is the maximum of a timeout certificate; a later one was an input of the
      round before, or that round was split. Everything else sent or decided was an input. */
  ghost predicate EventJust(c: Committee, k: Knowledge, j: iset<Choice>, e: AbaEvent) {
    match e
    case Input(ep, r, v) =>
      && r >= 1
      && if r == 1 then TcGives(c, k, ep, v) else Choice(ep, r - 1, v) in j || Split(j, ep, r - 1)
    case Relay(ep, r, v) => Choice(ep, r, v) in j
    case Aux(ep, r, v) => Choice(ep, r, v) in j
    case Decided(ep, r, v) => Choice(ep, r, v) in j
    case _ => true
  }

  ghost predicate BinJust(j: iset<Choice>, n: Core) {
    forall v | v in n.aba.bin :: Choice(n.epoch, n.aba.round, v) in j
  }

  ghost predicate LogJust(c: Committee, k: Knowledge, j: iset<Choice>, log: seq<AbaEvent>) {
    forall i :: 0 <= i < |log| ==> EventJust(c, k, j, log[i])
  }

  ghost predicate TcsJust(c: Committee, k: Knowledge, tcs: map<nat, TC>) {
    forall e | e in tcs :: TimeoutCertificate(c, k, tcs[e])
  }

  ghost predicate JustInv(c: Committee, k: Knowledge, j: iset<Choice>, n: Core) {
    LogJust(c, k, j, n.aba.log) && BinJust(j, n) && TcsJust(c, k, n.tcs)
  }

  lemma TcGrows(c: Committee, k: Knowledge, k': Knowledge, tc: TC)
    requires k <= k' && TimeoutCertificate(c, k, tc)
    ensures TimeoutCertificate(c, k', tc)
  {}

  lemma EventJustGrows(c: Committee, k: Knowledge, k': Knowledge, j: iset<Choice>, j': iset<Choice>, e: AbaEvent)
    requires k <= k' && j <= j' && EventJust(c, k, j, e)
    ensures EventJust(c, k', j', e)
  {
    if e.Input? && e.round == 1 {
      var tc :| TcReports(c, k, tc, e.epoch, e.val);
      TcGrows(c, k, k', tc);
      assert TcReports(c, k', tc, e.epoch, e.val);
    }
  }

  lemma JustGrows(c: Committee, k: Knowledge, k': Knowledge, j: iset<Choice>, j': iset<Choice>, n: Core)
    requires k <= k' && j <= j' && JustInv(c, k, j, n)
    ensures JustInv(c, k', j', n)
  {
    forall i | 0 <= i < |n.aba.log| ensures EventJust(c, k', j', n.aba.log[i]) {
      EventJustGrows(c, k, k', j, j', n.aba.log[i]);
    }
    forall e | e in n.tcs ensures TimeoutCertificate(c, k', n.tcs[e]) {
      TcGrows(c, k, k', n.tcs[e]);
    }
  }

  // ----- What makes values justified -----

  /** All honest nodes' logs are justified. */
  ghost predicate AllJust(c: Committee, w: World) {
    forall a | a in w :: LogJust(c, Known(w), Chosen(w), w[a].aba.log)
  }

  /** A value signed by an honest node in either phase was an honest input. */
  lemma HonestSaidIsChosen(c: Committee, w: World, a: PublicKey, e: nat, r: nat, v: nat, phase: nat)
    requires AllJust(c, w) && a in w && Said(a, AbaS(e, r, v, phase)) in Known(w)
    ensures Choice(e, r, v) in Chosen(w)
  {}

  /** A value backed by more than the faulty stake was an honest input. */
  lemma BackedIsChosen(c: Committee, w: World, p: ABAProof, stake: nat)
    requires FaultBound(c, w) && AllJust(c, w)
    requires Backed(c, Known(w), p, stake) && stake > MaxFaulty(c)
    ensures Choice(p.epoch, p.round, p.val) in Chosen(w)
  {
    var a := MoreThanFaultyIsHonest(c, w, Elements(Names(p.votes)));
    HonestSaidIsChosen(c, w, a, p.epoch, p.round, p.val, p.phase);
  }

  // ----- The steps -----

  /** The steps that send nothing and leave `bin` alone. */
  lemma QuietJust(c: Committee, k: Knowledge, j: iset<Choice>, n: Core, n': Core)
    requires JustInv(c, k, j, n) && n'.aba.log == n.aba.log
    requires n'.aba.bin == {} || (n'.aba.bin == n.aba.bin && n'.epoch == n.epoch && n'.aba.round == n.aba.round)
    requires forall e | e in n'.tcs :: e in n.tcs && n'.tcs[e] == n.tcs[e]
    ensures JustInv(c, k, j, n')
  {}

  /** A step that sends one event. */
  lemma SendJust(c: Committee, k: Knowledge, j: iset<Choice>, n: Core, n': Core, e: AbaEvent)
    requires JustInv(c, k, j, n) && n'.aba.log == n.aba.log + [e] && EventJust(c, k, j, e)
    requires n'.aba.bin == {} || (n'.aba.bin == n.aba.bin && n'.epoch == n.epoch && n'.aba.round == n.aba.round)
    requires n'.tcs == n.tcs
    ensures JustInv(c, k, j, n')
  {}

  lemma TcStepJust(c: Committee, k: Knowledge, j: iset<Choice>, n: Core)
    requires NodeInv(c, n) && JustInv(c, k, j, n)
    ensures JustInv(c, k, j, TcStep(c, n).0)
  {
    if !n.aba.tcProcessed && n.epoch in n.tcs {
      var v := Maximum(HighQcRounds(n.tcs[n.epoch]));
      var n1 := Logged(n.(aba := n.aba.(input := n.aba.input[1 := v])), Input(n.epoch, 1, v));
      HandleAbaValFrame(c, n1, OwnVal(n, n.epoch, 1, v, VAL_PHASE));
      assert TcReports(c, k, n.tcs[n.epoch], n.epoch, v);
      SendJust(c, k, j, n, TcStep(c, n).0, Input(n.epoch, 1, v));
    }
  }

  lemma Val1StepJust(c: Committee, w: World, n: Core)
    requires FaultBound(c, w) && AllJust(c, w)
    requires NodeInv(c, n) && JustInv(c, Known(w), Chosen(w), n) && CachesBacked(c, Known(w), n.aba)
    ensures JustInv(c, Known(w), Chosen(w), Val1Step(c, n).0)
  {
    if n.aba.phase >= VAL_PHASE && Now(n) in n.aba.val1 {
      var p := n.aba.val1[Now(n)];
      if n.aba.input[p.round] != p.val && !n.aba.valSent {
        var n1 := Logged(n.(aba := n.aba.(valSent := true)), Relay(p.epoch, p.round, p.val));
        HandleAbaValFrame(c, n1, OwnVal(n, p.epoch, p.round, p.val, p.phase));
        BackedIsChosen(c, w, p, RandomCoinThreshold(c));
        SendJust(c, Known(w), Chosen(w), n, Val1Step(c, n).0, Relay(p.epoch, p.round, p.val));
      }
    }
  }

  lemma Val2StepJust(c: Committee, w: World, n: Core)
    requires FaultBound(c, w) && AllJust(c, w)
    requires NodeInv(c, n) && JustInv(c, Known(w), Chosen(w), n) && CachesBacked(c, Known(w), n.aba)
    ensures JustInv(c, Known(w), Chosen(w), Val2Step(c, n).0)
  {
    if n.aba.phase >= VAL_PHASE && Now(n) in n.aba.val2 {
      var p := n.aba.val2[Now(n)];
      var k, j, e := Known(w), Chosen(w), Aux(p.epoch, p.round, p.val);
      BackedIsChosen(c, w, p, QuorumThreshold(c));
      if n.aba.bin == {} || n.aba.auxSent {
        BinAddJust(c, k, j, n, p.val);
      } else {
        var n1 := Logged(n.(aba := n.aba.(auxSent := true)), e);
        var own := OwnVal(n, p.epoch, p.round, p.val, AUX_PHASE);
        HandleAbaValFrame(c, n1, own);
        var n2 := HandleAbaVal(c, n1, own).0;
        SendJust(c, k, j, n, n2, e);
        BinAddJust(c, k, j, n2, p.val);
      }
    }
  }

  lemma BinAddJust(c: Committee, k: Knowledge, j: iset<Choice>, n: Core, v: nat)
    requires JustInv(c, k, j, n) && Choice(n.epoch, n.aba.round, v) in j
    ensures JustInv(c, k, j, n.(aba := n.aba.(bin := n.aba.bin + {v})))
  {}

  lemma AuxStepJust(c: Committee, k: Knowledge, j: iset<Choice>, n: Core, combined: Option<nat>)
    requires NodeInv(c, n) && JustInv(c, k, j, n)
    ensures JustInv(c, k, j, AuxStep(c, n, combined).0)
  {
    if n.aba.phase >= AUX_PHASE && Now(n) in n.aba.aux && !n.aba.coinSent {
      var e := CoinSent(n.epoch, n.aba.round);
      var n1 := Logged(n.(aba := n.aba.(coinSent := true)), e);
      var own := Share(n.epoch, n.aba.round, n.name, Signature(n.name, CoinS(n.epoch, n.aba.round)));
      HandleCoinShareFrame(c, n1, own, combined);
      SendJust(c, k, j, n, HandleCoinShare(c, n1, own, combined).0, e);
    }
  }

  lemma AdvanceRoundJust(c: Committee, k: Knowledge, j: iset<Choice>, n: Core, v: nat)
    requires NodeInv(c, n) && JustInv(c, k, j, n)
    requires Choice(n.epoch, n.aba.round, v) in j || Split(j, n.epoch, n.aba.round)
    ensures JustInv(c, k, j, AdvanceRound(c, n, v).0)
  {
    var n1, own := RoundStarted(n, v), OwnVal(n, n.epoch, n.aba.round + 1, v, VAL_PHASE);
    assert AdvanceRound(c, n, v) == HandleAbaVal(c, n1, own);
    HandleAbaValFrame(c, n1, own);
    SendJust(c, k, j, n, HandleAbaVal(c, n1, own).0, Input(n.epoch, n.aba.round + 1, v));
  }

  lemma DecideJust(c: Committee, k: Knowledge, j: iset<Choice>, n: Core, v: nat)
    requires JustInv(c, k, j, n) && Choice(n.epoch, n.aba.round, v) in j
    ensures JustInv(c, k, j, Decide(n, v))
  {}

  lemma SendProofJust(c: Committee, k: Knowledge, j: iset<Choice>, n: Core, p: ABAProof)
    requires JustInv(c, k, j, n)
    ensures JustInv(c, k, j, SendProof(n, p))
  {}

  lemma TheOneIsMember(s: set<nat>)
    requires |s| == 1
    ensures TheOne(s) in s
  {}

  /** With two values in `bin` the round was split, so any coin may be carried on. */
  lemma TwoValuesSplit(j: iset<Choice>, n: Core)
    requires BinJust(j, n) && |n.aba.bin| >= 2
    ensures Split(j, n.epoch, n.aba.round)
  {
    var v :| v in n.aba.bin;
    assert |n.aba.bin - {v}| >= 1;
    var u :| u in n.aba.bin - {v};
    assert Choice(n.epoch, n.aba.round, v) in j && Choice(n.epoch, n.aba.round, u) in j;
  }

  lemma CoinStepJust(c: Committee, w: World, n: Core)
    requires FaultBound(c, w) && AllJust(c, w)
    requires NodeInv(c, n) && JustInv(c, Known(w), Chosen(w), n) && CachesBacked(c, Known(w), n.aba)
    ensures JustInv(c, Known(w), Chosen(w), CoinStep(c, n).0)
  {
    var k, j := Known(w), Chosen(w);
    if n.aba.phase >= COIN_PHASE && Now(n) in n.aba.coin {
      var coin := n.aba.coin[Now(n)];
      if |n.aba.bin| == 1 {
        var v := TheOne(n.aba.bin);
        TheOneIsMember(n.aba.bin);
        if v % 2 == coin {
          DecideJust(c, k, j, n, v);
          SendProofJust(c, k, j, Decide(n, v), n.aba.aux[Now(n)]);
        } else {
          AdvanceRoundJust(c, k, j, n, v);
        }
      } else if Now(n) in n.aba.aux && n.aba.aux[Now(n)].val % 2 == coin {
        var p := n.aba.aux[Now(n)];
        BackedIsChosen(c, w, p, QuorumThreshold(c));
        DecideJust(c, k, j, n, p.val);
        SendProofJust(c, k, j, Decide(n, p.val), p);
      } else {
        assert |n.aba.bin| >= 2 by { BinIsNotEmpty(c, n); }
        TwoValuesSplit(j, n);
        AdvanceRoundJust(c, k, j, n, coin);
      }
    }
  }

  lemma BinIsNotEmpty(c: Committee, n: Core)
    requires NodeInv(c, n) && n.aba.phase >= AUX_PHASE
    ensures |n.aba.bin| >= 1
  {}

  lemma ProofStepJust(c: Committee, w: World, n: Core)
    requires FaultBound(c, w) && AllJust(c, w)
    requires NodeInv(c, n) && JustInv(c, Known(w), Chosen(w), n) && CachesBacked(c, Known(w), n.aba)
    ensures JustInv(c, Known(w), Chosen(w), ProofStep(n))
  {
    if n.viewChange && Now(n) in n.aba.proofs {
      var p := n.aba.proofs[Now(n)];
      BackedIsChosen(c, w, p, QuorumThreshold(c));
      DecideJust(c, Known(w), Chosen(w), n, p.val);
    }
  }
}
