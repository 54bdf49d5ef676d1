/** What is due is sent: in every reachable state, when the agreement calls for a message, the step that
    sends it leaves it in the node's history, and the node's own messages never fail to be counted. */
module Sends {
  import opened Committees
  import opened Options
  import opened Messages
  import opened Aggregators
  import opened Commits
  import opened Nodes
  import opened NodeSafety
  import opened OnceOnly
  import opened Worlds
  import opened Agreement
  import opened Systems
  import opened Carrying

  // ----- The flags tell what has been sent -----

  ghost predicate HasRelayed(n: Core) {
    exists v :: Relay(n.epoch, n.aba.round, v) in n.aba.log
  }

  ghost predicate HasSentAux(n: Core) {
    exists v :: Aux(n.epoch, n.aba.round, v) in n.aba.log
  }

  ghost predicate HasOpened(n: Core) {
    CoinSent(n.epoch, n.aba.round) in n.aba.log
  }

  ghost predicate HasProven(n: Core) {
    exists p: ABAProof :: p.epoch == n.epoch && p.round == n.aba.round && ProofSent(p) in n.aba.log
  }

  ghost predicate HasInput(n: Core) {
    exists v :: Input(n.epoch, 1, v) in n.aba.log
  }

  ghost predicate FlagsTell(n: Core) {
    && (n.aba.valSent ==> HasRelayed(n)) && (n.aba.auxSent ==> HasSentAux(n)) && (n.aba.coinSent ==> HasOpened(n))
    && (n.aba.proofSent ==> HasProven(n)) && (n.aba.tcProcessed ==> HasInput(n))
    && (n.aba.tcProcessed ==>
          n.aba.round in n.aba.input && Input(n.epoch, n.aba.round, n.aba.input[n.aba.round]) in n.aba.log)
  }

  /** A step within the round that raises no flag. */
  lemma StillTell(n: Core, n': Core)
    requires FlagsTell(n) && n'.epoch == n.epoch && n'.aba.round == n.aba.round && n.aba.log <= n'.aba.log
    requires (n'.aba.valSent ==> n.aba.valSent) && (n'.aba.auxSent ==> n.aba.auxSent)
    requires (n'.aba.coinSent ==> n.aba.coinSent) && (n'.aba.proofSent ==> n.aba.proofSent)
    requires (n'.aba.tcProcessed ==> n.aba.tcProcessed) && n'.aba.input == n.aba.input
    ensures FlagsTell(n')
  {
    Lengthened(n, n');
  }

  lemma Lengthened(n: Core, n': Core)
    requires n'.epoch == n.epoch && n'.aba.round == n.aba.round && n.aba.log <= n'.aba.log
    ensures HasRelayed(n) ==> HasRelayed(n')
    ensures HasSentAux(n) ==> HasSentAux(n')
    ensures HasOpened(n) ==> HasOpened(n')
    ensures HasProven(n) ==> HasProven(n')
    ensures HasInput(n) ==> HasInput(n')
    ensures forall r, v :: Input(n.epoch, r, v) in n.aba.log ==> Input(n.epoch, r, v) in n'.aba.log
  {
    if HasRelayed(n) {
      var v :| Relay(n.epoch, n.aba.round, v) in n.aba.log;
      assert Relay(n'.epoch, n'.aba.round, v) in n'.aba.log;
    }
    if HasSentAux(n) {
      var v :| Aux(n.epoch, n.aba.round, v) in n.aba.log;
      assert Aux(n'.epoch, n'.aba.round, v) in n'.aba.log;
    }
    if HasProven(n) {
      var p: ABAProof :| p.epoch == n.epoch && p.round == n.aba.round && ProofSent(p) in n.aba.log;
      assert ProofSent(p) in n'.aba.log;
    }
    if HasInput(n) {
      var v :| Input(n.epoch, 1, v) in n.aba.log;
      assert Input(n'.epoch, 1, v) in n'.aba.log;
    }
  }

  lemma CachesTell(n: Core, n': Core)
    requires FlagsTell(n) && OnlyCaches(n, n')
    ensures FlagsTell(n')
  {
    StillTell(n, n');
  }

  // ----- The steps -----

  lemma InLast<T>(s: seq<T>, e: T)
    ensures e in s + [e]
  {
    assert (s + [e])[|s|] == e;
  }

  lemma RelayTells(n: Core, v: nat)
    requires FlagsTell(n)
    ensures FlagsTell(Logged(n.(aba := n.aba.(valSent := true)), Relay(n.epoch, n.aba.round, v)))
    ensures HasRelayed(Logged(n.(aba := n.aba.(valSent := true)), Relay(n.epoch, n.aba.round, v)))
  {
    var n' := Logged(n.(aba := n.aba.(valSent := true)), Relay(n.epoch, n.aba.round, v));
    InLast(n.aba.log, Relay(n.epoch, n.aba.round, v));
    assert HasRelayed(n');
    Lengthened(n, n');
  }

  lemma AuxTells(n: Core, p: ABAProof)
    requires FlagsTell(n) && Round(p.epoch, p.round) == Now(n)
    ensures FlagsTell(AuxLogged(n, p)) && HasSentAux(AuxLogged(n, p))
  {
    var n' := AuxLogged(n, p);
    InLast(n.aba.log, Aux(n.epoch, n.aba.round, p.val));
    assert HasSentAux(n');
    Lengthened(n, n');
  }

  lemma OpeningTells(n: Core)
    requires FlagsTell(n)
    ensures FlagsTell(Logged(n.(aba := n.aba.(coinSent := true)), CoinSent(n.epoch, n.aba.round)))
    ensures HasOpened(Logged(n.(aba := n.aba.(coinSent := true)), CoinSent(n.epoch, n.aba.round)))
  {
    var n' := Logged(n.(aba := n.aba.(coinSent := true)), CoinSent(n.epoch, n.aba.round));
    InLast(n.aba.log, CoinSent(n.epoch, n.aba.round));
    assert HasOpened(n');
    Lengthened(n, n');
  }

  lemma InputTells(n: Core, v: nat)
    requires FlagsTell(n) && n.aba.round == 1
    ensures var n1 := Logged(n.(aba := n.aba.(input := n.aba.input[1 := v])), Input(n.epoch, 1, v));
            HasInput(n1) && FlagsTell(n1) && FlagsTell(n1.(aba := n1.aba.(tcProcessed := true)))
  {
    var n1 := Logged(n.(aba := n.aba.(input := n.aba.input[1 := v])), Input(n.epoch, 1, v));
    InLast(n.aba.log, Input(n.epoch, 1, v));
    assert HasInput(n1);
    Lengthened(n, n1);
    Lengthened(n1, n1.(aba := n1.aba.(tcProcessed := true)));
  }

  lemma RoundTells(n: Core, v: nat)
    requires FlagsTell(n) && n.aba.tcProcessed
    ensures FlagsTell(RoundStarted(n, v))
  {
    var n' := RoundStarted(n, v);
    InLast(n.aba.log, Input(n.epoch, n.aba.round + 1, v));
    var u :| Input(n.epoch, 1, u) in n.aba.log;
    assert Input(n'.epoch, 1, u) in n'.aba.log;
  }

  lemma DecisionTells(n: Core, v: nat, p: ABAProof)
    requires FlagsTell(n) && Round(p.epoch, p.round) == Now(n)
    ensures FlagsTell(SendProof(Decide(n, v), p)) && HasProven(SendProof(Decide(n, v), p))
  {
    var n1 := Decide(n, v);
    StillTell(n, n1);
    var n2 := SendProof(n1, p);
    if !n1.aba.proofSent {
      InLast(n1.aba.log, ProofSent(p));
      assert HasProven(n2);
      Lengthened(n1, n2);
    }
  }

  lemma TcStepTells(c: Committee, n: Core)
    requires NodeInv(c, n) && FlagsTell(n)
    ensures FlagsTell(TcStep(c, n).0)
  {
    if !n.aba.tcProcessed && n.epoch in n.tcs {
      var v := Maximum(HighQcRounds(n.tcs[n.epoch]));
      var n1 := Logged(n.(aba := n.aba.(input := n.aba.input[1 := v])), Input(n.epoch, 1, v));
      var own := OwnVal(n, n.epoch, 1, v, VAL_PHASE);
      InputTells(n, v);
      HandleAbaValFrame(c, n1, own);
      CachesTell(n1, HandleAbaVal(c, n1, own).0);
      TcFlagTells(n1, HandleAbaVal(c, n1, own).0);
    }
  }

  lemma TcFlagTells(n1: Core, n2: Core)
    requires FlagsTell(n1.(aba := n1.aba.(tcProcessed := true))) && OnlyCaches(n1, n2)
    ensures FlagsTell(n2.(aba := n2.aba.(tcProcessed := true)))
  {
    CachesTell(n1.(aba := n1.aba.(tcProcessed := true)), n2.(aba := n2.aba.(tcProcessed := true)));
  }

  /** There is support for another value than the node's own input of the round. */
  ghost predicate RelayIsDue(n: Core) {
    var now := Round(n.epoch, n.aba.round);
    && n.aba.phase >= VAL_PHASE && n.aba.round in n.aba.input
    && now in n.aba.val1 && n.aba.val1[now].val != n.aba.input[n.aba.round]
  }

  lemma Val1StepTells(c: Committee, n: Core)
    requires NodeInv(c, n) && FlagsTell(n)
    ensures FlagsTell(Val1Step(c, n).0)
    ensures RelayIsDue(n) ==> HasRelayed(Val1Step(c, n).0)
  {
    if n.aba.phase >= VAL_PHASE && Now(n) in n.aba.val1 {
      var p := n.aba.val1[Now(n)];
      if n.aba.input[p.round] != p.val && !n.aba.valSent {
        var n1 := Logged(n.(aba := n.aba.(valSent := true)), Relay(p.epoch, p.round, p.val));
        var own := OwnVal(n, p.epoch, p.round, p.val, p.phase);
        RelayTells(n, p.val);
        HandleAbaValFrame(c, n1, own);
        CachesTell(n1, HandleAbaVal(c, n1, own).0);
        Lengthened(n1, HandleAbaVal(c, n1, own).0);
      }
    }
  }

  /** A value with a quorum behind it, while another has been accepted already. */
  ghost predicate AuxIsDue(n: Core) {
    n.aba.phase >= VAL_PHASE && Round(n.epoch, n.aba.round) in n.aba.val2 && n.aba.bin != {}
  }

  lemma SendingAuxTells(c: Committee, n: Core, p: ABAProof, n2: Core)
    requires FlagsTell(n) && Round(p.epoch, p.round) == Now(n)
    requires n2 == HandleAbaVal(c, AuxLogged(n, p), OwnVal(n, p.epoch, p.round, p.val, AUX_PHASE)).0
    ensures FlagsTell(n2) && HasSentAux(n2)
  {
    AuxTells(n, p);
    HandleAbaValFrame(c, AuxLogged(n, p), OwnVal(n, p.epoch, p.round, p.val, AUX_PHASE));
    CachesTell(AuxLogged(n, p), n2);
    Lengthened(AuxLogged(n, p), n2);
  }

  lemma BinTells(n: Core, v: nat)
    requires FlagsTell(n)
    ensures FlagsTell(WithBin(n, v)) && (HasSentAux(n) ==> HasSentAux(WithBin(n, v)))
  {
    StillTell(n, WithBin(n, v));
    Lengthened(n, WithBin(n, v));
  }

  lemma Val2StepTells(c: Committee, n: Core)
    requires NodeInv(c, n) && FlagsTell(n)
    ensures FlagsTell(Val2Step(c, n).0) && (AuxIsDue(n) ==> HasSentAux(Val2Step(c, n).0))
  {
    if n.aba.phase >= VAL_PHASE && Now(n) in n.aba.val2 {
      var p, n2 := Val2StepCases(c, n);
      if n.aba.bin != {} && !n.aba.auxSent {
        SendingAuxTells(c, n, p, n2);
      }
      BinTells(n2, p.val);
    }
  }

  ghost predicate OpeningIsDue(n: Core) {
    n.aba.phase >= AUX_PHASE && Round(n.epoch, n.aba.round) in n.aba.aux
  }

  lemma AuxStepTells(c: Committee, n: Core, combined: Option<nat>)
    requires NodeInv(c, n) && FlagsTell(n)
    ensures FlagsTell(AuxStep(c, n, combined).0)
    ensures OpeningIsDue(n) ==> HasOpened(AuxStep(c, n, combined).0)
  {
    if n.aba.phase >= AUX_PHASE && Now(n) in n.aba.aux && !n.aba.coinSent {
      var n1 := Logged(n.(aba := n.aba.(coinSent := true)), CoinSent(n.epoch, n.aba.round));
      var own := Share(n.epoch, n.aba.round, n.name, Signature(n.name, CoinS(n.epoch, n.aba.round)));
      OpeningTells(n);
      HandleCoinShareFrame(c, n1, own, combined);
      CachesTell(n1, HandleCoinShare(c, n1, own, combined).0);
      Lengthened(n1, HandleCoinShare(c, n1, own, combined).0);
    }
  }

  lemma CoinStepTells(c: Committee, n: Core)
    requires NodeInv(c, n) && FlagsTell(n)
    ensures FlagsTell(CoinStep(c, n).0)
  {
    if n.aba.phase == COIN_PHASE {
      var decided, v := CoinStepCases(c, n);
      if decided {
        DecisionTells(n, v, n.aba.aux[Now(n)]);
      } else {
        var own := OwnVal(n, n.epoch, n.aba.round + 1, v, VAL_PHASE);
        RoundTells(n, v);
        HandleAbaValFrame(c, RoundStarted(n, v), own);
        CachesTell(RoundStarted(n, v), HandleAbaVal(c, RoundStarted(n, v), own).0);
      }
    }
  }

  lemma SendingTells(c: Committee, k: Knowledge, n: Core, a: Action)
    requires NodeInv(c, n) && Enabled(c, k, n, a) && FlagsTell(n) && !OnChains(a) && !Receives(a)
    ensures FlagsTell(Apply(c, k, n, a))
  {
    match a
    case Phases => StillTell(n, EnterPhases(c, n));
    case UseTc => TcStepTells(c, n);
    case UseVal1 => Val1StepTells(c, n);
    case UseVal2 => Val2StepTells(c, n);
    case UseAux(combined) => AuxStepTells(c, n, combined);
    case UseCoin => CoinStepTells(c, n);
    case UseProof => StillTell(n, ProofStep(n));
    case Close(draft) => CloseEpochShape(c, n, draft);
  }

  lemma ActionTells(c: Committee, k: Knowledge, n: Core, a: Action)
    requires NodeInv(c, n) && Enabled(c, k, n, a) && FlagsTell(n)
    ensures FlagsTell(Apply(c, k, n, a))
  {
    if OnChains(a) {
      ChainActionFrame(c, k, n, a);
      StillTell(n, Apply(c, k, n, a));
    } else if Receives(a) {
      ReceiveFrame(c, k, n, a);
      CachesTell(n, Apply(c, k, n, a));
    } else {
      SendingTells(c, k, n, a);
    }
  }

  lemma StepTells(c: Committee, w: World, w': World, x: PublicKey)
    requires Step(c, w, w') && x in w && FlagsTell(w[x])
    ensures x in w' && FlagsTell(w'[x])
  {
    var y, a :| StepBy(c, w, w', y, a);
    if y == x {
      ActionTells(c, Known(w), w[x], a);
    }
  }

  lemma {:induction false} RunTells(c: Committee, tr: seq<World>, x: PublicKey)
    requires Run(c, tr) && x in tr[0]
    ensures x in Last(tr) && FlagsTell(Last(tr)[x])
    decreases |tr|
  {
    if |tr| > 1 {
      var front := tr[..|tr| - 1];
      PrefixRun(c, tr, |tr| - 1);
      RunTells(c, front, x);
      StepAt(c, tr, |tr| - 2);
      StepTells(c, Last(front), Last(tr), x);
    }
  }

  // ----- What is due is sent -----

  /** A step from a reachable state. */
  ghost predicate Reached(c: Committee, tr: seq<World>, w': World, x: PublicKey, a: Action) {
    Run(c, tr) && FaultBound(c, tr[0]) && StepBy(c, Last(tr), w', x, a)
  }

  lemma SameHonest(c: Committee, tr: seq<World>, x: PublicKey)
    requires Run(c, tr) && x in Last(tr)
    ensures x in tr[0]
  {
    RunCarriesBack(c, tr, x, |tr| - 1);
  }

  lemma {:induction false} RunCarriesBack(c: Committee, tr: seq<World>, x: PublicKey, i: nat)
    requires Run(c, tr) && i < |tr| && x in tr[i]
    ensures x in tr[0]
    decreases i
  {
    if i > 0 {
      StepAt(c, tr, i - 1);
      RunCarriesBack(c, tr, x, i - 1);
    }
  }

  lemma NodeAt(c: Committee, tr: seq<World>, w': World, x: PublicKey, a: Action) returns (n: Core, n': Core)
    requires Reached(c, tr, w', x, a)
    ensures x in Last(tr) && n == Last(tr)[x] && x in w' && n' == w'[x] && SystemInv(c, Last(tr))
    ensures NodeInv(c, n) && Enabled(c, Known(Last(tr)), n, a) && n' == Apply(c, Known(Last(tr)), n, a)
    ensures OnceInv(n) && n.name == x
  {
    RunKeepsInv(c, tr);
    n, n' := Last(tr)[x], w'[x];
  }

  lemma NodeTells(c: Committee, tr: seq<World>, w': World, x: PublicKey, a: Action)
    requires Reached(c, tr, w', x, a)
    ensures x in Last(tr) && FlagsTell(Last(tr)[x])
  {
    SameHonest(c, tr, x);
    RunTells(c, tr, x);
  }

  /** In every reachable state: a value other than the own input of the round with enough support is
      relayed, unless one has been relayed in the round already. */
  lemma RelayIsSent(c: Committee, tr: seq<World>, w': World, x: PublicKey)
    requires Reached(c, tr, w', x, UseVal1) && RelayIsDue(Last(tr)[x])
    ensures HasRelayed(w'[x])
  {
    var n, n' := NodeAt(c, tr, w', x, UseVal1);
    NodeTells(c, tr, w', x, UseVal1);
    Val1StepTells(c, n);
  }

  /** Once a value has been accepted in the round, the next one with a quorum behind it has AUX sent. */
  lemma AuxIsSent(c: Committee, tr: seq<World>, w': World, x: PublicKey)
    requires Reached(c, tr, w', x, UseVal2) && AuxIsDue(Last(tr)[x])
    ensures HasSentAux(w'[x])
  {
    var n, n' := NodeAt(c, tr, w', x, UseVal2);
    NodeTells(c, tr, w', x, UseVal2);
    Val2StepTells(c, n);
  }

  /** An AUX certificate has the node open its share of the coin. */
  lemma ShareIsSent(c: Committee, tr: seq<World>, w': World, x: PublicKey, combined: Option<nat>)
    requires Reached(c, tr, w', x, UseAux(combined)) && OpeningIsDue(Last(tr)[x])
    ensures HasOpened(w'[x])
  {
    var n, n' := NodeAt(c, tr, w', x, UseAux(combined));
    NodeTells(c, tr, w', x, UseAux(combined));
    AuxStepTells(c, n, combined);
  }

  // ----- The node's own messages are counted -----

  /** What a node is counted for under a key it has signed. */
  lemma CountedIsSigned(c: Committee, w: World, x: PublicKey, key: ValKey)
    requires SystemInv(c, w) && x in w && x in Entry(w[x].aba.tables.vals, key).used
    ensures SignedAba(w[x].aba.log, AbaS(key.epoch, key.round, key.val, key.phase))
  {
    var m := w[x].aba.tables.vals[key];
    assert KeyInv(c, Known(w), key, m);
    assert Said(x, AbaS(key.epoch, key.round, key.val, key.phase)) in Known(w);
  }

  lemma AuxIsSpent(n: Core, v: nat)
    requires OnceInv(n) && SignedAba(n.aba.log, AbaS(n.epoch, n.aba.round, v, AUX_PHASE))
    ensures n.aba.auxSent
  {}

  lemma OwnAuxIsFresh(c: Committee, w: World, x: PublicKey, v: nat)
    requires SystemInv(c, w) && x in w && !w[x].aba.auxSent
    ensures x !in Entry(w[x].aba.tables.vals, ValKey(w[x].epoch, w[x].aba.round, AUX_PHASE, v)).used
  {
    var key := ValKey(w[x].epoch, w[x].aba.round, AUX_PHASE, v);
    if x in Entry(w[x].aba.tables.vals, key).used {
      CountedIsSigned(c, w, x, key);
      AuxIsSpent(w[x], v);
    }
  }

  lemma OwnAuxAppends(c: Committee, n: Core, p: ABAProof)
    requires n.aba.output.None? && Round(p.epoch, p.round) == Now(n)
    requires n.name !in Entry(n.aba.tables.vals, ValKey(n.epoch, n.aba.round, AUX_PHASE, p.val)).used
    ensures HandleAbaVal(c, AuxLogged(n, p), OwnVal(n, p.epoch, p.round, p.val, AUX_PHASE)).1
  {}

  lemma AcceptsValue(c: Committee, n: Core, p: ABAProof)
    requires NodeInv(c, n) && n.aba.output.None? && n.aba.phase >= VAL_PHASE
    requires Now(n) in n.aba.val2 && p == n.aba.val2[Now(n)]
    requires n.aba.auxSent || n.name !in Entry(n.aba.tables.vals, ValKey(n.epoch, n.aba.round, AUX_PHASE, p.val)).used
    ensures Val2Step(c, n).0.aba.bin == n.aba.bin + {p.val}
  {
    if n.aba.bin != {} && !n.aba.auxSent {
      var own := OwnVal(n, p.epoch, p.round, p.val, AUX_PHASE);
      HandleAbaValFrame(c, AuxLogged(n, p), own);
      OwnAuxAppends(c, n, p);
    }
  }

  /** In every reachable state a value with a quorum behind it is accepted: sending AUX for it first is
      never refused by the node's own count. */
  lemma QuorumIsAccepted(c: Committee, tr: seq<World>, w': World, x: PublicKey)
    requires Reached(c, tr, w', x, UseVal2)
    requires var n := Last(tr)[x]; n.aba.phase >= VAL_PHASE && Round(n.epoch, n.aba.round) in n.aba.val2
    ensures var n := Last(tr)[x];
            w'[x].aba.bin == n.aba.bin + {n.aba.val2[Round(n.epoch, n.aba.round)].val}
  {
    var n, n' := NodeAt(c, tr, w', x, UseVal2);
    var p := n.aba.val2[Now(n)];
    if !n.aba.auxSent {
      OwnAuxIsFresh(c, Last(tr), x, p.val);
    }
    AcceptsValue(c, n, p);
  }

  // ----- Using a timeout certificate, the coin and a proof -----

  /** The largest reported height is the node's input, and on record. */
  ghost predicate Uses(n: Core, n': Core, heights: seq<nat>) {
    && n'.aba.tcProcessed && 1 in n'.aba.input && n'.aba.input[1] in heights
    && (forall i :: 0 <= i < |heights| ==> heights[i] <= n'.aba.input[1])
    && n'.aba.log == n.aba.log + [Input(n.epoch, 1, n'.aba.input[1])]
  }

  lemma TcStepUses(c: Committee, n: Core)
    requires NodeInv(c, n) && n.epoch in n.tcs && !n.aba.tcProcessed && TcStep(c, n).1
    ensures Uses(n, TcStep(c, n).0, HighQcRounds(n.tcs[n.epoch]))
  {
    var v := Maximum(HighQcRounds(n.tcs[n.epoch]));
    var n1 := Logged(n.(aba := n.aba.(input := n.aba.input[1 := v])), Input(n.epoch, 1, v));
    HandleAbaValFrame(c, n1, OwnVal(n, n.epoch, 1, v, VAL_PHASE));
  }

  /** The first use of the epoch's certificate makes the largest height it reports the node's input. */
  lemma CertificateIsUsed(c: Committee, tr: seq<World>, w': World, x: PublicKey)
    requires Reached(c, tr, w', x, UseTc)
    requires Last(tr)[x].epoch in Last(tr)[x].tcs && !Last(tr)[x].aba.tcProcessed
    ensures Uses(Last(tr)[x], w'[x], HighQcRounds(Last(tr)[x].tcs[Last(tr)[x].epoch]))
  {
    var n, n' := NodeAt(c, tr, w', x, UseTc);
    OwnInputIsAccepted(c, Last(tr), x);
    TcStepUses(c, n);
  }

  /** What the coin can settle on: the only accepted value, or with several the one with an AUX
      certificate, if it is as even as the coin. */
  ghost predicate Settles(n: Core, v: nat) {
    var now := Round(n.epoch, n.aba.round);
    && (if |n.aba.bin| == 1 then v in n.aba.bin else now in n.aba.aux && n.aba.aux[now].val == v)
    && now in n.aba.coin && (v + n.aba.coin[now]) % 2 == 0
  }

  ghost predicate Settled(n: Core, n': Core) {
    && n'.aba.output.Some? && Settles(n, n'.aba.output.value) && HasProven(n')
    && Decided(n.epoch, n.aba.round, n'.aba.output.value) in n'.aba.log
  }

  /** The next round has the only accepted value as input, or else the coin. */
  ghost predicate CarriedOn(n: Core, n': Core) {
    var now := Round(n.epoch, n.aba.round);
    && n'.aba.output.None? && n'.aba.round == n.aba.round + 1 && n'.aba.round in n'.aba.input && now in n.aba.coin
    && (if |n.aba.bin| == 1 then n'.aba.input[n'.aba.round] in n.aba.bin
        else n'.aba.input[n'.aba.round] == n.aba.coin[now])
    && Input(n.epoch, n'.aba.round, n'.aba.input[n'.aba.round]) in n'.aba.log
  }

  ghost predicate CoinIsUsed(n: Core, n': Core) {
    if exists v :: Settles(n, v) then Settled(n, n') else CarriedOn(n, n')
  }

  lemma OnlyOne(s: set<nat>, v: nat)
    requires |s| == 1
    ensures TheOne(s) in s && (v in s ==> v == TheOne(s))
  {
    var rest := s - {TheOne(s)};
    assert |rest| == 0;
    assert s == rest + {TheOne(s)};
  }

  lemma DecisionSettles(c: Committee, n: Core, v: nat)
    requires NodeInv(c, n) && FlagsTell(n) && Settles(n, v) && Now(n) in n.aba.aux
    ensures Settled(n, SendProof(Decide(n, v), n.aba.aux[Now(n)]))
  {
    var n1 := Decide(n, v);
    DecisionTells(n, v, n.aba.aux[Now(n)]);
    InLast(n.aba.log, Decided(n.epoch, n.aba.round, v));
    assert n1.aba.log <= SendProof(n1, n.aba.aux[Now(n)]).aba.log;
  }

  lemma RoundIsCarriedOn(c: Committee, n: Core, v: nat)
    requires NodeInv(c, n) && n.aba.output.None? && Now(n) in n.aba.coin
    requires if |n.aba.bin| == 1 then v in n.aba.bin else v == n.aba.coin[Now(n)]
    ensures CarriedOn(n, AdvanceRound(c, n, v).0)
  {
    InLast(n.aba.log, Input(n.epoch, n.aba.round + 1, v));
    HandleAbaValFrame(c, RoundStarted(n, v), OwnVal(n, n.epoch, n.aba.round + 1, v, VAL_PHASE));
  }

  lemma CoinStepDecides(c: Committee, n: Core)
    requires NodeInv(c, n) && FlagsTell(n) && n.aba.phase == COIN_PHASE && n.aba.output.None?
    ensures CoinIsUsed(n, CoinStep(c, n).0)
  {
    var decided, v := CoinStepCases(c, n);
    if |n.aba.bin| == 1 {
      OnlyOne(n.aba.bin, v);
    }
    if decided {
      assert Settles(n, v);
      DecisionSettles(c, n, v);
    } else {
      if exists u :: Settles(n, u) {
        var u :| Settles(n, u);
        UndecidedIsUnsettled(c, n, u);
        assert false;
      }
      RoundIsCarriedOn(c, n, v);
    }
  }

  lemma UndecidedIsUnsettled(c: Committee, n: Core, u: nat)
    requires NodeInv(c, n) && n.aba.phase == COIN_PHASE && n.aba.output.None? && Settles(n, u)
    ensures CoinStep(c, n).0.aba.output.Some?
  {
    if |n.aba.bin| == 1 {
      OnlyOne(n.aba.bin, u);
    }
  }

  /** With its coin open, a node decides exactly if there is a value to settle on, and then has sent a
      proof; otherwise it goes on to the next round. */
  lemma CoinDecides(c: Committee, tr: seq<World>, w': World, x: PublicKey)
    requires Reached(c, tr, w', x, UseCoin) && Last(tr)[x].aba.phase == COIN_PHASE
    ensures CoinIsUsed(Last(tr)[x], w'[x])
  {
    var n, n' := NodeAt(c, tr, w', x, UseCoin);
    NodeTells(c, tr, w', x, UseCoin);
    CoinStepDecides(c, n);
  }

  /** A filed proof of the current round is decided on in view change exactly when the coin of the round
      is open and as even as its value. */
  lemma ProofDecides(c: Committee, w: World, w': World, x: PublicKey)
    requires StepBy(c, w, w', x, UseProof) && Round(w[x].epoch, w[x].aba.round) in w[x].aba.proofs
    ensures var n, n' := w[x], w'[x]; var now := Round(n.epoch, n.aba.round); var v := n.aba.proofs[now].val;
            if now in n.aba.coin && (v + n.aba.coin[now]) % 2 == 0
            then n'.aba.output == Some(v) && n'.aba.log == n.aba.log + [Decided(n.epoch, n.aba.round, v)]
            else n' == n
  {
    assert NodeInv(c, w[x]);
  }
}
