/** What an epoch is closed on: the pending output is the last decision of the epoch, and no epoch is left
    without one. */
module Decisions {
  import opened Committees
  import opened Options
  import opened Messages
  import opened Aggregators
  import opened Commits
  import opened Nodes
  import opened NodeSafety
  import opened Passes
  import opened OnceOnly
  import opened Worlds
  import opened Systems
  import opened Carrying

  ghost predicate DecidesAt(log: seq<AbaEvent>, e: nat, v: nat, i: nat) {
    && i < |log| && log[i].Decided? && log[i].epoch == e && log[i].val == v
    && forall j :: i < j < |log| && log[j].Decided? ==> log[j].epoch != e
  }

  /** The last decision of the epoch on record. */
  ghost predicate LastDecided(log: seq<AbaEvent>, e: nat, v: nat) {
    exists i: nat :: DecidesAt(log, e, v, i)
  }

  ghost predicate IsDecided(log: seq<AbaEvent>, e: nat) {
    exists v :: LastDecided(log, e, v)
  }

  lemma OneLast(log: seq<AbaEvent>, e: nat, v: nat, u: nat)
    requires LastDecided(log, e, v) && LastDecided(log, e, u)
    ensures v == u
  {
    var i: nat :| DecidesAt(log, e, v, i);
    var j: nat :| DecidesAt(log, e, u, j);
  }

  ghost predicate OutputIsLast(n: Core) {
    n.aba.output.Some? ==> LastDecided(n.aba.log, n.epoch, n.aba.output.value)
  }

  ghost predicate AllDecided(n: Core) {
    forall e :: 0 <= e < n.epoch ==> IsDecided(n.aba.log, e)
  }

  ghost predicate DecisionsInv(n: Core) {
    OutputIsLast(n) && AllDecided(n)
  }

  /** Nothing new is decided, or something in the current epoch. */
  ghost predicate NothingDecided(n: Core, n': Core) {
    && n'.epoch == n.epoch && n'.aba.output == n.aba.output && n.aba.log <= n'.aba.log
    && forall i :: |n.aba.log| <= i < |n'.aba.log| ==> !n'.aba.log[i].Decided?
  }

  ghost predicate DecidesNow(n: Core, n': Core) {
    && n'.epoch == n.epoch && n'.aba.output.Some? && |n.aba.log| < |n'.aba.log| && n.aba.log <= n'.aba.log
    && DecidesAt(n'.aba.log, n.epoch, n'.aba.output.value, |n.aba.log|)
    && forall i :: |n.aba.log| < i < |n'.aba.log| ==> !n'.aba.log[i].Decided?
  }

  lemma StillLast(log: seq<AbaEvent>, log': seq<AbaEvent>, e: nat, v: nat)
    requires LastDecided(log, e, v) && log <= log'
    requires forall i :: |log| <= i < |log'| && log'[i].Decided? ==> log'[i].epoch != e
    ensures LastDecided(log', e, v)
  {
    var i: nat :| DecidesAt(log, e, v, i);
    assert DecidesAt(log', e, v, i) by {
      forall j | i < j < |log'| && log'[j].Decided? ensures log'[j].epoch != e {
        assert j < |log| ==> log[j] == log'[j];
      }
    }
  }

  lemma QuietKeepsDecisions(n: Core, n': Core)
    requires DecisionsInv(n) && NothingDecided(n, n')
    ensures DecisionsInv(n')
  {
    forall e | 0 <= e < n.epoch ensures IsDecided(n'.aba.log, e) {
      assert IsDecided(n.aba.log, e);
      var v :| LastDecided(n.aba.log, e, v);
      StillLast(n.aba.log, n'.aba.log, e, v);
    }
    if n.aba.output.Some? {
      StillLast(n.aba.log, n'.aba.log, n.epoch, n.aba.output.value);
    }
  }

  lemma DecidingKeepsDecisions(n: Core, n': Core)
    requires DecisionsInv(n) && DecidesNow(n, n')
    ensures DecisionsInv(n')
  {
    assert LastDecided(n'.aba.log, n.epoch, n'.aba.output.value);
    forall e | 0 <= e < n.epoch ensures IsDecided(n'.aba.log, e) {
      assert IsDecided(n.aba.log, e);
      var v :| LastDecided(n.aba.log, e, v);
      StillLast(n.aba.log, n'.aba.log, e, v);
    }
  }

  // ----- The steps -----

  lemma TcStepQuiet(c: Committee, n: Core)
    requires NodeInv(c, n)
    ensures NothingDecided(n, TcStep(c, n).0)
  {
    if !n.aba.tcProcessed && n.epoch in n.tcs {
      var v := Maximum(HighQcRounds(n.tcs[n.epoch]));
      var n1 := Logged(n.(aba := n.aba.(input := n.aba.input[1 := v])), Input(n.epoch, 1, v));
      HandleAbaValFrame(c, n1, OwnVal(n, n.epoch, 1, v, VAL_PHASE));
    }
  }

  lemma Val1StepQuiet(c: Committee, n: Core)
    requires NodeInv(c, n)
    ensures NothingDecided(n, Val1Step(c, n).0)
  {
    if n.aba.phase >= VAL_PHASE && Now(n) in n.aba.val1 {
      var p := n.aba.val1[Now(n)];
      var n1 := Logged(n.(aba := n.aba.(valSent := true)), Relay(p.epoch, p.round, p.val));
      HandleAbaValFrame(c, n1, OwnVal(n, p.epoch, p.round, p.val, p.phase));
    }
  }

  lemma Val2StepQuiet(c: Committee, n: Core)
    ensures NothingDecided(n, Val2Step(c, n).0)
  {
    if n.aba.phase >= VAL_PHASE && Now(n) in n.aba.val2 {
      var p, n2 := Val2StepCases(c, n);
      HandleAbaValFrame(c, AuxLogged(n, p), OwnVal(n, p.epoch, p.round, p.val, AUX_PHASE));
      assert NothingDecided(n, n2);
    }
  }

  lemma AuxStepQuiet(c: Committee, n: Core, combined: Option<nat>)
    ensures NothingDecided(n, AuxStep(c, n, combined).0)
  {
    if n.aba.phase >= AUX_PHASE && Now(n) in n.aba.aux {
      var p := n.aba.aux[Now(n)];
      var n1 := Logged(n.(aba := n.aba.(coinSent := true)), CoinSent(p.epoch, p.round));
      var own := Share(p.epoch, p.round, n.name, Signature(n.name, CoinS(p.epoch, p.round)));
      HandleCoinShareFrame(c, n1, own, combined);
    }
  }

  lemma RoundQuiet(c: Committee, n: Core, v: nat)
    ensures NothingDecided(n, AdvanceRound(c, n, v).0)
  {
    HandleAbaValFrame(c, RoundStarted(n, v), OwnVal(n, n.epoch, n.aba.round + 1, v, VAL_PHASE));
  }

  lemma DecisionDecides(n: Core, v: nat, p: ABAProof)
    ensures DecidesNow(n, Decide(n, v)) && DecidesNow(n, SendProof(Decide(n, v), p))
  {}

  lemma CoinStepDecides(c: Committee, n: Core)
    requires NodeInv(c, n)
    ensures NothingDecided(n, CoinStep(c, n).0) || DecidesNow(n, CoinStep(c, n).0)
  {
    if n.aba.phase == COIN_PHASE {
      var decided, v := CoinStepCases(c, n);
      if decided {
        DecisionDecides(n, v, n.aba.aux[Now(n)]);
      } else {
        RoundQuiet(c, n, v);
      }
    }
  }

  lemma ProofStepDecides(n: Core)
    ensures NothingDecided(n, ProofStep(n)) || DecidesNow(n, ProofStep(n))
  {
    if n.viewChange && Now(n) in n.aba.proofs {
      DecisionDecides(n, n.aba.proofs[Now(n)].val, n.aba.proofs[Now(n)]);
    }
  }

  lemma ActionDecides(c: Committee, k: Knowledge, n: Core, a: Action)
    requires NodeInv(c, n) && Enabled(c, k, n, a) && !a.Close?
    ensures NothingDecided(n, Apply(c, k, n, a)) || DecidesNow(n, Apply(c, k, n, a))
  {
    if OnChains(a) {
      ChainActionFrame(c, k, n, a);
    } else if Receives(a) {
      ReceiveFrame(c, k, n, a);
    } else {
      match a
      case Phases =>
      case UseTc => TcStepQuiet(c, n);
      case UseVal1 => Val1StepQuiet(c, n);
      case UseVal2 => Val2StepQuiet(c, n);
      case UseAux(combined) => AuxStepQuiet(c, n, combined);
      case UseCoin => CoinStepDecides(c, n);
      case UseProof => ProofStepDecides(n);
    }
  }

  lemma ClosingKeepsDecisions(c: Committee, n: Core, draft: Draft)
    requires NodeInv(c, n) && n.aba.output.Some? && DecisionsInv(n)
    ensures DecisionsInv(CloseEpoch(c, n, draft))
  {
    var n' := CloseEpoch(c, n, draft);
    CloseEpochShape(c, n, draft);
    if n'.epoch == n.epoch + 1 {
      forall e | 0 <= e < n'.epoch ensures IsDecided(n'.aba.log, e) {
        assert e < n.epoch ==> IsDecided(n.aba.log, e);
      }
    }
  }

  lemma ActionKeepsDecisions(c: Committee, k: Knowledge, n: Core, a: Action)
    requires NodeInv(c, n) && Enabled(c, k, n, a) && DecisionsInv(n)
    ensures DecisionsInv(Apply(c, k, n, a))
  {
    if a.Close? {
      ClosingKeepsDecisions(c, n, a.draft);
    } else {
      ActionDecides(c, k, n, a);
      if NothingDecided(n, Apply(c, k, n, a)) {
        QuietKeepsDecisions(n, Apply(c, k, n, a));
      } else {
        DecidingKeepsDecisions(n, Apply(c, k, n, a));
      }
    }
  }

  lemma StepKeepsDecisions(c: Committee, w: World, w': World, x: PublicKey)
    requires Step(c, w, w') && x in w && DecisionsInv(w[x])
    ensures x in w' && DecisionsInv(w'[x])
  {
    var y, a :| StepBy(c, w, w', y, a);
    if y == x {
      ActionKeepsDecisions(c, Known(w), w[x], a);
    }
  }

  lemma {:induction false} RunDecides(c: Committee, tr: seq<World>, x: PublicKey)
    requires Run(c, tr) && x in tr[0]
    ensures x in Last(tr) && DecisionsInv(Last(tr)[x])
    decreases |tr|
  {
    if |tr| > 1 {
      var front := tr[..|tr| - 1];
      PrefixRun(c, tr, |tr| - 1);
      RunDecides(c, front, x);
      StepAt(c, tr, |tr| - 2);
      StepKeepsDecisions(c, Last(front), Last(tr), x);
    }
  }
}
