/** One pass of the phase machine, which ends every turn of the event loop: the guarded steps in
    their order, stopping at the first that returns an error. */
module Passes {
  import opened Committees
  import opened Options
  import opened Messages
  import opened Aggregators
  import opened Commits
  import opened Nodes
  import opened NodeSafety

  ghost predicate Undecided(c: Committee, n: Core) {
    NodeInv(c, n) && n.aba.output.None?
  }

  // ----- No step before the coin decides -----

  lemma TcStepUndecided(c: Committee, n: Core)
    requires Undecided(c, n)
    ensures Undecided(c, TcStep(c, n).0)
  {
    TcStepKeeps(c, n);
    if !n.aba.tcProcessed && n.epoch in n.tcs {
      var v := Maximum(HighQcRounds(n.tcs[n.epoch]));
      var n1 := Logged(n.(aba := n.aba.(input := n.aba.input[1 := v])), Input(n.epoch, 1, v));
      HandleAbaValFrame(c, n1, OwnVal(n, n.epoch, 1, v, VAL_PHASE));
    }
  }

  lemma Val1StepUndecided(c: Committee, n: Core)
    requires Undecided(c, n)
    ensures Undecided(c, Val1Step(c, n).0)
  {
    Val1StepKeeps(c, n);
    if n.aba.phase >= VAL_PHASE && Now(n) in n.aba.val1 {
      var p := n.aba.val1[Now(n)];
      var n1 := Logged(n.(aba := n.aba.(valSent := true)), Relay(p.epoch, p.round, p.val));
      HandleAbaValFrame(c, n1, OwnVal(n, p.epoch, p.round, p.val, p.phase));
    }
  }

  lemma Val2StepUndecided(c: Committee, n: Core)
    requires Undecided(c, n)
    ensures Undecided(c, Val2Step(c, n).0)
  {
    Val2StepKeeps(c, n);
    if n.aba.phase >= VAL_PHASE && Now(n) in n.aba.val2 {
      var p, n2 := Val2StepCases(c, n);
      HandleAbaValFrame(c, AuxLogged(n, p), OwnVal(n, p.epoch, p.round, p.val, AUX_PHASE));
    }
  }

  lemma AuxStepUndecided(c: Committee, n: Core, combined: Option<nat>)
    requires Undecided(c, n)
    ensures Undecided(c, AuxStep(c, n, combined).0)
  {
    AuxStepKeeps(c, n, combined);
    if n.aba.phase >= AUX_PHASE && Now(n) in n.aba.aux {
      var (e, r) := (n.aba.aux[Now(n)].epoch, n.aba.aux[Now(n)].round);
      var n1 := Logged(n.(aba := n.aba.(coinSent := true)), CoinSent(e, r));
      HandleCoinShareFrame(c, n1, Share(e, r, n.name, Signature(n.name, CoinS(e, r))), combined);
    }
  }

  // ----- The pass -----

  function Val1Pass(c: Committee, n: Core): (r: (Core, bool))
    requires Undecided(c, n)
    ensures Undecided(c, r.0)
  {
    TcStepUndecided(c, n);
    var (n1, ok) := TcStep(c, n);
    if ok then Val1StepUndecided(c, n1); Val1Step(c, n1) else (n1, false)
  }

  function Val2Pass(c: Committee, n: Core): (r: (Core, bool))
    requires Undecided(c, n)
    ensures Undecided(c, r.0)
  {
    var (n1, ok) := Val1Pass(c, n);
    if ok then Val2StepUndecided(c, n1); Val2Step(c, n1) else (n1, false)
  }

  function AuxPass(c: Committee, n: Core, combined: Option<nat>): (r: (Core, bool))
    requires Undecided(c, n)
    ensures Undecided(c, r.0)
  {
    var (n1, ok) := Val2Pass(c, n);
    if ok then AuxStepUndecided(c, n1, combined); AuxStep(c, n1, combined) else (n1, false)
  }

  function CoinPass(c: Committee, n: Core, combined: Option<nat>): (r: (Core, bool))
    requires Undecided(c, n)
    ensures NodeInv(c, r.0)
  {
    var (n1, ok) := AuxPass(c, n, combined);
    if ok then CoinStepKeeps(c, n1); CoinStep(c, n1) else (n1, false)
  }

  function AbaPass(c: Committee, n: Core, combined: Option<nat>): (r: (Core, bool))
    requires Undecided(c, n)
    ensures NodeInv(c, r.0)
  {
    var (n1, ok) := CoinPass(c, n, combined);
    if ok then ProofStepKeeps(c, n1); (ProofStep(n1), true) else (n1, false)
  }

  /** What follows every message: in a view change, the phases are entered, then a decision closes
      the epoch or the guarded steps are taken. */
  ghost function UpdateAba(c: Committee, n: Core, combined: Option<nat>, draft: Draft): (n': Core)
    requires NodeInv(c, n)
    ensures NodeInv(c, n')
  {
    if !n.viewChange then n
    else
      EnterPhasesKeeps(c, n);
      var n1 := EnterPhases(c, n);
      if n1.aba.output.Some? then CloseEpochKeeps(c, n1, draft); CloseEpoch(c, n1, draft)
      else AbaPass(c, n1, combined).0
  }
}
