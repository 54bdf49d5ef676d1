/** Giving up on a leader: timeout certificates are filed and acted upon, a node times out exactly when
    the leader lags, and from then on it neither votes below nor commits what the leader had. */
module ViewChanges {
  import opened Committees
  import opened Options
  import opened Messages
  import opened Aggregators
  import opened Commits
  import opened Delivery
  import opened Nodes
  import opened NodeSafety
  import opened Passes
  import opened Worlds
  import opened Systems
  import opened Carrying

  // ----- Timeout certificates -----

  /** An accepted certificate of the node's epoch or a later one is filed, and no other entry is lost. */
  lemma TcIsFiled(c: Committee, w: World, w': World, x: PublicKey, tc: TC)
    requires StepBy(c, w, w', x, OnTc(tc)) && TcAccepted(c, tc) && w[x].epoch <= tc.epoch
    ensures w'[x].tcs == w[x].tcs[tc.epoch := tc] && w'[x].epoch == w[x].epoch
  {}

  /** So is one that the node's own collection completes. */
  lemma CollectedTcIsFiled(c: Committee, w: World, w': World, x: PublicKey, t: Timeout)
    requires StepBy(c, w, w', x, OnTimeout(t)) && LeaderOf(c, t.epoch) in w[x].ledger.chains
    requires var m := Entry(w[x].ledger.chains[LeaderOf(c, t.epoch)].aggregator.timeouts, t.epoch);
             t.author !in m.used && m.weight + c.Stake(t.author) >= QuorumThreshold(c)
    ensures t.epoch in w'[x].tcs && w'[x].tcs[t.epoch].epoch == t.epoch
    ensures forall e | e in w[x].tcs :: e in w'[x].tcs
  {}

  lemma FiledIsAccepted(c: Committee, w: World, x: PublicKey, e: nat)
    requires SystemInv(c, w) && x in w && e in w[x].tcs
    ensures TimeoutCertificate(c, Known(w), w[x].tcs[e]) && w[x].tcs[e].epoch == e
  {
    assert NodeInv(c, w[x]);
  }

  lemma TcsStay(c: Committee, tr: seq<World>, i: nat, j: nat, x: PublicKey, e: nat)
    requires Run(c, tr) && i <= j < |tr| && x in tr[i] && e in tr[i][x].tcs
    ensures x in tr[j] && tr[i][x].epoch <= tr[j][x].epoch && (tr[j][x].epoch <= e ==> e in tr[j][x].tcs)
  {
    RunCarries(c, tr, i, j, x);
  }

  /** Once filed, there is an accepted certificate for the epoch until the epoch is closed. */
  lemma FiledTcStays(c: Committee, tr: seq<World>, i: nat, j: nat, x: PublicKey, tc: TC)
    requires Run(c, tr) && FaultBound(c, tr[0]) && i < j < |tr|
    requires StepBy(c, tr[i], tr[i + 1], x, OnTc(tc)) && TcAccepted(c, tc) && tr[i][x].epoch <= tc.epoch
    ensures x in tr[j] && tr[i][x].epoch <= tr[j][x].epoch
    ensures tr[j][x].epoch <= tc.epoch ==>
              tc.epoch in tr[j][x].tcs && TimeoutCertificate(c, Known(tr[j]), tr[j][x].tcs[tc.epoch])
              && tr[j][x].tcs[tc.epoch].epoch == tc.epoch
  {
    TcIsFiled(c, tr[i], tr[i + 1], x, tc);
    TcsStay(c, tr, i + 1, j, x, tc.epoch);
    if tr[j][x].epoch <= tc.epoch {
      RunInvAt(c, tr, j);
      FiledIsAccepted(c, tr[j], x, tc.epoch);
    }
  }

  // ----- The end of a turn -----

  lemma Val1PassFrame(c: Committee, n: Core)
    requires Undecided(c, n)
    ensures OnlyAba(n, Val1Pass(c, n).0)
  {
    TcStepFrame(c, n);
    TcStepUndecided(c, n);
    var (n1, ok) := TcStep(c, n);
    if ok {
      Val1StepFrame(c, n1);
    }
  }

  lemma AuxPassFrame(c: Committee, n: Core, combined: Option<nat>)
    requires Undecided(c, n)
    ensures OnlyAba(n, AuxPass(c, n, combined).0)
  {
    Val1PassFrame(c, n);
    var (n2, ok2) := Val1Pass(c, n);
    if ok2 {
      Val2StepFrame(c, n2);
    }
    var (n3, ok3) := Val2Pass(c, n);
    if ok3 {
      AuxStepFrame(c, n3, combined);
    }
  }

  lemma PassFrame(c: Committee, n: Core, combined: Option<nat>)
    requires Undecided(c, n)
    ensures OnlyAba(n, AbaPass(c, n, combined).0)
  {
    AuxPassFrame(c, n, combined);
    var (n4, ok4) := AuxPass(c, n, combined);
    if ok4 {
      CoinStepFrame(c, n4);
    }
    var (n5, ok5) := CoinPass(c, n, combined);
    if ok5 {
      ProofStepFrame(n5);
    }
  }

  /** The agreement's part of a turn leaves the certificates alone, or ends the epoch. */
  lemma UpdateKeepsTcs(c: Committee, n: Core, combined: Option<nat>, draft: Draft)
    requires NodeInv(c, n)
    ensures var n' := UpdateAba(c, n, combined, draft);
            n'.epoch == n.epoch + 1 || (n'.epoch == n.epoch && n'.tcs == n.tcs)
  {
    if n.viewChange {
      EnterPhasesKeeps(c, n);
      EnterPhasesFrame(c, n);
      var n1 := EnterPhases(c, n);
      if n1.aba.output.Some? {
        CloseEpochShape(c, n1, draft);
      } else {
        PassFrame(c, n1, combined);
      }
    }
  }

  /** After the end of every turn a node that has a certificate for its epoch is in view change. */
  lemma TurnEntersViewChange(c: Committee, n: Core)
    requires NodeInv(c, n)
    ensures var n' := CheckTimeout(c, n); n'.epoch == n.epoch && (n'.epoch in n'.tcs ==> n'.viewChange)
    ensures n.epoch in n.tcs ==> CheckTimeout(c, n) == n.(viewChange := true)
  {}

  /** Receiving an accepted certificate for the current epoch and ending the turn leaves the node in view
      change with a certificate filed, or in the next epoch. */
  lemma TcLeadsToViewChange(c: Committee, n: Core, tc: TC, combined: Option<nat>, draft: Draft)
    requires NodeInv(c, n) && TcAccepted(c, tc) && tc.epoch == n.epoch
    ensures NodeInv(c, HandleTc(c, n, tc))
    ensures var n' := CheckTimeout(c, UpdateAba(c, HandleTc(c, n, tc), combined, draft));
            n'.epoch == n.epoch + 1 || (n'.epoch == n.epoch && n'.viewChange && n.epoch in n'.tcs)
  {
    HandleTcKeeps(c, n, tc);
    var n1 := HandleTc(c, n, tc);
    assert n1.tcs == n.tcs[tc.epoch := tc];
    UpdateKeepsTcs(c, n1, combined, draft);
    TurnEntersViewChange(c, UpdateAba(c, n1, combined, draft));
  }

  // ----- Timing out -----

  /** Some other chain is more than the allowed distance ahead of the leader's. */
  ghost predicate Lagging(c: Committee, n: Core) {
    exists y :: y in n.ledger.chains && LeaderOf(c, n.epoch) in n.ledger.chains
      && n.ledger.chains[y].height > n.ledger.chains[LeaderOf(c, n.epoch)].height + 10
  }

  /** At the end of a turn a node signs a timeout exactly when it is not in view change, has no
      certificate for the epoch and the leader lags; the timeout reports the leader's high certificate. */
  lemma TimesOutExactly(c: Committee, n: Core)
    requires NodeInv(c, n)
    ensures var n' := CheckTimeout(c, n);
            if !n.viewChange && n.epoch !in n.tcs && Lagging(c, n)
            then n'.viewChange && n'.ledger.log
                 == n.ledger.log + [TimedOut(n.epoch, n.ledger.chains[LeaderOf(c, n.epoch)].highQc.height)]
            else n'.ledger.log == n.ledger.log
  {
    assert LeaderLags(c, n) <==> Lagging(c, n);
    if !n.viewChange && n.epoch !in n.tcs && LeaderLags(c, n) {
      var n1, t := SignTimeout(c, n), OwnTimeout(c, n);
      assert HandleTimeout(c, n1, t).ledger.log == n1.ledger.log && HandleTimeout(c, n1, t).viewChange;
    }
  }

  // ----- After a timeout -----

  /** Every vote past the given point of the log is above what the earlier state had voted for. */
  ghost predicate NewVoteIsAbove(n: Core, n': Core, i: nat) {
    |n.ledger.log| <= i < |n'.ledger.log| && n'.ledger.log[i].Voted? ==>
      var b := n'.ledger.log[i].block;
      b.author in n.ledger.chains && b.height > n.ledger.chains[b.author].lastVoted
  }

  lemma BlockVotesAbove(c: Committee, n: Core, stale: Chain, b: Block, i: nat)
    requires NodeInv(c, n) && b.author in n.ledger.chains
    ensures NewVoteIsAbove(n, ProcessBlock(c, n, stale, b), i)
  {
    var n1, n2 := ProcessBlockSteps(c, n, stale, b);
    CommitToKeeps(c, n1, stale, TwoChain(c, n1, b));
    assert OnlyCounters(n1.ledger.chains[b.author], n2.ledger.chains[b.author]);
    assert n2.ledger.log == n.ledger.log;
  }

  lemma ClosingCastsNoVote(c: Committee, n: Core, draft: Draft, i: nat)
    requires NodeInv(c, n) && n.aba.output.Some?
    ensures NewVoteIsAbove(n, CloseEpoch(c, n, draft), i)
  {}

  lemma ActionVotesAbove(c: Committee, k: Knowledge, n: Core, a: Action, i: nat)
    requires NodeInv(c, n) && Enabled(c, k, n, a)
    ensures NewVoteIsAbove(n, Apply(c, k, n, a), i)
  {
    if a.OnBlock? {
      BlockVotesAbove(c, n, a.stale, a.block, i);
    } else if a.Close? {
      ClosingCastsNoVote(c, n, a.draft, i);
    } else if !OnChains(a) {
      AbaActionFrame(c, k, n, a);
    }
  }

  /** A step votes only above everything the node has voted for or given up on that chain. */
  lemma VotesAbove(c: Committee, w: World, w': World, x: PublicKey, i: nat)
    requires Step(c, w, w') && x in w && x in w'
    ensures NewVoteIsAbove(w[x], w'[x], i)
  {
    var y, a :| StepBy(c, w, w', y, a);
    if y == x {
      ActionVotesAbove(c, Known(w), w[x], a, i);
    }
  }

  ghost predicate VotesAreAbove(log: seq<ChainEvent>, from: nat, y: PublicKey, height: nat) {
    forall i :: from <= i < |log| && log[i].Voted? && log[i].block.author == y ==> log[i].block.height > height
  }

  /** What the node has voted for on the chain since is above what it had voted for or given up. */
  ghost predicate Beyond(n: Core, n': Core, y: PublicKey) {
    && y in n.ledger.chains && y in n'.ledger.chains
    && n.ledger.chains[y].lastVoted <= n'.ledger.chains[y].lastVoted
    && VotesAreAbove(n'.ledger.log, |n.ledger.log|, y, n.ledger.chains[y].lastVoted)
  }

  lemma StillBeyond(c: Committee, n: Core, w: World, w': World, x: PublicKey, y: PublicKey)
    requires Step(c, w, w') && x in w && x in w' && Beyond(n, w[x], y)
    ensures Beyond(n, w'[x], y)
  {
    var log, log' := w[x].ledger.log, w'[x].ledger.log;
    StepCarries(c, w, w', x);
    forall i | |n.ledger.log| <= i < |log'| && log'[i].Voted? && log'[i].block.author == y
      ensures log'[i].block.height > n.ledger.chains[y].lastVoted
    {
      if i < |log| {
        assert log[i] == log'[i];
      } else {
        VotesAbove(c, w, w', x, i);
      }
    }
  }

  lemma {:induction false} VotesStayBeyond(c: Committee, tr: seq<World>, i: nat, j: nat, x: PublicKey, y: PublicKey)
    requires StepByStep(c, tr) && i <= j < |tr| && x in tr[i] && y in tr[i][x].ledger.chains
    ensures x in tr[j] && Beyond(tr[i][x], tr[j][x], y)
    decreases j
  {
    if i < j {
      VotesStayBeyond(c, tr, i, j - 1, x, y);
      assert StepTo(c, tr, j);
      SameNodes(c, tr[j - 1], tr[j]);
      StillBeyond(c, tr[i][x], tr[j - 1], tr[j], x, y);
    }
  }

  lemma TimingOutRaises(c: Committee, w: World, w': World, x: PublicKey)
    requires StepBy(c, w, w', x, TimeOut)
    ensures var leader := LeaderOf(c, w[x].epoch);
            && leader in w[x].ledger.chains && leader in w'[x].ledger.chains
            && w[x].ledger.chains[leader].height <= w'[x].ledger.chains[leader].lastVoted
  {}

  /** When a node times out it is done with the leader's blocks up to the height it was waiting for: every
      later vote on that chain, in whatever epoch, is above it. */
  lemma TimeoutEndsVoting(c: Committee, tr: seq<World>, i: nat, j: nat, x: PublicKey)
    requires Run(c, tr) && i < j < |tr| && StepBy(c, tr[i], tr[i + 1], x, TimeOut)
    requires LeaderOf(c, tr[i][x].epoch) in tr[i][x].ledger.chains && x in tr[j]
    ensures var leader := LeaderOf(c, tr[i][x].epoch);
            VotesAreAbove(tr[j][x].ledger.log, |tr[i + 1][x].ledger.log|, leader, tr[i][x].ledger.chains[leader].height)
  {
    TimingOutRaises(c, tr[i], tr[i + 1], x);
    RunGoesStepByStep(c, tr);
    VotesStayBeyond(c, tr, i + 1, j, x, LeaderOf(c, tr[i][x].epoch));
  }

  // ----- During a view change -----

  lemma ViewChangeStep(c: Committee, w: World, w': World, x: PublicKey)
    requires Step(c, w, w') && x in w && x in w' && w[x].viewChange && w'[x].epoch == w[x].epoch
    ensures w'[x].ledger.record == w[x].ledger.record
  {
    var y, a :| StepBy(c, w, w', y, a);
    if y == x {
      var n := w[x];
      if a.OnBlock? {
        assert TwoChain(c, StoreBlock(n, a.block), a.block).None?;
      } else if a.Close? {
        CloseEpochShape(c, n, a.draft);
      } else if !OnChains(a) {
        AbaActionFrame(c, Known(w), n, a);
      }
    }
  }

  /** In the same epoch the later state is in view change too, and has delivered the same. */
  ghost predicate Idle(n: Core, n': Core) {
    n.epoch <= n'.epoch && (n'.epoch == n.epoch ==> n'.viewChange && n'.ledger.record == n.ledger.record)
  }

  lemma StillIdle(c: Committee, n: Core, w: World, w': World, x: PublicKey)
    requires Step(c, w, w') && x in w && Idle(n, w[x])
    ensures x in w' && Idle(n, w'[x])
  {
    StepCarries(c, w, w', x);
    if w'[x].epoch == n.epoch {
      ViewChangeStep(c, w, w', x);
    }
  }

  lemma {:induction false} StaysIdle(c: Committee, tr: seq<World>, i: nat, j: nat, x: PublicKey)
    requires StepByStep(c, tr) && i <= j < |tr| && x in tr[i] && tr[i][x].viewChange
    ensures x in tr[j] && Idle(tr[i][x], tr[j][x])
    decreases j
  {
    if i < j {
      StaysIdle(c, tr, i, j - 1, x);
      assert StepTo(c, tr, j);
      StillIdle(c, tr[i][x], tr[j - 1], tr[j], x);
    }
  }

  /** From the moment a node is in view change it delivers nothing more in the epoch until it closes it. */
  lemma NothingIsDelivered(c: Committee, tr: seq<World>, i: nat, j: nat, x: PublicKey)
    requires Run(c, tr) && i <= j < |tr| && x in tr[i] && tr[i][x].viewChange
    ensures x in tr[j] && Idle(tr[i][x], tr[j][x])
  {
    RunGoesStepByStep(c, tr);
    StaysIdle(c, tr, i, j, x);
  }

  // ----- Why a node is in view change -----

  ghost predicate Earned(n: Core) {
    n.viewChange ==> n.epoch in n.tcs || exists h :: TimedOut(n.epoch, h) in n.ledger.log
  }

  lemma NewEpochIsQuiet(c: Committee, k: Knowledge, n: Core, a: Action)
    requires NodeInv(c, n) && Enabled(c, k, n, a) && a.Close?
    ensures var n' := Apply(c, k, n, a); n'.viewChange ==> n' == n
  {
    CloseEpochShape(c, n, a.draft);
  }

  lemma ViewChangeStarts(c: Committee, k: Knowledge, n: Core, a: Action)
    requires NodeInv(c, n) && Enabled(c, k, n, a) && !a.Close? && !n.viewChange && Apply(c, k, n, a).viewChange
    ensures Earned(Apply(c, k, n, a)) && Apply(c, k, n, a).epoch == n.epoch
  {
    var n' := Apply(c, k, n, a);
    if a.TimeOut? {
      assert n'.ledger.log[|n.ledger.log|].TimedOut?;
    } else if a.OnBlock? {
      var n1, n2 := ProcessBlockSteps(c, n, a.stale, a.block);
    } else if !OnChains(a) {
      AbaActionFrame(c, k, n, a);
    }
  }

  lemma SameEpoch(c: Committee, k: Knowledge, n: Core, a: Action)
    requires NodeInv(c, n) && Enabled(c, k, n, a) && !a.Close?
    ensures Apply(c, k, n, a).epoch == n.epoch
  {
    if OnChains(a) {
      ChainActionFrame(c, k, n, a);
    } else {
      AbaActionFrame(c, k, n, a);
    }
  }

  lemma StillEarned(n: Core, n': Core)
    requires Earned(n) && n.viewChange && Carries(n, n') && n'.epoch == n.epoch
    ensures Earned(n')
  {
    if n.epoch !in n.tcs {
      var h :| TimedOut(n.epoch, h) in n.ledger.log;
      assert TimedOut(n.epoch, h) in n'.ledger.log;
    }
  }

  lemma ActionEarns(c: Committee, k: Knowledge, n: Core, a: Action)
    requires NodeInv(c, n) && Enabled(c, k, n, a) && Earned(n)
    ensures Earned(Apply(c, k, n, a))
  {
    if a.Close? {
      NewEpochIsQuiet(c, k, n, a);
    } else if n.viewChange {
      ActionCarries(c, k, n, a);
      SameEpoch(c, k, n, a);
      StillEarned(n, Apply(c, k, n, a));
    } else if Apply(c, k, n, a).viewChange {
      ViewChangeStarts(c, k, n, a);
    }
  }

  lemma StepEarns(c: Committee, w: World, w': World, x: PublicKey)
    requires Step(c, w, w') && x in w && x in w' && Earned(w[x])
    ensures Earned(w'[x])
  {
    var y, a :| StepBy(c, w, w', y, a);
    if y == x {
      ActionEarns(c, Known(w), w[x], a);
    }
  }

  /** In every reachable state a node in view change has a timeout certificate of its epoch, or has timed
      out itself. */
  lemma {:induction false} ViewChangeIsEarned(c: Committee, tr: seq<World>, x: PublicKey)
    requires Run(c, tr) && x in Last(tr)
    ensures Earned(Last(tr)[x])
    decreases |tr|
  {
    if |tr| > 1 {
      var front := tr[..|tr| - 1];
      PrefixRun(c, tr, |tr| - 1);
      assert Step(c, tr[|tr| - 2], tr[|tr| - 2 + 1]);
      SameNodes(c, Last(front), Last(tr));
      ViewChangeIsEarned(c, front, x);
      StepEarns(c, Last(front), Last(tr), x);
    }
  }

  lemma SameNodes(c: Committee, w: World, w': World)
    requires Step(c, w, w')
    ensures w'.Keys == w.Keys
  {}
}
