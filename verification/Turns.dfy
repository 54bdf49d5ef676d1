/** The turns of the event loop are stretches of runs: whatever holds at the end of every run holds
    after every message an honest node has handled. */
module Turns {
  import opened Committees
  import opened Options
  import opened Messages
  import opened Aggregators
  import opened Commits
  import opened Nodes
  import opened NodeSafety
  import opened Passes
  import opened Worlds
  import opened Systems

  // ----- Stretches of runs -----

  ghost predicate Stretch(c: Committee, tr: seq<World>, w: World, w': World) {
    && tr != [] && tr[0] == w && Last(tr) == w'
    && forall i :: 0 <= i < |tr| - 1 ==> Step(c, tr[i], tr[i + 1])
  }

  ghost predicate Reaches(c: Committee, w: World, w': World) {
    exists tr :: Stretch(c, tr, w, w')
  }

  lemma ReachesSelf(c: Committee, w: World)
    ensures Reaches(c, w, w)
  {
    assert Stretch(c, [w], w, w);
  }

  lemma ReachesStep(c: Committee, w: World, w': World)
    requires Step(c, w, w')
    ensures Reaches(c, w, w')
  {
    assert Stretch(c, [w, w'], w, w');
  }

  /** Two sequences that share an end, joined there. */
  lemma JoinedAt<T>(a: seq<T>, b: seq<T>, i: nat)
    requires a != [] && b != [] && a[|a| - 1] == b[0] && i < |a| + |b| - 2
    ensures var s := a + b[1..];
            && |s| == |a| + |b| - 1 && s[0] == a[0] && s[|s| - 1] == b[|b| - 1]
            && (i < |a| - 1 ==> s[i] == a[i] && s[i + 1] == a[i + 1])
            && (i >= |a| - 1 ==> s[i] == b[i + 1 - |a|] && s[i + 1] == b[i + 1 - |a| + 1])
  {}

  lemma JoinedEnds<T>(a: seq<T>, b: seq<T>)
    requires a != [] && b != [] && a[|a| - 1] == b[0]
    ensures var s := a + b[1..]; s != [] && s[0] == a[0] && s[|s| - 1] == b[|b| - 1]
  {}

  lemma ReachesOn(c: Committee, w: World, v: World, w': World)
    requires Reaches(c, w, v) && Reaches(c, v, w')
    ensures Reaches(c, w, w')
  {
    var a :| Stretch(c, a, w, v);
    var b :| Stretch(c, b, v, w');
    var tr := a + b[1..];
    JoinedEnds(a, b);
    forall i | 0 <= i < |tr| - 1 ensures Step(c, tr[i], tr[i + 1]) {
      JoinedAt(a, b, i);
      assert i < |a| - 1 ==> Step(c, a[i], a[i + 1]);
      assert i >= |a| - 1 ==> Step(c, b[i + 1 - |a|], b[i + 1 - |a| + 1]);
    }
    assert Stretch(c, tr, w, w');
  }

  /** A run can be continued by any stretch, so every theorem about runs applies where it ends. */
  lemma RunGoesOn(c: Committee, tr: seq<World>, w: World) returns (tr': seq<World>)
    requires Run(c, tr) && Reaches(c, Last(tr), w)
    ensures Run(c, tr') && tr'[0] == tr[0] && Last(tr') == w
  {
    var b :| Stretch(c, b, Last(tr), w);
    tr' := tr + b[1..];
    JoinedEnds(tr, b);
    forall i | 0 <= i < |tr'| - 1 ensures Step(c, tr'[i], tr'[i + 1]) {
      JoinedAt(tr, b, i);
      assert i < |tr| - 1 ==> Step(c, tr[i], tr[i + 1]);
      assert i >= |tr| - 1 ==> Step(c, b[i + 1 - |tr|], b[i + 1 - |tr| + 1]);
    }
  }

  // ----- What one node does on its own -----

  /** Everybody's signatures so far and the node's own. */
  ghost function Around(k: Knowledge, n: Core): Knowledge {
    iset s: Said | s in k || (s.author == n.name && SignedBy(n, s.statement))
  }

  ghost predicate Takes(c: Committee, k: Knowledge, n: Core, a: Action, n': Core) {
    NodeInv(c, n) && Enabled(c, Around(k, n), n, a) && n' == Apply(c, Around(k, n), n, a)
  }

  ghost predicate Moves(c: Committee, k: Knowledge, n: Core, n': Core) {
    exists a :: Takes(c, k, n, a, n')
  }

  /** The node moves through these states, while the others' signatures stay as they are. */
  ghost predicate Through(c: Committee, k: Knowledge, ns: seq<Core>, n: Core, n': Core) {
    && ns != [] && ns[0] == n && ns[|ns| - 1] == n'
    && forall i :: 0 <= i < |ns| - 1 ==> Moves(c, k, ns[i], ns[i + 1])
  }

  ghost predicate Path(c: Committee, k: Knowledge, n: Core, n': Core) {
    exists ns :: Through(c, k, ns, n, n')
  }

  lemma PathSelf(c: Committee, k: Knowledge, n: Core)
    ensures Path(c, k, n, n)
  {
    assert Through(c, k, [n], n, n);
  }

  lemma PathStep(c: Committee, k: Knowledge, n: Core, a: Action)
    requires NodeInv(c, n) && Enabled(c, Around(k, n), n, a)
    ensures Path(c, k, n, Apply(c, Around(k, n), n, a))
    ensures NodeInv(c, Apply(c, Around(k, n), n, a))
  {
    var n' := Apply(c, Around(k, n), n, a);
    assert Takes(c, k, n, a, n');
    MovePath(c, k, n, n');
    ActionKeepsNode(c, Around(k, n), n, a);
  }

  lemma MovePath(c: Committee, k: Knowledge, n: Core, n': Core)
    requires Moves(c, k, n, n')
    ensures Path(c, k, n, n')
  {
    assert Through(c, k, [n, n'], n, n');
  }

  lemma PathOn(c: Committee, k: Knowledge, n: Core, m: Core, n': Core)
    requires Path(c, k, n, m) && Path(c, k, m, n')
    ensures Path(c, k, n, n')
  {
    var a :| Through(c, k, a, n, m);
    var b :| Through(c, k, b, m, n');
    var ns := a + b[1..];
    JoinedEnds(a, b);
    forall i | 0 <= i < |ns| - 1 ensures Moves(c, k, ns[i], ns[i + 1]) {
      JoinedAt(a, b, i);
      assert i < |a| - 1 ==> Moves(c, k, a[i], a[i + 1]);
      assert i >= |a| - 1 ==> Moves(c, k, b[i + 1 - |a|], b[i + 1 - |a| + 1]);
    }
    assert Through(c, k, ns, n, n');
  }

  /** More signatures in the world never take a step away. */
  lemma EnabledGrows(c: Committee, k: Knowledge, k': Knowledge, n: Core, a: Action)
    requires NodeInv(c, n) && k <= k' && Enabled(c, k, n, a)
    ensures Enabled(c, k', n, a) && Apply(c, k', n, a) == Apply(c, k, n, a)
  {
    match a
    case OnQc(x, qc) => if Certificate(c, k, qc) { VotesStay(k, k', qc.votes); }
    case OnBlock(b, stale) =>
      if Certificate(c, k, b.qc) { VotesStay(k, k', b.qc.votes); }
      if LeaderOf(c, n.epoch) != n.name { EntriesStay(c, k, k', LeaderOf(c, n.epoch), stale); }
    case OnTc(tc) =>
      forall i | 0 <= i < |tc.votes| ensures Unforged(k', tc.votes[i].1) {
        assert Unforged(k, tc.votes[i].1);
      }
    case OnAbaProof(p) => VotesStay(k, k', p.votes);
    case _ =>
  }

  lemma VotesStay(k: Knowledge, k': Knowledge, votes: seq<(PublicKey, Signature)>)
    requires k <= k' && VotesUnforged(k, votes)
    ensures VotesUnforged(k', votes)
  {}

  lemma EntriesStay(c: Committee, k: Knowledge, k': Knowledge, x: PublicKey, chain: Chain)
    requires k <= k' && EntriesCertified(c, k, x, chain)
    ensures EntriesCertified(c, k', x, chain)
  {
    forall h | h in chain.heightToDigest && h != 0 ensures CertifiedBy(c, k', x, h, chain.heightToDigest[h]) {
      assert CertifiedBy(c, k, x, h, chain.heightToDigest[h]);
      var q :| Certificate(c, k, q) && q.proposer == x && q.height == h && q.hash == chain.heightToDigest[h];
      VotesStay(k, k', q.votes);
    }
  }

  lemma MoveOfWorld(c: Committee, k: Knowledge, w: World, x: PublicKey, n': Core)
    requires SystemInv(c, w) && x in w && k <= Known(w) && Moves(c, k, w[x], n')
    ensures Step(c, w, w[x := n']) && SystemInv(c, w[x := n']) && Known(w) <= Known(w[x := n'])
  {
    var a :| Takes(c, k, w[x], a, n');
    AroundIsKnown(k, w, x);
    EnabledGrows(c, Around(k, w[x]), Known(w), w[x], a);
    assert StepBy(c, w, w[x := n'], x, a);
    StepKeepsInv(c, w, w[x := n']);
  }

  lemma AroundIsKnown(k: Knowledge, w: World, x: PublicKey)
    requires x in w && w[x].name == x && k <= Known(w)
    ensures Around(k, w[x]) <= Known(w)
  {}

  lemma TailThrough(c: Committee, k: Knowledge, ns: seq<Core>, n: Core, n': Core)
    requires Through(c, k, ns, n, n') && |ns| > 1
    ensures Moves(c, k, n, ns[1]) && Through(c, k, ns[1..], ns[1], n')
  {}

  lemma StepThenReaches(c: Committee, w: World, x: PublicKey, m: Core, n': Core)
    requires x in w && Step(c, w, w[x := m]) && Reaches(c, w[x := m], w[x := m][x := n'])
    ensures Reaches(c, w, w[x := n'])
  {
    ReachesStep(c, w, w[x := m]);
    assert w[x := m][x := n'] == w[x := n'];
    ReachesOn(c, w, w[x := m], w[x := n']);
  }

  lemma StayReaches(c: Committee, w: World, x: PublicKey)
    requires x in w
    ensures Reaches(c, w, w[x := w[x]])
  {
    assert w[x := w[x]] == w;
    ReachesSelf(c, w);
  }

  lemma {:induction false} ThroughReaches(c: Committee, k: Knowledge, w: World, x: PublicKey, ns: seq<Core>, n': Core)
    requires SystemInv(c, w) && x in w && k <= Known(w) && Through(c, k, ns, w[x], n')
    ensures Reaches(c, w, w[x := n'])
    decreases |ns|
  {
    if |ns| == 1 {
      StayReaches(c, w, x);
    } else {
      var m := ns[1];
      TailThrough(c, k, ns, w[x], n');
      MoveOfWorld(c, k, w, x, m);
      ThroughReaches(c, k, w[x := m], x, ns[1..], n');
      StepThenReaches(c, w, x, m, n');
    }
  }

  /** Whatever a node can do on its own is a stretch of a run. */
  lemma PathReaches(c: Committee, w: World, x: PublicKey, n': Core)
    requires SystemInv(c, w) && x in w && Path(c, Known(w), w[x], n')
    ensures Reaches(c, w, w[x := n'])
  {
    var ns :| Through(c, Known(w), ns, w[x], n');
    ThroughReaches(c, Known(w), w, x, ns, n');
  }

  // ----- The turns -----

  ghost predicate QcFromNetwork(c: Committee, k: Knowledge, x: PublicKey, qc: QC) {
    IsGenesis(qc) || (VotesUnforged(k, qc.votes) && qc.proposer == x)
  }

  lemma QcAround(c: Committee, k: Knowledge, n: Core, x: PublicKey, qc: QC)
    requires QcFromNetwork(c, k, x, qc)
    ensures QcFromNetwork(c, Around(k, n), x, qc)
  {}

  /** As in every reachable state: the entries of the leader's chain are certified, unless it is the own chain. */
  ghost predicate LeaderBacked(c: Committee, k: Knowledge, n: Core) {
    var leader := LeaderOf(c, n.epoch);
    leader in n.ledger.chains && (leader != n.name ==> EntriesCertified(c, k, leader, n.ledger.chains[leader]))
  }

  lemma StaleStands(c: Committee, k: Knowledge, n: Core, x: PublicKey, qc: QC)
    requires NodeInv(c, n) && LeaderBacked(c, k, n) && x in n.ledger.chains
    ensures var n1 := ProcessQc(n, x, qc);
            LeaderOf(c, n1.epoch) in n1.ledger.chains
            && Standing(c, Around(k, n1), n1, n.ledger.chains[LeaderOf(c, n.epoch)])
  {
    if LeaderOf(c, n.epoch) != n.name {
      EntriesStay(c, k, Around(k, ProcessQc(n, x, qc)), LeaderOf(c, n.epoch), n.ledger.chains[LeaderOf(c, n.epoch)]);
    }
  }

  /** A proposal or a reply to a request: its certificate first, then the block. */
  lemma ProposalTurn(c: Committee, k: Knowledge, n: Core, b: Block, payloadKnown: bool)
    requires NodeInv(c, n) && b.author in n.ledger.chains
    requires Unforged(k, b.signature) && QcFromNetwork(c, k, b.author, b.qc)
    requires LeaderBacked(c, k, n) && ProposalReturns(c, n, b, payloadKnown)
    ensures Path(c, k, n, HandleProposal(c, n, b, payloadKnown))
  {
    if !BlockAccepted(c, b) {
      PathSelf(c, k, n);
    } else {
      var n1 := ProcessQc(n, b.author, b.qc);
      QcAround(c, k, n, b.author, b.qc);
      PathStep(c, k, n, OnQc(b.author, b.qc));
      if payloadKnown {
        QcAround(c, k, n1, b.author, b.qc);
        var stale := n.ledger.chains[LeaderOf(c, n.epoch)];
        StaleStands(c, k, n, b.author, b.qc);
        PathStep(c, k, n1, OnBlock(b, stale));
        PathOn(c, k, n, n1, ProcessBlock(c, n1, stale, b));
      }
    }
  }

  /** A timeout: its certificate first, then the count. */
  lemma TimeoutTurn(c: Committee, k: Knowledge, n: Core, t: Timeout)
    requires NodeInv(c, n) && Unforged(Around(k, n), t.signature)
    requires QcFromNetwork(c, Around(k, n), LeaderOf(c, t.epoch), t.highQc)
             || t.highQc == n.ledger.chains[LeaderOf(c, t.epoch)].highQc
    ensures Path(c, k, n, HandleTimeout(c, n, t))
  {
    var x := LeaderOf(c, t.epoch);
    if t.epoch < n.epoch || !TimeoutAccepted(c, t) {
      PathSelf(c, k, n);
    } else {
      var n1 := ProcessQc(n, x, t.highQc);
      PathStep(c, k, n, OnQc(x, t.highQc));
      assert Unforged(Around(k, n1), t.signature);
      PathStep(c, k, n1, OnTimeout(t));
      PathOn(c, k, n, n1, CountTimeout(c, n1, t));
    }
  }

  /** The timeout check: enter the view change, or sign a timeout and count it. */
  lemma CheckTimeoutTurn(c: Committee, k: Knowledge, n: Core)
    requires NodeInv(c, n)
    ensures Path(c, k, n, CheckTimeout(c, n))
  {
    if n.epoch in n.tcs {
      PathStep(c, k, n, EnterViewChange);
    } else if n.viewChange || !LeaderLags(c, n) {
      PathSelf(c, k, n);
    } else {
      var n1, t := SignTimeout(c, n), OwnTimeout(c, n);
      PathStep(c, k, n, TimeOut);
      assert n1.ledger.log[|n.ledger.log|] == TimedOut(n.epoch, t.highQc.height);
      assert SignedLedger(n1.ledger.log, TimeoutS(n.epoch, t.highQc.height));
      TimeoutTurn(c, k, n1, t);
      PathOn(c, k, n, n1, HandleTimeout(c, n1, t));
    }
  }

  /** What `HandleVote` and `CloseEpoch` leave to do: the block just proposed can be processed at once,
      and so can the vote cast on it. */
  lemma OwnBlockTurn(c: Committee, k: Knowledge, n: Core, b: Block, stale: Chain)
    requires NodeInv(c, n) && Proposed(b) in n.ledger.log && b.author == n.name
    requires b.qc.height <= n.ledger.chains[n.name].highQc.height
    requires Standing(c, Around(k, n), n, stale) && BlockReturns(c, n, stale, b)
    ensures Path(c, k, n, ProcessBlock(c, n, stale, b)) && NodeInv(c, ProcessBlock(c, n, stale, b))
  {
    PathStep(c, k, n, OnBlock(b, stale));
  }

  lemma MadeBlockIsReady(c: Committee, n: Core, vote: Vote, draft: Draft)
    requires NodeInv(c, n) && vote.proposer == n.name
    ensures var n' := HandleVote(c, n, vote, draft);
            n'.ledger.log != n.ledger.log ==>
              var b := Proposal(n'.ledger.chains, n.name, false, draft);
              && n'.ledger.log == n.ledger.log + [Proposed(b)] && b.author == n'.name
              && b.qc == n'.ledger.chains[n.name].highQc
  {}

  lemma OwnVoteTurn(c: Committee, k: Knowledge, n: Core, b: Block, ve: nat, draft: Draft)
    requires NodeInv(c, n) && Voted(b, ve) in n.ledger.log && b.author == n.name
    ensures Path(c, k, n, HandleVote(c, n, OwnVote(n, b), draft))
  {
    var s := VoteStatement(OwnVote(n, b));
    assert IsVote(Voted(b, ve), s);
    assert SignedLedger(n.ledger.log, s);
    PathStep(c, k, n, OnVote(OwnVote(n, b), draft));
  }

  function OwnVote(n: Core, b: Block): Vote {
    Vote(DigestOf(b), b.epoch, b.height, n.name, b.author,
         Signature(n.name, VoteS(DigestOf(b), b.epoch, b.height, b.author)))
  }

  ghost predicate Voting(c: Committee, n: Core) {
    Undecided(c, n) && n.viewChange
  }

  lemma StepOfPass(c: Committee, k: Knowledge, n: Core, a: Action)
    requires Voting(c, n) && (a.UseTc? || a.UseVal1? || a.UseVal2? || a.UseAux? || a.UseCoin?)
    ensures Enabled(c, Around(k, n), n, a)
    ensures Path(c, k, n, Apply(c, Around(k, n), n, a)) && Apply(c, Around(k, n), n, a).viewChange
  {
    PathStep(c, k, n, a);
    AbaActionFrame(c, Around(k, n), n, a);
  }

  lemma Val1Turn(c: Committee, k: Knowledge, n: Core)
    requires Voting(c, n)
    ensures Path(c, k, n, Val1Pass(c, n).0) && Val1Pass(c, n).0.viewChange
  {
    StepOfPass(c, k, n, UseTc);
    var (n1, ok) := TcStep(c, n);
    if ok {
      TcStepUndecided(c, n);
      StepOfPass(c, k, n1, UseVal1);
      PathOn(c, k, n, n1, Val1Step(c, n1).0);
    }
  }

  lemma Val2Turn(c: Committee, k: Knowledge, n: Core)
    requires Voting(c, n)
    ensures Path(c, k, n, Val2Pass(c, n).0) && Val2Pass(c, n).0.viewChange
  {
    Val1Turn(c, k, n);
    var (n1, ok) := Val1Pass(c, n);
    if ok {
      StepOfPass(c, k, n1, UseVal2);
      PathOn(c, k, n, n1, Val2Step(c, n1).0);
    }
  }

  lemma AuxTurn(c: Committee, k: Knowledge, n: Core, combined: Option<nat>)
    requires Voting(c, n)
    ensures Path(c, k, n, AuxPass(c, n, combined).0) && AuxPass(c, n, combined).0.viewChange
  {
    Val2Turn(c, k, n);
    var (n1, ok) := Val2Pass(c, n);
    if ok {
      StepOfPass(c, k, n1, UseAux(combined));
      PathOn(c, k, n, n1, AuxStep(c, n1, combined).0);
    }
  }

  lemma CoinTurn(c: Committee, k: Knowledge, n: Core, combined: Option<nat>)
    requires Voting(c, n)
    ensures Path(c, k, n, AbaPass(c, n, combined).0)
  {
    AuxTurn(c, k, n, combined);
    var (n4, ok4) := AuxPass(c, n, combined);
    if ok4 {
      StepOfPass(c, k, n4, UseCoin);
      PathOn(c, k, n, n4, CoinStep(c, n4).0);
    }
    var (n5, ok5) := CoinPass(c, n, combined);
    if ok5 {
      PathStep(c, k, n5, UseProof);
      PathOn(c, k, n, n5, ProofStep(n5));
    }
  }

  /** The agreement's part of a turn. */
  lemma UpdateTurn(c: Committee, k: Knowledge, n: Core, combined: Option<nat>, draft: Draft)
    requires NodeInv(c, n) && ClosingReturns(c, n)
    ensures Path(c, k, n, UpdateAba(c, n, combined, draft))
  {
    if !n.viewChange {
      PathSelf(c, k, n);
    } else {
      var n1 := EnterPhases(c, n);
      PathStep(c, k, n, Phases);
      if n1.aba.output.Some? {
        PathStep(c, k, n1, Close(draft));
        PathOn(c, k, n, n1, CloseEpoch(c, n1, draft));
      } else {
        CoinTurn(c, k, n1, combined);
        PathOn(c, k, n, n1, AbaPass(c, n1, combined).0);
      }
    }
  }

  /** What ends every turn of the event loop takes the world along a run. */
  lemma EndOfTurnReaches(c: Committee, w: World, x: PublicKey, combined: Option<nat>, draft: Draft)
    requires SystemInv(c, w) && x in w && LeaderOf(c, w[x].epoch) in w[x].ledger.chains && ClosingReturns(c, w[x])
    ensures NodeInv(c, w[x])
    ensures Reaches(c, w, w[x := CheckTimeout(c, UpdateAba(c, w[x], combined, draft))])
  {
    var k, n := Known(w), w[x];
    assert NodeInv(c, n);
    UpdateTurn(c, k, n, combined, draft);
    var n1 := UpdateAba(c, n, combined, draft);
    CheckTimeoutTurn(c, k, n1);
    PathOn(c, k, n, n1, CheckTimeout(c, n1));
    PathReaches(c, w, x, CheckTimeout(c, n1));
  }

  /** A proposal from the network takes the world along a run. */
  lemma ProposalReaches(c: Committee, w: World, x: PublicKey, b: Block, payloadKnown: bool)
    requires SystemInv(c, w) && x in w && b.author in w[x].ledger.chains
    requires Unforged(Known(w), b.signature) && QcFromNetwork(c, Known(w), b.author, b.qc)
    requires LeaderBacked(c, Known(w), w[x]) && ProposalReturns(c, w[x], b, payloadKnown)
    ensures Reaches(c, w, w[x := HandleProposal(c, w[x], b, payloadKnown)])
  {
    assert NodeInv(c, w[x]);
    ProposalTurn(c, Known(w), w[x], b, payloadKnown);
    PathReaches(c, w, x, HandleProposal(c, w[x], b, payloadKnown));
  }

  /** So does a timeout from the network. */
  lemma TimeoutReaches(c: Committee, w: World, x: PublicKey, t: Timeout)
    requires SystemInv(c, w) && x in w && Unforged(Known(w), t.signature)
    requires QcFromNetwork(c, Known(w), LeaderOf(c, t.epoch), t.highQc)
    ensures LeaderOf(c, t.epoch) in w[x].ledger.chains
    ensures Reaches(c, w, w[x := HandleTimeout(c, w[x], t)])
  {
    assert NodeInv(c, w[x]);
    QcAround(c, Known(w), w[x], LeaderOf(c, t.epoch), t.highQc);
    TimeoutTurn(c, Known(w), w[x], t);
    PathReaches(c, w, x, HandleTimeout(c, w[x], t));
  }
}
