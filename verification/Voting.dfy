/** What a node has signed on the chains, and how that is tied to its current state: heights voted
    for only rise, and a timeout reports at least the certificate behind every earlier vote. */
module Voting {
  import opened Committees
  import opened Options
  import opened Messages
  import opened Aggregators
  import opened Commits
  import opened Nodes
  import opened NodeSafety

  /** How many epochs before `epoch` the authority led. */
  ghost function Tenure(c: Committee, x: PublicKey, epoch: nat): nat {
    if epoch == 0 then 0 else Tenure(c, x, epoch - 1) + if LeaderOf(c, epoch - 1) == x then 1 else 0
  }

  lemma {:induction false} TenureGrows(c: Committee, x: PublicKey, e: nat, e': nat)
    requires e <= e'
    ensures Tenure(c, x, e) <= Tenure(c, x, e')
    ensures e < e' && LeaderOf(c, e) == x ==> Tenure(c, x, e) < Tenure(c, x, e')
    decreases e'
  {
    if e < e' {
      TenureGrows(c, x, e, e' - 1);
    }
  }

  /** A chain's own epoch counts its owner's finished tenures. */
  ghost predicate EpochsInv(c: Committee, n: Core) {
    forall x | x in n.ledger.chains :: n.ledger.chains[x].epoch == Tenure(c, x, n.epoch)
  }

  ghost predicate VotedInv(c: Committee, n: Core, b: Block, ve: nat) {
    && b.author in n.ledger.chains && ve <= n.epoch
    && var chain := n.ledger.chains[b.author];
    && b.height <= chain.lastVoted
    && Tenure(c, b.author, ve) <= b.epoch
    && (b.qc.height + 1 == b.height || IsGenesis(b.qc))
    && (Tenure(c, b.author, ve) == chain.epoch ==> b.qc.height <= chain.highQc.height)
  }

  ghost predicate EventInv(c: Committee, n: Core, ev: ChainEvent) {
    match ev
    case Voted(b, ve) => VotedInv(c, n, b, ve)
    case TimedOut(e, _) => e < n.epoch || (e == n.epoch && n.viewChange)
    case Proposed(_) => true
  }

  /** Votes for one chain rise strictly in height, and no epoch is timed out twice. */
  ghost predicate Rising(a: ChainEvent, b: ChainEvent) {
    && (a.Voted? && b.Voted? && a.block.author == b.block.author ==> a.block.height < b.block.height)
    && (a.TimedOut? && b.TimedOut? ==> a.epoch < b.epoch)
  }

  /** The timeout covers the vote, if the vote was for the leader it gave up on, during or before
      the epoch it gave up, and since that leader's chain was last restarted. */
  ghost predicate Covers(c: Committee, t: ChainEvent, v: ChainEvent) {
    t.TimedOut? && v.Voted? && LeaderOf(c, t.epoch) == v.block.author
    && v.voterEpoch <= t.epoch && Tenure(c, v.block.author, v.voterEpoch) == Tenure(c, v.block.author, t.epoch)
    ==> v.block.qc.height <= t.highQcHeight
  }

  ghost predicate LogInv(c: Committee, n: Core) {
    && (forall i :: 0 <= i < |n.ledger.log| ==> EventInv(c, n, n.ledger.log[i]))
    && (forall i, j :: 0 <= i < j < |n.ledger.log| ==> Rising(n.ledger.log[i], n.ledger.log[j]))
    && (forall i, j :: 0 <= i < |n.ledger.log| && 0 <= j < |n.ledger.log| ==>
          Covers(c, n.ledger.log[i], n.ledger.log[j]))
  }

  ghost predicate VotingInv(c: Committee, n: Core) {
    EpochsInv(c, n) && LogInv(c, n)
  }

  /** Steps that sign nothing and only raise what the invariant bounds from above. */
  ghost predicate Raises(a: Chain, b: Chain) {
    a.lastVoted <= b.lastVoted && a.epoch == b.epoch && a.highQc.height <= b.highQc.height
  }

  ghost predicate Quiet(n: Core, n': Core) {
    && n'.epoch == n.epoch && (n.viewChange ==> n'.viewChange)
    && n'.ledger.chains.Keys == n.ledger.chains.Keys
    && forall x | x in n.ledger.chains :: Raises(n.ledger.chains[x], n'.ledger.chains[x])
  }

  lemma QuietKeepsEvent(c: Committee, n: Core, n': Core, ev: ChainEvent)
    requires EventInv(c, n, ev) && Quiet(n, n')
    ensures EventInv(c, n', ev)
  {}

  lemma QuietKeeps(c: Committee, n: Core, n': Core)
    requires VotingInv(c, n) && Quiet(n, n') && n'.ledger.log == n.ledger.log
    ensures VotingInv(c, n')
  {}

  lemma SignKeeps(c: Committee, n: Core, n': Core, ev: ChainEvent)
    requires VotingInv(c, n) && Quiet(n, n') && n'.ledger.log == n.ledger.log + [ev]
    requires EventInv(c, n', ev)
    requires forall i :: 0 <= i < |n.ledger.log| ==>
               && Rising(n.ledger.log[i], ev)
               && Covers(c, n.ledger.log[i], ev) && Covers(c, ev, n.ledger.log[i])
    ensures VotingInv(c, n')
  {
    forall x | x in n'.ledger.chains ensures n'.ledger.chains[x].epoch == Tenure(c, x, n'.epoch) {
      assert Raises(n.ledger.chains[x], n'.ledger.chains[x]);
    }
    var log, log' := n.ledger.log, n'.ledger.log;
    forall i | 0 <= i < |log'| ensures EventInv(c, n', log'[i]) {
      if i < |log| {
        QuietKeepsEvent(c, n, n', log[i]);
      }
    }
    forall i, j | 0 <= i < j < |log'| ensures Rising(log'[i], log'[j]) {
      assert j < |log| ==> Rising(log[i], log[j]);
    }
    forall i, j | 0 <= i < |log'| && 0 <= j < |log'| ensures Covers(c, log'[i], log'[j]) {
      if i < |log| && j < |log| {
        assert Covers(c, log[i], log[j]);
      }
    }
  }

  // ----- The steps -----

  lemma QcRaises(epoch: nat, chain: Chain, qc: QC)
    ensures Raises(chain, QcOnChain(epoch, chain, qc))
    ensures qc.height <= QcOnChain(epoch, chain, qc).highQc.height
  {}

  lemma ProcessQcVoting(c: Committee, n: Core, x: PublicKey, qc: QC)
    requires VotingInv(c, n) && x in n.ledger.chains
    ensures VotingInv(c, ProcessQc(n, x, qc))
  {}

  lemma HandleVoteVoting(c: Committee, n: Core, vote: Vote, draft: Draft)
    requires VotingInv(c, n) && vote.proposer == n.name && n.name in n.ledger.chains
    ensures VotingInv(c, HandleVote(c, n, vote, draft))
  {
    var n' := HandleVote(c, n, vote, draft);
    var (tables, r) := AddVote(c, n.ledger.chains[n.name].aggregator, vote);
    if r.Made? {
      QcRaises(n.epoch, n.ledger.chains[n.name].(aggregator := tables), r.value);
    }
    assert Quiet(n, n');
    if n'.ledger.log == n.ledger.log {
      QuietKeeps(c, n, n');
    } else {
      SignKeeps(c, n, n', n'.ledger.log[|n.ledger.log|]);
    }
  }

  lemma CountTimeoutVoting(c: Committee, n: Core, t: Timeout)
    requires VotingInv(c, n) && LeaderOf(c, t.epoch) in n.ledger.chains
    ensures VotingInv(c, CountTimeout(c, n, t))
  {
    CountTimeoutFrame(c, n, t);
    var n' := CountTimeout(c, n, t);
    forall x | x in n.ledger.chains ensures Raises(n.ledger.chains[x], n'.ledger.chains[x]) {
      assert OnlyTimers(n.ledger.chains[x], n'.ledger.chains[x]);
    }
    QuietKeeps(c, n, n');
  }

  lemma CommitToVoting(c: Committee, n: Core, stale: Chain, height: Option<nat>)
    requires NodeInv(c, n) && VotingInv(c, n)
    ensures VotingInv(c, CommitTo(c, n, stale, height))
  {
    CommitToKeeps(c, n, stale, height);
    var n' := CommitTo(c, n, stale, height);
    forall x | x in n.ledger.chains ensures Raises(n.ledger.chains[x], n'.ledger.chains[x]) {
      assert OnlyCounters(n.ledger.chains[x], n'.ledger.chains[x]);
    }
    QuietKeeps(c, n, n');
  }

  /** A vote is above every earlier vote for the chain, and not covered by any timeout so far. */
  lemma VoteOnVoting(c: Committee, n: Core, b: Block)
    requires VotingInv(c, n) && b.author in n.ledger.chains
    requires b.qc.height <= n.ledger.chains[b.author].highQc.height
    ensures VotingInv(c, VoteOn(c, n, b))
  {
    var n' := VoteOn(c, n, b);
    if CastsVote(c, n, b) {
      var ev := Voted(b, n.epoch);
      forall i | 0 <= i < |n.ledger.log|
        ensures Rising(n.ledger.log[i], ev) && Covers(c, n.ledger.log[i], ev) && Covers(c, ev, n.ledger.log[i])
      {
        assert EventInv(c, n, n.ledger.log[i]);
      }
      SignKeeps(c, n, n', ev);
    } else {
      QuietKeeps(c, n, n');
    }
  }

  lemma ProcessBlockVoting(c: Committee, n: Core, stale: Chain, b: Block)
    requires NodeInv(c, n) && VotingInv(c, n) && b.author in n.ledger.chains
    requires b.qc.height <= n.ledger.chains[b.author].highQc.height
    ensures VotingInv(c, ProcessBlock(c, n, stale, b))
  {
    var n1 := StoreBlock(n, b);
    QuietKeeps(c, n, n1);
    CommitToKeeps(c, n1, stale, TwoChain(c, n1, b));
    CommitToVoting(c, n1, stale, TwoChain(c, n1, b));
    var n2 := CommitTo(c, n1, stale, TwoChain(c, n1, b));
    assert OnlyCounters(n1.ledger.chains[b.author], n2.ledger.chains[b.author]);
    VoteOnVoting(c, n2, b);
  }

  /** A timeout reports the high certificate, which is at least that of every vote it covers. */
  lemma SignTimeoutVoting(c: Committee, n: Core)
    requires VotingInv(c, n) && LeaderOf(c, n.epoch) in n.ledger.chains && !n.viewChange
    ensures VotingInv(c, SignTimeout(c, n))
  {
    var n' := SignTimeout(c, n);
    var x := LeaderOf(c, n.epoch);
    var ev := TimedOut(n.epoch, n.ledger.chains[x].highQc.height);
    forall i | 0 <= i < |n.ledger.log|
      ensures Rising(n.ledger.log[i], ev) && Covers(c, n.ledger.log[i], ev) && Covers(c, ev, n.ledger.log[i])
    {
      assert EventInv(c, n, n.ledger.log[i]);
    }
    SignKeeps(c, n, n', ev);
  }

  /** Restarting a chain starts a new tenure, in which there is no vote yet. */
  lemma NextEpochVoting(c: Committee, n: Core, draft: Draft)
    requires NodeInv(c, n) && VotingInv(c, n) && n.aba.output.Some?
    ensures VotingInv(c, NextEpoch(c, n, draft))
  {
    var n' := NextEpoch(c, n, draft);
    var log, log' := n.ledger.log, n'.ledger.log;
    forall i | 0 <= i < |log'| ensures EventInv(c, n', log'[i]) {
      if i < |log| {
        assert EventInv(c, n, log[i]);
        if log[i].Voted? {
          NextEpochVoted(c, n, n', log[i].block, log[i].voterEpoch);
        }
      }
    }
    NextEpochPairs(c, n, log');
  }

  /** The log grows by a proposal at most, which neither votes nor times out. */
  lemma NextEpochPairs(c: Committee, n: Core, log: seq<ChainEvent>)
    requires VotingInv(c, n) && n.ledger.log <= log && |log| <= |n.ledger.log| + 1
    requires |n.ledger.log| < |log| ==> log[|n.ledger.log|].Proposed?
    ensures forall i, j :: 0 <= i < j < |log| ==> Rising(log[i], log[j])
    ensures forall i, j :: 0 <= i < |log| && 0 <= j < |log| ==> Covers(c, log[i], log[j])
  {
    var k := |n.ledger.log|;
    forall i, j | 0 <= i < j < |log| ensures Rising(log[i], log[j]) {
      assert j < k ==> Rising(n.ledger.log[i], n.ledger.log[j]);
    }
    forall i, j | 0 <= i < |log| && 0 <= j < |log| ensures Covers(c, log[i], log[j]) {
      if i < k && j < k {
        assert Covers(c, n.ledger.log[i], n.ledger.log[j]);
      }
    }
  }

  lemma NextEpochVoted(c: Committee, n: Core, n': Core, b: Block, ve: nat)
    requires VotedInv(c, n, b, ve) && EpochsInv(c, n) && n'.epoch == n.epoch + 1
    requires b.author in n'.ledger.chains
    requires var x := LeaderOf(c, n.epoch); var ch, ch' := n.ledger.chains[b.author], n'.ledger.chains[b.author];
             ch'.lastVoted == ch.lastVoted && if x == b.author then ch'.epoch == ch.epoch + 1 else ch' == ch
    ensures VotedInv(c, n', b, ve)
  {
    TenureGrows(c, b.author, ve, n.epoch);
  }

  lemma CloseEpochVoting(c: Committee, n: Core, draft: Draft)
    requires NodeInv(c, n) && VotingInv(c, n) && n.aba.output.Some?
    ensures VotingInv(c, CloseEpoch(c, n, draft))
  {
    var stale, b := n.ledger.chains[LeaderOf(c, n.epoch)], Closing(c, n);
    if b.Some? {
      CommitToKeeps(c, n, stale, Some(b.value.height));
      CommitToVoting(c, n, stale, Some(b.value.height));
      NextEpochVoting(c, ClosingCommit(c, n, b.value), draft);
    }
  }
}
