/** When the commits of honest nodes come to an end, over every run. */
module ReturnTheorems {
  import opened Committees
  import opened Options
  import opened Messages
  import opened Aggregators
  import opened Commits
  import opened Reentries
  import opened Descents
  import opened Nodes
  import opened NodeSafety
  import opened Passes
  import opened Worlds
  import opened Systems
  import opened ChainTheorems
  import opened Certification
  import opened Records
  import opened Turns
  import D = DeliveryTheorems

  /** No block of the leader is still to be committed on the node's own chain, unless the node leads. */
  ghost predicate OwnIsClear(c: Committee, n: Core) {
    n.name in n.ledger.chains && n.name != LeaderOf(c, n.epoch) ==>
      NoneAbove(n.ledger.store, LeaderOf(c, n.epoch), n.ledger.chains[n.name])
  }

  /** Every reference of a leader block up to the height leads to a known chain and, in the leader's own
      chain, further down: in the chain at hand and in what the table holds of it. */
  ghost predicate Sinking(c: Committee, n: Core, stale: Chain, height: nat)
    requires LeaderOf(c, n.epoch) in n.ledger.chains
  {
    var leader := LeaderOf(c, n.epoch);
    AllSink(n.ledger.store, leader, n.ledger.chains[leader := stale], n.ledger.chains[leader], height)
  }

  lemma ClearElsewhere(c: Committee, w: World, n: Core, stale: Chain)
    requires FaultBound(c, w) && NodeInv(c, n) && CertInv(c, Known(w), n) && OwnIsClear(c, n)
    ensures var leader := LeaderOf(c, n.epoch);
            leader in n.ledger.chains && NoneElsewhere(n.ledger.store, leader, n.ledger.chains[leader := stale])
  {
    var leader := LeaderOf(c, n.epoch);
    forall y | y in n.ledger.chains && y != leader ensures NoneAbove(n.ledger.store, leader, n.ledger.chains[y]) {
      if y != n.name {
        D.OtherIsWellKept(c, w, n, y);
      }
    }
  }

  // ----- Commits -----

  lemma SinkingCommitReturns(c: Committee, w: World, n: Core, stale: Chain, height: nat)
    requires FaultBound(c, w) && NodeInv(c, n) && CertInv(c, Known(w), n) && OwnIsClear(c, n)
    requires LeaderOf(c, n.epoch) in n.ledger.chains && Sinking(c, n, stale, height)
    ensures Attempt(n.ledger, LeaderOf(c, n.epoch), stale, height).Returned?
  {
    var leader := LeaderOf(c, n.epoch);
    ClearElsewhere(c, w, n, stale);
    ReturnsIff(n.ledger.store, leader, n.ledger.chains[leader := stale], n.ledger.chains[leader], height);
  }

  lemma StandingIsBehind(c: Committee, w: World, n: Core, stale: Chain)
    requires FaultBound(c, w) && AllVoting(c, w) && NodeInv(c, n) && CertInv(c, Known(w), n)
    requires LeaderOf(c, n.epoch) in n.ledger.chains && Standing(c, Known(w), n, stale)
    requires LeaderOf(c, n.epoch) == n.name ==> SameEntries(stale, n.ledger.chains[n.name])
    ensures var leader := LeaderOf(c, n.epoch);
            Behind(leader, n.ledger.chains[leader := stale], n.ledger.chains[leader])
  {
    var leader := LeaderOf(c, n.epoch);
    if leader != n.name {
      EntriesAgree(c, w, leader, stale);
      TablesAgree(c, w, n);
      assert ChainAgrees(CertifiedDigests(c, Known(w)), leader, n.ledger.chains[leader]);
    }
  }

  /** In every reachable state, whatever the table holds meanwhile, a commit that does not return false
      returns exactly when every reference of a leader block still to be committed sinks; and it returns
      in any case if they do. */
  lemma CommitsReturnIff(c: Committee, tr: seq<World>, x: PublicKey, stale: Chain, height: nat)
    requires Run(c, tr) && FaultBound(c, tr[0]) && x in Last(tr) && OwnIsClear(c, Last(tr)[x])
    requires LeaderOf(c, Last(tr)[x].epoch) in Last(tr)[x].ledger.chains
    requires Standing(c, Known(Last(tr)), Last(tr)[x], stale)
    requires LeaderOf(c, Last(tr)[x].epoch) == x ==>
               x in Last(tr)[x].ledger.chains && SameEntries(stale, Last(tr)[x].ledger.chains[x])
    ensures Sinking(c, Last(tr)[x], stale, height) ==>
              Attempt(Last(tr)[x].ledger, LeaderOf(c, Last(tr)[x].epoch), stale, height).Returned?
    ensures var r := Attempt(Last(tr)[x].ledger, LeaderOf(c, Last(tr)[x].epoch), stale, height);
            (r.Returned? ==> r.ok) ==> (r.Returned? <==> Sinking(c, Last(tr)[x], stale, height))
  {
    D.RunNode(c, tr, x);
    RunVotes(c, tr);
    var n := Last(tr)[x];
    var leader := LeaderOf(c, n.epoch);
    ClearElsewhere(c, Last(tr), n, stale);
    StandingIsBehind(c, Last(tr), n, stale);
    ReturnsIff(n.ledger.store, leader, n.ledger.chains[leader := stale], n.ledger.chains[leader], height);
  }

  // ----- Steps -----

  /** What processing the block would commit sinks. */
  ghost predicate BlockSinks(c: Committee, n: Core, stale: Chain, b: Block)
    requires b.author in n.ledger.chains && LeaderOf(c, n.epoch) in n.ledger.chains
  {
    var n1 := StoreBlock(n, b);
    OwnIsClear(c, n1) && (TwoChain(c, n1, b).Some? ==> Sinking(c, n1, stale, TwoChain(c, n1, b).value))
  }

  lemma SinkingBlockReturns(c: Committee, w: World, n: Core, stale: Chain, b: Block)
    requires FaultBound(c, w) && NodeInv(c, n) && CertInv(c, Known(w), n)
    requires b.author in n.ledger.chains && LeaderOf(c, n.epoch) in n.ledger.chains && BlockSinks(c, n, stale, b)
    ensures BlockReturns(c, n, stale, b)
  {
    var n1 := StoreBlock(n, b);
    StoreBlockCert(c, Known(w), n, b);
    if TwoChain(c, n1, b).Some? {
      SinkingCommitReturns(c, w, n1, stale, TwoChain(c, n1, b).value);
    }
  }

  /** In every reachable state, processing a block comes to an end if what it would commit sinks. */
  lemma BlocksReturn(c: Committee, tr: seq<World>, x: PublicKey, stale: Chain, b: Block)
    requires Run(c, tr) && FaultBound(c, tr[0]) && x in Last(tr)
    requires b.author in Last(tr)[x].ledger.chains && LeaderOf(c, Last(tr)[x].epoch) in Last(tr)[x].ledger.chains
    requires BlockSinks(c, Last(tr)[x], stale, b)
    ensures BlockReturns(c, Last(tr)[x], stale, b)
  {
    D.RunNode(c, tr, x);
    SinkingBlockReturns(c, Last(tr), Last(tr)[x], stale, b);
  }

  /** So does closing the epoch, whose commit works on the chain as the table has it. */
  lemma ClosingsReturn(c: Committee, tr: seq<World>, x: PublicKey)
    requires Run(c, tr) && FaultBound(c, tr[0]) && x in Last(tr) && OwnIsClear(c, Last(tr)[x])
    requires LeaderOf(c, Last(tr)[x].epoch) in Last(tr)[x].ledger.chains && ClosingDescends(c, Last(tr)[x])
    ensures ClosingReturns(c, Last(tr)[x])
  {
    D.RunNode(c, tr, x);
    var n := Last(tr)[x];
    var leader := LeaderOf(c, n.epoch);
    if Closing(c, n).Some? {
      var height := Closing(c, n).value.height;
      assert n.ledger.chains[leader := n.ledger.chains[leader]] == n.ledger.chains;
      OnEntry(n.ledger.store, leader, n.ledger.chains, height);
      SinkingCommitReturns(c, Last(tr), n, n.ledger.chains[leader], height);
    }
  }

  ghost predicate ClosingDescends(c: Committee, n: Core)
    requires LeaderOf(c, n.epoch) in n.ledger.chains
  {
    var leader := LeaderOf(c, n.epoch);
    var chain := n.ledger.chains[leader];
    Closing(c, n).Some? ==> Descends(n.ledger.store, leader, n.ledger.chains.Keys, chain, chain.lastCommitted,
                                     Closing(c, n).value.height)
  }

  // ----- Turns -----

  lemma RunBacksLeader(c: Committee, tr: seq<World>, x: PublicKey)
    requires Run(c, tr) && FaultBound(c, tr[0]) && x in Last(tr)
    ensures LeaderBacked(c, Known(Last(tr)), Last(tr)[x])
  {
    D.RunNode(c, tr, x);
    var n := Last(tr)[x];
    assert ChainBacked(c, Known(Last(tr)), n.name, LeaderOf(c, n.epoch), n.ledger.chains[LeaderOf(c, n.epoch)]);
  }

  /** In every reachable state, handling a proposal takes the world along a run if what it would commit
      sinks. */
  lemma SinkingProposalReaches(c: Committee, tr: seq<World>, x: PublicKey, b: Block, payloadKnown: bool)
    requires Run(c, tr) && FaultBound(c, tr[0]) && x in Last(tr) && b.author in Last(tr)[x].ledger.chains
    requires Unforged(Known(Last(tr)), b.signature) && QcFromNetwork(c, Known(Last(tr)), b.author, b.qc)
    requires LeaderOf(c, Last(tr)[x].epoch) in Last(tr)[x].ledger.chains
    requires var n := Last(tr)[x];
             BlockSinks(c, ProcessQc(n, b.author, b.qc), n.ledger.chains[LeaderOf(c, n.epoch)], b)
    ensures Reaches(c, Last(tr), Last(tr)[x := HandleProposal(c, Last(tr)[x], b, payloadKnown)])
  {
    var w := Last(tr);
    var n := w[x];
    RunKeepsInv(c, tr);
    D.RunNode(c, tr, x);
    RunBacksLeader(c, tr, x);
    if BlockAccepted(c, b) {
      var n1 := ProcessQc(n, b.author, b.qc);
      ProcessQcKeeps(c, n, b.author, b.qc);
      ProcessQcCert(c, Known(w), n, b.author, b.qc);
      SinkingBlockReturns(c, w, n1, n.ledger.chains[LeaderOf(c, n.epoch)], b);
    }
    ProposalReaches(c, w, x, b, payloadKnown);
  }

  /** And so does what ends the turn. */
  lemma SinkingTurnEnds(c: Committee, tr: seq<World>, x: PublicKey, combined: Option<nat>, draft: Draft)
    requires Run(c, tr) && FaultBound(c, tr[0]) && x in Last(tr) && OwnIsClear(c, Last(tr)[x])
    requires LeaderOf(c, Last(tr)[x].epoch) in Last(tr)[x].ledger.chains && ClosingDescends(c, Last(tr)[x])
    ensures NodeInv(c, Last(tr)[x])
    ensures Reaches(c, Last(tr), Last(tr)[x := CheckTimeout(c, UpdateAba(c, Last(tr)[x], combined, draft))])
  {
    RunKeepsInv(c, tr);
    ClosingsReturn(c, tr, x);
    EndOfTurnReaches(c, Last(tr), x, combined, draft);
  }
}
