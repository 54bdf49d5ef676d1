/** The node itself: the object whose fields the handlers update in place. Each method is proved to
    do to the state exactly what the step of the same name in `Nodes` says. A chain is taken out of
    the table, changed, and put back by the event loop; `Held` is the state with it put back. */
module Cores {
  import opened Committees
  import opened Options
  import opened Messages
  import opened Aggregators
  import opened Commits
  import opened Delivery
  import opened Nodes
  import opened NodeSafety
  import opened Reentries
  import opened CommitLoops
  import opened Passes

  lemma PutAgain(chains: Chains, x: PublicKey, a: Chain, b: Chain)
    ensures chains[x := a][x := b] == chains[x := b]
  {}

  lemma HeldAlready(n: Nodes.Core, chain: Chain)
    requires chain.name in n.ledger.chains && n.ledger.chains[chain.name] == chain
    ensures WithChain(n, chain.name, chain) == n
  {
    assert n.ledger.chains[chain.name := chain] == n.ledger.chains;
  }

  /** A proposal does not look at the proposer's own entry for its references. */
  lemma {:induction false} ReferencesSkipOwn(chains: Chains, name: PublicKey, chain: Chain, order: seq<PublicKey>)
    ensures References(chains[name := chain], name, order) == References(chains, name, order)
    decreases |order|
  {
    if order != [] {
      ReferencesSkipOwn(chains, name, chain, order[..|order| - 1]);
    }
  }

  lemma NoneLags(c: Committee, n: Nodes.Core, order: seq<PublicKey>)
    requires LeaderOf(c, n.epoch) in n.ledger.chains && forall y :: y in order <==> y in n.ledger.chains
    requires forall j :: 0 <= j < |order| ==>
               n.ledger.chains[order[j]].height <= n.ledger.chains[LeaderOf(c, n.epoch)].height + LAMBDA_VAL
    ensures !LeaderLags(c, n)
  {}

  lemma StartsRound(c: Committee, n: Nodes.Core, n1: Nodes.Core, v: nat)
    requires n1 == RoundStarted(n, v)
    ensures AdvanceRound(c, n, v) == Nodes.HandleAbaVal(c, n1, OwnVal(n1, n1.epoch, n1.aba.round, v, VAL_PHASE))
  {}

  lemma CloseSpec(c: Committee, n: Nodes.Core, block: Block, draft: Draft)
    requires NodeInv(c, n) && n.aba.output.Some? && Closing(c, n) == Some(block)
    ensures Nodes.CloseEpoch(c, n, draft) == NextEpoch(c, ClosingCommit(c, n, block), draft)
  {}

  lemma ValPhaseSpec(c: Committee, n: Nodes.Core, m: ABAVal)
    requires TakesVal(n, m) && m.phase == VAL_PHASE
    ensures var (tables, r) := AddVal(c, n.aba.tables, m);
            var p, key := ProofOr(r), Round(m.epoch, m.round);
            Nodes.HandleAbaVal(c, n, m) == (
              n.(aba := n.aba.(tables := tables, val1 := Put(n.aba.val1, r.Made? && p.tag, key, p),
                               val2 := Put(n.aba.val2, r.Made? && !p.tag, key, p))),
              !r.Reused?)
    ensures AddVal(c, n.aba.tables, m).1.Made? ==>
              var p := AddVal(c, n.aba.tables, m).1.value; (p.epoch, p.round) == (m.epoch, m.round)
  {}

  function ProofOr(r: Appended<ABAProof>): ABAProof {
    if r.Made? then r.value else ABAProof(0, 0, 0, 0, [], false)
  }

  lemma AuxPhaseSpec(c: Committee, n: Nodes.Core, m: ABAVal, proofs: map<Round, ABAProof>)
    requires TakesVal(n, m) && m.phase == AUX_PHASE
    requires var r := AddVal(c, n.aba.tables, m).1;
             proofs == if r.Made? then n.aba.aux[Round(m.epoch, m.round) := r.value] else n.aba.aux
    ensures var (tables, r) := AddVal(c, n.aba.tables, m);
            var key := Round(m.epoch, m.round);
            Nodes.HandleAbaVal(c, n, m) == (
              n.(aba := n.aba.(tables := tables, auxNums := n.aba.auxNums[key := CountAt(n.aba.auxNums, key) + 1],
                               aux := proofs)),
              !r.Reused?)
  {}

  class Core {
    const name: PublicKey
    const committee: Committee
    var store: Store
    var commitChannel: seq<Block>
    var epoch: nat
    var tcProcessed: bool
    var valValueBroadcasted: bool
    var auxValueBroadcasted: bool
    var coinShareBroadcasted: bool
    var auxProofBroadcasted: bool
    var isViewChange: bool
    var pubkeyToChain: Chains
    var tcCache: map<nat, TC>
    var aggregator: Tables
    var binValues: set<nat>
    var abaRound: nat
    var phase: nat
    var abaOutputVal: Option<nat>
    var abaInputVal: map<nat, nat>
    var abaValPhaseCache1: map<Round, ABAProof>
    var abaValPhaseCache2: map<Round, ABAProof>
    var abaAuxPhaseCache: map<Round, ABAProof>
    var auxValueNums: map<Round, nat>
    var abaCoinCache: map<Round, nat>
    var abaProofCache: map<Round, ABAProof>
    ghost var chainLog: seq<ChainEvent>
    ghost var abaLog: seq<AbaEvent>
    ghost var record: Record
    ghost var past: seq<Record>

    ghost function AbaState(): Aba
      reads this
    {
      Aba(tcProcessed, valValueBroadcasted, auxValueBroadcasted, coinShareBroadcasted, auxProofBroadcasted,
          aggregator, binValues, abaRound, phase, abaOutputVal, abaInputVal, abaValPhaseCache1,
          abaValPhaseCache2, abaAuxPhaseCache, auxValueNums, abaCoinCache, abaProofCache, abaLog)
    }

    ghost function LedgerState(): Ledger
      reads this
    {
      Ledger(pubkeyToChain, store, chainLog, record, past)
    }

    ghost function State(): Nodes.Core
      reads this
    {
      Nodes.Core(name, epoch, isViewChange, tcCache, LedgerState(), AbaState())
    }

    /** The state with the given chain put back into the table. */
    ghost function Held(chain: Chain): Nodes.Core
      reads this
    {
      WithChain(State(), chain.name, chain)
    }

    ghost predicate Valid()
      reads this
    {
      NodeInv(committee, State())
    }

    function GetLeader(): PublicKey
      reads this`epoch
    {
      LeaderOf(committee, epoch)
    }

    /** A new node, with the first block of its own chain proposed. */
    constructor (name: PublicKey, committee: Committee, draft: Draft)
      requires name in committee.Members()
      ensures this.name == name && this.committee == committee
      ensures IsInitial(committee, State(), draft) && commitChannel == []
    {
      this.name, this.committee := name, committee;
      store, commitChannel, epoch := map[], [], 0;
      tcProcessed, valValueBroadcasted, auxValueBroadcasted := false, false, false;
      coinShareBroadcasted, auxProofBroadcasted, isViewChange := false, false, false;
      pubkeyToChain, tcCache, aggregator := NewChains(committee), map[], EMPTY_TABLES;
      binValues, abaRound, phase, abaOutputVal, abaInputVal := {}, 1, INIT_PHASE, None, map[];
      abaValPhaseCache1, abaValPhaseCache2, abaAuxPhaseCache := map[], map[], map[];
      auxValueNums, abaCoinCache, abaProofCache := map[], map[], map[];
      chainLog := [Proposed(Proposal(NewChains(committee), name, false, draft))];
      abaLog, record, past := [], NewRecord(0, NewChains(committee)), [];
    }

    // ----- Certificates -----

    method AdvanceHeight(height: nat, chain: Chain) returns (chain': Chain)
      ensures chain' == Nodes.AdvanceHeight(epoch, chain, height)
    {
      chain' := chain;
      if height < chain.height {
        return;
      }
      chain' := chain'.(height := height + 1);
      chain' := chain'.(aggregator := Cleanup(chain'.aggregator, epoch, chain'.height));
    }

    method UpdateHighQc(qc: QC, chain: Chain) returns (chain': Chain)
      ensures chain' == Nodes.UpdateHighQc(chain, qc)
    {
      chain' := chain.(heightToDigest := chain.heightToDigest[qc.height := qc.hash]);
      if qc.height > chain.highQc.height {
        chain' := chain'.(highQc := qc);
      }
    }

    method ProcessQc(qc: QC, chain: Chain) returns (chain': Chain)
      ensures chain' == QcOnChain(epoch, chain, qc)
    {
      chain' := AdvanceHeight(qc.height, chain);
      chain' := UpdateHighQc(qc, chain');
    }

    // ----- Proposing and voting -----

    method GenerateProposal(chain: Chain, tag: bool, draft: Draft) returns (block: Block)
      requires chain.name == name
      ensures block == Proposal(pubkeyToChain[name := chain], name, tag, draft)
    {
      ReferencesSkipOwn(pubkeyToChain, name, chain, draft.order);
      var references := References(pubkeyToChain, chain.name, draft.order);
      var qc := if tag then GENESIS_QC else chain.highQc;
      block := SignedBlock(qc, name, chain.height, chain.epoch, draft.payload, references);
    }

    method MakeVote(block: Block, chain: Chain) returns (vote: Option<Vote>, chain': Chain)
      requires chain.name == block.author
      modifies this`chainLog
      ensures vote.Some? == MayVote(committee, old(Held(chain)), block)
      ensures vote.Some? ==> vote.value == Vote(DigestOf(block), block.epoch, block.height, name, block.author,
                Signature(name, VoteS(DigestOf(block), block.epoch, block.height, block.author)))
      ensures chain' == if vote.Some? then chain.(lastVoted := Max(chain.lastVoted, block.height)) else chain
      ensures chainLog == old(chainLog) + if vote.Some? then [Voted(block, epoch)] else []
    {
      chain' := chain;
      if chain.epoch > block.epoch {
        return None, chain';
      }
      if isViewChange && block.author == GetLeader() {
        return None, chain';
      }
      var safetyRule1 := block.height > chain.lastVoted;
      var safetyRule2 := block.qc.height + 1 == block.height || IsGenesis(block.qc);
      if !(safetyRule1 && safetyRule2) {
        return None, chain';
      }
      chain' := chain.(lastVoted := Max(chain.lastVoted, block.height));
      chainLog := chainLog + [Voted(block, epoch)];
      vote := Some(Vote(DigestOf(block), block.epoch, block.height, name, block.author,
                        Signature(name, VoteS(DigestOf(block), block.epoch, block.height, block.author))));
    }

    /** The vote, if one is cast, goes to the block's author. */
    method ProcessBlockVote(block: Block, chain: Chain) returns (vote: Option<Vote>, chain': Chain)
      requires chain.name == block.author
      modifies this`chainLog
      ensures chain'.name == chain.name && Held(chain') == VoteOn(committee, old(Held(chain)), block)
      ensures vote.Some? == CastsVote(committee, old(Held(chain)), block)
    {
      vote, chain' := None, chain;
      if block.height == chain.height || IsGenesis(block.qc) {
        vote, chain' := MakeVote(block, chain);
        PutAgain(pubkeyToChain, chain.name, chain, chain');
      }
    }

    /** A quorum of votes advances the chain and makes the next block. */
    method QuorumReached(qc: QC, chain: Chain, draft: Draft) returns (chain': Chain, block: Block)
      requires chain.name == name
      modifies this`chainLog
      ensures chain' == QcOnChain(epoch, chain, qc)
      ensures block == Proposal(pubkeyToChain[name := chain'], name, false, draft)
      ensures chainLog == old(chainLog) + [Proposed(block)]
    {
      chain' := ProcessQc(qc, chain);
      block := GenerateProposal(chain', false, draft);
      chainLog := chainLog + [Proposed(block)];
    }

    /** A vote on an own block. */
    method HandleVote(vote: Vote, chain: Chain, draft: Draft) returns (ok: bool, chain': Chain, block: Option<Block>)
      requires vote.proposer == name && chain.name == name
      modifies this`chainLog
      ensures chain'.name == name && Held(chain') == Nodes.HandleVote(committee, old(Held(chain)), vote, draft)
    {
      ok, chain', block := true, chain, None;
      if vote.height < chain.height {
        return;
      }
      if !VoteAccepted(committee, vote) {
        return false, chain', None;
      }
      var (tables, r) := AddVote(committee, chain.aggregator, vote);
      chain' := chain.(aggregator := tables);
      PutAgain(pubkeyToChain, name, chain, chain');
      ok := !r.Reused?;
      if r.Made? {
        var b;
        chain', b := QuorumReached(r.value, chain', draft);
        PutAgain(pubkeyToChain, name, chain, chain');
        block := Some(b);
      }
    }

    // ----- Timeouts -----

    method HandleTimeout(timeout: Timeout, chain: Chain) returns (ok: bool, chain': Chain)
      requires chain.name == LeaderOf(committee, timeout.epoch)
      modifies this`tcCache
      ensures chain'.name == chain.name
      ensures Held(chain') == Nodes.HandleTimeout(committee, old(Held(chain)), timeout)
    {
      ok, chain' := true, chain;
      if timeout.epoch < epoch {
        return;
      }
      if !TimeoutAccepted(committee, timeout) {
        return false, chain';
      }
      chain' := ProcessQc(timeout.highQc, chain');
      var (tables, r) := AddTimeout(committee, chain'.aggregator, timeout);
      PutAgain(pubkeyToChain, chain.name, chain, chain');
      PutAgain(pubkeyToChain, chain.name, chain', chain'.(aggregator := tables));
      PutAgain(pubkeyToChain, chain.name, chain, chain'.(aggregator := tables));
      chain' := chain'.(aggregator := tables);
      match r
      case Reused(_) => ok := false;
      case Pending =>
      case Made(tc) => tcCache := tcCache[tc.epoch := tc];
    }

    method HandleTc(tc: TC) returns (ok: bool)
      modifies this`tcCache
      ensures State() == Nodes.HandleTc(committee, old(State()), tc)
    {
      if tc.epoch < epoch {
        return true;
      }
      if !TcAccepted(committee, tc) {
        return false;
      }
      tcCache := tcCache[tc.epoch := tc];
      ok := true;
    }

    method LocalTimeoutRound(chain: Chain) returns (ok: bool, chain': Chain)
      requires chain.name == GetLeader() && isViewChange
      modifies this`chainLog, this`tcCache
      ensures chain'.name == chain.name
      ensures var n := old(Held(chain));
              Held(chain') == Nodes.HandleTimeout(committee, SignTimeout(committee, n), OwnTimeout(committee, n))
    {
      chain' := chain.(lastVoted := Max(chain.lastVoted, chain.height));
      var timeout := Timeout(chain.highQc, epoch, name, Signature(name, TimeoutS(epoch, chain.highQc.height)));
      chainLog := chainLog + [TimedOut(epoch, chain.highQc.height)];
      PutAgain(pubkeyToChain, chain.name, chain, chain');
      ok, chain' := HandleTimeout(timeout, chain');
    }

    method CheckTimeout(chain: Chain, order: seq<PublicKey>) returns (ok: bool, chain': Chain)
      requires chain.name == GetLeader() && chain.name in pubkeyToChain && pubkeyToChain[chain.name] == chain
      requires forall y :: y in order <==> y in pubkeyToChain
      modifies this`isViewChange, this`chainLog, this`tcCache
      ensures chain'.name == chain.name
      ensures Held(chain') == Nodes.CheckTimeout(committee, old(State()))
    {
      ok, chain' := true, chain;
      assert pubkeyToChain[chain.name := chain] == pubkeyToChain;
      if epoch in tcCache {
        isViewChange := true;
      }
      if isViewChange {
        return;
      }
      var currentRound := chain.height;
      var i := 0;
      while i < |order|
        invariant i <= |order| && State() == old(State())
        invariant forall j :: 0 <= j < i ==> pubkeyToChain[order[j]].height <= currentRound + LAMBDA_VAL
      {
        assert order[i] in order;
        if currentRound + LAMBDA_VAL < pubkeyToChain[order[i]].height {
          isViewChange := true;
          ok, chain' := LocalTimeoutRound(chain);
          return;
        }
        i := i + 1;
      }
      NoneLags(committee, State(), order);
    }

    // ----- Committing -----

    /** Commits the block's uncommitted ancestors on its chain and then the block, pushing each in
        front of those already pushed. It does so whenever the recursion comes to an end: `depth`
        is how deep it nests. */
    method CommitPrevBlock(block: Block, chain: Chain, toCommit: seq<Block>, ghost depth: nat)
      returns (ok: bool, chain': Chain, toCommit': seq<Block>)
      requires CommitPrev(depth, store, GetLeader(), pubkeyToChain, chain, block.height).Returned?
      modifies this`pubkeyToChain
      ensures var r := CommitPrev(depth, store, GetLeader(), old(pubkeyToChain), chain, block.height);
              && ok == r.ok && chain' == r.chain && pubkeyToChain == r.chains
              && Pushed(r.out, toCommit, toCommit')
      decreases depth, 2
    {
      ok, chain', toCommit' := true, chain, toCommit;
      ghost var leader, chains := GetLeader(), pubkeyToChain;
      ghost var p := Returned(true, [], chain, chains);
      while chain'.lastCommitted < block.height
        invariant ok && p.Returned? && p == Returned(true, p.out, chain', pubkeyToChain)
        invariant CommittedSoFar(depth, store, leader, chains, chain, p)
        invariant chain'.lastCommitted <= Max(chain.lastCommitted, block.height)
        invariant Pushed(p.out, toCommit, toCommit')
        decreases block.height - chain'.lastCommitted
      {
        SoFarNext(depth, store, leader, chains, chain, p, block.height);
        ghost var q := CommitNext(depth, store, leader, pubkeyToChain, chain');
        ghost var before := toCommit';
        ok, chain', toCommit' := CommitHeight(chain', toCommit', depth);
        PushMore(p.out, q.out, toCommit, before, toCommit');
        p := After(p.out, q);
        if !ok {
          return;
        }
      }
      SoFarEnough(depth, store, leader, chains, chain, p, block.height);
    }

    /** The next height of the chain: for a block of the leader, what it refers to comes first. */
    method CommitHeight(chain: Chain, toCommit: seq<Block>, ghost depth: nat)
      returns (ok: bool, chain': Chain, toCommit': seq<Block>)
      requires CommitNext(depth, store, GetLeader(), pubkeyToChain, chain).Returned?
      modifies this`pubkeyToChain
      ensures var r := CommitNext(depth, store, GetLeader(), old(pubkeyToChain), chain);
              && ok == r.ok && chain' == r.chain && pubkeyToChain == r.chains
              && Pushed(r.out, toCommit, toCommit')
      decreases depth, 1
    {
      chain', toCommit' := chain, toCommit;
      if chain.lastCommitted + 1 !in chain.heightToDigest {
        return false, chain', toCommit';
      }
      var found := GetBlock(store, chain.heightToDigest[chain.lastCommitted + 1]);
      if found.None? {
        return false, chain', toCommit';
      }
      var block := found.value;
      ghost var f := Follow(depth, store, GetLeader(), pubkeyToChain, chain, block);
      FollowFrame(depth, store, GetLeader(), pubkeyToChain, chain, block);
      if block.author == GetLeader() {
        block := block.(references := SortByKey(block.references));
        ok, toCommit' := CommitReferences(block.references, toCommit', chain, depth);
        if !ok {
          return false, chain', toCommit';
        }
      }
      PushOne(f.out, block, toCommit, toCommit');
      toCommit' := [block] + toCommit';
      chain' := chain.(lastCommitted := chain.lastCommitted + 1);
      ok := true;
    }

    method CommitReferences(refs: seq<Reference>, toCommit: seq<Block>, ghost chain: Chain, ghost depth: nat)
      returns (ok: bool, toCommit': seq<Block>)
      requires FollowRefs(depth, store, GetLeader(), pubkeyToChain, chain, refs).Returned?
      modifies this`pubkeyToChain
      ensures var r := FollowRefs(depth, store, GetLeader(), old(pubkeyToChain), chain, refs);
              && ok == r.ok && pubkeyToChain == r.chains && Pushed(r.out, toCommit, toCommit')
      decreases depth, 0, 1
    {
      ok, toCommit' := true, toCommit;
      ghost var leader, chains := GetLeader(), pubkeyToChain;
      ghost var p := Returned(true, [], chain, chains);
      var i := 0;
      while i < |refs|
        invariant i <= |refs| && p.Returned? && p.ok && p.chains == pubkeyToChain && p.chain == chain
        invariant p == FollowRefs(depth, store, leader, chains, chain, refs[..i])
        invariant Pushed(p.out, toCommit, toCommit')
      {
        var found := GetBlock(store, refs[i].digest);
        if found.None? {
          RefMissing(depth, store, leader, chains, chain, refs, i, p);
          return false, toCommit';
        }
        OneMoreRef(depth, store, leader, chains, chain, refs, i, p, found.value);
        ghost var s := FollowOne(depth, store, leader, pubkeyToChain, chain, found.value);
        ghost var before := toCommit';
        ok, toCommit' := CommitReference(found.value, toCommit', chain, depth);
        PushMore(p.out, s.out, toCommit, before, toCommit');
        if !ok {
          return;
        }
        p := After(p.out, s);
        i := i + 1;
      }
      assert refs[..i] == refs;
    }

    /** One referenced block, on the chain the table holds for its author. */
    method CommitReference(block: Block, toCommit: seq<Block>, ghost chain: Chain, ghost depth: nat)
      returns (ok: bool, toCommit': seq<Block>)
      requires FollowOne(depth, store, GetLeader(), pubkeyToChain, chain, block).Returned?
      modifies this`pubkeyToChain
      ensures var r := FollowOne(depth, store, GetLeader(), old(pubkeyToChain), chain, block);
              && ok == r.ok && pubkeyToChain == r.chains && Pushed(r.out, toCommit, toCommit')
      decreases depth, 0, 0
    {
      var target := pubkeyToChain[block.author];
      ok, target, toCommit' := CommitPrevBlock(block, target, toCommit, depth - 1);
      if ok {
        pubkeyToChain := pubkeyToChain[block.author := target];
      }
    }

    /** Sends what was pushed, oldest first. */
    method SendCommitted(toCommit: seq<Block>)
      modifies this`commitChannel
      ensures commitChannel == old(commitChannel) + Reversed(toCommit)
    {
      var rest := toCommit;
      while rest != []
        invariant commitChannel + Reversed(rest) == old(commitChannel) + Reversed(toCommit)
      {
        var last := rest[|rest| - 1];
        ReversedOne(rest[..|rest| - 1], last);
        assert rest == rest[..|rest| - 1] + [last];
        rest := rest[..|rest| - 1];
        commitChannel := commitChannel + [last];
      }
    }

    /** Commits the block with its ancestors and sends what was pushed. */
    method Commit(block: Block, chain: Chain) returns (chain': Chain)
      requires Returns(store, GetLeader(), pubkeyToChain, chain, block.height)
      modifies this`pubkeyToChain, this`commitChannel
      ensures var r := CommitResult(store, GetLeader(), old(pubkeyToChain), chain, block.height);
              && r.Returned? && chain' == r.chain && pubkeyToChain == r.chains
              && commitChannel == old(commitChannel) + r.out
              && State() == old(State()).(ledger := old(LedgerState()).(chains := r.chains))
    {
      ghost var r := CommitResult(store, GetLeader(), pubkeyToChain, chain, block.height);
      ghost var depth := DepthOf(store, GetLeader(), pubkeyToChain, chain, block.height);
      var ok, toCommit: seq<Block>;
      ok, chain', toCommit := CommitPrevBlock(block, chain, [], depth);
      ReversedTwice(r.out);
      SendCommitted(toCommit);
    }

    // ----- Blocks -----

    /** The parent and grandparent, if both are at hand. */
    method GetAncestors(block: Block) returns (ancestors: Option<(Block, Block)>)
      ensures ancestors == Nodes.Ancestors(store, block)
    {
      var b1 := GetBlock(store, block.qc.hash);
      if b1.None? {
        return None;
      }
      var b0 := GetBlock(store, b1.value.qc.hash);
      if b0.None? {
        return None;
      }
      ancestors := Some((b0.value, b1.value));
    }

    ghost method Recall(rec: Record)
      modifies this`record
      ensures State() == old(State()).(ledger := old(LedgerState()).(record := rec))
    {
      record := rec;
    }

    /** Commits up to the block on the leader's chain, which the table holds as it was when the turn began. */
    method CommitHead(head: Block, chain: Chain) returns (chain': Chain)
      requires chain.name == GetLeader() && chain.name in pubkeyToChain
      requires Returns(store, GetLeader(), pubkeyToChain, chain, head.height)
      modifies this`pubkeyToChain, this`commitChannel, this`record
      ensures chain'.name == chain.name && pubkeyToChain.Keys == old(pubkeyToChain).Keys
      ensures Held(chain') == CommitTo(committee, old(Held(chain)), old(pubkeyToChain)[chain.name], Some(head.height))
    {
      ghost var n, chains := Held(chain), pubkeyToChain;
      ghost var r := CommitResult(store, GetLeader(), pubkeyToChain, chain, head.height);
      ghost var depth := DepthOf(store, GetLeader(), pubkeyToChain, chain, head.height);
      PrevFrame(depth, store, GetLeader(), pubkeyToChain, chain, head.height);
      ghost var rec := AfterRecord(n.ledger, name, chain.name, chains[chain.name], head.height, r);
      chain' := Commit(head, chain);
      Recall(rec);
      HeadSpec(committee, n, Held(chain'), chains, chain, head.height, r);
    }

    method ProcessBlockCommit(b0: Block, b1: Block, chain: Chain) returns (chain': Chain)
      requires chain.name == GetLeader() && chain.name in pubkeyToChain
      requires Nodes.Committing(GetLeader(), b0, b1).Some? ==>
                 Returns(store, GetLeader(), pubkeyToChain, chain, b0.height)
      modifies this`pubkeyToChain, this`commitChannel, this`record
      ensures chain'.name == chain.name && pubkeyToChain.Keys == old(pubkeyToChain).Keys
      ensures Held(chain') == CommitTo(committee, old(Held(chain)), old(pubkeyToChain)[chain.name],
                                       Nodes.Committing(GetLeader(), b0, b1))
    {
      chain' := chain;
      var leader := GetLeader();
      if leader == b0.author && b0.height + 1 == b1.height {
        chain' := CommitHead(b0, chain);
      }
    }

    method ProcessBlock(block: Block, chain: Chain) returns (vote: Option<Vote>, chain': Chain)
      requires chain.name == block.author && chain.name in pubkeyToChain && GetLeader() in pubkeyToChain
      requires BlockReturns(committee, Held(chain), pubkeyToChain[GetLeader()], block)
      modifies this`store, this`pubkeyToChain, this`commitChannel, this`record, this`chainLog
      ensures chain'.name == chain.name
      ensures Held(chain') == Nodes.ProcessBlock(committee, old(Held(chain)), old(pubkeyToChain)[GetLeader()], block)
    {
      chain' := chain;
      store := store[DigestOf(block) := block];
      ghost var n1, stale := Held(chain), pubkeyToChain[GetLeader()];
      assert n1 == StoreBlock(old(Held(chain)), block);
      var ancestors := GetAncestors(block);
      if block.author == GetLeader() && ancestors.Some? && !isViewChange && block.epoch <= chain.epoch {
        TakenFromTable(n1.ledger, pubkeyToChain, chain);
        chain' := ProcessBlockCommit(ancestors.value.0, ancestors.value.1, chain);
      }
      assert Held(chain') == CommitTo(committee, n1, stale, TwoChain(committee, n1, block));
      vote, chain' := ProcessBlockVote(block, chain');
    }

    method HandleProposal(block: Block, chain: Chain, payloadKnown: bool)
      returns (ok: bool, vote: Option<Vote>, chain': Chain)
      requires chain.name == block.author && chain.name in pubkeyToChain && GetLeader() in pubkeyToChain
      requires pubkeyToChain[chain.name] == chain
      requires ProposalReturns(committee, State(), block, payloadKnown)
      modifies this`store, this`pubkeyToChain, this`commitChannel, this`record, this`chainLog
      ensures chain'.name == chain.name
      ensures Held(chain') == Nodes.HandleProposal(committee, old(Held(chain)), block, payloadKnown)
    {
      vote, chain' := None, chain;
      if !BlockAccepted(committee, block) {
        return false, None, chain';
      }
      ok := true;
      chain' := ProcessQc(block.qc, chain');
      PutAgain(pubkeyToChain, chain.name, chain, chain');
      assert Held(chain') == Nodes.ProcessQc(old(Held(chain)), chain.name, block.qc);
      if payloadKnown {
        vote, chain' := ProcessBlock(block, chain');
      }
    }

    // ----- The agreement: receiving -----

    function IsExpiredAbaMessage(e: nat, round: nat): bool
      reads this`abaOutputVal, this`epoch, this`abaRound
    {
      abaOutputVal.Some? || e < epoch || (e == epoch && round < abaRound)
    }

    method FileVal(tables: Tables, v1: map<Round, ABAProof>, v2: map<Round, ABAProof>)
      modifies this`aggregator, this`abaValPhaseCache1, this`abaValPhaseCache2
      ensures State() == old(State()).(aba := old(AbaState()).(tables := tables, val1 := v1, val2 := v2))
    {
      SetTables(tables);
      SetValCaches(v1, v2);
    }

    /** The result is false where the source returns an error. */
    method HandleValPhase(abaVal: ABAVal) returns (ok: bool)
      requires abaVal.phase == VAL_PHASE && !IsExpiredAbaMessage(abaVal.epoch, abaVal.round)
      modifies this`aggregator, this`abaValPhaseCache1, this`abaValPhaseCache2
      ensures (State(), ok) == Nodes.HandleAbaVal(committee, old(State()), abaVal)
    {
      if !ValAccepted(abaVal) {
        return false;
      }
      ValPhaseSpec(committee, State(), abaVal);
      var (tables, r) := AddVal(committee, aggregator, abaVal);
      var c1, c2 := abaValPhaseCache1, abaValPhaseCache2;
      if r.Made? && r.value.tag {
        c1 := c1[Round(r.value.epoch, r.value.round) := r.value];
      } else if r.Made? {
        c2 := c2[Round(r.value.epoch, r.value.round) := r.value];
      }
      FileVal(tables, c1, c2);
      ok := !r.Reused?;
    }

    method FileAux(tables: Tables, aux: map<Round, ABAProof>, nums: map<Round, nat>)
      modifies this`aggregator, this`auxValueNums, this`abaAuxPhaseCache
      ensures State() == old(State()).(aba := old(AbaState()).(tables := tables, aux := aux, auxNums := nums))
    {
      SetTables(tables);
      SetAuxCaches(aux, nums);
    }

    method HandleAuxPhase(abaVal: ABAVal) returns (ok: bool)
      requires abaVal.phase == AUX_PHASE && !IsExpiredAbaMessage(abaVal.epoch, abaVal.round)
      modifies this`aggregator, this`auxValueNums, this`abaAuxPhaseCache
      ensures (State(), ok) == Nodes.HandleAbaVal(committee, old(State()), abaVal)
    {
      if !ValAccepted(abaVal) {
        return false;
      }
      var key := Round(abaVal.epoch, abaVal.round);
      var nums := auxValueNums[key := (if key in auxValueNums then auxValueNums[key] else 0) + 1];
      var (tables, r) := AddVal(committee, aggregator, abaVal);
      var proofs := abaAuxPhaseCache;
      if r.Made? {
        MadeProofKey(committee, AbaState(), abaVal);
        proofs := proofs[Round(r.value.epoch, r.value.round) := r.value];
      }
      AuxPhaseSpec(committee, State(), abaVal, proofs);
      FileAux(tables, proofs, nums);
      ok := !r.Reused?;
    }

    method HandleAbaVal(abaVal: ABAVal) returns (ok: bool)
      modifies this`aggregator, this`abaValPhaseCache1, this`abaValPhaseCache2, this`auxValueNums, this`abaAuxPhaseCache
      ensures (State(), ok) == Nodes.HandleAbaVal(committee, old(State()), abaVal)
    {
      if IsExpiredAbaMessage(abaVal.epoch, abaVal.round) {
        return true;
      }
      if abaVal.phase == VAL_PHASE {
        ok := HandleValPhase(abaVal);
      } else if abaVal.phase == AUX_PHASE {
        ok := HandleAuxPhase(abaVal);
      } else {
        ok := false;
      }
    }

    method HandleAbaProof(proof: ABAProof) returns (ok: bool)
      modifies this`abaProofCache
      ensures (State(), ok) == Nodes.HandleAbaProof(committee, old(State()), proof)
    {
      if IsExpiredAbaMessage(proof.epoch, proof.round) {
        return true;
      }
      if !ProofAccepted(committee, proof) {
        return false;
      }
      abaProofCache := abaProofCache[Round(proof.epoch, proof.round) := proof];
      ok := true;
    }

    method HandleCoinShare(share: Share, combined: Option<nat>) returns (ok: bool)
      modifies this`aggregator, this`abaCoinCache
      ensures (State(), ok) == Nodes.HandleCoinShare(committee, old(State()), share, combined)
    {
      if IsExpiredAbaMessage(share.epoch, share.round) {
        return true;
      }
      if !ShareAccepted(committee, share) {
        return false;
      }
      var (tables, r) := AddShare(committee, aggregator, share, combined);
      aggregator := tables;
      match r
      case Reused(_) => ok := false;
      case Pending => ok := true;
      case Made(coin) =>
        abaCoinCache := abaCoinCache[Round(share.epoch, share.round) := coin];
        ok := true;
    }

    // ----- The agreement: sending -----

    function MakeAbaVal(e: nat, round: nat, val: nat, ph: nat): ABAVal {
      ABAVal(name, e, round, ph, val, Signature(name, AbaS(e, round, val, ph)))
    }

    /** Sending leaves a trace in the history. */
    method Transmit(ghost e: AbaEvent)
      modifies this`abaLog
      ensures State() == Logged(old(State()), e)
    {
      abaLog := abaLog + [e];
    }

    method TakeInput(round: nat, val: nat)
      modifies this`abaInputVal, this`abaLog
      ensures var n := old(State());
              State() == Logged(n.(aba := n.aba.(input := n.aba.input[round := val])), Input(n.epoch, round, val))
    {
      abaInputVal := abaInputVal[round := val];
      Transmit(Input(epoch, round, val));
    }

    method ProcessTc(tc: TC) returns (ok: bool)
      requires HighQcRounds(tc) != []
      modifies this`abaInputVal, this`abaLog, this`tcProcessed, this`aggregator, this`abaValPhaseCache1,
               this`abaValPhaseCache2, this`auxValueNums, this`abaAuxPhaseCache
      ensures (State(), ok) == Nodes.ProcessTc(committee, old(State()), tc)
    {
      var inputVal := Maximum(HighQcRounds(tc));
      TakeInput(1, inputVal);
      ok := HandleAbaVal(MakeAbaVal(epoch, 1, inputVal, VAL_PHASE));
      if ok {
        tcProcessed := true;
      }
    }

    method ProcessValPhase1(proof: ABAProof) returns (ok: bool)
      requires proof.round in abaInputVal
      modifies this`valValueBroadcasted, this`abaLog, this`aggregator, this`abaValPhaseCache1,
               this`abaValPhaseCache2, this`auxValueNums, this`abaAuxPhaseCache
      ensures (State(), ok) == ProcessVal1(committee, old(State()), proof)
    {
      if abaInputVal[proof.round] == proof.val {
        return true;
      }
      if valValueBroadcasted {
        return true;
      }
      valValueBroadcasted := true;
      Transmit(Relay(proof.epoch, proof.round, proof.val));
      ok := HandleAbaVal(MakeAbaVal(proof.epoch, proof.round, proof.val, proof.phase));
    }

    method SendAux(proof: ABAProof) returns (ok: bool)
      modifies this`auxValueBroadcasted, this`abaLog, this`aggregator, this`abaValPhaseCache1,
               this`abaValPhaseCache2, this`auxValueNums, this`abaAuxPhaseCache
      ensures var n := old(State());
              var n1 := Logged(n.(aba := n.aba.(auxSent := true)), Aux(proof.epoch, proof.round, proof.val));
              var own := OwnVal(n, proof.epoch, proof.round, proof.val, AUX_PHASE);
              (State(), ok) == Nodes.HandleAbaVal(committee, n1, own)
    {
      auxValueBroadcasted := true;
      Transmit(Aux(proof.epoch, proof.round, proof.val));
      ok := HandleAbaVal(MakeAbaVal(proof.epoch, proof.round, proof.val, AUX_PHASE));
    }

    method ProcessValPhase2(proof: ABAProof) returns (ok: bool)
      modifies this`auxValueBroadcasted, this`binValues, this`abaLog, this`aggregator, this`abaValPhaseCache1,
               this`abaValPhaseCache2, this`auxValueNums, this`abaAuxPhaseCache
      ensures (State(), ok) == ProcessVal2(committee, old(State()), proof)
    {
      ok := true;
      if binValues != {} && !auxValueBroadcasted {
        ok := SendAux(proof);
      }
      if ok {
        binValues := binValues + {proof.val};
      }
    }

    method ProcessAuxPhase(e: nat, round: nat, combined: Option<nat>) returns (ok: bool)
      modifies this`coinShareBroadcasted, this`abaLog, this`aggregator, this`abaCoinCache
      ensures (State(), ok) == ProcessAux(committee, old(State()), e, round, combined)
    {
      if coinShareBroadcasted {
        return true;
      }
      coinShareBroadcasted := true;
      Transmit(CoinSent(e, round));
      ok := HandleCoinShare(Share(e, round, name, Signature(name, CoinS(e, round))), combined);
    }

    // A few fields at a time.

    method SetTables(tables: Tables)
      modifies this`aggregator
      ensures State() == old(State()).(aba := old(AbaState()).(tables := tables))
    {
      aggregator := tables;
    }

    method SetValCaches(v1: map<Round, ABAProof>, v2: map<Round, ABAProof>)
      modifies this`abaValPhaseCache1, this`abaValPhaseCache2
      ensures State() == old(State()).(aba := old(AbaState()).(val1 := v1, val2 := v2))
    {
      abaValPhaseCache1, abaValPhaseCache2 := v1, v2;
    }

    method SetAuxCaches(aux: map<Round, ABAProof>, nums: map<Round, nat>)
      modifies this`abaAuxPhaseCache, this`auxValueNums
      ensures State() == old(State()).(aba := old(AbaState()).(aux := aux, auxNums := nums))
    {
      abaAuxPhaseCache, auxValueNums := aux, nums;
    }

    method SetCoinCaches(coin: map<Round, nat>, proofs: map<Round, ABAProof>)
      modifies this`abaCoinCache, this`abaProofCache
      ensures State() == old(State()).(aba := old(AbaState()).(coin := coin, proofs := proofs))
    {
      abaCoinCache, abaProofCache := coin, proofs;
    }

    method SetRound(round: nat, ph: nat)
      modifies this`abaRound, this`phase
      ensures State() == old(State()).(aba := old(AbaState()).(round := round, phase := ph))
    {
      abaRound, phase := round, ph;
    }

    method SetInputs(input: map<nat, nat>)
      modifies this`abaInputVal, this`binValues
      ensures State() == old(State()).(aba := old(AbaState()).(input := input, bin := {}))
    {
      abaInputVal, binValues := input, {};
    }

    method ClearValFlags()
      modifies this`valValueBroadcasted, this`auxValueBroadcasted
      ensures State() == old(State()).(aba := old(AbaState()).(valSent := false, auxSent := false))
    {
      valValueBroadcasted, auxValueBroadcasted := false, false;
    }

    method ClearFlags()
      modifies this`valValueBroadcasted, this`auxValueBroadcasted, this`coinShareBroadcasted, this`auxProofBroadcasted
      ensures State() == old(State()).(aba := old(AbaState()).(
                valSent := false, auxSent := false, coinSent := false, proofSent := false))
    {
      ClearValFlags();
      coinShareBroadcasted, auxProofBroadcasted := false, false;
    }

    /** Drops what the caches hold for other epochs and earlier rounds. */
    method RetainFromRound()
      modifies this`abaValPhaseCache1, this`abaValPhaseCache2, this`abaAuxPhaseCache, this`auxValueNums,
               this`abaProofCache
      ensures var n := old(State());
              State() == n.(aba := n.aba.(
                val1 := KeepFrom(n.aba.val1, n.epoch, n.aba.round), val2 := KeepFrom(n.aba.val2, n.epoch, n.aba.round),
                aux := KeepFrom(n.aba.aux, n.epoch, n.aba.round),
                auxNums := KeepFrom(n.aba.auxNums, n.epoch, n.aba.round),
                proofs := KeepFrom(n.aba.proofs, n.epoch, n.aba.round)))
    {
      SetValCaches(KeepFrom(abaValPhaseCache1, epoch, abaRound), KeepFrom(abaValPhaseCache2, epoch, abaRound));
      SetAuxCaches(KeepFrom(abaAuxPhaseCache, epoch, abaRound), KeepFrom(auxValueNums, epoch, abaRound));
      abaProofCache := KeepFrom(abaProofCache, epoch, abaRound);
    }

    /** Moves to the next round with the given input. */
    method EnterRound(inputVal: nat)
      modifies this`abaRound, this`phase, this`abaInputVal, this`binValues
      ensures var n := old(State());
              State() == n.(aba := n.aba.(round := n.aba.round + 1, phase := VAL_PHASE, bin := {},
                                          input := n.aba.input[n.aba.round + 1 := inputVal]))
    {
      SetRound(abaRound + 1, VAL_PHASE);
      SetInputs(abaInputVal[abaRound := inputVal]);
    }

    method AdvanceAbaRound(inputVal: nat) returns (ok: bool)
      modifies this`abaRound, this`phase, this`abaInputVal, this`valValueBroadcasted, this`auxValueBroadcasted,
               this`coinShareBroadcasted, this`auxProofBroadcasted, this`binValues, this`abaProofCache,
               this`abaLog, this`aggregator, this`abaValPhaseCache1, this`abaValPhaseCache2,
               this`auxValueNums, this`abaAuxPhaseCache
      ensures (State(), ok) == AdvanceRound(committee, old(State()), inputVal)
    {
      ghost var n := State();
      EnterRound(inputVal);
      ClearFlags();
      RetainFromRound();
      Transmit(Input(epoch, abaRound, inputVal));
      StartsRound(committee, n, State(), inputVal);
      ok := HandleAbaVal(MakeAbaVal(epoch, abaRound, inputVal, VAL_PHASE));
    }

    method DecideOn(v: nat)
      modifies this`abaOutputVal, this`abaLog
      ensures State() == Decide(old(State()), v)
    {
      abaOutputVal := Some(v);
      Transmit(Decided(epoch, abaRound, v));
    }

    /** Decides, and sends the AUX certificate unless one was sent this round. */
    method Output(v: nat, proof: ABAProof)
      modifies this`abaOutputVal, this`auxProofBroadcasted, this`abaLog
      ensures State() == SendProof(Decide(old(State()), v), proof)
    {
      DecideOn(v);
      if !auxProofBroadcasted {
        auxProofBroadcasted := true;
        Transmit(ProofSent(proof));
      }
    }

    method ProcessCoinShare(e: nat, round: nat, coin: nat) returns (ok: bool)
      requires |binValues| == 1 && TheOne(binValues) % 2 == coin ==> Round(e, round) in abaAuxPhaseCache
      modifies this`abaRound, this`phase, this`abaInputVal, this`valValueBroadcasted, this`auxValueBroadcasted,
               this`coinShareBroadcasted, this`auxProofBroadcasted, this`binValues, this`abaProofCache,
               this`abaLog, this`aggregator, this`abaValPhaseCache1, this`abaValPhaseCache2,
               this`auxValueNums, this`abaAuxPhaseCache, this`abaOutputVal
      ensures (State(), ok) == ProcessCoin(committee, old(State()), e, round, coin)
    {
      if |binValues| == 1 {
        var v := TheOne(binValues);
        if v % 2 == coin {
          Output(v, abaAuxPhaseCache[Round(e, round)]);
          return true;
        }
        ok := AdvanceAbaRound(v);
      } else {
        if Round(e, round) in abaAuxPhaseCache {
          var proof := abaAuxPhaseCache[Round(e, round)];
          if proof.val % 2 == coin {
            Output(proof.val, proof);
            return true;
          }
        }
        ok := AdvanceAbaRound(coin);
      }
    }

    method ProcessAbaProof(proof: ABAProof)
      modifies this`abaOutputVal, this`abaLog
      ensures State() == ProcessProof(old(State()), proof)
    {
      if Round(proof.epoch, proof.round) in abaCoinCache {
        var coin := abaCoinCache[Round(proof.epoch, proof.round)];
        if proof.val % 2 == coin {
          DecideOn(proof.val);
        }
      }
    }

    // The guards of one pass, each with its step.

    method TcTurn() returns (ok: bool)
      requires Valid()
      modifies this`abaInputVal, this`abaLog, this`tcProcessed, this`aggregator, this`abaValPhaseCache1,
               this`abaValPhaseCache2, this`auxValueNums, this`abaAuxPhaseCache
      ensures (State(), ok) == TcStep(committee, old(State()))
    {
      ok := true;
      if !tcProcessed && epoch in tcCache {
        ok := ProcessTc(tcCache[epoch]);
      }
    }

    method Val1Turn() returns (ok: bool)
      requires Valid()
      modifies this`valValueBroadcasted, this`abaLog, this`aggregator, this`abaValPhaseCache1,
               this`abaValPhaseCache2, this`auxValueNums, this`abaAuxPhaseCache
      ensures (State(), ok) == Val1Step(committee, old(State()))
    {
      ok := true;
      if phase >= VAL_PHASE && Round(epoch, abaRound) in abaValPhaseCache1 {
        ok := ProcessValPhase1(abaValPhaseCache1[Round(epoch, abaRound)]);
      }
    }

    method Val2Turn() returns (ok: bool)
      modifies this`auxValueBroadcasted, this`binValues, this`abaLog, this`aggregator, this`abaValPhaseCache1,
               this`abaValPhaseCache2, this`auxValueNums, this`abaAuxPhaseCache
      ensures (State(), ok) == Val2Step(committee, old(State()))
    {
      ok := true;
      if phase >= VAL_PHASE && Round(epoch, abaRound) in abaValPhaseCache2 {
        ok := ProcessValPhase2(abaValPhaseCache2[Round(epoch, abaRound)]);
      }
    }

    method AuxTurn(combined: Option<nat>) returns (ok: bool)
      modifies this`coinShareBroadcasted, this`abaLog, this`aggregator, this`abaCoinCache
      ensures (State(), ok) == AuxStep(committee, old(State()), combined)
    {
      ok := true;
      if phase >= AUX_PHASE && Round(epoch, abaRound) in abaAuxPhaseCache {
        var proof := abaAuxPhaseCache[Round(epoch, abaRound)];
        ok := ProcessAuxPhase(proof.epoch, proof.round, combined);
      }
    }

    method CoinTurn() returns (ok: bool)
      requires Valid()
      modifies this`abaRound, this`phase, this`abaInputVal, this`valValueBroadcasted, this`auxValueBroadcasted,
               this`coinShareBroadcasted, this`auxProofBroadcasted, this`binValues, this`abaProofCache,
               this`abaLog, this`aggregator, this`abaValPhaseCache1, this`abaValPhaseCache2,
               this`auxValueNums, this`abaAuxPhaseCache, this`abaOutputVal
      ensures (State(), ok) == CoinStep(committee, old(State()))
    {
      ok := true;
      if phase >= COIN_PHASE && Round(epoch, abaRound) in abaCoinCache {
        ok := ProcessCoinShare(epoch, abaRound, abaCoinCache[Round(epoch, abaRound)]);
      }
    }

    method ProofTurn()
      modifies this`abaOutputVal, this`abaLog
      ensures State() == ProofStep(old(State()))
    {
      if isViewChange && Round(epoch, abaRound) in abaProofCache {
        ProcessAbaProof(abaProofCache[Round(epoch, abaRound)]);
      }
    }

    method UpToVal1() returns (ok: bool)
      requires Undecided(committee, State())
      modifies this`abaInputVal, this`abaLog, this`tcProcessed, this`aggregator, this`abaValPhaseCache1,
               this`abaValPhaseCache2, this`auxValueNums, this`abaAuxPhaseCache, this`valValueBroadcasted
      ensures (State(), ok) == Val1Pass(committee, old(State()))
    {
      TcStepUndecided(committee, State());
      ok := TcTurn();
      if ok {
        ok := Val1Turn();
      }
    }

    method UpToVal2() returns (ok: bool)
      requires Undecided(committee, State())
      modifies this`abaInputVal, this`abaLog, this`tcProcessed, this`aggregator, this`abaValPhaseCache1,
               this`abaValPhaseCache2, this`auxValueNums, this`abaAuxPhaseCache, this`valValueBroadcasted,
               this`auxValueBroadcasted, this`binValues
      ensures (State(), ok) == Val2Pass(committee, old(State()))
    {
      ok := UpToVal1();
      if ok {
        ok := Val2Turn();
      }
    }

    method UpToAux(combined: Option<nat>) returns (ok: bool)
      requires Undecided(committee, State())
      modifies this`abaInputVal, this`abaLog, this`tcProcessed, this`aggregator, this`abaValPhaseCache1,
               this`abaValPhaseCache2, this`auxValueNums, this`abaAuxPhaseCache, this`valValueBroadcasted,
               this`auxValueBroadcasted, this`binValues, this`coinShareBroadcasted,
               this`abaCoinCache
      ensures (State(), ok) == AuxPass(committee, old(State()), combined)
    {
      ok := UpToVal2();
      if ok {
        ok := AuxTurn(combined);
      }
    }

    method UpToCoin(combined: Option<nat>) returns (ok: bool)
      requires Undecided(committee, State())
      modifies this`abaRound, this`phase, this`abaInputVal, this`valValueBroadcasted, this`auxValueBroadcasted,
               this`coinShareBroadcasted, this`auxProofBroadcasted, this`binValues, this`abaProofCache,
               this`abaLog, this`aggregator, this`abaValPhaseCache1, this`abaValPhaseCache2,
               this`auxValueNums, this`abaAuxPhaseCache, this`abaOutputVal, this`tcProcessed, this`abaCoinCache
      ensures (State(), ok) == CoinPass(committee, old(State()), combined)
    {
      ok := UpToAux(combined);
      if ok {
        ok := CoinTurn();
      }
    }

    /** Where the source unwraps or indexes, `Valid` says there is something to find. */
    method ProcessAbaPhase(combined: Option<nat>) returns (ok: bool)
      requires Undecided(committee, State())
      modifies this`abaRound, this`phase, this`abaInputVal, this`valValueBroadcasted, this`auxValueBroadcasted,
               this`coinShareBroadcasted, this`auxProofBroadcasted, this`binValues, this`abaProofCache,
               this`abaLog, this`aggregator, this`abaValPhaseCache1, this`abaValPhaseCache2,
               this`auxValueNums, this`abaAuxPhaseCache, this`abaOutputVal, this`tcProcessed, this`abaCoinCache
      ensures (State(), ok) == AbaPass(committee, old(State()), combined)
    {
      ok := UpToCoin(combined);
      if ok {
        ProofTurn();
      }
    }

    // ----- Closing the epoch -----

    method SetPhase(ph: nat, nums: map<Round, nat>)
      modifies this`phase, this`auxValueNums
      ensures State() == old(State()).(aba := old(AbaState()).(phase := ph, auxNums := nums))
    {
      phase, auxValueNums := ph, nums;
    }

    method EnterPhases()
      requires isViewChange
      modifies this`phase, this`auxValueNums
      ensures State() == Nodes.EnterPhases(committee, old(State()))
    {
      var p, nums := phase, auxValueNums;
      if p == INIT_PHASE && tcProcessed {
        p := VAL_PHASE;
      }
      if p == VAL_PHASE && binValues != {} {
        p := AUX_PHASE;
      }
      var now := Round(epoch, abaRound);
      if p == AUX_PHASE && now in abaCoinCache {
        if now !in nums {
          nums := nums[now := 0];
        }
        if nums[now] >= QuorumThreshold(committee) && (|binValues| == 2 || now in abaAuxPhaseCache) {
          p := COIN_PHASE;
        }
      }
      SetPhase(p, nums);
    }

    method LeaveRounds()
      modifies this`tcProcessed, this`binValues, this`abaRound, this`phase, this`abaOutputVal, this`abaInputVal
      ensures var n := old(State());
              State() == n.(aba := n.aba.(tcProcessed := false, bin := {}, round := 1, phase := INIT_PHASE,
                                          output := None, input := map[]))
    {
      SetRound(1, INIT_PHASE);
      SetInputs(map[]);
      tcProcessed := false;
      abaOutputVal := None;
    }

    method RetainFromEpoch()
      modifies this`aggregator, this`abaValPhaseCache1, this`abaValPhaseCache2, this`abaAuxPhaseCache,
               this`auxValueNums, this`abaCoinCache, this`abaProofCache
      ensures var n := old(State());
              State() == n.(aba := n.aba.(
                tables := CleanupAba(n.aba.tables, n.epoch),
                val1 := KeepEpochs(n.aba.val1, n.epoch), val2 := KeepEpochs(n.aba.val2, n.epoch),
                aux := KeepEpochs(n.aba.aux, n.epoch), auxNums := KeepEpochs(n.aba.auxNums, n.epoch),
                coin := KeepEpochs(n.aba.coin, n.epoch), proofs := KeepEpochs(n.aba.proofs, n.epoch)))
    {
      SetValCaches(KeepEpochs(abaValPhaseCache1, epoch), KeepEpochs(abaValPhaseCache2, epoch));
      SetAuxCaches(KeepEpochs(abaAuxPhaseCache, epoch), KeepEpochs(auxValueNums, epoch));
      CleanupCoins();
    }

    method CleanupCoins()
      modifies this`aggregator, this`abaCoinCache, this`abaProofCache
      ensures var n := old(State());
              State() == n.(aba := n.aba.(
                tables := CleanupAba(n.aba.tables, n.epoch),
                coin := KeepEpochs(n.aba.coin, n.epoch), proofs := KeepEpochs(n.aba.proofs, n.epoch)))
    {
      SetCoinCaches(KeepEpochs(abaCoinCache, epoch), KeepEpochs(abaProofCache, epoch));
      aggregator := CleanupAba(aggregator, epoch);
    }

    /** Forgets everything the agreement held about earlier epochs. */
    method ResetAba()
      modifies this`tcProcessed, this`binValues, this`abaRound, this`phase, this`abaOutputVal, this`abaInputVal,
               this`valValueBroadcasted, this`auxValueBroadcasted, this`coinShareBroadcasted,
               this`auxProofBroadcasted, this`aggregator, this`abaValPhaseCache1, this`abaValPhaseCache2,
               this`abaAuxPhaseCache, this`auxValueNums, this`abaCoinCache, this`abaProofCache
      ensures State() == old(State()).(aba := NextEpochAba(old(AbaState()), epoch))
    {
      LeaveRounds();
      ClearFlags();
      RetainFromEpoch();
    }

    method NextView()
      modifies this`epoch, this`isViewChange, this`tcCache
      ensures var n := old(State());
              State() == n.(epoch := n.epoch + 1, viewChange := false, tcs := KeepTcs(n.tcs, n.epoch + 1))
    {
      epoch := epoch + 1;
      isViewChange := false;
      tcCache := KeepTcs(tcCache, epoch);
    }

    method EnterEpoch()
      modifies this`epoch, this`isViewChange, this`tcCache,
               this`tcProcessed, this`binValues, this`abaRound, this`phase, this`abaOutputVal, this`abaInputVal,
               this`valValueBroadcasted, this`auxValueBroadcasted, this`coinShareBroadcasted,
               this`auxProofBroadcasted, this`aggregator, this`abaValPhaseCache1, this`abaValPhaseCache2,
               this`abaAuxPhaseCache, this`auxValueNums, this`abaCoinCache, this`abaProofCache
      ensures var n := old(State());
              State() == Nodes.Core(n.name, n.epoch + 1, false, KeepTcs(n.tcs, n.epoch + 1), n.ledger,
                                    NextEpochAba(n.aba, n.epoch + 1))
    {
      NextView();
      ResetAba();
    }

    ghost method OpenRecord(rec: Record)
      modifies this`record, this`past
      ensures var l := old(LedgerState());
              State() == old(State()).(ledger := l.(record := rec, past := l.past + [l.record]))
    {
      past := past + [record];
      record := rec;
    }

    /** Restarts the chain above the output; its owner proposes at once. */
    method RestartChain(outputHeight: nat, chain: Chain, draft: Draft) returns (chain': Chain, block: Option<Block>)
      modifies this`chainLog, this`record, this`past
      ensures chain'.name == chain.name
      ensures Held(chain') == old(Held(chain)).(ledger :=
                NextEpochLedger(old(Held(chain)).ledger, chain.name, name, epoch, outputHeight, draft))
    {
      block := None;
      chain' := Restarted(chain, outputHeight);
      PutAgain(pubkeyToChain, chain.name, chain, chain');
      OpenRecord(NewRecord(epoch, pubkeyToChain[chain.name := chain']));
      if chain'.name == name {
        var b := GenerateProposal(chain', true, draft);
        chainLog := chainLog + [Proposed(b)];
        block := Some(b);
      }
    }

    method AdvanceEpoch(outputHeight: nat, chain: Chain, draft: Draft) returns (chain': Chain, block: Option<Block>)
      requires chain.name == GetLeader() && abaOutputVal == Some(outputHeight)
      modifies this
      ensures chain'.name == chain.name && commitChannel == old(commitChannel)
      ensures Held(chain') == NextEpoch(committee, old(Held(chain)), draft)
    {
      EnterEpoch();
      chain', block := RestartChain(outputHeight, chain, draft);
    }

    /** Once the output's block is at hand: commits it and moves on. */
    method CloseEpoch(outputHeight: nat, chain: Chain, draft: Draft) returns (chain': Chain, block: Option<Block>)
      requires abaOutputVal == Some(outputHeight) && NodeInv(committee, Held(chain))
      requires chain.name == GetLeader() && chain.name in pubkeyToChain && pubkeyToChain[chain.name] == chain
      requires ClosingReturns(committee, Held(chain))
      modifies this
      ensures chain'.name == chain.name
      ensures Held(chain') == Nodes.CloseEpoch(committee, old(Held(chain)), draft)
    {
      chain', block := chain, None;
      if outputHeight !in chain.heightToDigest {
        return;
      }
      var found := GetBlock(store, chain.heightToDigest[outputHeight]);
      if found.None? {
        return;
      }
      CloseSpec(committee, Held(chain), found.value, draft);
      TakenFromTable(Held(chain).ledger, pubkeyToChain, chain);
      chain' := CommitHead(found.value, chain);
      chain', block := AdvanceEpoch(outputHeight, chain', draft);
    }

    method DecideOrAgree(chain: Chain, combined: Option<nat>, draft: Draft)
      returns (chain': Chain, block: Option<Block>)
      requires chain.name == GetLeader() && chain.name in pubkeyToChain && pubkeyToChain[chain.name] == chain
      requires Held(chain) == State() && Valid() && ClosingReturns(committee, State())
      modifies this
      ensures chain'.name == chain.name
      ensures Held(chain') == if old(abaOutputVal).Some? then Nodes.CloseEpoch(committee, old(State()), draft)
                              else AbaPass(committee, old(State()), combined).0
    {
      chain', block := chain, None;
      if abaOutputVal.Some? {
        chain', block := CloseEpoch(abaOutputVal.value, chain, draft);
      } else {
        var _ := ProcessAbaPhase(combined);
        HeldAlready(State(), chain);
      }
    }

    /** What ends every turn of the event loop, for the chain of the current leader. */
    method UpdateAbaPhase(chain: Chain, combined: Option<nat>, draft: Draft)
      returns (chain': Chain, block: Option<Block>)
      requires chain.name == GetLeader() && GetLeader() in pubkeyToChain && pubkeyToChain[GetLeader()] == chain
      requires Valid() && ClosingReturns(committee, State())
      modifies this
      ensures chain'.name == chain.name
      ensures Held(chain') == UpdateAba(committee, old(State()), combined, draft)
    {
      chain', block := chain, None;
      assert pubkeyToChain[chain.name := chain] == pubkeyToChain;
      if isViewChange {
        EnterPhasesKeeps(committee, State());
        EnterPhases();
        chain', block := DecideOrAgree(chain, combined, draft);
      }
    }

    // ----- The event loop: take the chain out, handle the message, put the chain back -----

    method PutBack(chain: Chain)
      modifies this`pubkeyToChain
      ensures State() == old(Held(chain))
    {
      pubkeyToChain := pubkeyToChain[chain.name := chain];
    }

    method ReceiveProposal(block: Block, payloadKnown: bool) returns (ok: bool, vote: Option<Vote>)
      requires Valid() && block.author in pubkeyToChain
      requires ProposalReturns(committee, State(), block, payloadKnown)
      modifies this`store, this`pubkeyToChain, this`commitChannel, this`record, this`chainLog
      ensures State() == Nodes.HandleProposal(committee, old(State()), block, payloadKnown)
    {
      var chain := pubkeyToChain[block.author];
      assert pubkeyToChain[chain.name := chain] == pubkeyToChain;
      ok, vote, chain := HandleProposal(block, chain, payloadKnown);
      PutBack(chain);
    }

    /** A suspended block whose ancestors or payload have arrived, or the block just proposed. */
    method ReceiveLoopBack(block: Block) returns (vote: Option<Vote>)
      requires Valid() && block.author in pubkeyToChain
      requires BlockReturns(committee, State(), pubkeyToChain[GetLeader()], block)
      modifies this`store, this`pubkeyToChain, this`commitChannel, this`record, this`chainLog
      ensures State() == Nodes.ProcessBlock(committee, old(State()), old(pubkeyToChain)[GetLeader()], block)
    {
      var chain := pubkeyToChain[block.author];
      assert pubkeyToChain[chain.name := chain] == pubkeyToChain;
      vote, chain := ProcessBlock(block, chain);
      PutBack(chain);
    }

    method ReceiveVote(vote: Vote, draft: Draft) returns (ok: bool, block: Option<Block>)
      requires Valid() && vote.proposer == name
      modifies this`pubkeyToChain, this`chainLog
      ensures State() == Nodes.HandleVote(committee, old(State()), vote, draft)
    {
      var chain := pubkeyToChain[name];
      assert pubkeyToChain[chain.name := chain] == pubkeyToChain;
      ok, chain, block := HandleVote(vote, chain, draft);
      PutBack(chain);
    }

    method ReceiveTimeout(timeout: Timeout) returns (ok: bool)
      requires Valid()
      modifies this`pubkeyToChain, this`tcCache
      ensures State() == Nodes.HandleTimeout(committee, old(State()), timeout)
    {
      var leader := LeaderOf(committee, timeout.epoch);
      var chain := pubkeyToChain[leader];
      assert pubkeyToChain[chain.name := chain] == pubkeyToChain;
      ok, chain := HandleTimeout(timeout, chain);
      PutBack(chain);
    }

    method UpdateLeader(combined: Option<nat>, draft: Draft) returns (block: Option<Block>)
      requires Valid() && ClosingReturns(committee, State())
      modifies this
      ensures State() == UpdateAba(committee, old(State()), combined, draft)
    {
      var leader := GetLeader();
      var chain := pubkeyToChain[leader];
      chain, block := UpdateAbaPhase(chain, combined, draft);
      PutBack(chain);
    }

    method CheckLeader(order: seq<PublicKey>) returns (ok: bool)
      requires Valid() && forall y :: y in order <==> y in pubkeyToChain
      modifies this`isViewChange, this`chainLog, this`tcCache, this`pubkeyToChain
      ensures State() == Nodes.CheckTimeout(committee, old(State()))
    {
      var leader := GetLeader();
      var chain := pubkeyToChain[leader];
      ok, chain := CheckTimeout(chain, order);
      PutBack(chain);
    }

    /** After every message: the agreement first, then the timeout check, on the leader of the day. */
    method EndTurn(combined: Option<nat>, order: seq<PublicKey>, draft: Draft) returns (block: Option<Block>)
      requires Valid() && ClosingReturns(committee, State())
      requires forall y :: y in order <==> y in pubkeyToChain
      modifies this
      ensures State() == Nodes.CheckTimeout(committee, UpdateAba(committee, old(State()), combined, draft))
    {
      block := UpdateLeader(combined, draft);
      assert Valid() && pubkeyToChain.Keys == committee.Members();
      var _ := CheckLeader(order);
    }
  }
}
