/** Certificates, votes and proposals on the chains: each is taken, cast or made exactly when it is due,
    and an honest proposal refers to exactly the other chains' latest certified blocks. */
module Proposals {
  import opened Committees
  import opened Options
  import opened Messages
  import opened Aggregators
  import opened Commits
  import opened Nodes
  import opened NodeSafety
  import opened Worlds
  import opened Systems
  import opened Certification
  import opened Carrying

  // ----- What a proposal refers to -----

  /** The chain has a certified block to refer to, and this is its digest. */
  ghost predicate HasTop(chains: Chains, y: PublicKey, d: Digest) {
    y in chains && !IsGenesis(chains[y].highQc) && chains[y].highQc.hash == d
  }

  ghost predicate NoKeyTwice(refs: seq<Reference>) {
    forall i, j :: 0 <= i < j < |refs| ==> refs[i].key != refs[j].key
  }

  lemma {:induction false} ReferencesExact(chains: Chains, x: PublicKey, order: seq<PublicKey>, y: PublicKey, d: Digest)
    ensures Reference(y, d) in References(chains, x, order) <==> y != x && y in order && HasTop(chains, y, d)
    decreases |order|
  {
    if order != [] {
      var front, last := order[..|order| - 1], order[|order| - 1];
      ReferencesExact(chains, x, front, y, d);
      assert order == front + [last];
    }
  }

  lemma {:induction false} ReferencesOnce(chains: Chains, x: PublicKey, order: seq<PublicKey>)
    requires forall i, j :: 0 <= i < j < |order| ==> order[i] != order[j]
    ensures NoKeyTwice(References(chains, x, order))
    decreases |order|
  {
    if order != [] {
      var front, last := order[..|order| - 1], order[|order| - 1];
      ReferencesOnce(chains, x, front);
      var refs := References(chains, x, front);
      forall i | 0 <= i < |refs| ensures refs[i].key != last {
        ReferencesExact(chains, x, front, refs[i].key, refs[i].digest);
      }
    }
  }

  /** The hash map of authorities is walked once through. */
  ghost predicate Complete(c: Committee, draft: Draft) {
    && (forall y | y in c.Members() :: y in draft.order)
    && forall i, j :: 0 <= i < j < |draft.order| ==> draft.order[i] != draft.order[j]
  }

  /** One reference for each other chain with a certified block, to the latest, and no others. */
  ghost predicate RefersExactly(chains: Chains, x: PublicKey, b: Block) {
    && NoKeyTwice(b.references)
    && forall y, d :: Reference(y, d) in b.references <==> y != x && HasTop(chains, y, d)
  }

  lemma ProposalRefers(c: Committee, n: Core, tag: bool, draft: Draft)
    requires NodeInv(c, n) && Complete(c, draft)
    ensures RefersExactly(n.ledger.chains, n.name, Proposal(n.ledger.chains, n.name, tag, draft))
  {
    var chains, b := n.ledger.chains, Proposal(n.ledger.chains, n.name, tag, draft);
    ReferencesOnce(chains, n.name, draft.order);
    forall y, d ensures Reference(y, d) in b.references <==> y != n.name && HasTop(chains, y, d) {
      ReferencesExact(chains, n.name, draft.order, y, d);
    }
  }

  /** The block is the node's next one: at its chain's height and epoch, with what it was drafted with. */
  ghost predicate IsNext(n: Core, b: Block, draft: Draft) {
    && n.name in n.ledger.chains && b.author == n.name && b.payload == draft.payload
    && b.height == n.ledger.chains[n.name].height && b.epoch == n.ledger.chains[n.name].epoch
    && SignatureOk(b.signature, BlockS(DigestOf(b)), n.name)
  }

  /** What a step proposes extends the new high certificate, or genesis when an epoch of the node's own
      has been closed, and refers to exactly the latest certified blocks the node knows by then. */
  lemma ProposalIsExact(c: Committee, w: World, w': World, x: PublicKey, a: Action, i: nat)
    requires StepBy(c, w, w', x, a) && |w[x].ledger.log| <= i < |w'[x].ledger.log|
    requires w'[x].ledger.log[i].Proposed?
    ensures a.OnVote? || a.Close?
    ensures var n', b := w'[x], w'[x].ledger.log[i].block;
            && IsNext(n', b, a.draft)
            && b.qc == (if a.OnVote? then n'.ledger.chains[n'.name].highQc else GENESIS_QC)
            && (Complete(c, a.draft) ==> RefersExactly(n'.ledger.chains, n'.name, b))
  {
    var n, n' := w[x], w'[x];
    ActionKeepsNode(c, Known(w), n, a);
    if a.OnVote? {
      if Complete(c, a.draft) {
        ProposalRefers(c, n', false, a.draft);
      }
    } else if a.Close? {
      CloseProposes(c, n, a.draft, i);
      if Complete(c, a.draft) {
        ProposalRefers(c, n', true, a.draft);
      }
    } else {
      NobodyElseProposes(c, Known(w), n, a, i);
    }
  }

  lemma CloseProposes(c: Committee, n: Core, draft: Draft, i: nat)
    requires NodeInv(c, n) && n.aba.output.Some?
    requires |n.ledger.log| <= i < |CloseEpoch(c, n, draft).ledger.log|
    ensures var n' := CloseEpoch(c, n, draft);
            n'.name == n.name && n'.ledger.log[i] == Proposed(Proposal(n'.ledger.chains, n'.name, true, draft))
  {
    var b := Closing(c, n);
    var n1 := ClosingCommit(c, n, b.value);
    assert n1.ledger.log == n.ledger.log && n1.name == n.name;
  }

  lemma NobodyElseProposes(c: Committee, k: Knowledge, n: Core, a: Action, i: nat)
    requires NodeInv(c, n) && Enabled(c, k, n, a) && !a.OnVote? && !a.Close?
    requires |n.ledger.log| <= i < |Apply(c, k, n, a).ledger.log|
    ensures !Apply(c, k, n, a).ledger.log[i].Proposed?
  {
    if a.OnBlock? {
      var n1, n2 := ProcessBlockSteps(c, n, a.stale, a.block);
      assert n2.ledger.log == n.ledger.log;
    } else if !OnChains(a) {
      AbaActionFrame(c, k, n, a);
    }
  }

  /** A new node has proposed one block: at height 1 of epoch 0, on genesis, referring to nothing. */
  lemma FirstProposal(c: Committee, n: Core, draft: Draft)
    requires IsInitial(c, n, draft)
    ensures |n.ledger.log| == 1 && n.ledger.log[0].Proposed?
    ensures var b := n.ledger.log[0].block;
            && b.author == n.name && b.height == 1 && b.epoch == 0 && b.payload == draft.payload
            && IsGenesis(b.qc) && b.references == [] && SignatureOk(b.signature, BlockS(DigestOf(b)), n.name)
  {
    NothingToReferTo(c, n.name, draft.order);
  }

  lemma {:induction false} NothingToReferTo(c: Committee, x: PublicKey, order: seq<PublicKey>)
    ensures References(NewChains(c), x, order) == []
    decreases |order|
  {
    if order != [] {
      NothingToReferTo(c, x, order[..|order| - 1]);
    }
  }

  // ----- References of honest proposals are certified -----

  ghost predicate CertifiedRef(c: Committee, k: Knowledge, x: PublicKey, r: Reference) {
    r.key != x && r.key in c.Members() && exists h: nat :: CertifiedBy(c, k, r.key, h, r.digest)
  }

  ghost predicate RefsInv(c: Committee, k: Knowledge, n: Core) {
    forall b, r :: Proposed(b) in n.ledger.log && r in b.references ==> CertifiedRef(c, k, n.name, r)
  }

  lemma CertifiedRefGrows(c: Committee, k: Knowledge, k': Knowledge, x: PublicKey, r: Reference)
    requires k <= k' && CertifiedRef(c, k, x, r)
    ensures CertifiedRef(c, k', x, r)
  {
    var h: nat :| CertifiedBy(c, k, r.key, h, r.digest);
    var q :| Certificate(c, k, q) && q.proposer == r.key && q.height == h && q.hash == r.digest;
    CertificateGrows(c, k, k', q);
    assert CertifiedBy(c, k', r.key, h, r.digest);
  }

  lemma RefsGrow(c: Committee, k: Knowledge, k': Knowledge, n: Core)
    requires k <= k' && RefsInv(c, k, n)
    ensures RefsInv(c, k', n)
  {
    forall b, r | Proposed(b) in n.ledger.log && r in b.references ensures CertifiedRef(c, k', n.name, r) {
      CertifiedRefGrows(c, k, k', n.name, r);
    }
  }

  lemma TopIsCertified(c: Committee, k: Knowledge, n: Core, y: PublicKey, d: Digest)
    requires NodeInv(c, n) && CertInv(c, k, n) && y != n.name && HasTop(n.ledger.chains, y, d)
    ensures CertifiedRef(c, k, n.name, Reference(y, d))
  {
    var qc := n.ledger.chains[y].highQc;
    assert ChainBacked(c, k, n.name, y, n.ledger.chains[y]);
    assert CertifiedBy(c, k, y, qc.height, d);
  }

  lemma NewRefsCertified(c: Committee, k: Knowledge, n: Core, tag: bool, draft: Draft, r: Reference)
    requires NodeInv(c, n) && CertInv(c, k, n) && r in Proposal(n.ledger.chains, n.name, tag, draft).references
    ensures CertifiedRef(c, k, n.name, r)
  {
    ReferencesExact(n.ledger.chains, n.name, draft.order, r.key, r.digest);
    TopIsCertified(c, k, n, r.key, r.digest);
  }

  lemma NewElement<T>(a: seq<T>, b: seq<T>, e: T) returns (i: nat)
    requires a <= b && e in b && e !in a
    ensures |a| <= i < |b| && b[i] == e
  {
    assert b == a + b[|a|..];
    var j :| 0 <= j < |b[|a|..]| && b[|a|..][j] == e;
    i := |a| + j;
  }

  lemma ProposedByStep(c: Committee, w: World, w': World, x: PublicKey, a: Action, b: Block) returns (tag: bool)
    requires StepBy(c, w, w', x, a) && Proposed(b) in w'[x].ledger.log && Proposed(b) !in w[x].ledger.log
    ensures w'[x].name == w[x].name && (a.OnVote? || a.Close?)
    ensures b == Proposal(w'[x].ledger.chains, w'[x].name, tag, a.draft)
  {
    var n, n' := w[x], w'[x];
    ActionGrowsLogs(c, Known(w), n, a);
    var i := NewElement(n.ledger.log, n'.ledger.log, Proposed(b));
    tag := a.Close?;
    if a.Close? {
      CloseProposes(c, n, a.draft, i);
    } else if !a.OnVote? {
      NobodyElseProposes(c, Known(w), n, a, i);
    }
  }

  lemma ActorRefs(c: Committee, w: World, w': World, x: PublicKey, a: Action)
    requires SystemInv(c, w) && AllCert(c, w) && StepBy(c, w, w', x, a) && RefsInv(c, Known(w), w[x])
    ensures x in w' && RefsInv(c, Known(w'), w'[x])
  {
    ActorCert(c, w, w', x, a);
    ActionKeepsNode(c, Known(w), w[x], a);
    ActionGrowsLogs(c, Known(w), w[x], a);
    forall b, r | Proposed(b) in w'[x].ledger.log && r in b.references
      ensures CertifiedRef(c, Known(w'), w'[x].name, r)
    {
      if Proposed(b) in w[x].ledger.log {
        CertifiedRefGrows(c, Known(w), Known(w'), w[x].name, r);
      } else {
        var tag := ProposedByStep(c, w, w', x, a, b);
        NewRefsCertified(c, Known(w'), w'[x], tag, a.draft, r);
      }
    }
  }

  ghost predicate AllRefs(c: Committee, w: World) {
    forall x | x in w :: RefsInv(c, Known(w), w[x])
  }

  lemma OthersRefs(c: Committee, w: World, w': World, x: PublicKey)
    requires AllRefs(c, w) && x in w' && w' == w[x := w'[x]] && Known(w) <= Known(w')
    requires RefsInv(c, Known(w'), w'[x])
    ensures AllRefs(c, w')
  {
    forall y | y in w' ensures RefsInv(c, Known(w'), w'[y]) {
      if y != x {
        RefsGrow(c, Known(w), Known(w'), w[y]);
      }
    }
  }

  lemma StepKeepsRefs(c: Committee, w: World, w': World)
    requires SystemInv(c, w) && AllCert(c, w) && AllRefs(c, w) && Step(c, w, w')
    ensures AllRefs(c, w')
  {
    var x, a :| StepBy(c, w, w', x, a);
    StepGrows(c, w, w', x, a);
    ActorRefs(c, w, w', x, a);
    OthersRefs(c, w, w', x);
  }

  lemma StartRefs(c: Committee, w: World)
    requires Start(c, w)
    ensures AllRefs(c, w)
  {
    forall x | x in w ensures RefsInv(c, Known(w), w[x]) {
      var draft :| IsInitial(c, w[x], draft);
      InitialRefs(c, Known(w), w[x], draft);
    }
  }

  lemma InitialRefs(c: Committee, k: Knowledge, n: Core, draft: Draft)
    requires IsInitial(c, n, draft)
    ensures RefsInv(c, k, n)
  {
    forall b, r | Proposed(b) in n.ledger.log ensures r !in b.references {
      ReferencesExact(NewChains(c), n.name, draft.order, r.key, r.digest);
    }
  }

  lemma {:induction false} RunKeepsRefs(c: Committee, tr: seq<World>)
    requires Run(c, tr) && FaultBound(c, tr[0])
    ensures AllRefs(c, Last(tr))
    decreases |tr|
  {
    if |tr| == 1 {
      StartRefs(c, tr[0]);
    } else {
      var front := tr[..|tr| - 1];
      PrefixRun(c, tr, |tr| - 1);
      RunKeepsRefs(c, front);
      RunKeepsInv(c, front);
      RunKeepsCert(c, front);
      StepAt(c, tr, |tr| - 2);
      StepKeepsRefs(c, Last(front), Last(tr));
    }
  }

  /** Over every run: whatever an honest node's own proposal refers to is a certified block of another
      authority's chain. */
  lemma ReferencesAreCertified(c: Committee, tr: seq<World>, x: PublicKey, b: Block, r: Reference)
    requires Run(c, tr) && FaultBound(c, tr[0]) && x in Last(tr)
    requires Proposed(b) in Last(tr)[x].ledger.log && r in b.references
    ensures CertifiedRef(c, Known(Last(tr)), x, r)
  {
    RunKeepsRefs(c, tr);
    RunKeepsInv(c, tr);
  }

  // ----- Certificates, votes and quorums -----

  /** A certificate is entered at its height; the chain moves past it, keeps the higher of it and the high
      certificate, and drops exactly the vote makers it has overtaken. */
  lemma QcIsTaken(c: Committee, w: World, w': World, x: PublicKey, y: PublicKey, qc: QC)
    requires StepBy(c, w, w', x, OnQc(y, qc))
    ensures var a, b := w[x].ledger.chains[y], w'[x].ledger.chains[y];
            && b.heightToDigest == a.heightToDigest[qc.height := qc.hash]
            && b.height == (if a.height <= qc.height then qc.height + 1 else a.height)
            && b.highQc == (if qc.height > a.highQc.height then qc else a.highQc)
            && (forall h :: h in b.aggregator.votes <==>
                              h in a.aggregator.votes && (h > qc.height || qc.height < a.height))
            && w'[x].ledger.chains == w[x].ledger.chains[y := b]
  {}

  /** What lets a node vote for a block: it is the next on its chain, or extends genesis; it is not of an
      earlier epoch of the chain, not the leader's during a view change, above what was voted for, and
      right above its certificate. */
  ghost predicate Votable(c: Committee, n: Core, b: Block)
    requires b.author in n.ledger.chains
  {
    var chain, onGenesis := n.ledger.chains[b.author], b.qc.hash == Zero && b.qc.height == 0;
    && (b.height == chain.height || onGenesis) && b.epoch >= chain.epoch
    && (b.author == LeaderOf(c, n.epoch) ==> !n.viewChange)
    && b.height >= chain.lastVoted + 1 && (b.height == b.qc.height + 1 || onGenesis)
  }

  /** A processed block is voted for exactly then, and the vote is remembered. */
  lemma VotesExactly(c: Committee, w: World, w': World, x: PublicKey, b: Block, stale: Chain)
    requires StepBy(c, w, w', x, OnBlock(b, stale)) && b.author in w[x].ledger.chains
    ensures var n, n' := w[x], w'[x];
            && b.author in n'.ledger.chains && DigestOf(b) in n'.ledger.store && n'.ledger.store[DigestOf(b)] == b
            && if Votable(c, n, b)
               then n'.ledger.log == n.ledger.log + [Voted(b, n.epoch)]
                    && n'.ledger.chains[b.author].lastVoted == b.height
               else n'.ledger.log == n.ledger.log
                    && n'.ledger.chains[b.author].lastVoted == n.ledger.chains[b.author].lastVoted
  {
    var n := w[x];
    var n1, n2 := ProcessBlockSteps(c, n, stale, b);
    CommitToKeeps(c, n1, stale, TwoChain(c, n1, b));
    assert OnlyCounters(n.ledger.chains[b.author], n2.ledger.chains[b.author]);
    assert n2.ledger.log == n.ledger.log && n2.ledger.store == n1.ledger.store;
    VoteOnExactly(c, n2, b);
  }

  lemma VoteOnExactly(c: Committee, n: Core, b: Block)
    requires b.author in n.ledger.chains
    ensures var n' := VoteOn(c, n, b);
            && b.author in n'.ledger.chains && n'.ledger.store == n.ledger.store
            && if Votable(c, n, b)
               then n'.ledger.log == n.ledger.log + [Voted(b, n.epoch)]
                    && n'.ledger.chains[b.author].lastVoted == b.height
               else n'.ledger.log == n.ledger.log
                    && n'.ledger.chains[b.author].lastVoted == n.ledger.chains[b.author].lastVoted
  {}

  /** The vote completes a quorum at a height the node's chain has not left. */
  ghost predicate Completes(c: Committee, n: Core, vote: Vote) {
    && n.name in n.ledger.chains && vote.height >= n.ledger.chains[n.name].height && VoteAccepted(c, vote)
    && var m := Entry(n.ledger.chains[n.name].aggregator.votes, vote.height);
       vote.author !in m.used && m.weight + c.Stake(vote.author) >= QuorumThreshold(c)
  }

  /** A node proposes exactly when a vote completes a quorum: its chain then stands right above, with the
      certificate entered, and the block that extends it is on record. */
  lemma QuorumProposes(c: Committee, w: World, w': World, x: PublicKey, vote: Vote, draft: Draft)
    requires StepBy(c, w, w', x, OnVote(vote, draft)) && x in w[x].ledger.chains && w[x].name == x
    ensures var n, n' := w[x], w'[x];
            && x in n'.ledger.chains && n'.ledger.chains == n.ledger.chains[x := n'.ledger.chains[x]]
            && if Completes(c, n, vote)
               then |n'.ledger.log| == |n.ledger.log| + 1 && n'.ledger.log[|n.ledger.log|].Proposed?
                    && var chain := n'.ledger.chains[x];
                       && chain.height == vote.height + 1 && vote.height in chain.heightToDigest
                       && chain.heightToDigest[vote.height] == vote.hash && chain.highQc.height >= vote.height
               else n'.ledger.log == n.ledger.log && n'.ledger.chains[x].highQc == n.ledger.chains[x].highQc
                    && n'.ledger.chains[x].height == n.ledger.chains[x].height
  {}
}
