/** The state of one node and what each handler does to it. Every handler of the event loop is a
    composition of the steps below; each step is what the node does between two of its sends. */
module Nodes {
  import opened Committees
  import opened Options
  import opened Messages
  import opened Aggregators
  import opened Commits
  import opened Delivery
  import opened Reentries

  const NEXT_EPOCH_HEIGHT: nat := 10
  const LAMBDA_VAL: nat := 10
  const INIT_PHASE: nat := 0
  const COIN_PHASE: nat := 3

  ghost predicate ValidCommittee(c: Committee) {
    c.KeyOrdered() && DEFAULT_KEY !in c.Members()
  }

  /** The leader of an epoch: the sorted keys in turn. */
  function LeaderOf(c: Committee, epoch: nat): (x: PublicKey)
    ensures x in c.Members()
  {
    c.authorities[epoch % |c.authorities|].name
  }

  /** What a node signs on the chains, in order; a vote also records the epoch it was cast in. */
  datatype ChainEvent =
    | Voted(block: Block, voterEpoch: nat)
    | TimedOut(epoch: nat, highQcHeight: nat)
    | Proposed(block: Block)

  /** What a node sends or decides in the agreement, in order. An input and a relayed value look
      alike on the wire. */
  datatype AbaEvent =
    | Input(epoch: nat, round: nat, val: nat)
    | Relay(epoch: nat, round: nat, val: nat)
    | Aux(epoch: nat, round: nat, val: nat)
    | CoinSent(epoch: nat, round: nat)
    | ProofSent(proof: ABAProof)
    | Decided(epoch: nat, round: nat, val: nat)

  /** What a node delivered in one epoch: from which counters, up to which leader height, whether
      every commit returned true, whether none led back to the leader's chain, and which blocks it
      delivered on its own chain at which height. */
  datatype Record = Record(epoch: nat, start: Counters, ok: bool, plain: bool, out: seq<Block>, top: nat,
                           own: map<nat, Digest>)

  /** The chains, the store and the history. */
  datatype Ledger = Ledger(chains: Chains, store: Store, log: seq<ChainEvent>, record: Record, past: seq<Record>)

  datatype Aba = Aba(
    tcProcessed: bool, valSent: bool, auxSent: bool, coinSent: bool, proofSent: bool,
    tables: Tables, bin: set<nat>, round: nat, phase: nat, output: Option<nat>,
    input: map<nat, nat>, val1: map<Round, ABAProof>, val2: map<Round, ABAProof>,
    aux: map<Round, ABAProof>, auxNums: map<Round, nat>, coin: map<Round, nat>,
    proofs: map<Round, ABAProof>, log: seq<AbaEvent>)

  datatype Core = Core(name: PublicKey, epoch: nat, viewChange: bool, tcs: map<nat, TC>,
                       ledger: Ledger, aba: Aba)

  /** What the surroundings contribute to a new block: the payload and the order in which the
      hash map of authorities is walked. */
  datatype Draft = Draft(payload: seq<nat>, order: seq<PublicKey>)

  // ----- Initial state -----

  function NewChain(name: PublicKey): Chain {
    Chain(name, 1, 0, 0, EMPTY_TABLES, GENESIS_QC, map[], 0)
  }

  function NewChains(c: Committee): Chains {
    map x | x in c.Members() :: NewChain(x)
  }

  const NEW_ABA := Aba(false, false, false, false, false, EMPTY_TABLES, {}, 1, INIT_PHASE, None,
                       map[], map[], map[], map[], map[], map[], map[], [])

  function NewRecord(epoch: nat, chains: Chains): Record {
    Record(epoch, CountersOf(chains), true, true, [], 0, map[])
  }

  ghost predicate IsInitial(c: Committee, n: Core, draft: Draft)
  {
    && n.name in c.Members()
    && n == Core(n.name, 0, false, map[],
                 Ledger(NewChains(c), map[],
                        [Proposed(Proposal(NewChains(c), n.name, false, draft))],
                        NewRecord(0, NewChains(c)), []),
                 NEW_ABA)
  }

  // ----- Certificates on a chain -----

  function AdvanceHeight(epoch: nat, chain: Chain, height: nat): Chain {
    if height < chain.height then chain
    else chain.(height := height + 1, aggregator := Cleanup(chain.aggregator, epoch, height + 1))
  }

  function UpdateHighQc(chain: Chain, qc: QC): Chain {
    chain.(heightToDigest := chain.heightToDigest[qc.height := qc.hash],
           highQc := if qc.height > chain.highQc.height then qc else chain.highQc)
  }

  function QcOnChain(epoch: nat, chain: Chain, qc: QC): Chain {
    UpdateHighQc(AdvanceHeight(epoch, chain, qc.height), qc)
  }

  function WithChain(n: Core, x: PublicKey, chain: Chain): Core {
    n.(ledger := n.ledger.(chains := n.ledger.chains[x := chain]))
  }

  function ProcessQc(n: Core, x: PublicKey, qc: QC): Core
    requires x in n.ledger.chains
  {
    WithChain(n, x, QcOnChain(n.epoch, n.ledger.chains[x], qc))
  }

  // ----- Proposing -----

  function References(chains: Chains, name: PublicKey, order: seq<PublicKey>): seq<Reference> {
    if order == [] then []
    else
      var x := order[|order| - 1];
      References(chains, name, order[..|order| - 1])
      + if x != name && x in chains && !IsGenesis(chains[x].highQc)
        then [Reference(x, chains[x].highQc.hash)] else []
  }

  function Proposal(chains: Chains, name: PublicKey, tag: bool, draft: Draft): Block {
    if name !in chains then GENESIS_BLOCK
    else
      var chain := chains[name];
      SignedBlock(if tag then GENESIS_QC else chain.highQc, name, chain.height, chain.epoch,
                  draft.payload, References(chains, name, draft.order))
  }

  // ----- Voting -----

  predicate MayVote(c: Committee, n: Core, block: Block)
    requires block.author in n.ledger.chains
  {
    var chain := n.ledger.chains[block.author];
    && chain.epoch <= block.epoch
    && !(n.viewChange && block.author == LeaderOf(c, n.epoch))
    && block.height > chain.lastVoted
    && (block.qc.height + 1 == block.height || IsGenesis(block.qc))
  }

  predicate CastsVote(c: Committee, n: Core, block: Block)
    requires block.author in n.ledger.chains
  {
    (block.height == n.ledger.chains[block.author].height || IsGenesis(block.qc)) && MayVote(c, n, block)
  }

  function VoteOn(c: Committee, n: Core, block: Block): Core
    requires block.author in n.ledger.chains
  {
    var chain, cast := n.ledger.chains[block.author], CastsVote(c, n, block);
    n.(ledger := n.ledger.(
         chains := Put(n.ledger.chains, cast, block.author, chain.(lastVoted := Max(chain.lastVoted, block.height))),
         log := n.ledger.log + if cast then [Voted(block, n.epoch)] else []))
  }

  // ----- Committing -----

  /** The blocks a chain holds above its counter, up to `hi`. */
  function Entries(store: Store, chain: Chain, hi: nat): map<nat, Digest> {
    map h: nat | chain.lastCommitted < h <= hi && BlockAt(store, chain, h).Some? ::
      DigestOf(BlockAt(store, chain, h).value)
  }

  function Delivered(store: Store, a: Chains, b: Chains, x: PublicKey): map<nat, Digest> {
    if x in a && x in b then Entries(store, a[x], b[x].lastCommitted) else map[]
  }

  /** An earlier state of the chain, which the table may still hold while the chain is worked on. */
  ghost predicate Earlier(stale: Chain, chain: Chain) {
    stale.name == chain.name && stale.lastCommitted <= chain.lastCommitted
  }

  ghost function Attempt(l: Ledger, leader: PublicKey, stale: Chain, height: nat): Call
    requires leader in l.chains
  {
    CommitResult(l.store, leader, l.chains[leader := stale], l.chains[leader], height)
  }

  ghost function AfterCommit(l: Ledger, name: PublicKey, leader: PublicKey, stale: Chain, height: nat, r: Call): Ledger
    requires leader in l.chains && r.Returned?
  {
    l.(chains := r.chains[leader := r.chain], record := AfterRecord(l, name, leader, stale, height, r))
  }

  ghost function AfterRecord(l: Ledger, name: PublicKey, leader: PublicKey, stale: Chain, height: nat, r: Call): Record
    requires leader in l.chains && r.Returned?
  {
    l.record.(
      ok := l.record.ok && r.ok,
      plain := l.record.plain && NoReentry(l.store, leader, l.chains[leader := stale], l.chains[leader], height),
      out := l.record.out + r.out, top := Max(l.record.top, height),
      own := OwnAfter(l, name, leader, r))
  }

  ghost function OwnAfter(l: Ledger, name: PublicKey, leader: PublicKey, r: Call): map<nat, Digest>
    requires r.Returned?
  {
    l.record.own + Delivered(l.store, l.chains, r.chains[leader := r.chain], name)
  }

  /** Commits the current leader's chain up to the given height, if one is given. The leader's entry
      is the chain at hand; `stale` is what the table still holds for it meanwhile. A call that does
      not return has no effect: no step contains one. */
  ghost function CommitTo(c: Committee, n: Core, stale: Chain, height: Option<nat>): (n': Core)
    requires LeaderOf(c, n.epoch) in n.ledger.chains
    ensures LeaderOf(c, n.epoch) in n'.ledger.chains && n' == n.(ledger := n'.ledger)
  {
    if CommitReturns(c, n, stale, height) && height.Some? then
      var leader := LeaderOf(c, n.epoch);
      n.(ledger := AfterCommit(n.ledger, n.name, leader, stale, height.value,
                               Attempt(n.ledger, leader, stale, height.value)))
    else n
  }

  /** The commit, if there is one, comes to an end. */
  ghost predicate CommitReturns(c: Committee, n: Core, stale: Chain, height: Option<nat>)
    requires LeaderOf(c, n.epoch) in n.ledger.chains
  {
    height.Some? ==> Attempt(n.ledger, LeaderOf(c, n.epoch), stale, height.value).Returned?
  }

  function StoreBlock(n: Core, block: Block): Core {
    n.(ledger := n.ledger.(store := n.ledger.store[DigestOf(block) := block]))
  }

  /** The block's parent and grandparent, if both are in the store. */
  function Ancestors(store: Store, block: Block): Option<(Block, Block)> {
    match GetBlock(store, block.qc.hash)
    case None => None
    case Some(b1) => match GetBlock(store, b1.qc.hash) { case None => None case Some(b0) => Some((b0, b1)) }
  }

  /** The head of a 2-chain of the leader is to be committed. */
  function Committing(leader: PublicKey, b0: Block, b1: Block): Option<nat> {
    if leader == b0.author && b0.height + 1 == b1.height then Some(b0.height) else None
  }

  /** The height the 2-chain rule commits on seeing `block`, if it fires. */
  function TwoChain(c: Committee, n: Core, block: Block): Option<nat>
    requires block.author in n.ledger.chains
  {
    var leader, ancestors := LeaderOf(c, n.epoch), Ancestors(n.ledger.store, block);
    if block.author == leader && !n.viewChange && block.epoch <= n.ledger.chains[block.author].epoch && ancestors.Some?
    then Committing(leader, ancestors.value.0, ancestors.value.1) else None
  }

  /** Processing the block comes to an end. */
  ghost predicate BlockReturns(c: Committee, n: Core, stale: Chain, block: Block)
    requires block.author in n.ledger.chains && LeaderOf(c, n.epoch) in n.ledger.chains
  {
    CommitReturns(c, StoreBlock(n, block), stale, TwoChain(c, StoreBlock(n, block), block))
  }

  ghost function ProcessBlock(c: Committee, n: Core, stale: Chain, block: Block): Core
    requires block.author in n.ledger.chains
    requires LeaderOf(c, n.epoch) in n.ledger.chains
  {
    var n1 := StoreBlock(n, block);
    var n2 := CommitTo(c, n1, stale, TwoChain(c, n1, block));
    if block.author in n2.ledger.chains then VoteOn(c, n2, block) else n2
  }

  // ----- Collecting votes and timeouts -----

  /** Adds a vote on an own block; a quorum advances the chain and makes the next proposal. */
  function HandleVote(c: Committee, n: Core, vote: Vote, draft: Draft): Core
    requires vote.proposer == n.name && n.name in n.ledger.chains
  {
    if vote.height < n.ledger.chains[n.name].height || !VoteAccepted(c, vote) then n
    else n.(ledger := CountVote(c, n.epoch, n.ledger, vote, draft))
  }

  function CountVote(c: Committee, epoch: nat, ledger: Ledger, vote: Vote, draft: Draft): Ledger
    requires vote.proposer in ledger.chains
  {
    var name := vote.proposer;
    var (tables, r) := AddVote(c, ledger.chains[name].aggregator, vote);
    var chain := ledger.chains[name].(aggregator := tables);
    var chains := ledger.chains[name := if r.Made? then QcOnChain(epoch, chain, r.value) else chain];
    ledger.(chains := chains,
            log := ledger.log + if r.Made? then [Proposed(Proposal(chains, name, false, draft))] else [])
  }

  function CountTimeout(c: Committee, n: Core, t: Timeout): Core
    requires LeaderOf(c, t.epoch) in n.ledger.chains
  {
    var x := LeaderOf(c, t.epoch);
    var (tables, r) := AddTimeout(c, n.ledger.chains[x].aggregator, t);
    var n1 := WithChain(n, x, n.ledger.chains[x].(aggregator := tables));
    if r.Made? then n1.(tcs := n1.tcs[r.value.epoch := r.value]) else n1
  }

  function HandleTimeout(c: Committee, n: Core, t: Timeout): Core
    requires LeaderOf(c, t.epoch) in n.ledger.chains
  {
    if t.epoch < n.epoch || !TimeoutAccepted(c, t) then n
    else CountTimeout(c, ProcessQc(n, LeaderOf(c, t.epoch), t.highQc), t)
  }

  function HandleTc(c: Committee, n: Core, tc: TC): Core {
    if tc.epoch < n.epoch || !TcAccepted(c, tc) then n
    else n.(tcs := n.tcs[tc.epoch := tc])
  }

  /** While the block is processed, the table still holds the chain without the new certificate. */
  ghost function HandleProposal(c: Committee, n: Core, block: Block, payloadKnown: bool): Core
    requires block.author in n.ledger.chains
    requires LeaderOf(c, n.epoch) in n.ledger.chains
  {
    if !BlockAccepted(c, block) then n
    else
      var n1 := ProcessQc(n, block.author, block.qc);
      if payloadKnown then ProcessBlock(c, n1, n.ledger.chains[LeaderOf(c, n.epoch)], block) else n1
  }

  /** The commit the proposal brings about, if any, comes to an end. */
  ghost predicate ProposalReturns(c: Committee, n: Core, b: Block, payloadKnown: bool)
    requires b.author in n.ledger.chains && LeaderOf(c, n.epoch) in n.ledger.chains
  {
    BlockAccepted(c, b) && payloadKnown ==>
      BlockReturns(c, ProcessQc(n, b.author, b.qc), n.ledger.chains[LeaderOf(c, n.epoch)], b)
  }

  // ----- Timing out -----

  function OwnTimeout(c: Committee, n: Core): Timeout
    requires LeaderOf(c, n.epoch) in n.ledger.chains
  {
    var qc := n.ledger.chains[LeaderOf(c, n.epoch)].highQc;
    Timeout(qc, n.epoch, n.name, Signature(n.name, TimeoutS(n.epoch, qc.height)))
  }

  function SignTimeout(c: Committee, n: Core): Core
    requires LeaderOf(c, n.epoch) in n.ledger.chains
  {
    var x := LeaderOf(c, n.epoch);
    var chain := n.ledger.chains[x];
    n.(viewChange := true,
       ledger := n.ledger.(
         chains := n.ledger.chains[x := chain.(lastVoted := Max(chain.lastVoted, chain.height))],
         log := n.ledger.log + [TimedOut(n.epoch, chain.highQc.height)]))
  }

  predicate LeaderLags(c: Committee, n: Core)
    requires LeaderOf(c, n.epoch) in n.ledger.chains
  {
    exists y | y in n.ledger.chains ::
      n.ledger.chains[LeaderOf(c, n.epoch)].height + LAMBDA_VAL < n.ledger.chains[y].height
  }

  function CheckTimeout(c: Committee, n: Core): Core
    requires LeaderOf(c, n.epoch) in n.ledger.chains
  {
    if n.epoch in n.tcs then n.(viewChange := true)
    else if n.viewChange || !LeaderLags(c, n) then n
    else HandleTimeout(c, SignTimeout(c, n), OwnTimeout(c, n))
  }

  // ----- The agreement: receiving -----

  predicate Expired(n: Core, epoch: nat, round: nat) {
    n.aba.output.Some? || epoch < n.epoch || (epoch == n.epoch && round < n.aba.round)
  }

  /** A VAL or AUX message is taken unless it is expired, of another phase, or badly signed. */
  predicate TakesVal(n: Core, m: ABAVal) {
    && !Expired(n, m.epoch, m.round) && (m.phase == VAL_PHASE || m.phase == AUX_PHASE)
    && ValAccepted(m)
  }

  function Put<K, V>(table: map<K, V>, put: bool, key: K, v: V): map<K, V> {
    if put then table[key := v] else table
  }

  function CountAt(table: map<Round, nat>, key: Round): nat {
    if key in table then table[key] else 0
  }

  /** Counts the message (AUX also when its author repeats) and files the proof it completes. */
  function AbaWithVal(a: Aba, m: ABAVal, tables: Tables, r: Appended<ABAProof>): Aba {
    var key, aux := Round(m.epoch, m.round), m.phase == AUX_PHASE;
    a.(tables := tables, auxNums := Put(a.auxNums, aux, key, CountAt(a.auxNums, key) + 1),
       aux := if r.Made? then Put(a.aux, aux, key, r.value) else a.aux,
       val1 := if r.Made? then Put(a.val1, !aux && r.value.tag, key, r.value) else a.val1,
       val2 := if r.Made? then Put(a.val2, !aux && !r.value.tag, key, r.value) else a.val2)
  }

  /** The flag is false where the source returns an error. */
  function HandleAbaVal(c: Committee, n: Core, m: ABAVal): (Core, bool) {
    if !TakesVal(n, m) then (n, Expired(n, m.epoch, m.round))
    else
      var (tables, r) := AddVal(c, n.aba.tables, m);
      (n.(aba := AbaWithVal(n.aba, m, tables, r)), !r.Reused?)
  }

  /** `combined` is what the threshold scheme returns for the shares collected so far. */
  function HandleCoinShare(c: Committee, n: Core, s: Share, combined: Option<nat>): (Core, bool) {
    if Expired(n, s.epoch, s.round) || !ShareAccepted(c, s) then (n, Expired(n, s.epoch, s.round))
    else
      var (tables, r) := AddShare(c, n.aba.tables, s, combined);
      (n.(aba := n.aba.(tables := tables,
                        coin := if r.Made? then n.aba.coin[Round(s.epoch, s.round) := r.value] else n.aba.coin)),
       !r.Reused?)
  }

  function HandleAbaProof(c: Committee, n: Core, p: ABAProof): (Core, bool) {
    if Expired(n, p.epoch, p.round) || !ProofAccepted(c, p) then (n, Expired(n, p.epoch, p.round))
    else (n.(aba := n.aba.(proofs := n.aba.proofs[Round(p.epoch, p.round) := p])), true)
  }

  // ----- The agreement: sending -----

  function OwnVal(n: Core, epoch: nat, round: nat, val: nat, phase: nat): ABAVal {
    ABAVal(n.name, epoch, round, phase, val, Signature(n.name, AbaS(epoch, round, val, phase)))
  }

  function Logged(n: Core, e: AbaEvent): Core {
    n.(aba := n.aba.(log := n.aba.log + [e]))
  }

  /** The first timeout certificate for the epoch fixes the input of round 1. */
  function ProcessTc(c: Committee, n: Core, tc: TC): (Core, bool)
    requires HighQcRounds(tc) != []
  {
    var v := Maximum(HighQcRounds(tc));
    var n1 := Logged(n.(aba := n.aba.(input := n.aba.input[1 := v])), Input(n.epoch, 1, v));
    var (n2, ok) := HandleAbaVal(c, n1, OwnVal(n, n.epoch, 1, v, VAL_PHASE));
    (if ok then n2.(aba := n2.aba.(tcProcessed := true)) else n2, ok)
  }

  /** f + 1 support for another value than the input: relay it, once per round. */
  function ProcessVal1(c: Committee, n: Core, p: ABAProof): (Core, bool)
    requires p.round in n.aba.input
  {
    if n.aba.input[p.round] == p.val || n.aba.valSent then (n, true)
    else
      var n1 := Logged(n.(aba := n.aba.(valSent := true)), Relay(p.epoch, p.round, p.val));
      HandleAbaVal(c, n1, OwnVal(n, p.epoch, p.round, p.val, p.phase))
  }

  /** 2f + 1 support: the value enters `bin`; once `bin` is not empty, send AUX once per round. */
  function ProcessVal2(c: Committee, n: Core, p: ABAProof): (Core, bool) {
    var (n2, ok) :=
      if n.aba.bin == {} || n.aba.auxSent then (n, true)
      else
        var n1 := Logged(n.(aba := n.aba.(auxSent := true)), Aux(p.epoch, p.round, p.val));
        HandleAbaVal(c, n1, OwnVal(n, p.epoch, p.round, p.val, AUX_PHASE));
    if ok then (n2.(aba := n2.aba.(bin := n2.aba.bin + {p.val})), true) else (n2, false)
  }

  function ProcessAux(c: Committee, n: Core, epoch: nat, round: nat, combined: Option<nat>): (Core, bool) {
    if n.aba.coinSent then (n, true)
    else
      var n1 := Logged(n.(aba := n.aba.(coinSent := true)), CoinSent(epoch, round));
      HandleCoinShare(c, n1, Share(epoch, round, n.name, Signature(n.name, CoinS(epoch, round))), combined)
  }

  function KeepFrom<V>(table: map<Round, V>, epoch: nat, round: nat): map<Round, V> {
    map k | k in table && k.epoch == epoch && k.round >= round :: table[k]
  }

  function NextRound(a: Aba, epoch: nat, v: nat): Aba {
    var round := a.round + 1;
    a.(round := round, phase := VAL_PHASE, input := a.input[round := v],
       valSent := false, auxSent := false, coinSent := false, proofSent := false, bin := {},
       val1 := KeepFrom(a.val1, epoch, round), val2 := KeepFrom(a.val2, epoch, round),
       aux := KeepFrom(a.aux, epoch, round), auxNums := KeepFrom(a.auxNums, epoch, round),
       proofs := KeepFrom(a.proofs, epoch, round))
  }

  function RoundStarted(n: Core, v: nat): Core {
    Logged(n.(aba := NextRound(n.aba, n.epoch, v)), Input(n.epoch, n.aba.round + 1, v))
  }

  function AdvanceRound(c: Committee, n: Core, v: nat): (Core, bool) {
    HandleAbaVal(c, RoundStarted(n, v), OwnVal(n, n.epoch, n.aba.round + 1, v, VAL_PHASE))
  }

  function Decide(n: Core, v: nat): Core {
    Logged(n.(aba := n.aba.(output := Some(v))), Decided(n.epoch, n.aba.round, v))
  }

  function SendProof(n: Core, p: ABAProof): Core {
    if n.aba.proofSent then n else Logged(n.(aba := n.aba.(proofSent := true)), ProofSent(p))
  }

  function TheOne(s: set<nat>): nat
    requires |s| == 1
  {
    assert exists x :: s == {x} by {
      var x :| x in s;
      assert |s - {x}| == 0;
      assert s == {x};
    }
    assert forall x, y | x in s && y in s :: x == y;
    var x :| x in s;
    x
  }

  /** A single justified value is output if its parity is the coin's, otherwise it is carried on;
      with several, the AUX certificate's value is output on parity, otherwise the coin is carried on. */
  function ProcessCoin(c: Committee, n: Core, epoch: nat, round: nat, coin: nat): (Core, bool)
    requires |n.aba.bin| == 1 && TheOne(n.aba.bin) % 2 == coin ==> Round(epoch, round) in n.aba.aux
  {
    var key := Round(epoch, round);
    if |n.aba.bin| == 1 then
      var v := TheOne(n.aba.bin);
      if v % 2 == coin then (SendProof(Decide(n, v), n.aba.aux[key]), true) else AdvanceRound(c, n, v)
    else if key in n.aba.aux && n.aba.aux[key].val % 2 == coin then
      (SendProof(Decide(n, n.aba.aux[key].val), n.aba.aux[key]), true)
    else AdvanceRound(c, n, coin)
  }

  function ProcessProof(n: Core, p: ABAProof): Core {
    var key := Round(p.epoch, p.round);
    if key in n.aba.coin && p.val % 2 == n.aba.coin[key] then Decide(n, p.val) else n
  }

  // ----- The agreement: one pass of the phase machine -----

  function Now(n: Core): Round { Round(n.epoch, n.aba.round) }

  function EnterPhases(c: Committee, n: Core): Core {
    if !n.viewChange then n
    else
      var a := n.aba;
      var p1 := if a.phase == INIT_PHASE && a.tcProcessed then VAL_PHASE else a.phase;
      var p2 := if p1 == VAL_PHASE && a.bin != {} then AUX_PHASE else p1;
      var asked := p2 == AUX_PHASE && Now(n) in a.coin;
      var nums := if asked && Now(n) !in a.auxNums then a.auxNums[Now(n) := 0] else a.auxNums;
      var p3 := if asked && nums[Now(n)] >= QuorumThreshold(c)
                   && (|a.bin| == 2 || Now(n) in a.aux)
                then COIN_PHASE else p2;
      n.(aba := a.(phase := p3, auxNums := nums))
  }

  /** The local facts that keep every partial operation of the node defined. */
  ghost predicate NodeInv(c: Committee, n: Core) {
    && ChainsInv(c, n) && TcsInv(n) && PhaseInv(c, n) && CacheInv(n.aba) && OutputInv(n)
  }

  ghost predicate ChainsInv(c: Committee, n: Core) {
    && n.ledger.chains.Keys == c.Members()
    && n.name in n.ledger.chains
    && forall x | x in n.ledger.chains :: n.ledger.chains[x].name == x
  }

  ghost predicate TcsInv(n: Core) {
    forall e | e in n.tcs :: n.tcs[e].epoch == e && n.tcs[e].votes != []
  }

  ghost predicate PhaseInv(c: Committee, n: Core) {
    var a := n.aba;
    && a.round >= 1 && a.phase <= COIN_PHASE
    && (a.phase >= VAL_PHASE ==> a.tcProcessed)
    && (if a.tcProcessed then a.round in a.input else a.round == 1 && !a.valSent)
    && (a.phase >= AUX_PHASE ==> a.bin != {})
    && (a.phase == COIN_PHASE ==> Now(n) in a.coin && (|a.bin| >= 2 || Now(n) in a.aux))
    && (a.phase == COIN_PHASE ==> Now(n) in a.auxNums && a.auxNums[Now(n)] >= QuorumThreshold(c))
  }

  ghost predicate Keyed(table: map<Round, ABAProof>) {
    forall k | k in table :: Round(table[k].epoch, table[k].round) == k
  }

  ghost predicate CacheInv(a: Aba) {
    && Keyed(a.val1) && Keyed(a.val2) && Keyed(a.aux) && Keyed(a.proofs)
    && (forall k | k in a.val1 :: a.val1[k].phase == VAL_PHASE)
    && (forall k | k in a.coin :: a.coin[k] < 2)
  }

  /** A pending output was decided in the current round and has the parity of that round's coin. */
  ghost predicate OutputInv(n: Core) {
    n.aba.output.Some? ==>
      && Now(n) in n.aba.coin && n.aba.output.value % 2 == n.aba.coin[Now(n)]
      && Decided(n.epoch, n.aba.round, n.aba.output.value) in n.aba.log
  }

  // ----- The guarded steps of one pass -----

  function TcStep(c: Committee, n: Core): (Core, bool)
    requires NodeInv(c, n)
  {
    if !n.aba.tcProcessed && n.epoch in n.tcs then ProcessTc(c, n, n.tcs[n.epoch]) else (n, true)
  }

  function Val1Step(c: Committee, n: Core): (Core, bool)
    requires NodeInv(c, n)
  {
    if n.aba.phase >= VAL_PHASE && Now(n) in n.aba.val1 then ProcessVal1(c, n, n.aba.val1[Now(n)]) else (n, true)
  }

  function Val2Step(c: Committee, n: Core): (Core, bool) {
    if n.aba.phase >= VAL_PHASE && Now(n) in n.aba.val2 then ProcessVal2(c, n, n.aba.val2[Now(n)]) else (n, true)
  }

  function AuxStep(c: Committee, n: Core, combined: Option<nat>): (Core, bool) {
    if n.aba.phase >= AUX_PHASE && Now(n) in n.aba.aux then
      ProcessAux(c, n, n.aba.aux[Now(n)].epoch, n.aba.aux[Now(n)].round, combined)
    else (n, true)
  }

  function CoinStep(c: Committee, n: Core): (Core, bool)
    requires NodeInv(c, n)
  {
    if n.aba.phase >= COIN_PHASE && Now(n) in n.aba.coin then
      ProcessCoin(c, n, n.epoch, n.aba.round, n.aba.coin[Now(n)])
    else (n, true)
  }

  function ProofStep(n: Core): Core {
    if n.viewChange && Now(n) in n.aba.proofs then ProcessProof(n, n.aba.proofs[Now(n)]) else n
  }

  // ----- Closing the epoch -----

  function KeepEpochs<V>(table: map<Round, V>, epoch: nat): map<Round, V> {
    map k | k in table && k.epoch >= epoch :: table[k]
  }

  function NextEpochAba(a: Aba, epoch: nat): Aba {
    Aba(false, false, false, false, false, CleanupAba(a.tables, epoch), {}, 1, INIT_PHASE, None, map[],
        KeepEpochs(a.val1, epoch), KeepEpochs(a.val2, epoch), KeepEpochs(a.aux, epoch),
        KeepEpochs(a.auxNums, epoch), KeepEpochs(a.coin, epoch), KeepEpochs(a.proofs, epoch), a.log)
  }

  function Restarted(chain: Chain, output: nat): Chain {
    chain.(heightToDigest := map k | k in chain.heightToDigest && k > output :: chain.heightToDigest[k],
           highQc := GENESIS_QC, epoch := chain.epoch + 1, height := output + NEXT_EPOCH_HEIGHT,
           lastCommitted := output + NEXT_EPOCH_HEIGHT - 1)
  }

  function KeepTcs(tcs: map<nat, TC>, epoch: nat): map<nat, TC> {
    map e | e in tcs && e >= epoch :: tcs[e]
  }

  function NextEpochLedger(l: Ledger, x: PublicKey, name: PublicKey, epoch: nat, output: nat, draft: Draft): Ledger
    requires x in l.chains
  {
    var chains := l.chains[x := Restarted(l.chains[x], output)];
    l.(chains := chains, record := NewRecord(epoch, chains), past := l.past + [l.record],
       log := l.log + if x == name then [Proposed(Proposal(chains, name, true, draft))] else [])
  }

  function NextEpoch(c: Committee, n: Core, draft: Draft): Core
    requires LeaderOf(c, n.epoch) in n.ledger.chains && n.aba.output.Some?
  {
    var epoch := n.epoch + 1;
    Core(n.name, epoch, false, KeepTcs(n.tcs, epoch),
         NextEpochLedger(n.ledger, LeaderOf(c, n.epoch), n.name, epoch, n.aba.output.value, draft),
         NextEpochAba(n.aba, epoch))
  }

  /** The block the epoch is closed with, if it is at hand. */
  function Closing(c: Committee, n: Core): Option<Block>
    requires LeaderOf(c, n.epoch) in n.ledger.chains
  {
    if n.aba.output.Some? then BlockAt(n.ledger.store, n.ledger.chains[LeaderOf(c, n.epoch)], n.aba.output.value)
    else None
  }

  ghost predicate ClosingReturns(c: Committee, n: Core)
    requires LeaderOf(c, n.epoch) in n.ledger.chains
  {
    Closing(c, n).Some? ==>
      CommitReturns(c, n, n.ledger.chains[LeaderOf(c, n.epoch)], Some(Closing(c, n).value.height))
  }

  ghost function ClosingCommit(c: Committee, n: Core, b: Block): (n': Core)
    requires LeaderOf(c, n.epoch) in n.ledger.chains
    ensures LeaderOf(c, n.epoch) in n'.ledger.chains && n' == n.(ledger := n'.ledger)
  {
    CommitTo(c, n, n.ledger.chains[LeaderOf(c, n.epoch)], Some(b.height))
  }

  /** Once the output's block is at hand: commit it, restart the leader's chain, next epoch. */
  ghost function CloseEpoch(c: Committee, n: Core, draft: Draft): Core
    requires NodeInv(c, n) && n.aba.output.Some?
  {
    var b := Closing(c, n);
    if b.None? then n else NextEpoch(c, ClosingCommit(c, n, b.value), draft)
  }

  /** Receiving changes the tables and caches of the agreement and nothing else. */
  ghost predicate OnlyCaches(n: Core, n': Core) {
    && n' == n.(aba := n'.aba)
    && n'.aba == n.aba.(tables := n'.aba.tables, auxNums := n'.aba.auxNums, aux := n'.aba.aux,
                        val1 := n'.aba.val1, val2 := n'.aba.val2, coin := n'.aba.coin, proofs := n'.aba.proofs)
  }

  lemma HandleAbaValFrame(c: Committee, n: Core, m: ABAVal)
    ensures OnlyCaches(n, HandleAbaVal(c, n, m).0)
    ensures HandleAbaVal(c, n, m).0.aba.coin == n.aba.coin
  {}

  lemma HandleCoinShareFrame(c: Committee, n: Core, s: Share, combined: Option<nat>)
    ensures OnlyCaches(n, HandleCoinShare(c, n, s, combined).0)
  {}

  lemma HandleAbaProofFrame(c: Committee, n: Core, p: ABAProof)
    ensures OnlyCaches(n, HandleAbaProof(c, n, p).0)
  {}

  /** What entering `epoch` does to everything outside the ledger. */
  ghost predicate Enters(name: PublicKey, epoch: nat, tcs: map<nat, TC>, a: Aba, n': Core) {
    n'.name == name && n'.epoch == epoch && !n'.viewChange && n'.tcs == KeepTcs(tcs, epoch)
    && n'.aba == NextEpochAba(a, epoch)
  }

  lemma NextEpochShape(c: Committee, n: Core, draft: Draft)
    requires LeaderOf(c, n.epoch) in n.ledger.chains && n.aba.output.Some?
    ensures Enters(n.name, n.epoch + 1, n.tcs, n.aba, NextEpoch(c, n, draft))
  {
    var n', a', t' := NextEpoch(c, n, draft), NextEpochAba(n.aba, n.epoch + 1), KeepTcs(n.tcs, n.epoch + 1);
    assert n'.aba == a' && n'.tcs == t';
  }

  /** Closing either waits for the output's block or moves to the next epoch. */
  lemma CloseEpochShape(c: Committee, n: Core, draft: Draft)
    requires NodeInv(c, n) && n.aba.output.Some?
    ensures CloseEpoch(c, n, draft) == n
            || Enters(n.name, n.epoch + 1, n.tcs, n.aba, CloseEpoch(c, n, draft))
  {
    var b := Closing(c, n);
    if b.Some? {
      var n1 := ClosingCommit(c, n, b.value);
      NextEpochShape(c, n1, draft);
      var e, tcs, a, n' := n.epoch + 1, n.tcs, n.aba, NextEpoch(c, n1, draft);
      assert Enters(n.name, e, tcs, a, n');
    }
  }

  function AuxLogged(n: Core, p: ABAProof): Core {
    Logged(n.(aba := n.aba.(auxSent := true)), Aux(p.epoch, p.round, p.val))
  }

  function WithBin(n: Core, v: nat): Core {
    n.(aba := n.aba.(bin := n.aba.bin + {v}))
  }

  /** What the second value step does when there is a certificate: perhaps send AUX, then perhaps
      accept the value. */
  lemma Val2StepCases(c: Committee, n: Core) returns (p: ABAProof, n2: Core)
    requires n.aba.phase >= VAL_PHASE && Now(n) in n.aba.val2
    ensures p == n.aba.val2[Now(n)]
    ensures n2 == if n.aba.bin == {} || n.aba.auxSent then n
                  else HandleAbaVal(c, AuxLogged(n, p), OwnVal(n, p.epoch, p.round, p.val, AUX_PHASE)).0
    ensures Val2Step(c, n).0 == n2 || Val2Step(c, n).0 == WithBin(n2, p.val)
  {
    p := n.aba.val2[Now(n)];
    n2 := if n.aba.bin == {} || n.aba.auxSent then n
          else HandleAbaVal(c, AuxLogged(n, p), OwnVal(n, p.epoch, p.round, p.val, AUX_PHASE)).0;
  }

  /** What the coin step does in the coin phase: decide `v` and send the certificate, or carry `v` on. */
  lemma CoinStepCases(c: Committee, n: Core) returns (decided: bool, v: nat)
    requires NodeInv(c, n) && n.aba.phase == COIN_PHASE
    ensures Now(n) in n.aba.coin
    ensures decided ==>
              && Now(n) in n.aba.aux && v % 2 == n.aba.coin[Now(n)]
              && CoinStep(c, n) == (SendProof(Decide(n, v), n.aba.aux[Now(n)]), true)
    ensures !decided ==> CoinStep(c, n) == AdvanceRound(c, n, v)
    ensures if |n.aba.bin| == 1 then v == TheOne(n.aba.bin)
            else if decided then v == n.aba.aux[Now(n)].val
            else v == n.aba.coin[Now(n)]
  {
    var coin := n.aba.coin[Now(n)];
    if |n.aba.bin| == 1 {
      v := TheOne(n.aba.bin);
      decided := v % 2 == coin;
    } else {
      decided := Now(n) in n.aba.aux && n.aba.aux[Now(n)].val % 2 == coin;
      v := if decided then n.aba.aux[Now(n)].val else coin;
    }
  }
}
