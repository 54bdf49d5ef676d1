/** Why the delivery theorems ask that no commit leads back. A run of two honest nodes and one faulty
    authority, whose second block refers to its first. One node commits the two in two steps; the
    other meets the second block late and commits both at once, delivering the first one twice. */
module ReentryRuns {
  import opened Committees
  import opened Options
  import opened Messages
  import opened Aggregators
  import opened Commits
  import opened Delivery
  import opened Reentries
  import opened Nodes
  import opened Worlds
  import opened Systems
  import opened Records
  import opened DeliveryTheorems
  import opened ThreeNodes
  import opened ThreeRuns
  import opened CommitExamples

  const THIRD := SignedBlock(Cert(UPPER), LEADER, 3, 0, [], [])
  const FOURTH := SignedBlock(Cert(THIRD), LEADER, 4, 0, [], [])

  // ----- What the run uses of the leader's blocks -----

  /** The leader's four blocks. */
  datatype Tower = Tower(lower: Block, upper: Block, third: Block, fourth: Block)

  /** A block of the leader at height h. */
  ghost predicate NextUp(b: Block, h: nat) {
    b.author == LEADER && b.height == h && b.epoch == 0 && b.qc.height + 1 == h && BlockAccepted(Three(), b)
  }

  /** Committing up to a height, on a table that has the chain at hand with n heights committed. */
  ghost predicate CanStep(lower: Block, upper: Block, store: Store, chains: Chains, chain: Chain, n: nat, height: nat) {
    StackedOn(lower, upper, store, chains, chain, n) && n < height <= 2
  }

  function Pushed(lower: Block, upper: Block, n: nat, height: nat): seq<Block> {
    if height == 1 then [lower] else if n == 0 then [lower, lower, upper] else [upper]
  }

  ghost predicate StepsTo(lower: Block, upper: Block, store: Store, chains: Chains, chain: Chain, n: nat, height: nat) {
    var r := CommitResult(store, LEADER, chains, chain, height);
    && r.Returned? && r.ok && r.chain == chain.(lastCommitted := height) && ButLeader(chains, r.chains)
    && r.out == Pushed(lower, upper, n, height)
    && (NoReentry(store, LEADER, chains, chain, height) <==> !(n == 0 && height == 2))
  }

  /** Only the leader's chain differs. */
  ghost predicate ButLeader(a: Chains, b: Chains) {
    a.Keys == b.Keys && forall y | y in a && y != LEADER :: b[y] == a[y]
  }

  ghost predicate Built(t: Tower) {
    && NextUp(t.lower, 1) && NextUp(t.upper, 2) && NextUp(t.third, 3) && NextUp(t.fourth, 4)
    && Certifying(t)
  }

  /** Each block extends the certificate of the one below. */
  ghost predicate Certifying(t: Tower) {
    && IsGenesis(t.lower.qc) && t.upper.qc == Cert(t.lower) && t.third.qc == Cert(t.upper)
    && t.fourth.qc == Cert(t.third)
  }

  ghost predicate Stepping(t: Tower) {
    forall store, chains, chain, n: nat, height: nat :: CanStep(t.lower, t.upper, store, chains, chain, n, height) ==>
      StepsTo(t.lower, t.upper, store, chains, chain, n, height)
  }

  // ----- The leader's chain on the way -----

  /** The leader's chain before its block at height h, or after it but before its certificate. */
  ghost predicate Level(entry: Chain, h: nat, done: nat) {
    && entry.epoch == 0 && entry.height == h && entry.highQc.height + 1 == h && entry.lastVoted <= h
    && entry.lastCommitted == done
  }

  ghost predicate Open(entry: Chain, h: nat, done: nat) {
    Level(entry, h, done) && entry.lastVoted < h
  }

  lemma NextLevel(entry: Chain, h: nat, done: nat, b: Block)
    requires Level(entry, h, done) && NextUp(b, h)
    ensures var next := QcOnChain(0, entry, Cert(b));
            Open(next, h + 1, done) && next.heightToDigest == entry.heightToDigest[h := DigestOf(b)]
  {}

  lemma TakeCert(tr: seq<World>, x: PublicKey, chains: Chains, store: Store, log: seq<ChainEvent>, rec: Record,
                 b: Block, h: nat, done: nat) returns (tr': seq<World>, entry: Chain)
    requires At(tr, x, chains, store, log, rec) && OtherVoted(tr, b) && NextUp(b, h)
    requires LEADER in chains && Level(chains[LEADER], h, done)
    ensures Onward(tr, tr', x) && At(tr', x, chains[LEADER := entry], store, log, rec)
    ensures Open(entry, h + 1, done)
    ensures entry.heightToDigest == chains[LEADER].heightToDigest[h := DigestOf(b)]
  {
    CertExists(Last(tr), b);
    NextLevel(chains[LEADER], h, done, b);
    entry := QcOnChain(0, chains[LEADER], Cert(b));
    tr' := TakeQc(tr, x, chains, store, log, rec, LEADER, Cert(b));
  }

  ghost predicate CanCome(tr: seq<World>, b: Block)
    requires tr != []
  {
    ProperBlock(Three(), Known(Last(tr)), b)
  }

  lemma FirstComes(tr: seq<World>, b: Block)
    requires Ran(tr) && NextUp(b, 1) && IsGenesis(b.qc)
    ensures CanCome(tr, b)
  {}

  lemma NextComes(tr: seq<World>, b: Block, below: Block, h: nat)
    requires Ran(tr) && NextUp(b, h) && b.qc == Cert(below) && NextUp(below, h - 1) && OtherVoted(tr, below)
    ensures CanCome(tr, b)
  {
    CertExists(Last(tr), below);
  }

  /** A block that commits nothing, and its certificate. */
  lemma Round(tr: seq<World>, x: PublicKey, chains: Chains, store: Store, log: seq<ChainEvent>, rec: Record,
              b: Block, h: nat, done: nat) returns (tr': seq<World>, entry: Chain)
    requires At(tr, x, chains, store, log, rec) && (x == OTHER || OtherVoted(tr, b)) && NextUp(b, h)
    requires LEADER in chains && Open(chains[LEADER], h, done)
    requires CanCome(tr, b) && CommitsNothing(store[DigestOf(b) := b], b)
    ensures Onward(tr, tr', x) && OtherVoted(tr', b)
    ensures At(tr', x, chains[LEADER := entry], store[DigestOf(b) := b], log + [Voted(b, 0)], rec)
    ensures Open(entry, h + 1, done)
    ensures entry.heightToDigest == chains[LEADER].heightToDigest[h := DigestOf(b)]
  {
    var voted := chains[LEADER].(lastVoted := h);
    NextLevel(voted, h, done, b);
    entry := QcOnChain(0, voted, Cert(b));
    tr' := LeaderRound(tr, x, chains, store, log, rec, b);
  }

  lemma PutOver(a: Chains, b: Chains, c: Chain)
    requires ButLeader(a, b) && LEADER in a
    ensures b[LEADER := c] == a[LEADER := c]
  {}

  lemma RecordOfStep(t: Tower, x: PublicKey, chains: Chains, store: Store, rec: Record, n: nat, height: nat)
    requires LEADER in chains && CanStep(t.lower, t.upper, store, chains, chains[LEADER], n, height)
    requires StepsTo(t.lower, t.upper, store, chains, chains[LEADER], n, height) && x in chains && x != LEADER
    ensures RecordAfter(x, chains, store, rec, height, CommitResult(store, LEADER, chains, chains[LEADER], height))
            == rec.(plain := rec.plain && !(n == 0 && height == 2),
                    out := rec.out + Pushed(t.lower, t.upper, n, height), top := Max(rec.top, height))
  {
    var r := CommitResult(store, LEADER, chains, chains[LEADER], height);
    assert chains[LEADER := chains[LEADER]] == chains;
    assert Delivered(store, chains, r.chains[LEADER := r.chain], x) == map[];
  }

  /** A block that commits. */
  lemma CommitUp(t: Tower, tr: seq<World>, x: PublicKey, chains: Chains, store: Store, log: seq<ChainEvent>,
                 rec: Record, b: Block, h: nat, n: nat, height: nat)
    returns (tr': seq<World>, entry: Chain, rec': Record)
    requires At(tr, x, chains, store, log, rec) && x in chains && x != LEADER && NextUp(b, h) && CanCome(tr, b)
    requires LEADER in chains && Open(chains[LEADER], h, n) && CommitsHeight(store[DigestOf(b) := b], b, height)
    requires Stepping(t) && CanStep(t.lower, t.upper, store[DigestOf(b) := b], chains, chains[LEADER], n, height)
    ensures Onward(tr, tr', x)
    ensures At(tr', x, chains[LEADER := entry], store[DigestOf(b) := b], log + [Voted(b, 0)], rec')
    ensures Level(entry, h, height) && entry.heightToDigest == chains[LEADER].heightToDigest
    ensures rec' == rec.(plain := rec.plain && !(n == 0 && height == 2),
                         out := rec.out + Pushed(t.lower, t.upper, n, height), top := Max(rec.top, height))
  {
    var store' := store[DigestOf(b) := b];
    var r := CommitResult(store', LEADER, chains, chains[LEADER], height);
    assert StepsTo(t.lower, t.upper, store', chains, chains[LEADER], n, height);
    entry := r.chain.(lastVoted := h);
    rec' := RecordAfter(x, chains, store', rec, height, r);
    tr' := TakeCommit(tr, x, chains, store, log, rec, b, height, r);
    PutOver(chains, r.chains, entry);
    RecordOfStep(t, x, chains, store', rec, n, height);
  }

  // ----- What the blocks commit -----

  ghost predicate Holds(store: Store, b: Block) {
    GetBlock(store, DigestOf(b)) == Some(b)
  }

  ghost predicate ShowsBoth(t: Tower, entry: Chain) {
    Shows(entry, 1, t.lower) && Shows(entry, 2, t.upper)
  }

  ghost predicate Shows(entry: Chain, h: nat, b: Block) {
    h in entry.heightToDigest && entry.heightToDigest[h] == DigestOf(b)
  }

  lemma LowerCommitsNothing(b: Block, store: Store)
    requires IsGenesis(b.qc)
    ensures CommitsNothing(store, b)
  {}

  lemma UpperCommitsNothing(t: Tower, store: Store)
    requires Built(t) && (Holds(store, t.lower) || DigestOf(t.lower) !in store)
    ensures CommitsNothing(store[DigestOf(t.upper) := t.upper], t.upper)
  {}

  lemma ThirdCommitsNothing(t: Tower, store: Store)
    requires Built(t) && DigestOf(t.upper) !in store
    ensures CommitsNothing(store[DigestOf(t.third) := t.third], t.third)
  {}

  lemma ThirdCommits(t: Tower, store: Store, chains: Chains)
    requires Built(t) && Holds(store, t.lower) && Holds(store, t.upper)
    requires LEADER in chains && Open(chains[LEADER], 3, 0) && ShowsBoth(t, chains[LEADER])
    ensures var store' := store[DigestOf(t.third) := t.third];
            CommitsHeight(store', t.third, 1) && CanStep(t.lower, t.upper, store', chains, chains[LEADER], 0, 1)
  {}

  lemma FourthCommits(t: Tower, store: Store, chains: Chains, n: nat)
    requires Built(t) && Holds(store, t.lower) && Holds(store, t.upper) && Holds(store, t.third)
    requires LEADER in chains && Open(chains[LEADER], 4, n) && ShowsBoth(t, chains[LEADER]) && n <= 1
    ensures var store' := store[DigestOf(t.fourth) := t.fourth];
            CommitsHeight(store', t.fourth, 2) && CanStep(t.lower, t.upper, store', chains, chains[LEADER], n, 2)
  {}

  function OneBlock(t: Tower): Store {
    map[DigestOf(t.lower) := t.lower]
  }

  function TwoBlocks(t: Tower): Store {
    OneBlock(t)[DigestOf(t.upper) := t.upper]
  }

  function ThreeBlocks(t: Tower): Store {
    OneBlock(t)[DigestOf(t.third) := t.third][DigestOf(t.upper) := t.upper]
  }

  /** Digests tell heights apart. */
  lemma StoresHold(t: Tower)
    requires Built(t)
    ensures Holds(OneBlock(t), t.lower) && DigestOf(t.upper) !in OneBlock(t)
    ensures Holds(TwoBlocks(t), t.lower) && Holds(TwoBlocks(t), t.upper)
    ensures Holds(ThreeBlocks(t), t.lower) && Holds(ThreeBlocks(t), t.upper) && Holds(ThreeBlocks(t), t.third)
  {}

  // ----- Rounds both nodes go through -----

  lemma LowerRound(t: Tower, tr: seq<World>, x: PublicKey, chains: Chains, log: seq<ChainEvent>)
    returns (tr': seq<World>, entry: Chain)
    requires Built(t) && At(tr, x, chains, map[], log, Fresh()) && (x == OTHER || OtherVoted(tr, t.lower))
    requires LEADER in chains && Open(chains[LEADER], 1, 0)
    ensures Onward(tr, tr', x) && OtherVoted(tr', t.lower)
    ensures At(tr', x, chains[LEADER := entry], map[DigestOf(t.lower) := t.lower], log + [Voted(t.lower, 0)], Fresh())
    ensures Open(entry, 2, 0) && Shows(entry, 1, t.lower)
  {
    FirstComes(tr, t.lower);
    LowerCommitsNothing(t.lower, map[DigestOf(t.lower) := t.lower]);
    tr', entry := Round(tr, x, chains, map[], log, Fresh(), t.lower, 1, 0);
  }

  /** The last block commits up to the second. */
  lemma FourthRound(t: Tower, tr: seq<World>, x: PublicKey, chains: Chains, store: Store, log: seq<ChainEvent>,
                    rec: Record, n: nat) returns (tr': seq<World>)
    requires Built(t) && Stepping(t) && At(tr, x, chains, store, log, rec) && OtherVoted(tr, t.third)
    requires Holds(store, t.lower) && Holds(store, t.upper) && Holds(store, t.third) && x in chains && x != LEADER
    requires LEADER in chains && Open(chains[LEADER], 4, n) && ShowsBoth(t, chains[LEADER]) && n <= 1
    ensures Onward(tr, tr', x) && x in Last(tr') && Last(tr')[x].ledger.past == []
    ensures Last(tr')[x].ledger.record
            == rec.(plain := rec.plain && n != 0, out := rec.out + Pushed(t.lower, t.upper, n, 2),
                    top := Max(rec.top, 2))
    ensures log <= Last(tr')[x].ledger.log
  {
    NextComes(tr, t.fourth, t.third, 4);
    FourthCommits(t, store, chains, n);
    var entry, rec';
    tr', entry, rec' := CommitUp(t, tr, x, chains, store, log, rec, t.fourth, 4, n, 2);
  }

  // ----- The node that commits in two steps -----

  lemma UpperRound(t: Tower, tr: seq<World>, chains: Chains, store: Store, log: seq<ChainEvent>)
    returns (tr': seq<World>, entry: Chain)
    requires Built(t) && At(tr, OTHER, chains, store, log, Fresh()) && OtherVoted(tr, t.lower) && Holds(store, t.lower)
    requires LEADER in chains && Open(chains[LEADER], 2, 0) && Shows(chains[LEADER], 1, t.lower)
    ensures Onward(tr, tr', OTHER) && OtherVoted(tr', t.upper)
    ensures At(tr', OTHER, chains[LEADER := entry], store[DigestOf(t.upper) := t.upper],
               log + [Voted(t.upper, 0)], Fresh())
    ensures Open(entry, 3, 0) && ShowsBoth(t, entry)
  {
    NextComes(tr, t.upper, t.lower, 2);
    UpperCommitsNothing(t, store);
    tr', entry := Round(tr, OTHER, chains, store, log, Fresh(), t.upper, 2, 0);
  }

  lemma ThirdRound(t: Tower, tr: seq<World>, chains: Chains, store: Store, log: seq<ChainEvent>)
    returns (tr': seq<World>, entry: Chain, rec: Record)
    requires Built(t) && Stepping(t) && At(tr, OTHER, chains, store, log, Fresh()) && OtherVoted(tr, t.upper)
    requires Holds(store, t.lower) && Holds(store, t.upper) && OTHER in chains
    requires LEADER in chains && Open(chains[LEADER], 3, 0) && ShowsBoth(t, chains[LEADER])
    ensures Onward(tr, tr', OTHER) && OtherVoted(tr', t.third)
    ensures At(tr', OTHER, chains[LEADER := entry], store[DigestOf(t.third) := t.third], log + [Voted(t.third, 0)], rec)
    ensures Level(entry, 3, 1) && ShowsBoth(t, entry)
    ensures rec == Fresh().(out := Fresh().out + [t.lower], top := 1)
  {
    NextComes(tr, t.third, t.upper, 3);
    ThirdCommits(t, store, chains);
    tr', entry, rec := CommitUp(t, tr, OTHER, chains, store, log, Fresh(), t.third, 3, 0, 1);
    VotedNow(tr', OTHER, log, t.third);
  }

  lemma ThirdCert(t: Tower, tr: seq<World>, x: PublicKey, chains: Chains, store: Store, log: seq<ChainEvent>,
                  rec: Record, n: nat) returns (tr': seq<World>, entry: Chain)
    requires Built(t) && At(tr, x, chains, store, log, rec) && OtherVoted(tr, t.third)
    requires LEADER in chains && Level(chains[LEADER], 3, n) && ShowsBoth(t, chains[LEADER])
    ensures Onward(tr, tr', x) && At(tr', x, chains[LEADER := entry], store, log, rec)
    ensures Open(entry, 4, n) && ShowsBoth(t, entry)
  {
    tr', entry := TakeCert(tr, x, chains, store, log, rec, t.third, 3, n);
  }

  /** Everything the leader needs the other node's votes for. */
  ghost predicate OtherReady(t: Tower, tr: seq<World>)
    requires tr != []
  {
    OtherVoted(tr, t.lower) && OtherVoted(tr, t.upper) && OtherVoted(tr, t.third)
  }

  lemma ReadyAfter(t: Tower, tr: seq<World>, log: seq<ChainEvent>)
    requires tr != [] && OTHER in Last(tr)
    requires log + [Voted(t.lower, 0)] + [Voted(t.upper, 0)] + [Voted(t.third, 0)] <= Last(tr)[OTHER].ledger.log
    ensures OtherReady(t, tr)
  {
    var all := Last(tr)[OTHER].ledger.log;
    var some := log + [Voted(t.lower, 0)] + [Voted(t.upper, 0)] + [Voted(t.third, 0)];
    assert some[|log|] == all[|log|] && some[|log| + 1] == all[|log| + 1] && some[|log| + 2] == all[|log| + 2];
  }

  ghost predicate TwoSteps(t: Tower, r: Record) {
    r == Fresh().(out := Fresh().out + [t.lower] + [t.upper], top := 2)
  }

  lemma OtherClimbs(t: Tower, tr: seq<World>, chains: Chains, log: seq<ChainEvent>)
    returns (tr': seq<World>, chains': Chains)
    requires Built(t) && At(tr, OTHER, chains, map[], log, Fresh()) && LEADER in chains && Open(chains[LEADER], 1, 0)
    ensures Onward(tr, tr', OTHER) && OtherVoted(tr', t.upper) && chains'.Keys == chains.Keys
    ensures At(tr', OTHER, chains', TwoBlocks(t), log + [Voted(t.lower, 0)] + [Voted(t.upper, 0)], Fresh())
    ensures Open(chains'[LEADER], 3, 0) && ShowsBoth(t, chains'[LEADER])
  {
    StoresHold(t);
    var tr1, e1 := LowerRound(t, tr, OTHER, chains, log);
    var chains1, log1 := chains[LEADER := e1], log + [Voted(t.lower, 0)];
    var e2;
    tr', e2 := UpperRound(t, tr1, chains1, OneBlock(t), log1);
    chains' := chains1[LEADER := e2];
    OnwardOn(tr, tr1, tr', OTHER);
  }

  lemma OtherDelivers(t: Tower, tr: seq<World>, chains: Chains, log: seq<ChainEvent>) returns (tr': seq<World>)
    requires Built(t) && Stepping(t) && At(tr, OTHER, chains, map[], log, Fresh()) && OTHER in chains
    requires LEADER in chains && Open(chains[LEADER], 1, 0)
    ensures Onward(tr, tr', OTHER) && OtherReady(t, tr')
    ensures TwoSteps(t, Last(tr')[OTHER].ledger.record) && Last(tr')[OTHER].ledger.past == []
  {
    StoresHold(t);
    var tr1, chains1 := OtherClimbs(t, tr, chains, log);
    tr' := OtherCommits(t, tr1, chains1, TwoBlocks(t), log + [Voted(t.lower, 0)] + [Voted(t.upper, 0)]);
    ReadyAfter(t, tr', log);
    OnwardOn(tr, tr1, tr', OTHER);
  }

  lemma OtherCommits(t: Tower, tr: seq<World>, chains: Chains, store: Store, log: seq<ChainEvent>)
    returns (tr': seq<World>)
    requires Built(t) && Stepping(t) && At(tr, OTHER, chains, store, log, Fresh()) && OtherVoted(tr, t.upper)
    requires Holds(store, t.lower) && Holds(store, t.upper) && OTHER in chains
    requires LEADER in chains && Open(chains[LEADER], 3, 0) && ShowsBoth(t, chains[LEADER])
    ensures Onward(tr, tr', OTHER) && OTHER in Last(tr') && Last(tr')[OTHER].ledger.past == []
    ensures log + [Voted(t.third, 0)] <= Last(tr')[OTHER].ledger.log
    ensures TwoSteps(t, Last(tr')[OTHER].ledger.record)
  {
    var store1 := store[DigestOf(t.third) := t.third];
    var tr1, e1, rec := ThirdRound(t, tr, chains, store, log);
    StillHold(t, store);
    tr' := OtherEnds(t, tr1, chains[LEADER := e1], store1, log + [Voted(t.third, 0)], rec);
    OnwardOn(tr, tr1, tr', OTHER);
  }

  lemma StillHold(t: Tower, store: Store)
    requires Built(t) && Holds(store, t.lower) && Holds(store, t.upper)
    ensures var store' := store[DigestOf(t.third) := t.third];
            Holds(store', t.lower) && Holds(store', t.upper) && Holds(store', t.third)
  {}

  lemma OtherEnds(t: Tower, tr: seq<World>, chains: Chains, store: Store, log: seq<ChainEvent>, rec: Record)
    returns (tr': seq<World>)
    requires Built(t) && Stepping(t) && At(tr, OTHER, chains, store, log, rec) && OtherVoted(tr, t.third)
    requires Holds(store, t.lower) && Holds(store, t.upper) && Holds(store, t.third) && OTHER in chains
    requires LEADER in chains && Level(chains[LEADER], 3, 1) && ShowsBoth(t, chains[LEADER])
    requires rec == Fresh().(out := Fresh().out + [t.lower], top := 1)
    ensures Onward(tr, tr', OTHER) && OTHER in Last(tr') && Last(tr')[OTHER].ledger.past == []
    ensures log <= Last(tr')[OTHER].ledger.log && TwoSteps(t, Last(tr')[OTHER].ledger.record)
  {
    var tr1, e1 := ThirdCert(t, tr, OTHER, chains, store, log, rec, 1);
    StillVoted(tr, tr1, t.third, chains[LEADER := e1], store, log, rec);
    tr' := FourthRound(t, tr1, OTHER, chains[LEADER := e1], store, log, rec, 1);
    OnwardOn(tr, tr1, tr', OTHER);
  }

  lemma StillVoted(tr: seq<World>, tr': seq<World>, b: Block, chains: Chains, store: Store, log: seq<ChainEvent>,
                   rec: Record)
    requires tr != [] && OtherVoted(tr, b) && Last(tr)[OTHER].ledger.log == log
    requires At(tr', OTHER, chains, store, log, rec)
    ensures OtherVoted(tr', b)
  {}

  // ----- The node that meets the second block late -----

  /** The certificate for the second block comes before the block. */
  lemma SkipsUpper(t: Tower, tr: seq<World>, chains: Chains, store: Store, log: seq<ChainEvent>)
    returns (tr': seq<World>, entry: Chain)
    requires Built(t) && At(tr, OWNER, chains, store, log, Fresh()) && OtherVoted(tr, t.upper)
    requires LEADER in chains && Open(chains[LEADER], 2, 0) && Shows(chains[LEADER], 1, t.lower)
    ensures Onward(tr, tr', OWNER) && At(tr', OWNER, chains[LEADER := entry], store, log, Fresh())
    ensures Open(entry, 3, 0) && ShowsBoth(t, entry)
  {
    tr', entry := TakeCert(tr, OWNER, chains, store, log, Fresh(), t.upper, 2, 0);
  }

  lemma VotesThird(t: Tower, tr: seq<World>, chains: Chains, store: Store, log: seq<ChainEvent>)
    returns (tr': seq<World>, entry: Chain)
    requires Built(t) && At(tr, OWNER, chains, store, log, Fresh()) && OtherVoted(tr, t.upper)
    requires DigestOf(t.upper) !in store
    requires LEADER in chains && Open(chains[LEADER], 3, 0) && ShowsBoth(t, chains[LEADER])
    ensures Onward(tr, tr', OWNER) && Level(entry, 3, 0) && ShowsBoth(t, entry)
    ensures At(tr', OWNER, chains[LEADER := entry], store[DigestOf(t.third) := t.third],
               log + [Voted(t.third, 0)], Fresh())
  {
    NextComes(tr, t.third, t.upper, 3);
    ThirdCommitsNothing(t, store);
    entry := chains[LEADER].(lastVoted := 3);
    tr' := TakeBlock(tr, OWNER, chains, store, log, Fresh(), t.third);
  }

  lemma MeetsUpper(t: Tower, tr: seq<World>, chains: Chains, store: Store, log: seq<ChainEvent>)
    returns (tr': seq<World>)
    requires Built(t) && At(tr, OWNER, chains, store, log, Fresh()) && OtherVoted(tr, t.lower) && Holds(store, t.lower)
    requires LEADER in chains && Level(chains[LEADER], 3, 0)
    ensures Onward(tr, tr', OWNER) && At(tr', OWNER, chains, store[DigestOf(t.upper) := t.upper], log, Fresh())
  {
    NextComes(tr, t.upper, t.lower, 2);
    UpperCommitsNothing(t, store);
    tr' := TakeLate(tr, OWNER, chains, store, log, Fresh(), t.upper);
  }

  lemma OwnerSkips(t: Tower, tr: seq<World>, chains: Chains, log: seq<ChainEvent>)
    returns (tr': seq<World>, chains': Chains)
    requires Built(t) && At(tr, OWNER, chains, map[], log, Fresh()) && OtherReady(t, tr) && OWNER in chains
    requires LEADER in chains && Open(chains[LEADER], 1, 0)
    ensures Onward(tr, tr', OWNER) && chains'.Keys == chains.Keys
    ensures At(tr', OWNER, chains', OneBlock(t), log + [Voted(t.lower, 0)], Fresh())
    ensures Open(chains'[LEADER], 3, 0) && ShowsBoth(t, chains'[LEADER])
  {
    var tr1, e1 := LowerRound(t, tr, OWNER, chains, log);
    var chains1, log1 := chains[LEADER := e1], log + [Voted(t.lower, 0)];
    OthersStay(tr, tr1, t.upper);
    var e2;
    tr', e2 := SkipsUpper(t, tr1, chains1, OneBlock(t), log1);
    chains' := chains1[LEADER := e2];
    OnwardOn(tr, tr1, tr', OWNER);
  }

  lemma OthersStay(tr: seq<World>, tr': seq<World>, b: Block)
    requires Onward(tr, tr', OWNER) && OtherVoted(tr, b)
    ensures OtherVoted(tr', b)
  {}

  lemma OwnerCatchesUp(t: Tower, tr: seq<World>, chains: Chains, store: Store, log: seq<ChainEvent>)
    returns (tr': seq<World>, chains': Chains)
    requires Built(t) && At(tr, OWNER, chains, store, log, Fresh()) && OtherReady(t, tr) && OWNER in chains
    requires Holds(store, t.lower) && DigestOf(t.upper) !in store
    requires LEADER in chains && Open(chains[LEADER], 3, 0) && ShowsBoth(t, chains[LEADER])
    ensures Onward(tr, tr', OWNER) && chains'.Keys == chains.Keys
    ensures At(tr', OWNER, chains', store[DigestOf(t.third) := t.third][DigestOf(t.upper) := t.upper],
               log + [Voted(t.third, 0)], Fresh())
    ensures Level(chains'[LEADER], 3, 0) && ShowsBoth(t, chains'[LEADER])
  {
    var store1, log1 := store[DigestOf(t.third) := t.third], log + [Voted(t.third, 0)];
    var tr1, e1 := VotesThird(t, tr, chains, store, log);
    OthersStay(tr, tr1, t.lower);
    chains' := chains[LEADER := e1];
    tr' := MeetsUpper(t, tr1, chains', store1, log1);
    OnwardOn(tr, tr1, tr', OWNER);
  }

  ghost predicate AllAtOnce(t: Tower, r: Record) {
    r == Fresh().(plain := false, out := Fresh().out + [t.lower, t.lower, t.upper], top := 2)
  }

  lemma OwnerCommits(t: Tower, tr: seq<World>, chains: Chains, store: Store, log: seq<ChainEvent>)
    returns (tr': seq<World>)
    requires Built(t) && Stepping(t) && At(tr, OWNER, chains, store, log, Fresh()) && OtherVoted(tr, t.third)
    requires Holds(store, t.lower) && Holds(store, t.upper) && Holds(store, t.third) && OWNER in chains
    requires LEADER in chains && Level(chains[LEADER], 3, 0) && ShowsBoth(t, chains[LEADER])
    ensures Onward(tr, tr', OWNER) && OWNER in Last(tr') && Last(tr')[OWNER].ledger.past == []
    ensures AllAtOnce(t, Last(tr')[OWNER].ledger.record)
  {
    var tr1, e1 := ThirdCert(t, tr, OWNER, chains, store, log, Fresh(), 0);
    OthersStay(tr, tr1, t.third);
    tr' := FourthRound(t, tr1, OWNER, chains[LEADER := e1], store, log, Fresh(), 0);
    OnwardOn(tr, tr1, tr', OWNER);
  }

  lemma ReadyStays(t: Tower, tr: seq<World>, tr': seq<World>)
    requires Onward(tr, tr', OWNER) && OtherReady(t, tr)
    ensures OtherReady(t, tr')
  {}

  lemma OwnerDelivers(t: Tower, tr: seq<World>, chains: Chains, log: seq<ChainEvent>) returns (tr': seq<World>)
    requires Built(t) && Stepping(t) && At(tr, OWNER, chains, map[], log, Fresh()) && OtherReady(t, tr)
    requires OWNER in chains && LEADER in chains && Open(chains[LEADER], 1, 0)
    ensures Onward(tr, tr', OWNER) && OWNER in Last(tr') && Last(tr')[OWNER].ledger.past == []
    ensures AllAtOnce(t, Last(tr')[OWNER].ledger.record)
  {
    StoresHold(t);
    var tr1, chains1 := OwnerSkips(t, tr, chains, log);
    ReadyStays(t, tr, tr1);
    tr' := OwnerEnds(t, tr1, chains1, log + [Voted(t.lower, 0)]);
    OnwardOn(tr, tr1, tr', OWNER);
  }

  lemma OwnerEnds(t: Tower, tr: seq<World>, chains: Chains, log: seq<ChainEvent>) returns (tr': seq<World>)
    requires Built(t) && Stepping(t) && At(tr, OWNER, chains, OneBlock(t), log, Fresh()) && OtherReady(t, tr)
    requires LEADER in chains && OWNER in chains && Open(chains[LEADER], 3, 0) && ShowsBoth(t, chains[LEADER])
    ensures Onward(tr, tr', OWNER) && OWNER in Last(tr') && Last(tr')[OWNER].ledger.past == []
    ensures AllAtOnce(t, Last(tr')[OWNER].ledger.record)
  {
    StoresHold(t);
    var tr1, chains1 := OwnerCatchesUp(t, tr, chains, OneBlock(t), log);
    ReadyStays(t, tr, tr1);
    tr' := OwnerCommits(t, tr1, chains1, ThreeBlocks(t), log + [Voted(t.third, 0)]);
    OnwardOn(tr, tr1, tr', OWNER);
  }

  // ----- The run -----

  const TOWER := Tower(LOWER, UPPER, THIRD, FOURTH)

  lemma LowerIsUp()
    ensures NextUp(LOWER, 1)
  {
    ThreeIsValid();
  }

  lemma UpperIsUp()
    ensures NextUp(UPPER, 2)
  {
    ThreeIsValid();
    CertIsAccepted(LOWER);
  }

  lemma ThirdIsUp()
    ensures NextUp(THIRD, 3)
  {
    ThreeIsValid();
    CertIsAccepted(UPPER);
  }

  lemma FourthIsUp()
    ensures NextUp(FOURTH, 4)
  {
    ThreeIsValid();
    CertIsAccepted(THIRD);
  }

  lemma TowerCertifies()
    ensures Certifying(TOWER)
  {}

  lemma BuiltFrom(t: Tower)
    requires NextUp(t.lower, 1) && NextUp(t.upper, 2) && NextUp(t.third, 3) && NextUp(t.fourth, 4) && Certifying(t)
    ensures Built(t)
  {}

  lemma TowerIsBuilt()
    ensures Built(TOWER)
  {
    LowerIsUp();
    UpperIsUp();
    ThirdIsUp();
    FourthIsUp();
    TowerCertifies();
    BuiltFrom(TOWER);
  }

  lemma TowerSteps()
    ensures Stepping(TOWER)
  {
    forall store, chains, chain, n: nat, height: nat | CanStep(LOWER, UPPER, store, chains, chain, n, height)
      ensures StepsTo(LOWER, UPPER, store, chains, chain, n, height)
    {
      Steps(store, chains, chain, n, height);
    }
  }

  lemma Steps(store: Store, chains: Chains, chain: Chain, n: nat, height: nat)
    requires CanStep(LOWER, UPPER, store, chains, chain, n, height)
    ensures StepsTo(LOWER, UPPER, store, chains, chain, n, height)
  {
    assert Stacked(store, chains, chain, n);
    if n == 1 {
      ThenUpper(store, chains, chain);
    } else if height == 1 {
      LowerFirst(store, chains, chain);
    } else {
      AtOnce(store, chains, chain);
    }
    LeadsBack(store, chains, chain, n, height);
  }

  lemma LeadsBack(store: Store, chains: Chains, chain: Chain, n: nat, height: nat)
    requires CanStep(LOWER, UPPER, store, chains, chain, n, height)
    ensures NoReentry(store, LEADER, chains, chain, height) <==> !(n == 0 && height == 2)
  {
    var q := Reference(LEADER, DigestOf(LOWER));
    assert UPPER.references == [q];
    if n == 0 && height == 2 {
      assert UPPER.references[0] == q;
      assert RefersAt(store, LEADER, chain, 2, q) && !LeadsAway(store, LEADER, chains, q);
    } else {
      forall h: nat, p | n < h <= height && RefersAt(store, LEADER, chain, h, p)
        ensures LeadsAway(store, LEADER, chains, p)
      {
        assert h == 2 && p == q;
      }
    }
  }

  /** Both nodes committed the leader's first two heights from the same counters and every commit returned
      true; one of them led back, and what the two delivered is not prefix-comparable. */
  ghost predicate Repeated(tr: seq<World>) {
    && Ran(tr)
    && var r, s := RecordsOf(Last(tr)[OWNER])[0], RecordsOf(Last(tr)[OTHER])[0];
       && r.ok && s.ok && !r.plain && s.plain && r.epoch == s.epoch == 0 && r.start == s.start && r.top == s.top == 2
       && r.out == [LOWER, LOWER, UPPER] && s.out == [LOWER, UPPER]
       && !PrefixComparable(Digests(r.out), Digests(s.out))
  }

  lemma NotComparable()
    ensures !PrefixComparable(Digests([LOWER, LOWER, UPPER]), Digests([LOWER, UPPER]))
  {
    assert Digests([LOWER, LOWER, UPPER])[1] != Digests([LOWER, UPPER])[1];
  }

  lemma RecordsRepeat(tr: seq<World>)
    requires Ran(tr) && Last(tr)[OWNER].ledger.past == [] && Last(tr)[OTHER].ledger.past == []
    requires AllAtOnce(TOWER, Last(tr)[OWNER].ledger.record) && TwoSteps(TOWER, Last(tr)[OTHER].ledger.record)
    ensures Repeated(tr)
  {
    NotComparable();
    assert [] + [LOWER] + [UPPER] == [LOWER, UPPER] && [] + [LOWER, LOWER, UPPER] == [LOWER, LOWER, UPPER];
  }

  lemma StartsOpen()
    ensures var cs := NewChains(Three());
            LEADER in cs && OWNER in cs && OTHER in cs && Open(cs[LEADER], 1, 0)
  {
    ThreeIsValid();
  }

  /** There is a run in which a commit that leads back makes two honest nodes diverge. */
  lemma ReentryDiverges()
    ensures exists tr: seq<World> :: Repeated(tr)
  {
    TowerIsBuilt();
    TowerSteps();
    StartsOpen();
    var tr := BothDeliver(TOWER);
    RecordsRepeat(tr);
  }

  lemma BothDeliver(t: Tower) returns (tr: seq<World>)
    requires Built(t) && Stepping(t)
    ensures Ran(tr) && Last(tr)[OWNER].ledger.past == [] && Last(tr)[OTHER].ledger.past == []
    ensures AllAtOnce(t, Last(tr)[OWNER].ledger.record) && TwoSteps(t, Last(tr)[OTHER].ledger.record)
  {
    StartsOpen();
    var cs := NewChains(Three());
    var tr0 := Starts();
    var tr1 := OtherDelivers(t, tr0, cs, [Proposed(FirstBlock(OTHER))]);
    tr := OwnerDelivers(t, tr1, cs, [Proposed(FirstBlock(OWNER))]);
  }
}
