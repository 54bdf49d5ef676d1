/** What a node has delivered, epoch by epoch, is the ideal order over the certified digests, with what
    the node delivered on its own chain laid over them. */
module Records {
  import opened Committees
  import opened Options
  import opened Messages
  import opened Aggregators
  import opened Commits
  import opened Delivery
  import opened Overlays
  import opened Reentries
  import opened ReentryTheorems
  import opened Nodes
  import opened NodeSafety
  import opened Worlds
  import opened Systems
  import opened ChainTheorems
  import opened Certification

  // ----- The certified digests of a world -----

  ghost predicate IsCertificateAt(c: Committee, k: Knowledge, x: PublicKey, h: nat, q: QC) {
    Certificate(c, k, q) && q.proposer == x && q.height == h
  }

  ghost predicate HasCertificate(c: Committee, k: Knowledge, x: PublicKey, h: nat) {
    exists q :: IsCertificateAt(c, k, x, h, q)
  }

  ghost function CertificateAt(c: Committee, k: Knowledge, x: PublicKey, h: nat): (q: QC)
    requires HasCertificate(c, k, x, h)
    ensures IsCertificateAt(c, k, x, h, q)
  {
    var q :| IsCertificateAt(c, k, x, h, q);
    q
  }

  ghost function CertifiedDigests(c: Committee, k: Knowledge): Certified {
    imap p: (PublicKey, nat) | p.1 > 0 && HasCertificate(c, k, p.0, p.1) :: CertificateAt(c, k, p.0, p.1).hash
  }

  lemma DigestsGrow(c: Committee, w: World, w': World)
    requires Known(w) <= Known(w') && FaultBound(c, w') && AllVoting(c, w')
    ensures Extends(CertifiedDigests(c, Known(w)), CertifiedDigests(c, Known(w')))
  {
    var g, g' := CertifiedDigests(c, Known(w)), CertifiedDigests(c, Known(w'));
    forall p | p in g ensures p in g' && g'[p] == g[p] {
      var q := CertificateAt(c, Known(w), p.0, p.1);
      CertificateGrows(c, Known(w), Known(w'), q);
      assert IsCertificateAt(c, Known(w'), p.0, p.1, q);
      CertificatesAgree(c, w', q, CertificateAt(c, Known(w'), p.0, p.1));
    }
  }

  /** A certificate has an honest voter behind it, who voted for a real block of that chain. */
  lemma CertificateNamesBlock(c: Committee, w: World, q: QC)
    requires FaultBound(c, w) && Certificate(c, Known(w), q)
    ensures q.hash.Of? && q.hash.author == q.proposer && q.hash.height == q.height && q.hash.epoch == q.epoch
  {
    var s := Elements(Names(q.votes));
    var a := MoreThanFaultyIsHonest(c, w, s);
    NamedSaid(Known(w), q.votes, QcStatement(q), a);
    var i := HonestVote(w, a, QcStatement(q));
  }

  lemma DigestsAreWellCertified(c: Committee, w: World)
    requires FaultBound(c, w)
    ensures WellCertified(CertifiedDigests(c, Known(w)))
  {
    var g := CertifiedDigests(c, Known(w));
    forall p | p in g ensures g[p].Of? && g[p].author == p.0 && g[p].height == p.1 {
      CertificateNamesBlock(c, w, CertificateAt(c, Known(w), p.0, p.1));
    }
  }

  /** The chain's table holds certified digests only. */
  ghost predicate ChainAgrees(g: Certified, x: PublicKey, chain: Chain) {
    forall h | h in chain.heightToDigest && h > 0 :: (x, h) in g && g[(x, h)] == chain.heightToDigest[h]
  }

  ghost predicate OthersAgree(g: Certified, n: Core) {
    forall x | x in n.ledger.chains && x != n.name :: ChainAgrees(g, x, n.ledger.chains[x])
  }

  lemma TablesAgree(c: Committee, w: World, n: Core)
    requires FaultBound(c, w) && AllVoting(c, w) && ChainsCertified(c, Known(w), n)
    ensures OthersAgree(CertifiedDigests(c, Known(w)), n)
  {
    var k, g := Known(w), CertifiedDigests(c, Known(w));
    forall x | x in n.ledger.chains && x != n.name ensures ChainAgrees(g, x, n.ledger.chains[x]) {
      assert ChainBacked(c, k, n.name, x, n.ledger.chains[x]);
      EntriesAgree(c, w, x, n.ledger.chains[x]);
    }
  }

  lemma EntriesAgree(c: Committee, w: World, x: PublicKey, chain: Chain)
    requires FaultBound(c, w) && AllVoting(c, w) && EntriesCertified(c, Known(w), x, chain)
    ensures ChainAgrees(CertifiedDigests(c, Known(w)), x, chain)
  {
    var k, g := Known(w), CertifiedDigests(c, Known(w));
    forall h | h in chain.heightToDigest && h > 0
      ensures (x, h) in g && g[(x, h)] == chain.heightToDigest[h]
    {
      assert CertifiedBy(c, k, x, h, chain.heightToDigest[h]);
      var q :| Certificate(c, k, q) && q.proposer == x && q.height == h && q.hash == chain.heightToDigest[h];
      assert IsCertificateAt(c, k, x, h, q);
      CertificatesAgree(c, w, q, CertificateAt(c, k, x, h));
    }
  }

  /** What the table holds of the leader's chain while it is worked on. */
  ghost predicate StaleAgrees(c: Committee, g: Certified, n: Core, stale: Chain)
    requires LeaderOf(c, n.epoch) in n.ledger.chains
  {
    var leader := LeaderOf(c, n.epoch);
    Earlier(stale, n.ledger.chains[leader]) && (leader != n.name ==> ChainAgrees(g, leader, stale))
  }

  /** What commits rely on: certified digests, in the node's tables of the others' chains too. */
  ghost predicate Certain(c: Committee, g: Certified, n: Core) {
    ValidCommittee(c) && WellCertified(g) && ContentAddressed(n.ledger.store) && OthersAgree(g, n)
  }

  lemma NodeIsCertain(c: Committee, w: World, x: PublicKey)
    requires FaultBound(c, w) && AllVoting(c, w) && AllCert(c, w) && x in w
    ensures Certain(c, CertifiedDigests(c, Known(w)), w[x])
  {
    DigestsAreWellCertified(c, w);
    assert CertInv(c, Known(w), w[x]);
    TablesAgree(c, w, w[x]);
  }

  /** A certified entry names a block of its chain at its height. */
  lemma CertainEntry(c: Committee, g: Certified, n: Core, x: PublicKey, h: nat)
    requires Certain(c, g, n) && x in n.ledger.chains && x != n.name && h > 0
    requires BlockAt(n.ledger.store, n.ledger.chains[x], h).Some?
    ensures var b := BlockAt(n.ledger.store, n.ledger.chains[x], h).value;
            b.author == x && b.height == h && (x, h) in g && g[(x, h)] == DigestOf(b)
  {
    assert ChainAgrees(g, x, n.ledger.chains[x]);
  }

  // ----- Records -----

  function RecordsOf(n: Core): (rs: seq<Record>)
    ensures rs != []
  {
    n.ledger.past + [n.ledger.record]
  }

  /** The certified digests with what the record's owner delivered on its own chain laid over them. */
  ghost function View(g: Certified, name: PublicKey, r: Record): Certified {
    Overlay(g, name, r.own)
  }

  ghost predicate HoldsLeader(own: map<nat, Digest>, leader: PublicKey) {
    exists h :: h in own && own[h].Of? && own[h].author == leader
  }

  /** The record has more blocks of the leader than the leader's chain has heights. */
  ghost predicate Outnumbered(c: Committee, r: Record) {
    var leader := LeaderOf(c, r.epoch);
    leader in r.start && Leaders(r.out, leader) + r.start[leader] > Max(r.start[leader], r.top)
  }

  /** And the owner delivered one of them on its own chain. */
  ghost predicate Strayed(c: Committee, name: PublicKey, r: Record) {
    LeaderOf(c, r.epoch) != name && HoldsLeader(r.own, LeaderOf(c, r.epoch)) && Outnumbered(c, r)
  }

  ghost predicate Plain(r: Record) {
    r.ok && r.plain
  }

  /** The record's blocks are what the ideal order delivers from its counters to its height, or too many. */
  ghost predicate Faithful(c: Committee, g: Certified, name: PublicKey, r: Record) {
    && (Plain(r) ==>
          && LeaderOf(c, r.epoch) in r.start
          && (Strayed(c, name, r) || DeliversView(c, g, name, r)))
    && (r.ok && !r.plain && LeaderOf(c, r.epoch) != name ==> Outnumbered(c, r))
  }

  ghost predicate DeliversView(c: Committee, g: Certified, name: PublicKey, r: Record)
    requires LeaderOf(c, r.epoch) in r.start
  {
    var d := Deliver(View(g, name, r), r.start, LeaderOf(c, r.epoch), r.top);
    d.ready && d.out == Digests(r.out) && Within(r.own, name, r.start, d.counters)
  }

  /** The next epoch starts with the counters this one ended with, but for the restarted leader. */
  ghost predicate Linked(c: Committee, g: Certified, name: PublicKey, r: Record, s: Record) {
    Plain(r) && !Strayed(c, name, r) ==>
      && LeaderOf(c, r.epoch) in r.start && LeaderOf(c, r.epoch) in s.start
      && s.start == Deliver(View(g, name, r), r.start, LeaderOf(c, r.epoch), r.top).counters
                      [LeaderOf(c, r.epoch) := s.start[LeaderOf(c, r.epoch)]]
  }

  /** The current epoch's counters have risen from its first; what was delivered on the own chain lies
      in between. */
  ghost predicate CountInv(n: Core) {
    && Rises(n.ledger.record.start, CountersOf(n.ledger.chains))
    && Within(n.ledger.record.own, n.name, n.ledger.record.start, CountersOf(n.ledger.chains))
  }

  /** The leader's counter is the height committed to, with a block of the leader for each height, and
      another one if a commit led back. */
  ghost predicate LeaderCounts(r: Record, leader: PublicKey, name: PublicKey, last: nat) {
    leader in r.start &&
    (r.ok ==>
       && last == Max(r.start[leader], r.top)
       && (leader != name ==> Leaders(r.out, leader) + r.start[leader] >= last + if r.plain then 0 else 1))
  }

  ghost predicate LeaderCountInv(c: Committee, n: Core) {
    var leader := LeaderOf(c, n.epoch);
    leader in n.ledger.chains && LeaderCounts(n.ledger.record, leader, n.name, n.ledger.chains[leader].lastCommitted)
  }

  /** The current epoch's counters are those of the ideal order. */
  ghost predicate CurrentInv(c: Committee, g: Certified, n: Core) {
    var r, leader := n.ledger.record, LeaderOf(c, n.epoch);
    && r.epoch == n.epoch && CountInv(n) && LeaderCountInv(c, n)
    && (Plain(r) && !Strayed(c, n.name, r) ==>
          Deliver(View(g, n.name, r), r.start, leader, r.top)
          == Ideal(true, Digests(r.out), CountersOf(n.ledger.chains)))
  }

  ghost predicate PastInv(c: Committee, g: Certified, name: PublicKey, rs: seq<Record>) {
    && (forall i :: 0 <= i < |rs| ==> rs[i].epoch == i && Faithful(c, g, name, rs[i]))
    && (forall i :: 0 <= i < |rs| - 1 ==> Linked(c, g, name, rs[i], rs[i + 1]))
  }

  ghost predicate RecordsInv(c: Committee, g: Certified, n: Core) {
    && |RecordsOf(n)| == n.epoch + 1 && RecordsOf(n)[0].start == CountersOf(NewChains(c))
    && PastInv(c, g, n.name, RecordsOf(n)) && CurrentInv(c, g, n)
  }

  lemma ViewGrows(c: Committee, g: Certified, g': Certified, name: PublicKey, r: Record)
    requires Extends(g, g') && LeaderOf(c, r.epoch) in r.start
    requires Deliver(View(g, name, r), r.start, LeaderOf(c, r.epoch), r.top).ready
    ensures Deliver(View(g', name, r), r.start, LeaderOf(c, r.epoch), r.top)
            == Deliver(View(g, name, r), r.start, LeaderOf(c, r.epoch), r.top)
  {
    OverlayGrows(LeaderOf(c, r.epoch), g, g', name, r.own, r.own);
    DeliverStable(View(g, name, r), View(g', name, r), r.start, LeaderOf(c, r.epoch), r.top);
  }

  lemma FaithfulGrows(c: Committee, g: Certified, g': Certified, name: PublicKey, r: Record)
    requires Extends(g, g') && Faithful(c, g, name, r)
    ensures Faithful(c, g', name, r)
  {
    if Plain(r) && !Strayed(c, name, r) {
      ViewGrows(c, g, g', name, r);
    }
  }

  lemma LinkedGrows(c: Committee, g: Certified, g': Certified, name: PublicKey, r: Record, s: Record)
    requires Extends(g, g') && Faithful(c, g, name, r) && Linked(c, g, name, r, s)
    ensures Linked(c, g', name, r, s)
  {
    if Plain(r) && !Strayed(c, name, r) {
      ViewGrows(c, g, g', name, r);
    }
  }

  lemma PastGrows(c: Committee, g: Certified, g': Certified, name: PublicKey, rs: seq<Record>)
    requires Extends(g, g') && PastInv(c, g, name, rs)
    ensures PastInv(c, g', name, rs)
  {
    forall i | 0 <= i < |rs| ensures Faithful(c, g', name, rs[i]) {
      FaithfulGrows(c, g, g', name, rs[i]);
    }
    forall i | 0 <= i < |rs| - 1 ensures Linked(c, g', name, rs[i], rs[i + 1]) {
      LinkedGrows(c, g, g', name, rs[i], rs[i + 1]);
    }
  }

  lemma RecordsGrow(c: Committee, g: Certified, g': Certified, n: Core)
    requires Extends(g, g') && RecordsInv(c, g, n)
    ensures RecordsInv(c, g', n)
  {
    PastGrows(c, g, g', n.name, RecordsOf(n));
    if Plain(n.ledger.record) && !Strayed(c, n.name, n.ledger.record) {
      ViewGrows(c, g, g', n.name, n.ledger.record);
    }
  }

  // ----- Steps -----

  lemma SameRecordsKeep(c: Committee, g: Certified, n: Core, n': Core)
    requires RecordsInv(c, g, n) && n'.epoch == n.epoch && n'.name == n.name
    requires n'.ledger.record == n.ledger.record && n'.ledger.past == n.ledger.past
    requires n'.ledger.chains.Keys == n.ledger.chains.Keys
    requires CountersOf(n'.ledger.chains) == CountersOf(n.ledger.chains)
    ensures RecordsInv(c, g, n')
  {
    assert forall x | x in n.ledger.chains ::
      n'.ledger.chains[x].lastCommitted == CountersOf(n'.ledger.chains)[x] == n.ledger.chains[x].lastCommitted;
  }

  /** Replacing the last record by one that extends it. */
  lemma LastRecordKeeps(c: Committee, g: Certified, name: PublicKey, past: seq<Record>, r: Record, r': Record)
    requires PastInv(c, g, name, past + [r]) && r'.epoch == r.epoch && r'.start == r.start
    requires Faithful(c, g, name, r')
    ensures PastInv(c, g, name, past + [r'])
  {
    var rs, rs' := past + [r], past + [r'];
    forall i | 0 <= i < |rs'| ensures rs'[i].epoch == i && Faithful(c, g, name, rs'[i]) {
      assert i < |past| ==> rs'[i] == rs[i];
      assert rs[i].epoch == i;
    }
    forall i | 0 <= i < |rs'| - 1 ensures Linked(c, g, name, rs'[i], rs'[i + 1]) {
      assert Linked(c, g, name, rs[i], rs[i + 1]);
      assert rs'[i] == rs[i] && rs'[i + 1].start == rs[i + 1].start;
    }
  }

  // ----- A commit -----

  /** A commit of the leader's chain up to a height that returned. */
  ghost predicate CommitsTo(l: Ledger, leader: PublicKey, stale: Chain, height: nat, r: Call) {
    && leader in l.chains && Earlier(stale, l.chains[leader])
    && r == Attempt(l, leader, stale, height) && r.Returned?
  }

  lemma CommitRises(c: Committee, n: Core, stale: Chain, height: nat, r: Call)
    requires CountInv(n) && CommitsTo(n.ledger, LeaderOf(c, n.epoch), stale, height, r)
    requires n.name in n.ledger.chains
    ensures CountInv(n.(ledger := AfterCommit(n.ledger, n.name, LeaderOf(c, n.epoch), stale, height, r)))
    ensures var own, own' := n.ledger.record.own, OwnAfter(n.ledger, n.name, LeaderOf(c, n.epoch), r);
            forall h | h in own :: h in own' && own'[h] == own[h]
  {
    var leader := LeaderOf(c, n.epoch);
    AttemptFrame(n.ledger, leader, stale, height);
    var after := r.chains[leader := r.chain];
    forall x | x in n.ledger.chains ensures CountersOf(n.ledger.chains)[x] <= CountersOf(after)[x] {
      assert OnlyCounters(n.ledger.chains[x], after[x]);
    }
  }

  /** What a commit delivered is as the view after it says. */
  lemma ViewAgrees(c: Committee, g: Certified, n: Core, before: Chains, after: Chains, own: map<nat, Digest>)
    requires Certain(c, g, n) && before == n.ledger.chains && n.name in before
    requires CountersOnly(before, after)
    requires forall h | h in Delivered(n.ledger.store, before, after, n.name) ::
               h in own && own[h] == Delivered(n.ledger.store, before, after, n.name)[h]
    ensures Agrees(Overlay(g, n.name, own), n.ledger.store, before, after)
  {
    var store, v := n.ledger.store, Overlay(g, n.name, own);
    forall x | x in before && x in after ensures AgreesUpTo(v, store, x, before[x], after[x].lastCommitted) {
      forall h: nat | before[x].lastCommitted < h <= after[x].lastCommitted && BlockAt(store, before[x], h).Some?
        ensures (x, h) in v && v[(x, h)] == DigestOf(BlockAt(store, before[x], h).value)
      {
        if x == n.name {
          assert h in Delivered(store, before, after, x);
        } else {
          CertainEntry(c, g, n, x, h);
        }
      }
    }
  }

  /** Only the node's own chain can hold blocks of another authority. */
  lemma StraysOnOwn(c: Committee, g: Certified, n: Core, leader: PublicKey, table: Chains, after: Chains)
    returns (h: nat)
    requires Certain(c, g, n) && leader in n.ledger.chains && n.name in n.ledger.chains
    requires forall x | x in table && x != leader :: x in n.ledger.chains && table[x] == n.ledger.chains[x]
    requires Strays(n.ledger.store, leader, table, after)
    ensures leader != n.name && h in Delivered(n.ledger.store, n.ledger.chains, after, n.name)
    ensures var d := Delivered(n.ledger.store, n.ledger.chains, after, n.name)[h]; d.Of? && d.author == leader
  {
    var x, k :| StraysAt(n.ledger.store, leader, table, after, x, k);
    if x != n.name {
      CertainEntry(c, g, n, x, k);
    }
    h := k;
  }

  lemma LeaderChainIsOwn(g: Certified, store: Store, leader: PublicKey, chain: Chain)
    requires WellCertified(g) && ContentAddressed(store) && ChainAgrees(g, leader, chain)
    ensures LeaderOnly(store, leader, chain)
  {}

  /** A commit adds at least one block of the leader per height, more if it strays or leads back. */
  lemma CommitCounts(c: Committee, g: Certified, n: Core, stale: Chain, height: nat, r: Call)
    requires NodeInv(c, n) && Certain(c, g, n) && CommitsTo(n.ledger, LeaderOf(c, n.epoch), stale, height, r) && r.ok
    requires LeaderOf(c, n.epoch) != n.name && StaleAgrees(c, g, n, stale)
    ensures var leader := LeaderOf(c, n.epoch); var last := n.ledger.chains[leader].lastCommitted;
            && Leaders(r.out, leader) + last >= Max(last, height)
            && (Strays(n.ledger.store, leader, n.ledger.chains[leader := stale], r.chains)
                || !NoReentry(n.ledger.store, leader, n.ledger.chains[leader := stale], n.ledger.chains[leader], height)
                ==> Leaders(r.out, leader) + last > Max(last, height))
  {
    var leader, store := LeaderOf(c, n.epoch), n.ledger.store;
    var table, chain := n.ledger.chains[leader := stale], n.ledger.chains[leader];
    LeaderChainIsOwn(g, store, leader, chain);
    var d := DepthOf(store, leader, table, chain, height);
    LeadersCount(d, store, leader, table, chain, height, r);
    if Strays(store, leader, table, r.chains) {
      StrayingOutnumbers(d, store, leader, table, chain, height, r);
    } else if !NoReentry(store, leader, table, chain, height) {
      LeaderChainIsOwn(g, store, leader, stale);
      ReentryOutnumbers(d, store, leader, table, chain, height, r);
    }
  }

  /** A commit that neither leads back nor strays is the plain one. */
  lemma CommitIsPlain(l: Ledger, leader: PublicKey, stale: Chain, height: nat, r: Call)
    requires CommitsTo(l, leader, stale, height, r) && r.ok
    requires NoReentry(l.store, leader, l.chains[leader := stale], l.chains[leader], height)
    requires !Strays(l.store, leader, l.chains[leader := stale], r.chains)
    ensures CommitLeader(l.store, leader, l.chains, height) == Committed(true, r.out, r.chains[leader := r.chain])
  {
    var table, chain := l.chains[leader := stale], l.chains[leader];
    var d := DepthOf(l.store, leader, table, chain, height);
    NoStrayIsPlain(d, l.store, leader, table, chain, height);
    assert table[leader := chain] == l.chains;
    var s := CommitLeader(l.store, leader, l.chains, height);
    assert r.chains[leader := r.chain] == s.chains;
  }

  /** So it moves along the ideal order of the view after it. */
  lemma CommitFollows(c: Committee, g: Certified, n: Core, stale: Chain, height: nat, r: Call, own: map<nat, Digest>)
    requires NodeInv(c, n) && Certain(c, g, n) && CommitsTo(n.ledger, LeaderOf(c, n.epoch), stale, height, r) && r.ok
    requires var leader, table := LeaderOf(c, n.epoch), n.ledger.chains[LeaderOf(c, n.epoch) := stale];
             && NoReentry(n.ledger.store, leader, table, n.ledger.chains[leader], height)
             && !Strays(n.ledger.store, leader, table, r.chains)
    requires var after := r.chains[LeaderOf(c, n.epoch) := r.chain];
             forall h | h in Delivered(n.ledger.store, n.ledger.chains, after, n.name) ::
               h in own && own[h] == Delivered(n.ledger.store, n.ledger.chains, after, n.name)[h]
    ensures Deliver(Overlay(g, n.name, own), CountersOf(n.ledger.chains), LeaderOf(c, n.epoch), height)
            == Ideal(true, Digests(r.out), CountersOf(r.chains[LeaderOf(c, n.epoch) := r.chain]))
  {
    var leader := LeaderOf(c, n.epoch);
    AttemptFrame(n.ledger, leader, stale, height);
    CommitIsPlain(n.ledger, leader, stale, height, r);
    ViewAgrees(c, g, n, n.ledger.chains, r.chains[leader := r.chain], own);
    CommitRefines(Overlay(g, n.name, own), n.ledger.store, leader, n.ledger.chains, height);
  }

  lemma MoreCounts(r: Record, r': Record, leader: PublicKey, name: PublicKey, last: nat, height: nat, last': nat,
                   out: seq<Block>)
    requires LeaderCounts(r, leader, name, last)
    requires r'.start == r.start && r'.out == r.out + out && r'.top == Max(r.top, height)
    requires (r'.ok ==> r.ok && last' == Max(last, height)) && (r'.plain ==> r.plain)
    requires r'.ok && leader != name ==>
               Leaders(out, leader) + last >= last' + if r.plain && !r'.plain then 1 else 0
    ensures LeaderCounts(r', leader, name, last')
  {
    LeadersAdd(r.out, out, leader);
  }

  lemma CommitTop(c: Committee, g: Certified, n: Core, stale: Chain, height: nat, r: Call)
    requires NodeInv(c, n) && Certain(c, g, n) && LeaderCountInv(c, n)
    requires CommitsTo(n.ledger, LeaderOf(c, n.epoch), stale, height, r) && StaleAgrees(c, g, n, stale)
    ensures LeaderCounts(AfterRecord(n.ledger, n.name, LeaderOf(c, n.epoch), stale, height, r),
                         LeaderOf(c, n.epoch), n.name, r.chain.lastCommitted)
  {
    var leader, rec := LeaderOf(c, n.epoch), n.ledger.record;
    var rec' := AfterRecord(n.ledger, n.name, leader, stale, height, r);
    AttemptFrame(n.ledger, leader, stale, height);
    if r.ok && leader != n.name {
      CommitCounts(c, g, n, stale, height, r);
    }
    MoreCounts(rec, rec', leader, n.name, n.ledger.chains[leader].lastCommitted, height, r.chain.lastCommitted, r.out);
  }

  /** Once strayed, always strayed; and a commit that strays makes it so. */
  lemma CommitStrays(c: Committee, g: Certified, n: Core, stale: Chain, height: nat, r: Call)
    requires NodeInv(c, n) && Certain(c, g, n) && CountInv(n) && LeaderCountInv(c, n)
    requires n.ledger.record.epoch == n.epoch
    requires CommitsTo(n.ledger, LeaderOf(c, n.epoch), stale, height, r) && r.ok && Plain(n.ledger.record)
    requires LeaderOf(c, n.epoch) != n.name && StaleAgrees(c, g, n, stale)
    requires Strayed(c, n.name, n.ledger.record)
             || Strays(n.ledger.store, LeaderOf(c, n.epoch), n.ledger.chains[LeaderOf(c, n.epoch) := stale], r.chains)
    ensures Strayed(c, n.name, AfterRecord(n.ledger, n.name, LeaderOf(c, n.epoch), stale, height, r))
  {
    var leader, rec := LeaderOf(c, n.epoch), n.ledger.record;
    AttemptFrame(n.ledger, leader, stale, height);
    LeadersAdd(rec.out, r.out, leader);
    CommitCounts(c, g, n, stale, height, r);
    KeepsHolding(c, g, n, stale, height, r, OwnAfter(n.ledger, n.name, leader, r));
  }

  lemma KeepsHolding(c: Committee, g: Certified, n: Core, stale: Chain, height: nat, r: Call, own: map<nat, Digest>)
    requires NodeInv(c, n) && Certain(c, g, n) && CountInv(n)
    requires CommitsTo(n.ledger, LeaderOf(c, n.epoch), stale, height, r)
    requires own == OwnAfter(n.ledger, n.name, LeaderOf(c, n.epoch), r)
    requires HoldsLeader(n.ledger.record.own, LeaderOf(c, n.epoch))
             || Strays(n.ledger.store, LeaderOf(c, n.epoch), n.ledger.chains[LeaderOf(c, n.epoch) := stale], r.chains)
    ensures HoldsLeader(own, LeaderOf(c, n.epoch))
  {
    var leader, rec := LeaderOf(c, n.epoch), n.ledger.record;
    if HoldsLeader(rec.own, leader) {
      CommitRises(c, n, stale, height, r);
      var h :| h in rec.own && rec.own[h].Of? && rec.own[h].author == leader;
      assert h in own && own[h] == rec.own[h];
    } else {
      StrayHolds(c, g, n, leader, stale, r);
    }
  }

  lemma StrayHolds(c: Committee, g: Certified, n: Core, leader: PublicKey, stale: Chain, r: Call)
    requires Certain(c, g, n) && leader in n.ledger.chains && n.name in n.ledger.chains && r.Returned?
    requires Strays(n.ledger.store, leader, n.ledger.chains[leader := stale], r.chains)
    ensures HoldsLeader(OwnAfter(n.ledger, n.name, leader, r), leader)
  {
    var table, after := n.ledger.chains[leader := stale], r.chains[leader := r.chain];
    StraysStay(n.ledger.store, leader, table, r.chains, r.chain);
    var h := StraysOnOwn(c, g, n, leader, table, after);
    var own := OwnAfter(n.ledger, n.name, leader, r);
    assert h in own && own[h] == Delivered(n.ledger.store, n.ledger.chains, after, n.name)[h];
  }

  lemma StraysStay(store: Store, leader: PublicKey, a: Chains, b: Chains, chain: Chain)
    requires Strays(store, leader, a, b)
    ensures Strays(store, leader, a, b[leader := chain])
  {
    var x, k :| StraysAt(store, leader, a, b, x, k);
    assert StraysAt(store, leader, a, b[leader := chain], x, k);
  }

  lemma CommitDelivers(c: Committee, g: Certified, n: Core, stale: Chain, height: nat, r: Call)
    requires NodeInv(c, n) && Certain(c, g, n) && CurrentInv(c, g, n)
    requires CommitsTo(n.ledger, LeaderOf(c, n.epoch), stale, height, r) && StaleAgrees(c, g, n, stale)
    requires var rec' := AfterRecord(n.ledger, n.name, LeaderOf(c, n.epoch), stale, height, r);
             Plain(rec') && !Strayed(c, n.name, rec')
    ensures var l' := AfterCommit(n.ledger, n.name, LeaderOf(c, n.epoch), stale, height, r);
            Deliver(View(g, n.name, l'.record), l'.record.start, LeaderOf(c, n.epoch), l'.record.top)
            == Ideal(true, Digests(l'.record.out), CountersOf(l'.chains))
  {
    var leader, rec := LeaderOf(c, n.epoch), n.ledger.record;
    var l' := AfterCommit(n.ledger, n.name, leader, stale, height, r);
    if Strayed(c, n.name, rec) || Strays(n.ledger.store, leader, n.ledger.chains[leader := stale], r.chains) {
      if leader == n.name {
        var h := StraysOnOwn(c, g, n, leader, n.ledger.chains[leader := stale], r.chains);
        assert false;
      }
      CommitStrays(c, g, n, stale, height, r);
    } else {
      CommitRises(c, n, stale, height, r);
      OverlayGrows(leader, g, g, n.name, rec.own, l'.record.own);
      DeliverStable(View(g, n.name, rec), View(g, n.name, l'.record), rec.start, leader, rec.top);
      CommitFollows(c, g, n, stale, height, r, l'.record.own);
      DeliverCompose(View(g, n.name, l'.record), rec.start, leader, rec.top, height);
      DigestsConcat(rec.out, r.out);
    }
  }

  lemma CommitToCurrent(c: Committee, g: Certified, n: Core, stale: Chain, height: nat, r: Call)
    requires NodeInv(c, n) && Certain(c, g, n) && CurrentInv(c, g, n)
    requires CommitsTo(n.ledger, LeaderOf(c, n.epoch), stale, height, r) && StaleAgrees(c, g, n, stale)
    ensures CurrentInv(c, g, n.(ledger := AfterCommit(n.ledger, n.name, LeaderOf(c, n.epoch), stale, height, r)))
  {
    var leader := LeaderOf(c, n.epoch);
    var n' := n.(ledger := AfterCommit(n.ledger, n.name, leader, stale, height, r));
    CommitRises(c, n, stale, height, r);
    CommitTop(c, g, n, stale, height, r);
    if Plain(n'.ledger.record) && !Strayed(c, n.name, n'.ledger.record) {
      CommitDelivers(c, g, n, stale, height, r);
    }
  }

  lemma CurrentIsFaithful(c: Committee, g: Certified, n: Core)
    requires CurrentInv(c, g, n)
    ensures Faithful(c, g, n.name, n.ledger.record)
  {}

  lemma CommitToRecords(c: Committee, g: Certified, n: Core, stale: Chain, height: Option<nat>)
    requires NodeInv(c, n) && RecordsInv(c, g, n) && Certain(c, g, n) && StaleAgrees(c, g, n, stale)
    ensures RecordsInv(c, g, CommitTo(c, n, stale, height))
  {
    if height.Some? && CommitReturns(c, n, stale, height) {
      var leader := LeaderOf(c, n.epoch);
      var r := Attempt(n.ledger, leader, stale, height.value);
      var n' := n.(ledger := AfterCommit(n.ledger, n.name, leader, stale, height.value, r));
      CommitToCurrent(c, g, n, stale, height.value, r);
      CurrentIsFaithful(c, g, n');
      assert RecordsOf(n)[n.epoch] == n.ledger.record;
      LastRecordKeeps(c, g, n.name, n.ledger.past, n.ledger.record, n'.ledger.record);
    }
  }

  // ----- The other steps -----

  lemma VoteOnRecords(c: Committee, g: Certified, n: Core, b: Block)
    requires RecordsInv(c, g, n) && b.author in n.ledger.chains
    ensures RecordsInv(c, g, VoteOn(c, n, b))
  {
    SameRecordsKeep(c, g, n, VoteOn(c, n, b));
  }

  lemma StoreBlockRecords(c: Committee, g: Certified, n: Core, b: Block)
    requires RecordsInv(c, g, n)
    ensures RecordsInv(c, g, StoreBlock(n, b))
  {}

  lemma ProcessBlockRecords(c: Committee, g: Certified, n: Core, stale: Chain, b: Block)
    requires NodeInv(c, n) && RecordsInv(c, g, n) && Certain(c, g, n)
    requires b.author in n.ledger.chains && StaleAgrees(c, g, n, stale)
    ensures RecordsInv(c, g, ProcessBlock(c, n, stale, b))
  {
    var n1, n2 := ProcessBlockSteps(c, n, stale, b);
    StoreBlockRecords(c, g, n, b);
    StoreIsCertain(c, g, n, b);
    CommitToRecords(c, g, n1, stale, TwoChain(c, n1, b));
    VoteOnRecords(c, g, n2, b);
  }

  lemma StoreIsCertain(c: Committee, g: Certified, n: Core, b: Block)
    requires Certain(c, g, n)
    ensures Certain(c, g, StoreBlock(n, b))
  {}

  lemma RestartCounters(chains: Chains, x: PublicKey, output: nat)
    requires x in chains
    ensures CountersOf(chains[x := Restarted(chains[x], output)])
            == CountersOf(chains)[x := output + NEXT_EPOCH_HEIGHT - 1]
  {}

  lemma NewRecordIsFaithful(c: Committee, g: Certified, name: PublicKey, epoch: nat, chains: Chains)
    requires LeaderOf(c, epoch) in chains && name in chains
    ensures Deliver(View(g, name, NewRecord(epoch, chains)), CountersOf(chains), LeaderOf(c, epoch), 0)
            == Ideal(true, [], CountersOf(chains))
    ensures Faithful(c, g, name, NewRecord(epoch, chains))
  {}

  lemma NextRecord(c: Committee, g: Certified, name: PublicKey, rs: seq<Record>, s: Record)
    requires rs != [] && PastInv(c, g, name, rs) && s.epoch == |rs| && Faithful(c, g, name, s)
    requires Linked(c, g, name, rs[|rs| - 1], s)
    ensures PastInv(c, g, name, rs + [s])
  {}

  lemma NewCurrent(c: Committee, g: Certified, n: Core)
    requires n.ledger.record == NewRecord(n.epoch, n.ledger.chains)
    requires n.name in n.ledger.chains && LeaderOf(c, n.epoch) in n.ledger.chains
    ensures CurrentInv(c, g, n)
  {
    NewRecordIsFaithful(c, g, n.name, n.epoch, n.ledger.chains);
  }

  lemma NextEpochRecords(c: Committee, g: Certified, n: Core, draft: Draft)
    requires NodeInv(c, n) && RecordsInv(c, g, n) && n.aba.output.Some?
    ensures RecordsInv(c, g, NextEpoch(c, n, draft))
  {
    var x, n' := LeaderOf(c, n.epoch), NextEpoch(c, n, draft);
    assert RecordsOf(n') == RecordsOf(n) + [n'.ledger.record];
    RestartCounters(n.ledger.chains, x, n.aba.output.value);
    NewRecordIsFaithful(c, g, n.name, n.epoch + 1, n'.ledger.chains);
    assert RecordsOf(n)[n.epoch] == n.ledger.record;
    NextRecord(c, g, n.name, RecordsOf(n), n'.ledger.record);
    NewCurrent(c, g, n');
  }

  lemma CloseEpochRecords(c: Committee, g: Certified, n: Core, draft: Draft)
    requires NodeInv(c, n) && RecordsInv(c, g, n) && Certain(c, g, n) && n.aba.output.Some?
    ensures RecordsInv(c, g, CloseEpoch(c, n, draft))
  {
    var stale, b := n.ledger.chains[LeaderOf(c, n.epoch)], Closing(c, n);
    if b.Some? {
      var n1 := ClosingCommit(c, n, b.value);
      CommitToKeeps(c, n, stale, Some(b.value.height));
      CommitToRecords(c, g, n, stale, Some(b.value.height));
      assert CloseEpoch(c, n, draft) == NextEpoch(c, n1, draft);
      NextEpochRecords(c, g, n1, draft);
    }
  }

  ghost predicate Delivering(a: Action) {
    a.OnBlock? || a.Close?
  }

  /** Steps that touch neither the records nor the commit counters. */
  ghost predicate Undelivering(n: Core, n': Core) {
    && n'.epoch == n.epoch && n'.name == n.name
    && n'.ledger.record == n.ledger.record && n'.ledger.past == n.ledger.past
    && n'.ledger.chains.Keys == n.ledger.chains.Keys
    && forall x | x in n.ledger.chains :: n'.ledger.chains[x].lastCommitted == n.ledger.chains[x].lastCommitted
  }

  lemma UndeliveringKeeps(c: Committee, g: Certified, n: Core, n': Core)
    requires RecordsInv(c, g, n) && Undelivering(n, n')
    ensures RecordsInv(c, g, n')
  {}

  lemma HandleVoteUndelivering(c: Committee, n: Core, vote: Vote, draft: Draft)
    requires vote.proposer == n.name && n.name in n.ledger.chains
    ensures Undelivering(n, HandleVote(c, n, vote, draft))
  {}

  lemma CountTimeoutUndelivering(c: Committee, n: Core, t: Timeout)
    requires LeaderOf(c, t.epoch) in n.ledger.chains
    ensures Undelivering(n, CountTimeout(c, n, t))
  {}

  lemma SignTimeoutUndelivering(c: Committee, n: Core)
    requires LeaderOf(c, n.epoch) in n.ledger.chains
    ensures Undelivering(n, SignTimeout(c, n))
  {}

  lemma ProcessQcUndelivering(n: Core, x: PublicKey, qc: QC)
    requires x in n.ledger.chains
    ensures Undelivering(n, ProcessQc(n, x, qc))
  {}

  lemma QuietAction(c: Committee, k: Knowledge, n: Core, a: Action)
    requires NodeInv(c, n) && Enabled(c, k, n, a) && !Delivering(a)
    ensures Undelivering(n, Apply(c, k, n, a))
  {
    match a
    case OnQc(x, qc) => ProcessQcUndelivering(n, x, qc);
    case OnVote(v, draft) => HandleVoteUndelivering(c, n, v, draft);
    case OnTimeout(t) => CountTimeoutUndelivering(c, n, t);
    case TimeOut => SignTimeoutUndelivering(c, n);
    case _ => OtherUndelivering(c, k, n, a);
  }

  lemma OtherUndelivering(c: Committee, k: Knowledge, n: Core, a: Action)
    requires NodeInv(c, n) && Enabled(c, k, n, a) && !a.Close?
    requires !OnChains(a) || a.OnTc? || a.EnterViewChange?
    ensures Undelivering(n, Apply(c, k, n, a))
  {
    OtherActionFrame(c, k, n, a);
    ActionGrowsLogs(c, k, n, a);
  }

  lemma ActionKeepsRecords(c: Committee, k: Knowledge, g: Certified, n: Core, a: Action)
    requires NodeInv(c, n) && RecordsInv(c, g, n) && Certain(c, g, n) && Enabled(c, k, n, a)
    requires a.OnBlock? ==> StaleAgrees(c, g, n, a.stale)
    ensures RecordsInv(c, g, Apply(c, k, n, a))
  {
    if a.OnBlock? {
      ApplyBlock(c, k, n, a.block, a.stale);
      ProcessBlockRecords(c, g, n, a.stale, a.block);
    } else if a.Close? {
      ApplyClose(c, k, n, a.draft);
      CloseEpochRecords(c, g, n, a.draft);
    } else {
      QuietActionRecords(c, k, g, n, a);
    }
  }

  lemma ApplyBlock(c: Committee, k: Knowledge, n: Core, b: Block, stale: Chain)
    requires NodeInv(c, n) && Enabled(c, k, n, OnBlock(b, stale))
    ensures b.author in n.ledger.chains && LeaderOf(c, n.epoch) in n.ledger.chains
    ensures Apply(c, k, n, OnBlock(b, stale)) == ProcessBlock(c, n, stale, b)
  {}

  lemma ApplyClose(c: Committee, k: Knowledge, n: Core, draft: Draft)
    requires NodeInv(c, n) && Enabled(c, k, n, Close(draft))
    ensures Apply(c, k, n, Close(draft)) == CloseEpoch(c, n, draft)
  {}

  lemma QuietActionRecords(c: Committee, k: Knowledge, g: Certified, n: Core, a: Action)
    requires NodeInv(c, n) && RecordsInv(c, g, n) && Enabled(c, k, n, a) && !Delivering(a)
    ensures RecordsInv(c, g, Apply(c, k, n, a))
  {
    QuietAction(c, k, n, a);
    UndeliveringKeeps(c, g, n, Apply(c, k, n, a));
  }

  // ----- Whole runs -----

  ghost predicate AllRecords(c: Committee, w: World) {
    forall x | x in w :: RecordsInv(c, CertifiedDigests(c, Known(w)), w[x])
  }

  lemma StandingAgrees(c: Committee, w: World, x: PublicKey, b: Block, stale: Chain)
    requires SystemInv(c, w) && x in w && NodeInv(c, w[x]) && Enabled(c, Known(w), w[x], OnBlock(b, stale))
    ensures LeaderOf(c, w[x].epoch) in w[x].ledger.chains
    ensures StaleAgrees(c, CertifiedDigests(c, Known(w)), w[x], stale)
  {
    if LeaderOf(c, w[x].epoch) != w[x].name {
      EntriesAgree(c, w, LeaderOf(c, w[x].epoch), stale);
    }
  }

  lemma ActorRecords(c: Committee, w: World, w': World, x: PublicKey, a: Action)
    requires SystemInv(c, w) && AllCert(c, w) && AllRecords(c, w) && StepBy(c, w, w', x, a)
    ensures x in w' && w' == w[x := w'[x]]
    ensures RecordsInv(c, CertifiedDigests(c, Known(w)), w'[x])
  {
    var g := CertifiedDigests(c, Known(w));
    StepGrows(c, w, w', x, a);
    NodeIsCertain(c, w, x);
    if a.OnBlock? {
      StandingAgrees(c, w, x, a.block, a.stale);
    }
    ActionKeepsRecords(c, Known(w), g, w[x], a);
  }

  lemma StepKeepsRecords(c: Committee, w: World, w': World)
    requires SystemInv(c, w) && AllCert(c, w) && AllRecords(c, w) && Step(c, w, w')
    ensures AllRecords(c, w')
  {
    var x := StepRecords(c, w, w');
    StepDigests(c, w, w');
    AllGrow(c, w, w', x);
  }

  lemma StepRecords(c: Committee, w: World, w': World) returns (x: PublicKey)
    requires SystemInv(c, w) && AllCert(c, w) && AllRecords(c, w) && Step(c, w, w')
    ensures x in w' && w' == w[x := w'[x]]
    ensures RecordsInv(c, CertifiedDigests(c, Known(w)), w'[x])
  {
    var a;
    x, a :| StepBy(c, w, w', x, a);
    ActorRecords(c, w, w', x, a);
  }

  lemma StepDigests(c: Committee, w: World, w': World)
    requires SystemInv(c, w) && Step(c, w, w')
    ensures Extends(CertifiedDigests(c, Known(w)), CertifiedDigests(c, Known(w')))
  {
    StepKeepsInv(c, w, w');
    DigestsGrow(c, w, w');
  }

  lemma AllGrow(c: Committee, w: World, w': World, x: PublicKey)
    requires AllRecords(c, w) && x in w' && w' == w[x := w'[x]]
    requires RecordsInv(c, CertifiedDigests(c, Known(w)), w'[x])
    requires Extends(CertifiedDigests(c, Known(w)), CertifiedDigests(c, Known(w')))
    ensures AllRecords(c, w')
  {
    forall y | y in w' ensures RecordsInv(c, CertifiedDigests(c, Known(w')), w'[y]) {
      RecordsGrow(c, CertifiedDigests(c, Known(w)), CertifiedDigests(c, Known(w')), w'[y]);
    }
  }

  lemma InitialRecords(c: Committee, g: Certified, n: Core, draft: Draft)
    requires IsInitial(c, n, draft)
    ensures RecordsInv(c, g, n)
  {
    NewRecordIsFaithful(c, g, n.name, 0, n.ledger.chains);
    NewCurrent(c, g, n);
  }

  lemma StartRecords(c: Committee, w: World)
    requires Start(c, w)
    ensures AllRecords(c, w)
  {
    forall x | x in w ensures RecordsInv(c, CertifiedDigests(c, Known(w)), w[x]) {
      var draft :| IsInitial(c, w[x], draft);
      InitialRecords(c, CertifiedDigests(c, Known(w)), w[x], draft);
    }
  }

  lemma {:induction false} RunKeepsRecords(c: Committee, tr: seq<World>)
    requires Run(c, tr) && FaultBound(c, tr[0])
    ensures AllRecords(c, Last(tr))
    decreases |tr|
  {
    if |tr| == 1 {
      StartRecords(c, tr[0]);
    } else {
      var front := tr[..|tr| - 1];
      PrefixRun(c, tr, |tr| - 1);
      RunKeepsRecords(c, front);
      RunKeepsInv(c, front);
      RunKeepsCert(c, front);
      assert Step(c, tr[|tr| - 2], tr[|tr| - 1]);
      StepKeepsRecords(c, Last(front), Last(tr));
    }
  }
}
