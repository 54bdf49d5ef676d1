/** What honest nodes deliver, over every run. */
module DeliveryTheorems {
  import opened Committees
  import opened Options
  import opened Messages
  import opened Aggregators
  import opened Commits
  import opened Delivery
  import opened Overlays
  import opened Reentries
  import opened ReentryTheorems
  import opened Nodes
  import opened NodeSafety
  import opened Worlds
  import opened Systems
  import opened ChainTheorems
  import opened Certification
  import opened Records

  // ----- When a record is the ideal order -----

  /** The certified digests at the end of the run. */
  ghost function CertifiedAt(c: Committee, tr: seq<World>): Certified
    requires tr != []
  {
    CertifiedDigests(c, Known(Last(tr)))
  }

  /** The record's blocks are what the ideal order over the certified digests delivers. */
  ghost predicate FollowsIdeal(c: Committee, g: Certified, r: Record) {
    var leader := LeaderOf(c, r.epoch);
    && leader in r.start
    && Deliver(g, r.start, leader, r.top).ready && Deliver(g, r.start, leader, r.top).out == Digests(r.out)
  }

  /** What the node delivered on its own chain is certified. */
  ghost predicate OwnIsCertified(c: Committee, g: Certified, x: PublicKey, r: Record) {
    OwnCertified(g, LeaderOf(c, r.epoch), x, r.own)
  }

  /** What the theorems use of the invariant. */
  lemma RunRecords(c: Committee, tr: seq<World>, x: PublicKey)
    requires Run(c, tr) && FaultBound(c, tr[0]) && x in Last(tr)
    ensures WellCertified(CertifiedAt(c, tr)) && PastInv(c, CertifiedAt(c, tr), x, RecordsOf(Last(tr)[x]))
    ensures RecordsOf(Last(tr)[x])[0].start == CountersOf(NewChains(c))
  {
    RunKeepsInv(c, tr);
    RunKeepsRecords(c, tr);
    var w := Last(tr);
    DigestsAreWellCertified(c, w);
    assert RecordsInv(c, CertifiedDigests(c, Known(w)), w[x]) && w[x].name == x;
  }

  /** A record whose commits all returned true and never led back is the ideal order exactly when every
      block its node delivered on its own chain is the certified one. */
  lemma DeliversIdealIff(c: Committee, tr: seq<World>, x: PublicKey, e: nat)
    requires Run(c, tr) && FaultBound(c, tr[0])
    requires x in Last(tr) && e < |RecordsOf(Last(tr)[x])| && Plain(RecordsOf(Last(tr)[x])[e])
    ensures FollowsIdeal(c, CertifiedAt(c, tr), RecordsOf(Last(tr)[x])[e])
            <==> OwnIsCertified(c, CertifiedAt(c, tr), x, RecordsOf(Last(tr)[x])[e])
  {
    RunRecords(c, tr, x);
    IdealIff(c, CertifiedAt(c, tr), x, RecordsOf(Last(tr)[x])[e]);
  }

  /** In an epoch that another authority leads, a record whose commits all returned true is the ideal
      order exactly when, besides, none of them led back. */
  lemma TrueDeliversIdealIff(c: Committee, tr: seq<World>, x: PublicKey, e: nat)
    requires Run(c, tr) && FaultBound(c, tr[0])
    requires x in Last(tr) && e < |RecordsOf(Last(tr)[x])| && RecordsOf(Last(tr)[x])[e].ok && LeaderOf(c, e) != x
    ensures FollowsIdeal(c, CertifiedAt(c, tr), RecordsOf(Last(tr)[x])[e])
            <==> Sound(c, CertifiedAt(c, tr), x, RecordsOf(Last(tr)[x])[e])
  {
    RunRecords(c, tr, x);
    var g, r := CertifiedAt(c, tr), RecordsOf(Last(tr)[x])[e];
    if r.plain {
      IdealIff(c, g, x, r);
    } else {
      OutnumberedIsNotIdeal(c, g, r);
    }
  }

  lemma IdealIff(c: Committee, g: Certified, x: PublicKey, r: Record)
    requires WellCertified(g) && Faithful(c, g, x, r) && Plain(r)
    ensures FollowsIdeal(c, g, r) <==> OwnIsCertified(c, g, x, r)
  {
    if Strayed(c, x, r) {
      OutnumberedIsNotIdeal(c, g, r);
      StrayedIsNotCertified(c, g, x, r);
    } else {
      SameOrderIff(g, x, r.own, r.start, LeaderOf(c, r.epoch), r.top);
    }
  }

  lemma OutnumberedIsNotIdeal(c: Committee, g: Certified, r: Record)
    requires WellCertified(g) && Outnumbered(c, r)
    ensures !FollowsIdeal(c, g, r)
  {
    var leader := LeaderOf(c, r.epoch);
    ByAuthorOfBlocks(r.out, leader);
    if Deliver(g, r.start, leader, r.top).ready {
      IdealLeaders(g, r.start, leader, r.top);
    }
  }

  lemma StrayedIsNotCertified(c: Committee, g: Certified, x: PublicKey, r: Record)
    requires WellCertified(g) && Strayed(c, x, r)
    ensures !OwnIsCertified(c, g, x, r)
  {
    var leader := LeaderOf(c, r.epoch);
    var h :| h in r.own && r.own[h].Of? && r.own[h].author == leader;
    assert Shown(leader, r.own[h]).author == leader;
    assert (x, h) in g ==> Shown(leader, g[(x, h)]).author == x;
  }

  // ----- One epoch -----

  /** Every commit returned true and none led back, and what was delivered on the own chain is certified. */
  ghost predicate Sound(c: Committee, g: Certified, x: PublicKey, r: Record) {
    Plain(r) && OwnIsCertified(c, g, x, r)
  }

  ghost predicate PrefixComparable(a: seq<Digest>, b: seq<Digest>) {
    a <= b || b <= a
  }

  lemma IdealComparable(c: Committee, g: Certified, r: Record, s: Record)
    requires FollowsIdeal(c, g, r) && FollowsIdeal(c, g, s) && r.epoch == s.epoch && r.start == s.start
    ensures PrefixComparable(Digests(r.out), Digests(s.out))
    ensures r.top == s.top ==> Digests(r.out) == Digests(s.out)
  {
    var leader := LeaderOf(c, r.epoch);
    if r.top <= s.top {
      DeliverPrefix(g, r.start, leader, r.top, s.top);
    } else {
      DeliverPrefix(g, r.start, leader, s.top, r.top);
    }
  }

  /** In one epoch, from equal commit counters, what any two honest nodes with sound records deliver is
      prefix-comparable, however each split its commits. */
  lemma PrefixConsistent(c: Committee, tr: seq<World>, x: PublicKey, y: PublicKey, e: nat)
    requires Run(c, tr) && FaultBound(c, tr[0])
    requires x in Last(tr) && e < |RecordsOf(Last(tr)[x])|
    requires y in Last(tr) && e < |RecordsOf(Last(tr)[y])|
    requires var g, r, s := CertifiedAt(c, tr), RecordsOf(Last(tr)[x])[e], RecordsOf(Last(tr)[y])[e];
             Sound(c, g, x, r) && Sound(c, g, y, s) && r.start == s.start
    ensures PrefixComparable(Digests(RecordsOf(Last(tr)[x])[e].out), Digests(RecordsOf(Last(tr)[y])[e].out))
  {
    RunRecords(c, tr, x);
    RunRecords(c, tr, y);
    DeliversIdealIff(c, tr, x, e);
    DeliversIdealIff(c, tr, y, e);
    IdealComparable(c, CertifiedAt(c, tr), RecordsOf(Last(tr)[x])[e], RecordsOf(Last(tr)[y])[e]);
  }

  // ----- Many epochs -----

  /** Everything delivered in the given epochs, in order. */
  ghost function DeliveredIn(rs: seq<Record>): seq<Digest> {
    if rs == [] then [] else DeliveredIn(rs[..|rs| - 1]) + Digests(rs[|rs| - 1].out)
  }

  /** Both closed the epoch having delivered to the same leader height and restarted the leader's
      chain at the same height. */
  ghost predicate ClosedAlike(c: Committee, rs: seq<Record>, ss: seq<Record>, i: nat)
    requires i + 1 < |rs| && i + 1 < |ss|
  {
    var leader := LeaderOf(c, i);
    && rs[i].top == ss[i].top
    && leader in rs[i + 1].start && leader in ss[i + 1].start
    && rs[i + 1].start[leader] == ss[i + 1].start[leader]
  }

  ghost predicate AllSound(c: Committee, g: Certified, x: PublicKey, rs: seq<Record>, e: nat)
    requires e < |rs|
  {
    forall i :: 0 <= i <= e ==> Sound(c, g, x, rs[i])
  }

  /** The next epoch of a sound record starts where the ideal order ends. */
  lemma SoundLink(c: Committee, g: Certified, x: PublicKey, r: Record, s: Record)
    requires WellCertified(g) && Sound(c, g, x, r) && Faithful(c, g, x, r) && Linked(c, g, x, r, s)
    ensures LeaderOf(c, r.epoch) in r.start && LeaderOf(c, r.epoch) in s.start
    ensures s.start == Deliver(g, r.start, LeaderOf(c, r.epoch), r.top).counters
                         [LeaderOf(c, r.epoch) := s.start[LeaderOf(c, r.epoch)]]
  {
    var leader := LeaderOf(c, r.epoch);
    if Strayed(c, x, r) {
      StrayedIsNotCertified(c, g, x, r);
    } else {
      OwnCertifiedIsAlike(leader, g, x, r.own);
      DeliverStable(View(g, x, r), g, r.start, leader, r.top);
    }
  }

  /** One epoch's ideal order ends where the next one's starts, but for the restarted leader. */
  ghost predicate Continues(c: Committee, g: Certified, r: Record, s: Record) {
    var leader := LeaderOf(c, r.epoch);
    && leader in r.start && leader in s.start
    && s.start == Deliver(g, r.start, leader, r.top).counters[leader := s.start[leader]]
  }

  ghost predicate IdealAt(c: Committee, g: Certified, rs: seq<Record>, i: nat)
    requires i < |rs|
  {
    rs[i].epoch == i && FollowsIdeal(c, g, rs[i])
  }

  /** The history is the ideal order from epoch to epoch. */
  ghost predicate IdealHistory(c: Committee, g: Certified, rs: seq<Record>, e: nat) {
    && e < |rs| && (forall i :: 0 <= i <= e ==> IdealAt(c, g, rs, i))
    && (forall i :: 0 <= i < e ==> Continues(c, g, rs[i], rs[i + 1]))
  }

  lemma SoundIsIdeal(c: Committee, g: Certified, x: PublicKey, rs: seq<Record>, e: nat)
    requires WellCertified(g) && PastInv(c, g, x, rs) && e < |rs| && AllSound(c, g, x, rs, e)
    ensures IdealHistory(c, g, rs, e)
  {
    forall i | 0 <= i <= e ensures IdealAt(c, g, rs, i) {
      assert Sound(c, g, x, rs[i]) && Faithful(c, g, x, rs[i]);
      IdealIff(c, g, x, rs[i]);
    }
    forall i | 0 <= i < e ensures Continues(c, g, rs[i], rs[i + 1]) {
      assert Sound(c, g, x, rs[i]) && Faithful(c, g, x, rs[i]) && Linked(c, g, x, rs[i], rs[i + 1]);
      SoundLink(c, g, x, rs[i], rs[i + 1]);
    }
  }

  ghost predicate AllClosedAlike(c: Committee, rs: seq<Record>, ss: seq<Record>, e: nat)
    requires e < |rs| && e < |ss|
  {
    forall i :: 0 <= i < e ==> ClosedAlike(c, rs, ss, i)
  }

  lemma {:induction false} SameStarts(c: Committee, g: Certified, rs: seq<Record>, ss: seq<Record>, e: nat)
    requires IdealHistory(c, g, rs, e) && IdealHistory(c, g, ss, e)
    requires rs[0].start == ss[0].start && AllClosedAlike(c, rs, ss, e)
    ensures rs[e].start == ss[e].start
    ensures DeliveredIn(rs[..e]) == DeliveredIn(ss[..e])
  {
    if e > 0 {
      SameStarts(c, g, rs, ss, e - 1);
      NextStartsAgree(c, g, rs, ss, e - 1);
      assert rs[..e][..e - 1] == rs[..e - 1] && ss[..e][..e - 1] == ss[..e - 1];
    }
  }

  lemma NextStartsAgree(c: Committee, g: Certified, rs: seq<Record>, ss: seq<Record>, i: nat)
    requires IdealHistory(c, g, rs, i + 1) && IdealHistory(c, g, ss, i + 1) && AllClosedAlike(c, rs, ss, i + 1)
    requires rs[i].start == ss[i].start
    ensures rs[i + 1].start == ss[i + 1].start && Digests(rs[i].out) == Digests(ss[i].out)
  {
    HistoryAt(c, g, rs, i);
    HistoryAt(c, g, ss, i);
    assert ClosedAlike(c, rs, ss, i);
    StartsAgree(c, g, rs[i], ss[i], rs[i + 1], ss[i + 1]);
  }

  lemma HistoryAt(c: Committee, g: Certified, rs: seq<Record>, i: nat)
    requires IdealHistory(c, g, rs, i + 1)
    ensures rs[i].epoch == i && FollowsIdeal(c, g, rs[i]) && Continues(c, g, rs[i], rs[i + 1])
  {
    assert IdealAt(c, g, rs, i);
  }

  lemma StartsAgree(c: Committee, g: Certified, r: Record, s: Record, next: Record, next': Record)
    requires FollowsIdeal(c, g, r) && FollowsIdeal(c, g, s)
    requires r.epoch == s.epoch && r.start == s.start && r.top == s.top
    requires Continues(c, g, r, next) && Continues(c, g, s, next')
    requires next.start[LeaderOf(c, r.epoch)] == next'.start[LeaderOf(c, r.epoch)]
    ensures next.start == next'.start && Digests(r.out) == Digests(s.out)
  {
    IdealComparable(c, g, r, s);
  }

  /** As long as the agreement closes epochs alike, everything two honest nodes with sound records have
      delivered since the start, across epochs, is prefix-comparable. */
  lemma ConsistentAcrossEpochs(c: Committee, tr: seq<World>, x: PublicKey, y: PublicKey, e: nat)
    requires Run(c, tr) && FaultBound(c, tr[0])
    requires x in Last(tr) && e < |RecordsOf(Last(tr)[x])| && y in Last(tr) && e < |RecordsOf(Last(tr)[y])|
    requires AllSound(c, CertifiedAt(c, tr), x, RecordsOf(Last(tr)[x]), e)
    requires AllSound(c, CertifiedAt(c, tr), y, RecordsOf(Last(tr)[y]), e)
    requires AllClosedAlike(c, RecordsOf(Last(tr)[x]), RecordsOf(Last(tr)[y]), e)
    ensures PrefixComparable(DeliveredIn(RecordsOf(Last(tr)[x])[..e + 1]), DeliveredIn(RecordsOf(Last(tr)[y])[..e + 1]))
  {
    RunRecords(c, tr, x);
    RunRecords(c, tr, y);
    var g, rs, ss := CertifiedAt(c, tr), RecordsOf(Last(tr)[x]), RecordsOf(Last(tr)[y]);
    SoundIsIdeal(c, g, x, rs, e);
    SoundIsIdeal(c, g, y, ss, e);
    AlikeIsConsistent(c, g, rs, ss, e);
  }

  lemma AlikeIsConsistent(c: Committee, g: Certified, rs: seq<Record>, ss: seq<Record>, e: nat)
    requires IdealHistory(c, g, rs, e) && IdealHistory(c, g, ss, e)
    requires rs[0].start == ss[0].start && AllClosedAlike(c, rs, ss, e)
    ensures PrefixComparable(DeliveredIn(rs[..e + 1]), DeliveredIn(ss[..e + 1]))
  {
    SameStarts(c, g, rs, ss, e);
    assert IdealAt(c, g, rs, e) && IdealAt(c, g, ss, e);
    IdealComparable(c, g, rs[e], ss[e]);
    assert rs[..e + 1][..e] == rs[..e] && ss[..e + 1][..e] == ss[..e];
  }

  // ----- Every commit -----

  lemma OtherIsWellKept(c: Committee, w: World, n: Core, y: PublicKey)
    requires FaultBound(c, w) && NodeInv(c, n) && CertInv(c, Known(w), n)
    requires y in n.ledger.chains && y != n.name
    ensures OwnEntries(n.ledger.store, n.ledger.chains[y])
  {
    assert ChainBacked(c, Known(w), n.name, y, n.ledger.chains[y]);
    CertifiedIsWellKept(c, w, n.ledger.store, n.ledger.chains[y]);
  }

  lemma CertifiedIsWellKept(c: Committee, w: World, store: Store, chain: Chain)
    requires FaultBound(c, w) && ContentAddressed(store) && EntriesCertified(c, Known(w), chain.name, chain)
    ensures OwnEntries(store, chain)
  {
    forall h | h in chain.heightToDigest && h != 0 && GetBlock(store, chain.heightToDigest[h]).Some?
      ensures var b := GetBlock(store, chain.heightToDigest[h]).value; b.author == chain.name && b.height == h
    {
      assert CertifiedBy(c, Known(w), chain.name, h, chain.heightToDigest[h]);
      var q :| Certificate(c, Known(w), q) && q.proposer == chain.name && q.height == h
               && q.hash == chain.heightToDigest[h];
      CertificateNamesBlock(c, w, q);
    }
  }

  lemma RunNode(c: Committee, tr: seq<World>, x: PublicKey)
    requires Run(c, tr) && FaultBound(c, tr[0]) && x in Last(tr)
    ensures FaultBound(c, Last(tr)) && Last(tr)[x].name == x
    ensures NodeInv(c, Last(tr)[x]) && CertInv(c, Known(Last(tr)), Last(tr)[x])
  {
    RunKeepsInv(c, tr);
    RunKeepsCert(c, tr);
  }

  /** In every reachable state the entries of every other authority's chain name blocks of that chain at
      their heights, so no block of the leader is met there. */
  lemma OthersAreWellKept(c: Committee, tr: seq<World>, x: PublicKey, y: PublicKey)
    requires Run(c, tr) && FaultBound(c, tr[0])
    requires x in Last(tr) && y in Last(tr)[x].ledger.chains && y != x
    ensures OwnEntries(Last(tr)[x].ledger.store, Last(tr)[x].ledger.chains[y])
  {
    RunNode(c, tr, x);
    OtherIsWellKept(c, Last(tr), Last(tr)[x], y);
  }

  /** Whenever an honest node whose own entries name own blocks commits a leader height and the call
      returns true, it meets the commit specification exactly when no leader block still to be
      committed leads back to what the table does not count. */
  lemma CommitsDeliver(c: Committee, tr: seq<World>, x: PublicKey, stale: Chain, height: nat)
    requires Run(c, tr) && FaultBound(c, tr[0]) && x in Last(tr)
    requires x in Last(tr)[x].ledger.chains && OwnEntries(Last(tr)[x].ledger.store, Last(tr)[x].ledger.chains[x])
    requires CommitsOnto(c, Known(Last(tr)), Last(tr)[x], stale, height)
    ensures CommitIsProper(c, Last(tr)[x], stale, height) <==> LeadsNowhereBack(c, Last(tr)[x], stale, height)
  {
    RunNode(c, tr, x);
    var n := Last(tr)[x];
    if LeaderOf(c, n.epoch) != x {
      CertifiedIsWellKept(c, Last(tr), n.ledger.store, stale);
    }
    forall y | y in n.ledger.chains ensures OwnEntries(n.ledger.store, n.ledger.chains[y]) {
      if y != x {
        OtherIsWellKept(c, Last(tr), n, y);
      }
    }
    CommitIsProperIff(c, n, stale, height);
  }

  /** The commit returns true, over what the table holds of the leader's chain; on the node's own chain
      that names own blocks too. */
  ghost predicate CommitsOnto(c: Committee, k: Knowledge, n: Core, stale: Chain, height: nat) {
    var leader := LeaderOf(c, n.epoch);
    && leader in n.ledger.chains && Standing(c, k, n, stale)
    && (leader == n.name ==> OwnEntries(n.ledger.store, stale))
    && Attempt(n.ledger, leader, stale, height).Returned? && Attempt(n.ledger, leader, stale, height).ok
  }

  ghost predicate CommitIsProper(c: Committee, n: Core, stale: Chain, height: nat)
    requires LeaderOf(c, n.epoch) in n.ledger.chains
    requires Attempt(n.ledger, LeaderOf(c, n.epoch), stale, height).Returned?
  {
    var leader := LeaderOf(c, n.epoch);
    var r := Attempt(n.ledger, leader, stale, height);
    MeetsSpec(n.ledger.store, leader, n.ledger.chains, r.chains[leader := r.chain], r.out, height)
  }

  ghost predicate LeadsNowhereBack(c: Committee, n: Core, stale: Chain, height: nat)
    requires LeaderOf(c, n.epoch) in n.ledger.chains
  {
    var leader := LeaderOf(c, n.epoch);
    NoReentry(n.ledger.store, leader, n.ledger.chains[leader := stale], n.ledger.chains[leader], height)
  }

  lemma CommitIsProperIff(c: Committee, n: Core, stale: Chain, height: nat)
    requires NodeInv(c, n) && Earlier(stale, n.ledger.chains[LeaderOf(c, n.epoch)])
    requires OwnEntries(n.ledger.store, stale)
    requires var r := Attempt(n.ledger, LeaderOf(c, n.epoch), stale, height); r.Returned? && r.ok
    requires forall y | y in n.ledger.chains :: OwnEntries(n.ledger.store, n.ledger.chains[y])
    ensures CommitIsProper(c, n, stale, height) <==> LeadsNowhereBack(c, n, stale, height)
  {
    var leader := LeaderOf(c, n.epoch);
    var table := n.ledger.chains[leader := stale];
    TableIsKept(n.ledger.store, leader, n.ledger.chains, stale);
    assert table[leader := n.ledger.chains[leader]] == n.ledger.chains;
    TrueMeetsSpecIff(n.ledger.store, leader, table, n.ledger.chains[leader], height);
  }

  lemma TableIsKept(store: Store, leader: PublicKey, chains: Chains, stale: Chain)
    requires leader in chains && WellKept(store, chains) && Earlier(stale, chains[leader]) && OwnEntries(store, stale)
    ensures ReentryTheorems.Held(store, leader, chains[leader := stale], chains[leader])
  {
    var table := chains[leader := stale];
    forall x | x in table ensures table[x].name == x && OwnEntries(store, table[x]) {
      assert x != leader ==> OwnEntries(store, chains[x]);
    }
    assert OwnEntries(store, chains[leader]);
  }
}
