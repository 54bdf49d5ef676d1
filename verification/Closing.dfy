/** What an epoch has delivered when it is closed: everything the leader's certified chain holds up to the
    height that was decided, with what it refers to. */
module Closings {
  import opened Committees
  import opened Options
  import opened Messages
  import opened Aggregators
  import opened Commits
  import opened Delivery
  import opened Overlays
  import opened Reentries
  import opened ReentryTheorems
  import opened Nodes
  import opened NodeSafety
  import opened Worlds
  import opened Systems
  import opened ChainTheorems
  import opened Certification
  import opened Records
  import opened Carrying
  import opened Decisions
  import opened Passes

  // ----- A delivery that is complete up to given counters -----

  /** Every block between the two counters of a chain is among those delivered. */
  ghost predicate ChainThere(v: Certified, leader: PublicKey, y: PublicKey, lo: nat, hi: nat, out: seq<Block>) {
    forall h: nat :: lo < h <= hi ==> (y, h) in v && Shown(leader, v[(y, h)]) in Digests(out)
  }

  ghost predicate AllThere(v: Certified, leader: PublicKey, a: Counters, b: Counters, out: seq<Block>) {
    forall y | y in a && y in b :: ChainThere(v, leader, y, a[y], b[y], out)
  }

  /** The leader's block at the height refers to the digest. */
  ghost predicate Refers(v: Certified, leader: PublicKey, h: nat, d: Digest) {
    && (leader, h) in v && v[(leader, h)].Of? && v[(leader, h)].author == leader
    && exists q :: q in v[(leader, h)].references && q.digest == d
  }

  /** What the leader's blocks refer to on other chains is counted. */
  ghost predicate RefsThere(v: Certified, leader: PublicKey, lo: nat, hi: nat, cnt: Counters) {
    forall h: nat, d :: lo < h <= hi && Refers(v, leader, h, d) ==>
      d.Of? && d.author in cnt && (d.author != leader ==> d.height <= cnt[d.author])
  }

  ghost predicate CompleteAt(v: Certified, leader: PublicKey, r: Record, cnt: Counters) {
    && leader in r.start && Rises(r.start, cnt) && cnt[leader] == Max(r.start[leader], r.top)
    && AllThere(v, leader, r.start, cnt, r.out) && RefsThere(v, leader, r.start[leader], r.top, cnt)
  }

  ghost predicate Complete(v: Certified, leader: PublicKey, r: Record) {
    exists cnt :: CompleteAt(v, leader, r, cnt)
  }

  // ----- Growth -----

  lemma ThereGrows(v: Certified, v': Certified, leader: PublicKey, a: Counters, b: Counters, out: seq<Block>,
                   out': seq<Block>)
    requires Extends(v, v') && AllThere(v, leader, a, b, out) && out <= out'
    ensures AllThere(v', leader, a, b, out')
  {
    forall y, h: nat | y in a && y in b && a[y] < h <= b[y]
      ensures (y, h) in v' && Shown(leader, v'[(y, h)]) in Digests(out')
    {
      assert ChainThere(v, leader, y, a[y], b[y], out);
      var i :| 0 <= i < |Digests(out)| && Digests(out)[i] == Shown(leader, v[(y, h)]);
      assert Digests(out')[i] == Digests(out)[i];
    }
  }

  /** Digests never change, so the references of what was delivered stay what they were. */
  lemma RefsGrow(v: Certified, v': Certified, leader: PublicKey, lo: nat, hi: nat, a: Counters, b: Counters)
    requires Extends(v, v') && RefsThere(v, leader, lo, hi, a) && Rises(a, b)
    requires forall h: nat :: lo < h <= hi ==> (leader, h) in v
    ensures RefsThere(v', leader, lo, hi, b)
  {
    forall h: nat, d | lo < h <= hi && Refers(v', leader, h, d)
      ensures d.Of? && d.author in b && (d.author != leader ==> d.height <= b[d.author])
    {
      assert Refers(v, leader, h, d);
    }
  }

  lemma ViewExtends(g: Certified, g': Certified, name: PublicKey, own: map<nat, Digest>, own': map<nat, Digest>)
    requires Extends(g, g') && forall h | h in own :: h in own' && own'[h] == own[h]
    ensures Extends(Overlay(g, name, own), Overlay(g', name, own'))
  {}

  lemma CompleteGrows(v: Certified, v': Certified, leader: PublicKey, r: Record, cnt: Counters)
    requires Extends(v, v') && CompleteAt(v, leader, r, cnt)
    ensures CompleteAt(v', leader, r, cnt)
  {
    ThereGrows(v, v', leader, r.start, cnt, r.out, r.out);
    assert ChainThere(v, leader, leader, r.start[leader], cnt[leader], r.out);
    assert Rises(cnt, cnt);
    RefsGrow(v, v', leader, r.start[leader], r.top, cnt, cnt);
  }

  // ----- One commit -----

  lemma PresentedDigest(b: Block, leader: PublicKey)
    ensures DigestOf(Presented(b, leader)) == Shown(leader, DigestOf(b))
  {}

  lemma PassedIsThere(v: Certified, store: Store, leader: PublicKey, y: PublicKey, a: Chain, hi: nat, out: seq<Block>)
    requires AgreesUpTo(v, store, y, a, hi)
    requires forall k :: a.lastCommitted < k <= hi ==> PassedAt(store, leader, a, out, k)
    ensures ChainThere(v, leader, y, a.lastCommitted, hi, out)
  {
    forall h: nat | a.lastCommitted < h <= hi ensures (y, h) in v && Shown(leader, v[(y, h)]) in Digests(out) {
      assert PassedAt(store, leader, a, out, h);
      var b := BlockAt(store, a, h).value;
      var i :| 0 <= i < |out| && out[i] == Presented(b, leader);
      PresentedDigest(b, leader);
      assert Digests(out)[i] == Shown(leader, v[(y, h)]);
    }
  }

  /** What a commit that returned moved its counters past is among what it delivered. */
  lemma CommitIsThere(l: Ledger, leader: PublicKey, stale: Chain, height: nat, r: Call, v: Certified)
    requires CommitsTo(l, leader, stale, height, r)
    requires Agrees(v, l.store, l.chains, r.chains[leader := r.chain])
    ensures AllThere(v, leader, CountersOf(l.chains), CountersOf(r.chains[leader := r.chain]), r.out)
  {
    var table, chain, after := l.chains[leader := stale], l.chains[leader], r.chains[leader := r.chain];
    var d := DepthOf(l.store, leader, table, chain, height);
    PrevPasses(d, l.store, leader, table, chain, height);
    forall y | y in l.chains && y in after
      ensures ChainThere(v, leader, y, l.chains[y].lastCommitted, after[y].lastCommitted, r.out)
    {
      assert AgreesUpTo(v, l.store, y, l.chains[y], after[y].lastCommitted);
      if y == leader {
        assert Passed(l.store, leader, chain, r.chain, r.out);
      } else {
        assert Passed(l.store, leader, table[y], r.chains[y], r.out);
      }
      PassedIsThere(v, l.store, leader, y, l.chains[y], after[y].lastCommitted, r.out);
    }
  }

  /** And what the leader blocks it committed refer to on other chains is counted. */
  lemma CommitRefsThere(l: Ledger, leader: PublicKey, stale: Chain, height: nat, r: Call, v: Certified)
    requires CommitsTo(l, leader, stale, height, r) && r.ok && ContentAddressed(l.store) && DEFAULT_KEY !in l.chains
    requires Agrees(v, l.store, l.chains, r.chains[leader := r.chain])
    ensures RefsThere(v, leader, l.chains[leader].lastCommitted, height, CountersOf(r.chains[leader := r.chain]))
  {
    var table, chain, after := l.chains[leader := stale], l.chains[leader], r.chains[leader := r.chain];
    var d := DepthOf(l.store, leader, table, chain, height);
    PrevCounted(d, l.store, leader, table, chain, height);
    PrevPasses(d, l.store, leader, table, chain, height);
    PrevFrame(d, l.store, leader, table, chain, height);
    forall h: nat, e | chain.lastCommitted < h <= height && Refers(v, leader, h, e)
      ensures e.Of? && e.author in after && (e.author != leader ==> e.height <= CountersOf(after)[e.author])
    {
      assert PassedAt(l.store, leader, chain, r.out, h);
      assert AgreesUpTo(v, l.store, leader, chain, r.chain.lastCommitted);
      ReferenceCounted(l.store, leader, chain, r.chains, h, e);
    }
  }

  lemma ReferenceCounted(store: Store, leader: PublicKey, chain: Chain, cs: Chains, h: nat, e: Digest)
    requires ContentAddressed(store) && DEFAULT_KEY !in cs && CoveredAt(store, leader, chain, cs, h)
    requires LeaderAt(store, leader, chain, h)
    requires exists q :: q in BlockAt(store, chain, h).value.references && q.digest == e
    ensures e.Of? && e.author in cs && e.height <= cs[e.author].lastCommitted
  {
    var refs := BlockAt(store, chain, h).value.references;
    var q :| q in refs && q.digest == e;
    SortByKeyKeeps(refs, q);
    assert q in SortByKey(refs);
  }

  // ----- A node's records -----

  ghost predicate CompleteNow(c: Committee, g: Certified, n: Core) {
    n.ledger.record.ok ==>
      CompleteAt(View(g, n.name, n.ledger.record), LeaderOf(c, n.epoch), n.ledger.record, CountersOf(n.ledger.chains))
  }

  ghost predicate FiledComplete(c: Committee, g: Certified, n: Core) {
    forall e | 0 <= e < |n.ledger.past| && n.ledger.past[e].ok ::
      Complete(View(g, n.name, n.ledger.past[e]), LeaderOf(c, e), n.ledger.past[e])
  }

  /** The epoch's record goes up to the last decision of the epoch. */
  ghost predicate GoesUpTo(c: Committee, n: Core, e: nat) {
    && e < |n.ledger.past|
    && exists v :: LastDecided(n.aba.log, e, v) && (LeaderOf(c, e) != n.name ==> n.ledger.past[e].top >= v)
  }

  ghost predicate ClosingInv(c: Committee, g: Certified, n: Core) {
    && CompleteNow(c, g, n) && FiledComplete(c, g, n)
    && forall e: nat :: e < |n.ledger.past| ==> GoesUpTo(c, n, e)
  }

  lemma ClosingGrows(c: Committee, g: Certified, g': Certified, n: Core)
    requires Extends(g, g') && ClosingInv(c, g, n)
    ensures ClosingInv(c, g', n)
  {
    ViewExtends(g, g', n.name, n.ledger.record.own, n.ledger.record.own);
    if n.ledger.record.ok {
      CompleteGrows(View(g, n.name, n.ledger.record), View(g', n.name, n.ledger.record), LeaderOf(c, n.epoch),
                    n.ledger.record, CountersOf(n.ledger.chains));
    }
    forall e | 0 <= e < |n.ledger.past| && n.ledger.past[e].ok
      ensures Complete(View(g', n.name, n.ledger.past[e]), LeaderOf(c, e), n.ledger.past[e])
    {
      FiledGrows(g, g', n.name, LeaderOf(c, e), n.ledger.past[e]);
    }
  }

  lemma FiledGrows(g: Certified, g': Certified, name: PublicKey, leader: PublicKey, r: Record)
    requires Extends(g, g') && Complete(View(g, name, r), leader, r)
    ensures Complete(View(g', name, r), leader, r)
  {
    var cnt :| CompleteAt(View(g, name, r), leader, r, cnt);
    ViewExtends(g, g', name, r.own, r.own);
    CompleteGrows(View(g, name, r), View(g', name, r), leader, r, cnt);
  }

  // ----- A commit keeps the record complete -----

  lemma ThereCompose(v: Certified, leader: PublicKey, a: Counters, b: Counters, d: Counters, out: seq<Block>,
                     more: seq<Block>)
    requires Rises(a, b) && Rises(b, d) && AllThere(v, leader, a, b, out) && AllThere(v, leader, b, d, more)
    ensures AllThere(v, leader, a, d, out + more)
  {
    DigestsConcat(out, more);
    forall y, h: nat | y in a && y in d && a[y] < h <= d[y]
      ensures (y, h) in v && Shown(leader, v[(y, h)]) in Digests(out + more)
    {
      assert ChainThere(v, leader, y, a[y], b[y], out) && ChainThere(v, leader, y, b[y], d[y], more);
    }
  }

  lemma RefsCompose(v: Certified, leader: PublicKey, lo: nat, mid: nat, top: nat, top': nat, cnt: Counters)
    requires RefsThere(v, leader, lo, top, cnt) && RefsThere(v, leader, mid, top', cnt) && mid == Max(lo, top)
    ensures RefsThere(v, leader, lo, Max(top, top'), cnt)
  {}

  lemma CompleteCompose(v: Certified, v': Certified, leader: PublicKey, r: Record, cnt: Counters, r': Record,
                        cnt': Counters, height: nat, out: seq<Block>)
    requires Extends(v, v') && CompleteAt(v, leader, r, cnt) && Rises(cnt, cnt')
    requires AllThere(v', leader, cnt, cnt', out) && RefsThere(v', leader, cnt[leader], height, cnt')
    requires r'.start == r.start && r'.out == r.out + out && r'.top == Max(r.top, height)
    requires cnt'[leader] == Max(r.start[leader], r'.top)
    ensures CompleteAt(v', leader, r', cnt')
  {
    ThereGrows(v, v', leader, r.start, cnt, r.out, r.out);
    ThereCompose(v', leader, r.start, cnt, cnt', r.out, out);
    assert ChainThere(v, leader, leader, r.start[leader], cnt[leader], r.out);
    RefsGrow(v, v', leader, r.start[leader], r.top, cnt, cnt');
    RefsCompose(v', leader, r.start[leader], cnt[leader], r.top, height, cnt');
  }

  /** A commit that returned true, over the view after it. */
  lemma CommitAdds(c: Committee, g: Certified, n: Core, stale: Chain, height: nat, r: Call, own: map<nat, Digest>)
    requires NodeInv(c, n) && Certain(c, g, n) && CurrentInv(c, g, n)
    requires CommitsTo(n.ledger, LeaderOf(c, n.epoch), stale, height, r) && r.ok
    requires own == OwnAfter(n.ledger, n.name, LeaderOf(c, n.epoch), r)
    ensures var leader, v := LeaderOf(c, n.epoch), Overlay(g, n.name, own);
            var before, after := CountersOf(n.ledger.chains), CountersOf(r.chains[leader := r.chain]);
            && Extends(View(g, n.name, n.ledger.record), v) && Rises(before, after)
            && AllThere(v, leader, before, after, r.out) && RefsThere(v, leader, before[leader], height, after)
  {
    var leader, v, chains := LeaderOf(c, n.epoch), Overlay(g, n.name, own), n.ledger.chains;
    var after := r.chains[leader := r.chain];
    AttemptFrame(n.ledger, leader, stale, height);
    CommitRises(c, n, stale, height, r);
    ViewExtends(g, g, n.name, n.ledger.record.own, own);
    ViewAgrees(c, g, n, chains, after, own);
    CommitIsThere(n.ledger, leader, stale, height, r, v);
    CommitRefsThere(n.ledger, leader, stale, height, r, v);
    forall x | x in chains ensures CountersOf(chains)[x] <= CountersOf(after)[x] {
      assert OnlyCounters(chains[x], after[x]);
    }
  }

  lemma CommitCompletes(c: Committee, g: Certified, n: Core, stale: Chain, height: nat, r: Call)
    requires NodeInv(c, n) && Certain(c, g, n) && CurrentInv(c, g, n) && CompleteNow(c, g, n)
    requires CommitsTo(n.ledger, LeaderOf(c, n.epoch), stale, height, r) && StaleAgrees(c, g, n, stale)
    ensures CompleteNow(c, g, n.(ledger := AfterCommit(n.ledger, n.name, LeaderOf(c, n.epoch), stale, height, r)))
  {
    var leader := LeaderOf(c, n.epoch);
    var l' := AfterCommit(n.ledger, n.name, leader, stale, height, r);
    if l'.record.ok {
      CommitAdds(c, g, n, stale, height, r, l'.record.own);
      CommitTop(c, g, n, stale, height, r);
      CompleteCompose(View(g, n.name, n.ledger.record), View(g, n.name, l'.record), leader, n.ledger.record,
                      CountersOf(n.ledger.chains), l'.record, CountersOf(l'.chains), height, r.out);
    }
  }

  lemma CommitToCompletes(c: Committee, g: Certified, n: Core, stale: Chain, height: Option<nat>)
    requires NodeInv(c, n) && Certain(c, g, n) && CurrentInv(c, g, n) && CompleteNow(c, g, n)
    requires StaleAgrees(c, g, n, stale)
    ensures CompleteNow(c, g, CommitTo(c, n, stale, height))
    ensures CommitTo(c, n, stale, height).ledger.past == n.ledger.past
    ensures height.Some? && CommitReturns(c, n, stale, height) ==>
              CommitTo(c, n, stale, height).ledger.record.top >= height.value
  {
    if height.Some? && CommitReturns(c, n, stale, height) {
      CommitCompletes(c, g, n, stale, height.value, Attempt(n.ledger, LeaderOf(c, n.epoch), stale, height.value));
    }
  }

  // ----- The steps -----

  ghost predicate SameCounts(n: Core, n': Core) {
    && n'.epoch == n.epoch && n'.name == n.name && n'.ledger.record == n.ledger.record
    && CountersOf(n'.ledger.chains) == CountersOf(n.ledger.chains)
  }

  lemma SameCountsKeep(c: Committee, g: Certified, n: Core, n': Core)
    requires CompleteNow(c, g, n) && SameCounts(n, n')
    ensures CompleteNow(c, g, n')
  {}

  lemma BlockCompletes(c: Committee, g: Certified, n: Core, stale: Chain, b: Block)
    requires NodeInv(c, n) && RecordsInv(c, g, n) && Certain(c, g, n) && CompleteNow(c, g, n)
    requires b.author in n.ledger.chains && StaleAgrees(c, g, n, stale)
    ensures CompleteNow(c, g, ProcessBlock(c, n, stale, b))
    ensures ProcessBlock(c, n, stale, b).ledger.past == n.ledger.past
  {
    var n1, n2 := ProcessBlockSteps(c, n, stale, b);
    StoredCompletes(c, g, n, n1, b, stale);
    CommitToCompletes(c, g, n1, stale, TwoChain(c, n1, b));
    VoteCompletes(c, g, n2, b);
  }

  lemma StoredCompletes(c: Committee, g: Certified, n: Core, n1: Core, b: Block, stale: Chain)
    requires RecordsInv(c, g, n) && Certain(c, g, n) && CompleteNow(c, g, n) && n1 == StoreBlock(n, b)
    requires LeaderOf(c, n.epoch) in n.ledger.chains && StaleAgrees(c, g, n, stale)
    ensures CurrentInv(c, g, n1) && Certain(c, g, n1) && CompleteNow(c, g, n1) && StaleAgrees(c, g, n1, stale)
  {
    StoreBlockRecords(c, g, n, b);
    StoreIsCertain(c, g, n, b);
    SameCountsKeep(c, g, n, n1);
  }

  lemma VoteCompletes(c: Committee, g: Certified, n: Core, b: Block)
    requires CompleteNow(c, g, n) && b.author in n.ledger.chains
    ensures CompleteNow(c, g, VoteOn(c, n, b)) && VoteOn(c, n, b).ledger.past == n.ledger.past
  {
    SameCountsKeep(c, g, n, VoteOn(c, n, b));
  }

  /** The block the epoch is closed with is at the decided height. */
  lemma ClosingHeight(c: Committee, g: Certified, n: Core, b: Block)
    requires Certain(c, g, n) && LeaderOf(c, n.epoch) in n.ledger.chains && LeaderOf(c, n.epoch) != n.name
    requires n.aba.output.Some? && Closing(c, n) == Some(b) && n.aba.output.value > 0
    ensures b.height == n.aba.output.value
  {
    CertainEntry(c, g, n, LeaderOf(c, n.epoch), n.aba.output.value);
  }

  lemma EpochCompletes(c: Committee, g: Certified, n: Core, draft: Draft)
    requires NodeInv(c, n) && n.aba.output.Some? && CompleteNow(c, g, n) && FiledComplete(c, g, n)
    requires n.ledger.record.epoch == n.epoch == |n.ledger.past|
    ensures CompleteNow(c, g, NextEpoch(c, n, draft)) && FiledComplete(c, g, NextEpoch(c, n, draft))
  {
    var n' := NextEpoch(c, n, draft);
    NewIsComplete(View(g, n.name, n'.ledger.record), LeaderOf(c, n'.epoch), n'.ledger.record);
    forall e | 0 <= e < |n'.ledger.past| && n'.ledger.past[e].ok
      ensures Complete(View(g, n.name, n'.ledger.past[e]), LeaderOf(c, e), n'.ledger.past[e])
    {
      if e < n.epoch {
        assert n'.ledger.past[e] == n.ledger.past[e];
      } else {
        assert n'.ledger.past[e] == n.ledger.record;
      }
    }
  }

  lemma NewIsComplete(v: Certified, leader: PublicKey, r: Record)
    requires leader in r.start && r.top == 0
    ensures CompleteAt(v, leader, r, r.start)
  {}

  lemma ClosingGoesUp(c: Committee, g: Certified, n: Core, draft: Draft)
    requires NodeInv(c, n) && RecordsInv(c, g, n) && Certain(c, g, n) && n.aba.output.Some?
    requires ClosingReturns(c, n) && OutputIsLast(n) && ClosingInv(c, g, n)
    ensures ClosingInv(c, g, CloseEpoch(c, n, draft))
  {
    var leader := LeaderOf(c, n.epoch);
    var stale, b, n' := n.ledger.chains[leader], Closing(c, n), CloseEpoch(c, n, draft);
    if b.Some? {
      var n1 := ClosingCommit(c, n, b.value);
      CommitToKeeps(c, n, stale, Some(b.value.height));
      CommitToRecords(c, g, n, stale, Some(b.value.height));
      CommitToCompletes(c, g, n, stale, Some(b.value.height));
      EpochCompletes(c, g, n1, draft);
      if leader != n.name && n.aba.output.value > 0 {
        ClosingHeight(c, g, n, b.value);
      }
      EpochGoesUp(c, n, n1, draft);
    }
  }

  lemma EpochGoesUp(c: Committee, n: Core, n1: Core, draft: Draft)
    requires LeaderOf(c, n.epoch) in n1.ledger.chains && n.aba.output.Some? && OutputIsLast(n)
    requires n1 == n.(ledger := n1.ledger) && n1.ledger.past == n.ledger.past && |n.ledger.past| == n.epoch
    requires forall e: nat :: e < |n.ledger.past| ==> GoesUpTo(c, n, e)
    requires LeaderOf(c, n.epoch) != n.name ==> n1.ledger.record.top >= n.aba.output.value
    ensures forall e: nat :: e < |NextEpoch(c, n1, draft).ledger.past| ==> GoesUpTo(c, NextEpoch(c, n1, draft), e)
  {
    var n' := NextEpoch(c, n1, draft);
    forall e: nat | e < |n'.ledger.past| ensures GoesUpTo(c, n', e) {
      if e < n.epoch {
        assert GoesUpTo(c, n, e) && n'.ledger.past[e] == n.ledger.past[e];
      } else {
        assert n'.ledger.past[e] == n1.ledger.record && LastDecided(n'.aba.log, e, n.aba.output.value);
      }
    }
  }

  /** Earlier epochs' decisions and records stay. */
  lemma OldGoesUp(c: Committee, n: Core, n': Core)
    requires NothingDecided(n, n') || DecidesNow(n, n')
    requires n'.name == n.name && n'.ledger.past == n.ledger.past && |n.ledger.past| == n.epoch
    requires forall e: nat :: e < |n.ledger.past| ==> GoesUpTo(c, n, e)
    ensures forall e: nat :: e < |n'.ledger.past| ==> GoesUpTo(c, n', e)
  {
    forall e: nat | e < |n'.ledger.past| ensures GoesUpTo(c, n', e) {
      assert GoesUpTo(c, n, e);
      var v :| LastDecided(n.aba.log, e, v) && (LeaderOf(c, e) != n.name ==> n.ledger.past[e].top >= v);
      StillLast(n.aba.log, n'.aba.log, e, v);
    }
  }

  lemma ActionKeepsClosing(c: Committee, k: Knowledge, g: Certified, n: Core, a: Action)
    requires NodeInv(c, n) && RecordsInv(c, g, n) && Certain(c, g, n) && Enabled(c, k, n, a)
    requires a.OnBlock? ==> StaleAgrees(c, g, n, a.stale)
    requires OutputIsLast(n) && ClosingInv(c, g, n)
    ensures ClosingInv(c, g, Apply(c, k, n, a))
  {
    if a.Close? {
      ApplyClose(c, k, n, a.draft);
      ClosingGoesUp(c, g, n, a.draft);
    } else {
      ActionDecides(c, k, n, a);
      if a.OnBlock? {
        ApplyBlock(c, k, n, a.block, a.stale);
        BlockCompletes(c, g, n, a.stale, a.block);
      } else {
        QuietAction(c, k, n, a);
        QuietCompletes(c, g, n, Apply(c, k, n, a));
      }
      OldGoesUp(c, n, Apply(c, k, n, a));
    }
  }

  lemma QuietCompletes(c: Committee, g: Certified, n: Core, n': Core)
    requires Undelivering(n, n') && CompleteNow(c, g, n)
    ensures CompleteNow(c, g, n')
  {
    assert CountersOf(n'.ledger.chains) == CountersOf(n.ledger.chains);
    SameCountsKeep(c, g, n, n');
  }

  // ----- Whole runs -----

  ghost predicate AllClosing(c: Committee, w: World) {
    forall x | x in w :: ClosingInv(c, CertifiedDigests(c, Known(w)), w[x])
  }

  ghost predicate AllDecisions(w: World) {
    forall x | x in w :: DecisionsInv(w[x])
  }

  lemma ActorCloses(c: Committee, w: World, w': World) returns (x: PublicKey)
    requires SystemInv(c, w) && AllCert(c, w) && AllRecords(c, w) && AllDecisions(w) && AllClosing(c, w)
    requires Step(c, w, w')
    ensures x in w' && w' == w[x := w'[x]] && ClosingInv(c, CertifiedDigests(c, Known(w)), w'[x])
  {
    var a;
    x, a :| StepBy(c, w, w', x, a);
    NodeIsCertain(c, w, x);
    NodeCloses(c, w, CertifiedDigests(c, Known(w)), x, a);
  }

  lemma NodeCloses(c: Committee, w: World, g: Certified, x: PublicKey, a: Action)
    requires SystemInv(c, w) && x in w && NodeInv(c, w[x]) && Enabled(c, Known(w), w[x], a)
    requires g == CertifiedDigests(c, Known(w)) && Certain(c, g, w[x])
    requires RecordsInv(c, g, w[x]) && OutputIsLast(w[x]) && ClosingInv(c, g, w[x])
    ensures ClosingInv(c, g, Apply(c, Known(w), w[x], a))
  {
    if a.OnBlock? {
      StandingAgrees(c, w, x, a.block, a.stale);
    }
    ActionKeepsClosing(c, Known(w), g, w[x], a);
  }

  lemma AllClosingGrow(c: Committee, w: World, w': World, x: PublicKey)
    requires AllClosing(c, w) && x in w' && w' == w[x := w'[x]]
    requires ClosingInv(c, CertifiedDigests(c, Known(w)), w'[x])
    requires Extends(CertifiedDigests(c, Known(w)), CertifiedDigests(c, Known(w')))
    ensures AllClosing(c, w')
  {
    forall y | y in w' ensures ClosingInv(c, CertifiedDigests(c, Known(w')), w'[y]) {
      ClosingGrows(c, CertifiedDigests(c, Known(w)), CertifiedDigests(c, Known(w')), w'[y]);
    }
  }

  lemma StartCloses(c: Committee, w: World)
    requires Start(c, w)
    ensures AllClosing(c, w)
  {
    forall x | x in w ensures ClosingInv(c, CertifiedDigests(c, Known(w)), w[x]) {
      var draft :| IsInitial(c, w[x], draft);
      NewIsComplete(View(CertifiedDigests(c, Known(w)), x, w[x].ledger.record), LeaderOf(c, 0), w[x].ledger.record);
    }
  }

  lemma {:induction false} RunCloses(c: Committee, tr: seq<World>)
    requires Run(c, tr) && FaultBound(c, tr[0])
    ensures AllClosing(c, Last(tr))
    decreases |tr|
  {
    if |tr| == 1 {
      StartCloses(c, tr[0]);
    } else {
      var front := tr[..|tr| - 1];
      PrefixRun(c, tr, |tr| - 1);
      RunCloses(c, front);
      RunKeepsInv(c, front);
      RunKeepsCert(c, front);
      RunKeepsRecords(c, front);
      RunAllDecisions(c, front);
      StepAt(c, tr, |tr| - 2);
      var x := ActorCloses(c, Last(front), Last(tr));
      StepDigests(c, Last(front), Last(tr));
      AllClosingGrow(c, Last(front), Last(tr), x);
    }
  }

  lemma RunAllDecisions(c: Committee, tr: seq<World>)
    requires Run(c, tr) && FaultBound(c, tr[0])
    ensures AllDecisions(Last(tr))
  {
    RunKeys(c, tr);
    forall x | x in Last(tr) ensures DecisionsInv(Last(tr)[x]) {
      RunDecides(c, tr, x);
    }
  }

  lemma {:induction false} RunKeys(c: Committee, tr: seq<World>)
    requires Run(c, tr) && FaultBound(c, tr[0])
    ensures Last(tr).Keys == tr[0].Keys
    decreases |tr|
  {
    if |tr| > 1 {
      var front := tr[..|tr| - 1];
      PrefixRun(c, tr, |tr| - 1);
      RunKeys(c, front);
      RunKeepsInv(c, front);
      StepAt(c, tr, |tr| - 2);
      StepKeepsInv(c, Last(front), Last(tr));
    }
  }

  // ----- What a closed epoch has delivered -----

  ghost predicate IsThere(v: Certified, leader: PublicKey, y: PublicKey, h: nat, out: seq<Block>) {
    (y, h) in v && Shown(leader, v[(y, h)]) in Digests(out)
  }

  /** The leader's block at the height is delivered, and so is every block of another chain between the
      epoch's start and a height it refers to. */
  ghost predicate HeightThere(v: Certified, leader: PublicKey, r: Record, h: nat) {
    && IsThere(v, leader, leader, h, r.out)
    && forall d :: Refers(v, leader, h, d) ==>
         d.Of? && d.author in r.start
         && (d.author != leader ==>
               forall j: nat :: r.start[d.author] < j <= d.height ==> IsThere(v, leader, d.author, j, r.out))
  }

  ghost predicate ReachedBy(v: Certified, leader: PublicKey, r: Record, height: nat) {
    leader in r.start && forall h: nat :: r.start[leader] < h <= height ==> HeightThere(v, leader, r, h)
  }

  lemma CompleteReaches(v: Certified, leader: PublicKey, r: Record)
    requires Complete(v, leader, r)
    ensures ReachedBy(v, leader, r, r.top)
  {
    var cnt :| CompleteAt(v, leader, r, cnt);
    forall h: nat | r.start[leader] < h <= r.top ensures HeightThere(v, leader, r, h) {
      assert ChainThere(v, leader, leader, r.start[leader], cnt[leader], r.out);
      forall d | Refers(v, leader, h, d)
        ensures d.Of? && d.author in r.start
        ensures d.author != leader ==>
                  forall j: nat :: r.start[d.author] < j <= d.height ==> IsThere(v, leader, d.author, j, r.out)
      {
        assert ChainThere(v, leader, d.author, r.start[d.author], cnt[d.author], r.out);
      }
    }
  }

  /** The epoch has a last decision; its record, if every commit returned true, holds what the leader's chain
      has up to the record's height; and unless the node led it, that is the decided height at least. */
  ghost predicate Delivers(c: Committee, g: Certified, n: Core, e: nat) {
    && e < |RecordsOf(n)| && IsDecided(n.aba.log, e)
    && var r := RecordsOf(n)[e];
    && r.epoch == e && (r.ok ==> ReachedBy(View(g, n.name, r), LeaderOf(c, e), r, r.top))
    && forall v: nat :: LastDecided(n.aba.log, e, v) && LeaderOf(c, e) != n.name ==> v <= r.top
  }

  /** Over every run, each epoch a node has closed is delivered up to what was decided. */
  lemma ClosedEpochIsDelivered(c: Committee, tr: seq<World>, x: PublicKey, e: nat)
    requires Run(c, tr) && FaultBound(c, tr[0]) && x in Last(tr) && e < Last(tr)[x].epoch
    ensures Delivers(c, CertifiedDigests(c, Known(Last(tr))), Last(tr)[x], e)
  {
    RunKeepsRecords(c, tr);
    RunCloses(c, tr);
    ClosedRecord(c, CertifiedDigests(c, Known(Last(tr))), Last(tr)[x], e);
  }

  lemma ClosedRecord(c: Committee, g: Certified, n: Core, e: nat)
    requires RecordsInv(c, g, n) && ClosingInv(c, g, n) && e < n.epoch
    ensures Delivers(c, g, n, e)
  {
    assert GoesUpTo(c, n, e) && RecordsOf(n)[e] == n.ledger.past[e];
    var u :| LastDecided(n.aba.log, e, u) && (LeaderOf(c, e) != n.name ==> n.ledger.past[e].top >= u);
    if n.ledger.past[e].ok {
      CompleteReaches(View(g, n.name, n.ledger.past[e]), LeaderOf(c, e), n.ledger.past[e]);
    }
    forall v: nat | LastDecided(n.aba.log, e, v) ensures v == u {
      OneLast(n.aba.log, e, v, u);
    }
  }

  // ----- What the 2-chain rule delivers -----

  /** The block of the digest is at hand; the genesis block always is. */
  ghost predicate Holds(store: Store, d: Digest, b: Block) {
    if d == Zero then b == GENESIS_BLOCK else d in store && store[d] == b
  }

  /** On seeing the block, outside a view change, the 2-chain rule commits `b0`: the block's parent and
      grandparent are stored, one height apart, and `b0` is the leader's. */
  ghost predicate Settles(c: Committee, n: Core, b: Block, b0: Block)
    requires b.author in n.ledger.chains
  {
    var store, leader := n.ledger.store[DigestOf(b) := b], LeaderOf(c, n.epoch);
    && b.author == leader && !n.viewChange && b.epoch <= n.ledger.chains[leader].epoch && b0.author == leader
    && exists b1 :: Holds(store, b.qc.hash, b1) && Holds(store, b1.qc.hash, b0) && b0.height + 1 == b1.height
  }

  lemma SettlingBlock(c: Committee, n: Core, b: Block, b0: Block)
    requires b.author in n.ledger.chains && Settles(c, n, b, b0)
    ensures TwoChain(c, StoreBlock(n, b), b) == Some(b0.height)
  {}

  lemma OtherBlock(c: Committee, n: Core, b: Block)
    requires b.author in n.ledger.chains && forall b0 :: !Settles(c, n, b, b0)
    ensures TwoChain(c, StoreBlock(n, b), b) == None
  {
    var n1 := StoreBlock(n, b);
    if TwoChain(c, n1, b).Some? {
      var p := Ancestors(n1.ledger.store, b).value;
      assert Settles(c, n, b, p.0);
    }
  }

  /** The current record goes at least to the height and, if every commit returned true, is delivered that far. */
  ghost predicate DeliversNow(c: Committee, g: Certified, n: Core, height: nat) {
    var r := n.ledger.record;
    height <= r.top && (r.ok ==> ReachedBy(View(g, n.name, r), LeaderOf(c, n.epoch), r, r.top))
  }

  ghost predicate DeliversNothing(n: Core, n': Core) {
    n'.ledger.record == n.ledger.record && CountersOf(n'.ledger.chains) == CountersOf(n.ledger.chains)
  }

  lemma CompleteDelivers(c: Committee, g: Certified, n: Core, height: nat)
    requires CompleteNow(c, g, n) && height <= n.ledger.record.top
    ensures DeliversNow(c, g, n, height)
  {
    if n.ledger.record.ok {
      CompleteReaches(View(g, n.name, n.ledger.record), LeaderOf(c, n.epoch), n.ledger.record);
    }
  }

  lemma BlockGoesUp(c: Committee, n: Core, stale: Chain, b: Block, b0: Block)
    requires NodeInv(c, n) && b.author in n.ledger.chains && BlockReturns(c, n, stale, b) && Settles(c, n, b, b0)
    ensures b0.height <= ProcessBlock(c, n, stale, b).ledger.record.top
  {
    var n1, n2 := ProcessBlockSteps(c, n, stale, b);
    SettlingBlock(c, n, b, b0);
  }

  lemma BlockDelivers(c: Committee, g: Certified, n: Core, stale: Chain, b: Block, b0: Block)
    requires NodeInv(c, n) && RecordsInv(c, g, n) && Certain(c, g, n) && CompleteNow(c, g, n)
    requires b.author in n.ledger.chains && StaleAgrees(c, g, n, stale) && BlockReturns(c, n, stale, b)
    requires Settles(c, n, b, b0)
    ensures DeliversNow(c, g, ProcessBlock(c, n, stale, b), b0.height)
  {
    BlockGoesUp(c, n, stale, b, b0);
    BlockCompletes(c, g, n, stale, b);
    CompleteDelivers(c, g, ProcessBlock(c, n, stale, b), b0.height);
  }

  lemma BlockDeliversNothing(c: Committee, n: Core, stale: Chain, b: Block)
    requires NodeInv(c, n) && b.author in n.ledger.chains && forall b0 :: !Settles(c, n, b, b0)
    ensures DeliversNothing(n, ProcessBlock(c, n, stale, b))
  {
    var n1, n2 := ProcessBlockSteps(c, n, stale, b);
    OtherBlock(c, n, b);
  }

  ghost predicate DeliversAsSettled(c: Committee, g: Certified, n: Core, n': Core, b: Block)
    requires b.author in n.ledger.chains
  {
    && (forall b0 :: Settles(c, n, b, b0) ==> DeliversNow(c, g, n', b0.height))
    && ((forall b0 :: !Settles(c, n, b, b0)) ==> DeliversNothing(n, n'))
  }

  /** In every reachable state a block delivers what the 2-chain rule says and nothing else. */
  lemma BlocksDeliverExactly(c: Committee, tr: seq<World>, w': World, x: PublicKey, b: Block, stale: Chain)
    requires Run(c, tr) && FaultBound(c, tr[0]) && StepBy(c, Last(tr), w', x, OnBlock(b, stale))
    ensures b.author in Last(tr)[x].ledger.chains
    ensures DeliversAsSettled(c, CertifiedDigests(c, Known(Last(tr))), Last(tr)[x], w'[x], b)
  {
    var w, g := Last(tr), CertifiedDigests(c, Known(Last(tr)));
    RunKeepsInv(c, tr);
    RunKeepsCert(c, tr);
    RunKeepsRecords(c, tr);
    RunCloses(c, tr);
    NodeIsCertain(c, w, x);
    StandingAgrees(c, w, x, b, stale);
    ApplyBlock(c, Known(w), w[x], b, stale);
    NodeDelivers(c, g, w[x], stale, b);
  }

  lemma NodeDelivers(c: Committee, g: Certified, n: Core, stale: Chain, b: Block)
    requires NodeInv(c, n) && RecordsInv(c, g, n) && Certain(c, g, n) && CompleteNow(c, g, n)
    requires b.author in n.ledger.chains && StaleAgrees(c, g, n, stale) && BlockReturns(c, n, stale, b)
    ensures DeliversAsSettled(c, g, n, ProcessBlock(c, n, stale, b), b)
  {
    var n' := ProcessBlock(c, n, stale, b);
    forall b0 | Settles(c, n, b, b0) ensures DeliversNow(c, g, n', b0.height) {
      BlockDelivers(c, g, n, stale, b, b0);
    }
    if forall b0 :: !Settles(c, n, b, b0) {
      BlockDeliversNothing(c, n, stale, b);
    }
  }

  // ----- What closing does with the output -----

  /** The block stored for the decided height of the leader's chain. */
  ghost predicate IsOutputBlock(c: Committee, n: Core, b: Block) {
    var leader := LeaderOf(c, n.epoch);
    && n.aba.output.Some? && leader in n.ledger.chains
    && n.aba.output.value in n.ledger.chains[leader].heightToDigest
    && Holds(n.ledger.store, n.ledger.chains[leader].heightToDigest[n.aba.output.value], b)
  }

  /** Exactly the entries of later epochs are kept. */
  ghost predicate LaterKept<V>(a: map<Round, V>, b: map<Round, V>, e: nat) {
    (forall k :: k in b <==> k in a && k.epoch > e) && forall k | k in b :: b[k] == a[k]
  }

  ghost predicate TablesTurnOver(a: Tables, b: Tables, e: nat) {
    && (forall k: ValKey | k.epoch > e :: Entry(b.vals, k) == Entry(a.vals, k))
    && forall k: Round | k.epoch > e :: Entry(b.coins, k) == Entry(a.coins, k)
  }

  ghost predicate CachesTurnOver(a: Aba, b: Aba, e: nat) {
    && LaterKept(a.val1, b.val1, e) && LaterKept(a.val2, b.val2, e) && LaterKept(a.aux, b.aux, e)
    && LaterKept(a.auxNums, b.auxNums, e) && LaterKept(a.coin, b.coin, e) && LaterKept(a.proofs, b.proofs, e)
    && TablesTurnOver(a.tables, b.tables, e)
  }

  lemma KeepsLater<V>(a: map<Round, V>, e: nat)
    ensures LaterKept(a, KeepEpochs(a, e + 1), e)
  {}

  lemma TablesAreTurnedOver(a: Tables, e: nat)
    ensures TablesTurnOver(a, CleanupAba(a, e + 1), e)
  {}

  lemma CachesAreTurnedOver(a: Aba, e: nat)
    ensures CachesTurnOver(a, NextEpochAba(a, e + 1), e)
  {
    KeepsLater(a.val1, e);
    KeepsLater(a.val2, e);
    KeepsLater(a.aux, e);
    KeepsLater(a.auxNums, e);
    KeepsLater(a.coin, e);
    KeepsLater(a.proofs, e);
    TablesAreTurnedOver(a.tables, e);
  }

  ghost predicate TcsTurnOver(a: map<nat, TC>, b: map<nat, TC>, e: nat) {
    (forall i :: i in b <==> i in a && i > e) && forall i | i in b :: b[i] == a[i]
  }

  /** The next epoch begins: certificates and caches of epochs to come are kept, and the leader's chain starts
      over above the decided height. */
  ghost predicate TurnsOver(c: Committee, n: Core, n': Core, v: nat) {
    && Begins(n.epoch, n.tcs, n') && CachesTurnOver(n.aba, n'.aba, n.epoch)
    && ChainsTurnOver(n.ledger.chains, n'.ledger.chains, LeaderOf(c, n.epoch), v)
  }

  ghost predicate Begins(e: nat, tcs: map<nat, TC>, n': Core) {
    && n'.epoch == e + 1 && !n'.viewChange && n'.aba.output == None && n'.aba.round == 1
    && n'.aba.phase == INIT_PHASE && TcsTurnOver(tcs, n'.tcs, e)
  }

  ghost predicate ChainsTurnOver(a: Chains, b: Chains, x: PublicKey, v: nat) {
    && x in a && x in b && Restarts(a[x], b[x], v)
    && forall y | y in a && y != x :: y in b && OnlyCounters(a[y], b[y])
  }

  ghost predicate Restarts(a: Chain, b: Chain, v: nat) {
    && b.name == a.name && b.epoch == a.epoch + 1 && IsGenesis(b.highQc)
    && b.height == v + 10 && b.lastCommitted == v + 9 && b.lastVoted == a.lastVoted
    && (forall h :: h in b.heightToDigest <==> h in a.heightToDigest && h > v)
    && forall h | h in b.heightToDigest :: b.heightToDigest[h] == a.heightToDigest[h]
  }

  /** The leader proposes the first block of its new tenure; nobody else signs anything. */
  ghost predicate ProposesIf(led: bool, a: seq<ChainEvent>, b: seq<ChainEvent>) {
    if led then |b| == |a| + 1 && a <= b && b[|a|].Proposed? else b == a
  }

  ghost predicate FilesUpTo(c: Committee, n: Core, n': Core, height: nat) {
    && ProposesIf(LeaderOf(c, n.epoch) == n.name, n.ledger.log, n'.ledger.log)
    && |RecordsOf(n')| == |RecordsOf(n)| + 1 && RecordsOf(n')[|RecordsOf(n)| - 1].top >= height
  }

  ghost predicate EndsEpoch(c: Committee, n: Core, n': Core, b: Block) {
    n.aba.output.Some? && TurnsOver(c, n, n', n.aba.output.value) && FilesUpTo(c, n, n', b.height)
  }

  lemma ChainsAreTurnedOver(a: Chains, b: Chains, x: PublicKey, v: nat)
    requires x in a && CountersOnly(a, b)
    ensures ChainsTurnOver(a, b[x := Restarted(b[x], v)], x, v)
  {
    assert OnlyCounters(a[x], b[x]);
  }

  lemma NextCaches(c: Committee, n: Core, draft: Draft)
    requires LeaderOf(c, n.epoch) in n.ledger.chains && n.aba.output.Some?
    ensures CachesTurnOver(n.aba, NextEpoch(c, n, draft).aba, n.epoch)
  {
    CachesAreTurnedOver(n.aba, n.epoch);
  }

  lemma NextBegins(c: Committee, n: Core, draft: Draft)
    requires LeaderOf(c, n.epoch) in n.ledger.chains && n.aba.output.Some?
    ensures Begins(n.epoch, n.tcs, NextEpoch(c, n, draft))
  {}

  lemma TurningOver(c: Committee, n: Core, n1: Core, draft: Draft)
    requires NodeInv(c, n) && n.aba.output.Some? && LeaderOf(c, n.epoch) in n1.ledger.chains
    requires n1 == n.(ledger := n1.ledger) && CountersOnly(n.ledger.chains, n1.ledger.chains)
    ensures TurnsOver(c, n, NextEpoch(c, n1, draft), n.aba.output.value)
  {
    NextBegins(c, n1, draft);
    NextCaches(c, n1, draft);
    ChainsAreTurnedOver(n.ledger.chains, n1.ledger.chains, LeaderOf(c, n.epoch), n.aba.output.value);
  }

  lemma NextFiles(c: Committee, n: Core, n1: Core, height: nat, draft: Draft)
    requires LeaderOf(c, n.epoch) in n1.ledger.chains && n.aba.output.Some? && n1 == n.(ledger := n1.ledger)
    requires n1.ledger.past == n.ledger.past && n1.ledger.log == n.ledger.log && n1.ledger.record.top >= height
    ensures FilesUpTo(c, n, NextEpoch(c, n1, draft), height)
  {}

  lemma ClosingCommitGoesUp(c: Committee, n: Core, b: Block)
    requires NodeInv(c, n) && ClosingReturns(c, n) && Closing(c, n) == Some(b)
    ensures var n1 := ClosingCommit(c, n, b);
            && CountersOnly(n.ledger.chains, n1.ledger.chains) && n1.ledger.past == n.ledger.past
            && n1.ledger.log == n.ledger.log
            && n1.ledger.record.top >= b.height
  {
    CommitToKeeps(c, n, n.ledger.chains[LeaderOf(c, n.epoch)], Some(b.height));
  }

  lemma EndingEpoch(c: Committee, n: Core, b: Block, draft: Draft)
    requires NodeInv(c, n) && ClosingReturns(c, n) && Closing(c, n) == Some(b)
    ensures EndsEpoch(c, n, CloseEpoch(c, n, draft), b)
  {
    var n1 := ClosingCommit(c, n, b);
    ClosingCommitGoesUp(c, n, b);
    TurningOver(c, n, n1, draft);
    NextFiles(c, n, n1, b.height, draft);
    EndsWith(c, n, CloseEpoch(c, n, draft), b);
  }

  lemma EndsWith(c: Committee, n: Core, n': Core, b: Block)
    requires n.aba.output.Some? && TurnsOver(c, n, n', n.aba.output.value) && FilesUpTo(c, n, n', b.height)
    ensures EndsEpoch(c, n, n', b)
  {}

  /** The epoch ends exactly when the block of the decided height is at hand, whoever led it; its record then
      goes up to that block. */
  lemma ClosesExactly(c: Committee, n: Core, draft: Draft)
    requires NodeInv(c, n) && n.aba.output.Some? && ClosingReturns(c, n)
    ensures forall b :: IsOutputBlock(c, n, b) ==> EndsEpoch(c, n, CloseEpoch(c, n, draft), b)
    ensures (forall b :: !IsOutputBlock(c, n, b)) ==> CloseEpoch(c, n, draft) == n
  {
    if Closing(c, n).Some? {
      assert IsOutputBlock(c, n, Closing(c, n).value);
      EndingEpoch(c, n, Closing(c, n).value, draft);
    }
  }

  /** A node in view change that has decided ends its epoch with its next turn, provided the block is at hand. */
  lemma DecisionEndsEpoch(c: Committee, n: Core, b: Block, combined: Option<nat>, draft: Draft)
    requires NodeInv(c, n) && n.viewChange && IsOutputBlock(c, n, b) && ClosingReturns(c, n)
    ensures EndsEpoch(c, n, UpdateAba(c, n, combined, draft), b)
  {
    var n1 := EnterPhases(c, n);
    EnterPhasesKeeps(c, n);
    PhasesEndEpoch(c, n, n1, b, draft);
  }

  lemma PhasesEndEpoch(c: Committee, n: Core, n1: Core, b: Block, draft: Draft)
    requires NodeInv(c, n) && NodeInv(c, n1) && IsOutputBlock(c, n, b) && ClosingReturns(c, n)
    requires n1 == EnterPhases(c, n)
    ensures EndsEpoch(c, n, CloseEpoch(c, n1, draft), b)
  {
    assert Closing(c, n1) == Some(b);
    EndingEpoch(c, n1, b, draft);
    PhasesTurnOver(c, n, n1, CloseEpoch(c, n1, draft));
    EndsWith(c, n, CloseEpoch(c, n1, draft), b);
  }

  lemma PhasesTurnOver(c: Committee, n: Core, n1: Core, n': Core)
    requires NodeInv(c, n) && n.aba.output.Some? && n1 == EnterPhases(c, n)
    requires TurnsOver(c, n1, n', n.aba.output.value)
    ensures TurnsOver(c, n, n', n.aba.output.value)
  {}
}
