/** A node's own chain may hold blocks nobody else accepts a certificate for. What the node delivers is
    the ideal order over the certified digests with its own entries laid over them; and that is the
    order everybody delivers exactly when those entries are the certified ones. */
module Overlays {
  import opened Committees
  import opened Options
  import opened Messages
  import opened Aggregators
  import opened Commits
  import opened Delivery

  /** The certified digests, but for x's chain the given ones. */
  ghost function Overlay(g: Certified, x: PublicKey, own: map<nat, Digest>): Certified {
    imap k: (PublicKey, nat) | if k.0 == x then k.1 in own else k in g :: if k.0 == x then own[k.1] else g[k]
  }

  /** Every given entry is certified, or differs from the certified one only in the order of its
      references, which delivery does not show. */
  ghost predicate OwnCertified(g: Certified, leader: PublicKey, x: PublicKey, own: map<nat, Digest>) {
    forall h | h in own :: (x, h) in g && Shown(leader, own[h]) == Shown(leader, g[(x, h)])
  }

  lemma OverlayGrows(leader: PublicKey, g: Certified, g': Certified, x: PublicKey, own: map<nat, Digest>,
                     own': map<nat, Digest>)
    requires Extends(g, g') && forall h | h in own :: h in own' && own'[h] == own[h]
    ensures Alike(leader, Overlay(g, x, own), Overlay(g', x, own'))
  {}

  lemma OwnCertifiedIsAlike(leader: PublicKey, g: Certified, x: PublicKey, own: map<nat, Digest>)
    requires WellCertified(g) && OwnCertified(g, leader, x, own)
    ensures Alike(leader, Overlay(g, x, own), g)
  {
    forall k | k in Overlay(g, x, own)
      ensures k in g && if k.0 == leader then Shown(leader, g[k]) == Shown(leader, Overlay(g, x, own)[k])
                        else g[k] == Overlay(g, x, own)[k]
    {
      if k.0 == x {
        assert k == (x, k.1) && k.1 in own;
      }
    }
  }

  // ----- Two sets of digests that differ on another chain than the leader's -----

  ghost predicate SameBetween(g: Certified, g': Certified, x: PublicKey, lo: nat, hi: nat) {
    forall k: nat :: lo < k <= hi ==> (x, k) in g && (x, k) in g' && g[(x, k)] == g'[(x, k)]
  }

  ghost predicate SameWithin(g: Certified, g': Certified, leader: PublicKey, a: Counters, b: Counters) {
    forall y | y in a && y in b :: y != leader ==> SameBetween(g, g', y, a[y], b[y])
  }

  ghost predicate Rises(a: Counters, b: Counters) {
    a.Keys == b.Keys && forall y | y in a :: a[y] <= b[y]
  }

  /** Both get as far, with as many blocks; and the blocks are the same only if the digests are. */
  ghost predicate SameShape(g: Certified, g': Certified, leader: PublicKey, cnt: Counters, r: Ideal, r': Ideal) {
    && r.counters == r'.counters && |r.out| == |r'.out| && Rises(cnt, r.counters)
    && (r.out == r'.out ==> SameWithin(g, g', leader, cnt, r.counters))
  }

  lemma {:induction false} RangeShape(g: Certified, g': Certified, cnt: Counters, x: PublicKey, height: nat)
    requires x in cnt && DeliverRange(g, cnt, x, height).ready && DeliverRange(g', cnt, x, height).ready
    ensures var r, r' := DeliverRange(g, cnt, x, height), DeliverRange(g', cnt, x, height);
            && r.counters == r'.counters == cnt[x := Max(cnt[x], height)] && |r.out| == |r'.out|
            && (r.out == r'.out ==> SameBetween(g, g', x, cnt[x], height))
    decreases height
  {
    if cnt[x] < height {
      RangeShape(g, g', cnt, x, height - 1);
      var p, p' := DeliverRange(g, cnt, x, height - 1), DeliverRange(g', cnt, x, height - 1);
      LastOfEqual(p.out, g[(x, height)], p'.out, g'[(x, height)]);
    } else {
      assert cnt[x := cnt[x]] == cnt;
    }
  }

  lemma LastOfEqual<T>(a: seq<T>, x: T, b: seq<T>, y: T)
    requires |a| == |b|
    ensures a + [x] == b + [y] ==> a == b && x == y
  {
    assert a + [x] == b + [y] ==> (a + [x])[..|a|] == (b + [y])[..|b|] && (a + [x])[|a|] == (b + [y])[|b|];
  }

  lemma SplitEqual<T>(a: seq<T>, x: seq<T>, b: seq<T>, y: seq<T>)
    requires |a| == |b|
    ensures a + x == b + y ==> a == b && x == y
  {
    assert a + x == b + y ==> (a + x)[..|a|] == (b + y)[..|b|] && (a + x)[|a|..] == (b + y)[|b|..];
  }

  lemma ShapeOn(g: Certified, g': Certified, leader: PublicKey, cnt: Counters, p: Ideal, p': Ideal, s: Ideal, s': Ideal)
    requires SameShape(g, g', leader, cnt, p, p') && SameShape(g, g', leader, p.counters, s, s')
    ensures SameShape(g, g', leader, cnt, Ideal(true, p.out + s.out, s.counters),
                      Ideal(true, p'.out + s'.out, s'.counters))
  {
    SplitEqual(p.out, s.out, p'.out, s'.out);
  }

  lemma RangeSameShape(g: Certified, g': Certified, leader: PublicKey, cnt: Counters, x: PublicKey, height: nat)
    requires x in cnt && DeliverRange(g, cnt, x, height).ready && DeliverRange(g', cnt, x, height).ready
    ensures SameShape(g, g', leader, cnt, DeliverRange(g, cnt, x, height), DeliverRange(g', cnt, x, height))
  {
    RangeShape(g, g', cnt, x, height);
  }

  lemma {:induction false} RefsShape(g: Certified, g': Certified, cnt: Counters, leader: PublicKey,
                                     refs: seq<Reference>)
    requires DeliverRefs(g, cnt, leader, refs).ready && DeliverRefs(g', cnt, leader, refs).ready
    ensures SameShape(g, g', leader, cnt, DeliverRefs(g, cnt, leader, refs), DeliverRefs(g', cnt, leader, refs))
    decreases |refs|
  {
    if refs != [] {
      var front, d := refs[..|refs| - 1], refs[|refs| - 1].digest;
      RefsShape(g, g', cnt, leader, front);
      var p, p' := DeliverRefs(g, cnt, leader, front), DeliverRefs(g', cnt, leader, front);
      if d.author != leader {
        RangeSameShape(g, g', leader, p.counters, d.author, d.height);
        ShapeOn(g, g', leader, cnt, p, p', DeliverRange(g, p.counters, d.author, d.height),
                DeliverRange(g', p'.counters, d.author, d.height));
      }
    }
  }

  lemma OneShape(g: Certified, g': Certified, cnt: Counters, leader: PublicKey, height: nat)
    requires leader in cnt && cnt[leader] <= height
    requires DeliverOne(g, cnt, leader, height).ready && DeliverOne(g', cnt, leader, height).ready
    requires (leader, height) in g && (leader, height) in g' && g[(leader, height)] == g'[(leader, height)]
    ensures SameShape(g, g', leader, cnt, DeliverOne(g, cnt, leader, height), DeliverOne(g', cnt, leader, height))
  {
    var d := Shown(leader, g[(leader, height)]);
    if d.Of? && d.author == leader {
      RefsShape(g, g', cnt, leader, d.references);
      RefsKeepLeader(g, cnt, leader, d.references);
      LastOfEqual(DeliverRefs(g, cnt, leader, d.references).out, d, DeliverRefs(g', cnt, leader, d.references).out, d);
    }
  }

  lemma {:induction false} RefsKeepLeader(g: Certified, cnt: Counters, leader: PublicKey, refs: seq<Reference>)
    requires DeliverRefs(g, cnt, leader, refs).ready && leader in cnt
    ensures leader in DeliverRefs(g, cnt, leader, refs).counters
    ensures DeliverRefs(g, cnt, leader, refs).counters[leader] == cnt[leader]
    decreases |refs|
  {
    if refs != [] {
      RefsKeepLeader(g, cnt, leader, refs[..|refs| - 1]);
      var p, d := DeliverRefs(g, cnt, leader, refs[..|refs| - 1]), refs[|refs| - 1].digest;
      if d.author != leader {
        RangeShape(g, g, p.counters, d.author, d.height);
      }
    }
  }

  ghost function DeliverTo(g: Certified, cnt: Counters, leader: PublicKey, lo: nat, hi: nat): Ideal {
    Heights((c, h) => DeliverOne(g, c, leader, h), cnt, lo, hi)
  }

  lemma RunUnfolds(g: Certified, cnt: Counters, leader: PublicKey, lo: nat, hi: nat)
    requires lo < hi && DeliverTo(g, cnt, leader, lo, hi).ready
    ensures var p := DeliverTo(g, cnt, leader, lo, hi - 1);
            var s := DeliverOne(g, p.counters, leader, hi);
            p.ready && s.ready && (leader, hi) in g
            && DeliverTo(g, cnt, leader, lo, hi) == Ideal(true, p.out + s.out, s.counters)
  {}

  lemma {:induction false} RunShape(g: Certified, g': Certified, cnt: Counters, leader: PublicKey, lo: nat, hi: nat)
    requires leader in cnt && cnt[leader] <= lo
    requires DeliverTo(g, cnt, leader, lo, hi).ready && DeliverTo(g', cnt, leader, lo, hi).ready
    requires forall h :: (leader, h) in g && (leader, h) in g' ==> g[(leader, h)] == g'[(leader, h)]
    ensures SameShape(g, g', leader, cnt, DeliverTo(g, cnt, leader, lo, hi), DeliverTo(g', cnt, leader, lo, hi))
    ensures DeliverTo(g, cnt, leader, lo, hi).counters[leader] <= Max(lo, hi)
    decreases hi
  {
    if lo < hi {
      RunUnfolds(g, cnt, leader, lo, hi);
      RunUnfolds(g', cnt, leader, lo, hi);
      RunShape(g, g', cnt, leader, lo, hi - 1);
      var p, p' := DeliverTo(g, cnt, leader, lo, hi - 1), DeliverTo(g', cnt, leader, lo, hi - 1);
      OneShape(g, g', p.counters, leader, hi);
      ShapeOn(g, g', leader, cnt, p, p', DeliverOne(g, p.counters, leader, hi),
              DeliverOne(g', p'.counters, leader, hi));
    }
  }

  // ----- What of a delivery comes from the leader -----

  ghost function ByAuthor(ds: seq<Digest>, x: PublicKey): seq<Digest> {
    if ds == [] then []
    else ByAuthor(ds[..|ds| - 1], x)
         + if ds[|ds| - 1].Of? && ds[|ds| - 1].author == x then [ds[|ds| - 1]] else []
  }

  lemma {:induction false} ByAuthorConcat(a: seq<Digest>, b: seq<Digest>, x: PublicKey)
    ensures ByAuthor(a + b, x) == ByAuthor(a, x) + ByAuthor(b, x)
    decreases |b|
  {
    if b == [] {
      assert a + b == a;
    } else {
      assert (a + b)[..|a + b| - 1] == a + b[..|b| - 1];
      ByAuthorConcat(a, b[..|b| - 1], x);
    }
  }

  lemma {:induction false} ByAuthorOfBlocks(out: seq<Block>, x: PublicKey)
    ensures |ByAuthor(Digests(out), x)| == |FromAuthor(out, x)|
    decreases |out|
  {
    if out != [] {
      assert Digests(out)[..|out| - 1] == Digests(out[..|out| - 1]);
      ByAuthorOfBlocks(out[..|out| - 1], x);
    }
  }

  /** Chains other than the leader's hold their own blocks. */
  ghost predicate OthersOwn(g: Certified, leader: PublicKey) {
    forall k | k in g :: k.0 != leader ==> g[k].Of? && g[k].author == k.0
  }

  lemma {:induction false} RangeNotLeader(g: Certified, cnt: Counters, leader: PublicKey, x: PublicKey, height: nat)
    requires OthersOwn(g, leader) && x in cnt && x != leader && DeliverRange(g, cnt, x, height).ready
    ensures ByAuthor(DeliverRange(g, cnt, x, height).out, leader) == []
    decreases height
  {
    if cnt[x] < height {
      RangeNotLeader(g, cnt, leader, x, height - 1);
      var p, d := DeliverRange(g, cnt, x, height - 1), g[(x, height)];
      ByAuthorConcat(p.out, [d], leader);
      assert [d][..0] == [] && ByAuthor([d], leader) == [];
    }
  }

  lemma {:induction false} RefsNotLeader(g: Certified, cnt: Counters, leader: PublicKey, refs: seq<Reference>)
    requires OthersOwn(g, leader) && DeliverRefs(g, cnt, leader, refs).ready
    ensures ByAuthor(DeliverRefs(g, cnt, leader, refs).out, leader) == []
    decreases |refs|
  {
    if refs != [] {
      RefsNotLeader(g, cnt, leader, refs[..|refs| - 1]);
      var p, d := DeliverRefs(g, cnt, leader, refs[..|refs| - 1]), refs[|refs| - 1].digest;
      if d.author != leader {
        RangeNotLeader(g, p.counters, leader, d.author, d.height);
        ByAuthorConcat(p.out, DeliverRange(g, p.counters, d.author, d.height).out, leader);
      }
    }
  }

  /** The leader's entry at a height, if it is a block of the leader. */
  ghost function Item(g: Certified, leader: PublicKey, h: nat): (item: seq<Digest>)
    ensures |item| <= 1
  {
    if (leader, h) in g && g[(leader, h)].Of? && g[(leader, h)].author == leader
    then [Shown(leader, g[(leader, h)])] else []
  }

  ghost function LeaderItems(g: Certified, leader: PublicKey, lo: nat, hi: nat): seq<Digest> {
    if hi <= lo then [] else LeaderItems(g, leader, lo, hi - 1) + Item(g, leader, hi)
  }

  lemma OneItem(g: Certified, cnt: Counters, leader: PublicKey, height: nat)
    requires OthersOwn(g, leader) && DeliverOne(g, cnt, leader, height).ready
    ensures ByAuthor(DeliverOne(g, cnt, leader, height).out, leader) == Item(g, leader, height)
  {
    var d := Shown(leader, g[(leader, height)]);
    var out := DeliverOne(g, cnt, leader, height).out;
    if d.Of? && d.author == leader {
      RefsNotLeader(g, cnt, leader, d.references);
    }
    assert out[..|out| - 1] + [d] == out;
  }

  lemma {:induction false} RunItems(g: Certified, cnt: Counters, leader: PublicKey, lo: nat, hi: nat)
    requires OthersOwn(g, leader) && DeliverTo(g, cnt, leader, lo, hi).ready
    ensures ByAuthor(DeliverTo(g, cnt, leader, lo, hi).out, leader) == LeaderItems(g, leader, lo, hi)
    decreases hi
  {
    if lo < hi {
      RunUnfolds(g, cnt, leader, lo, hi);
      RunItems(g, cnt, leader, lo, hi - 1);
      var p := DeliverTo(g, cnt, leader, lo, hi - 1);
      OneItem(g, p.counters, leader, hi);
      ByAuthorConcat(p.out, DeliverOne(g, p.counters, leader, hi).out, leader);
    }
  }

  lemma {:induction false} ItemsBound(g: Certified, leader: PublicKey, lo: nat, hi: nat)
    requires lo <= hi
    ensures |LeaderItems(g, leader, lo, hi)| <= hi - lo
    decreases hi
  {
    if lo < hi {
      ItemsBound(g, leader, lo, hi - 1);
    }
  }

  /** Of certified digests no height of the leader is left out. */
  lemma {:induction false} ItemsFull(g: Certified, cnt: Counters, leader: PublicKey, lo: nat, hi: nat)
    requires WellCertified(g) && lo <= hi && DeliverTo(g, cnt, leader, lo, hi).ready
    ensures |LeaderItems(g, leader, lo, hi)| == hi - lo
    decreases hi
  {
    if lo < hi {
      RunUnfolds(g, cnt, leader, lo, hi);
      ItemsFull(g, cnt, leader, lo, hi - 1);
    }
  }

  /** If none is left out, each height has its place. */
  lemma {:induction false} ItemAt(g: Certified, leader: PublicKey, lo: nat, hi: nat, h: nat)
    requires |LeaderItems(g, leader, lo, hi)| == hi - lo && lo < h <= hi
    ensures (leader, h) in g && LeaderItems(g, leader, lo, hi)[h - lo - 1] == Shown(leader, g[(leader, h)])
    decreases hi
  {
    ItemsBound(g, leader, lo, hi - 1);
    if h < hi {
      ItemAt(g, leader, lo, hi - 1, h);
    }
  }

  // ----- The two orders are the same exactly when the entries are certified -----

  /** The entries of x's chain are for heights that were delivered. */
  ghost predicate Within(own: map<nat, Digest>, x: PublicKey, a: Counters, b: Counters) {
    x in a && x in b && forall h | h in own :: a[x] < h <= b[x]
  }

  lemma SameOnlyIfCertifiedElsewhere(g: Certified, x: PublicKey, own: map<nat, Digest>, cnt: Counters,
                                     leader: PublicKey, top: nat)
    requires leader in cnt && x != leader
    requires var r := Deliver(Overlay(g, x, own), cnt, leader, top);
             r.ready && Within(own, x, cnt, r.counters) && Deliver(g, cnt, leader, top).ready
             && r.out == Deliver(g, cnt, leader, top).out
    ensures OwnCertified(g, leader, x, own)
  {
    var g' := Overlay(g, x, own);
    RunShape(g', g, cnt, leader, cnt[leader], top);
    var r := DeliverTo(g', cnt, leader, cnt[leader], top);
    assert r == Deliver(g', cnt, leader, top);
    assert SameBetween(g', g, x, cnt[x], r.counters[x]);
  }

  lemma SameOnlyIfCertifiedOnTop(g: Certified, own: map<nat, Digest>, cnt: Counters, leader: PublicKey, top: nat)
    requires WellCertified(g) && leader in cnt
    requires var r := Deliver(Overlay(g, leader, own), cnt, leader, top);
             r.ready && Within(own, leader, cnt, r.counters) && Deliver(g, cnt, leader, top).ready
             && r.out == Deliver(g, cnt, leader, top).out
    ensures OwnCertified(g, leader, leader, own)
  {
    var g', lo := Overlay(g, leader, own), cnt[leader];
    DeliverCounter(g', cnt, leader, top);
    if lo <= top {
      RunItems(g', cnt, leader, lo, top);
      RunItems(g, cnt, leader, lo, top);
      ItemsFull(g, cnt, leader, lo, top);
      forall h | h in own ensures (leader, h) in g && Shown(leader, own[h]) == Shown(leader, g[(leader, h)]) {
        ItemAt(g', leader, lo, top, h);
        ItemAt(g, leader, lo, top, h);
      }
    }
  }

  /** Laid over the certified digests, the entries are delivered as if they were certified exactly when
      they are. */
  lemma SameOrderIff(g: Certified, x: PublicKey, own: map<nat, Digest>, cnt: Counters, leader: PublicKey, top: nat)
    requires WellCertified(g) && leader in cnt
    requires var r := Deliver(Overlay(g, x, own), cnt, leader, top); r.ready && Within(own, x, cnt, r.counters)
    ensures var r, s := Deliver(Overlay(g, x, own), cnt, leader, top), Deliver(g, cnt, leader, top);
            (s.ready && s.out == r.out) <==> OwnCertified(g, leader, x, own)
  {
    if OwnCertified(g, leader, x, own) {
      OwnCertifiedIsAlike(leader, g, x, own);
      DeliverStable(Overlay(g, x, own), g, cnt, leader, top);
    } else if Deliver(g, cnt, leader, top).ready
              && Deliver(g, cnt, leader, top).out == Deliver(Overlay(g, x, own), cnt, leader, top).out {
      if x == leader {
        SameOnlyIfCertifiedOnTop(g, own, cnt, leader, top);
      } else {
        SameOnlyIfCertifiedElsewhere(g, x, own, cnt, leader, top);
      }
    }
  }

  /** An ideal delivery holds one block of the leader per height. */
  lemma IdealLeaders(g: Certified, cnt: Counters, leader: PublicKey, top: nat)
    requires WellCertified(g) && leader in cnt && Deliver(g, cnt, leader, top).ready
    ensures |ByAuthor(Deliver(g, cnt, leader, top).out, leader)| + cnt[leader] == Max(cnt[leader], top)
  {
    if cnt[leader] <= top {
      RunItems(g, cnt, leader, cnt[leader], top);
      ItemsFull(g, cnt, leader, cnt[leader], top);
    }
  }
}
