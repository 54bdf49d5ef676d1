/** The background loop of the synchroniser: which blocks are being fetched, for the sake of which suspended block,
    and when a suspended block is sent back to the core. */
module Synchronizers {
  import opened Committees
  import opened Options
  import opened Messages

  /** One pending read of the store, with the block that is suspended until it succeeds, if any. */
  datatype Waiter = Waiter(digest: Digest, block: Option<Block>)

  datatype Event =
    | Registered(digest: Digest, block: Block)
    | Finished(digest: Digest, block: Block)
    | LoopedBack(block: Block)

  /** `failed` are the pending digests whose read ended in a storage error; `sent` are the requests,
      to one authority or to all. */
  datatype Sync = Sync(pending: map<Digest, Option<Block>>, waiting: multiset<Waiter>,
                       demands: map<Digest, set<Digest>>, failed: set<Digest>,
                       sent: seq<(Option<PublicKey>, Digest)>, history: seq<Event>)

  const IDLE := Sync(map[], multiset{}, map[], {}, [], [])

  function Wanted(demands: map<Digest, set<Digest>>, q: Digest): set<Digest> {
    if q in demands then demands[q] else {}
  }

  // ----- The arms of the loop -----

  /** One request; `found` says whether the store has the block already. */
  function Ask(s: Sync, author: PublicKey, digest: Digest, block: Option<Block>, found: bool): Sync {
    if found || digest in s.pending then s
    else Sync(
      s.pending[digest := block], s.waiting + multiset{Waiter(digest, block)},
      if block.None? then s.demands
      else s.demands[DigestOf(block.value) := Wanted(s.demands, DigestOf(block.value)) + {digest}],
      s.failed, s.sent + [(Some(author), digest)],
      s.history + if block.None? then [] else [Registered(digest, block.value)])
  }

  function AskAll(s: Sync, requests: seq<(PublicKey, Digest)>, block: Option<Block>, found: seq<bool>): Sync
    requires |found| == |requests|
  {
    if requests == [] then s
    else
      var n := |requests| - 1;
      Ask(AskAll(s, requests[..n], block, found[..n]), requests[n].0, requests[n].1, block, found[n])
  }

  /** A read succeeds: the block that asked for it is sent back once it asks for nothing else. */
  function Finish(s: Sync, w: Waiter): Sync
    requires w in s.waiting
  {
    var t := s.(pending := s.pending - {w.digest}, waiting := s.waiting - multiset{w});
    if w.block.None? then t
    else
      var q := DigestOf(w.block.value);
      var rest := Wanted(s.demands, q) - {w.digest};
      if rest == {} then
        t.(demands := s.demands - {q},
           history := s.history + [Finished(w.digest, w.block.value), LoopedBack(w.block.value)])
      else t.(demands := s.demands[q := rest], history := s.history + [Finished(w.digest, w.block.value)])
  }

  /** A read fails: it is only logged. */
  function Break(s: Sync, w: Waiter): Sync
    requires w in s.waiting
  {
    s.(waiting := s.waiting - multiset{w}, failed := s.failed + {w.digest})
  }

  function ToEveryone(due: seq<Digest>): seq<(Option<PublicKey>, Digest)> {
    seq(|due|, i requires 0 <= i < |due| => (None, due[i]))
  }

  function Retry(s: Sync, due: seq<Digest>): Sync {
    s.(sent := s.sent + ToEveryone(due))
  }

  datatype Turn =
    | Requests(requests: seq<(PublicKey, Digest)>, block: Option<Block>, found: seq<bool>)
    | Fetched(waiter: Waiter)
    | Broken(waiter: Waiter)
    | Timer(due: seq<Digest>)

  predicate Possible(s: Sync, t: Turn) {
    match t
    case Requests(requests, _, found) => |found| == |requests|
    case Fetched(w) => w in s.waiting
    case Broken(w) => w in s.waiting
    case Timer(due) => forall d | d in due :: d in s.pending
  }

  function Next(s: Sync, t: Turn): Sync
    requires Possible(s, t)
  {
    match t
    case Requests(requests, block, found) => AskAll(s, requests, block, found)
    case Fetched(w) => Finish(s, w)
    case Broken(w) => Break(s, w)
    case Timer(due) => Retry(s, due)
  }

  ghost predicate Turned(s: Sync, t: Turn, s': Sync) {
    Possible(s, t) && s' == Next(s, t)
  }

  ghost predicate Turns(s: Sync, s': Sync) {
    exists t :: Turned(s, t, s')
  }

  /** The states of the loop from the start, one arm after another. */
  ghost predicate Reachable(ss: seq<Sync>) {
    && ss != [] && ss[0] == IDLE
    && forall i :: 0 <= i < |ss| - 1 ==> Turns(ss[i], ss[i + 1])
  }

  ghost function Final(ss: seq<Sync>): Sync
    requires ss != []
  {
    ss[|ss| - 1]
  }

  // ----- The bookkeeping invariant -----

  /** The digests pending for a suspended block are exactly its demands. */
  ghost predicate DemandsInv(s: Sync) {
    && (forall q | q in s.demands :: s.demands[q] != {})
    && forall q, d :: d in Wanted(s.demands, q) <==>
         d in s.pending && s.pending[d].Some? && DigestOf(s.pending[d].value) == q
  }

  /** Each pending digest has exactly one waiter, unless its read has failed; nothing else waits. */
  ghost predicate WaitersInv(s: Sync) {
    && s.failed <= s.pending.Keys
    && forall w: Waiter :: s.waiting[w] ==
         if w.digest in s.pending && s.pending[w.digest] == w.block && w.digest !in s.failed then 1 else 0
  }

  /** The demands registered for the block and not finished since. */
  ghost function Open(history: seq<Event>, q: Digest): set<Digest> {
    if history == [] then {}
    else Reopened(Open(history[..|history| - 1], q), history[|history| - 1], q)
  }

  ghost function Reopened(open: set<Digest>, e: Event, q: Digest): set<Digest> {
    if e.LoopedBack? || DigestOf(e.block) != q then open
    else if e.Registered? then open + {e.digest}
    else open - {e.digest}
  }

  /** A block is looped back just when its last open demand has finished. */
  ghost predicate LoopsRight(history: seq<Event>, p: nat)
    requires p < |history|
  {
    && (history[p].LoopedBack? ==>
          && p > 0 && history[p - 1].Finished? && history[p - 1].block == history[p].block
          && Open(history[..p], DigestOf(history[p].block)) == {})
    && (history[p].Finished? && Open(history[..p + 1], DigestOf(history[p].block)) == {} ==>
          p + 1 < |history| && history[p + 1] == LoopedBack(history[p].block))
  }

  ghost predicate HistoryInv(s: Sync) {
    && (forall q :: Wanted(s.demands, q) == Open(s.history, q))
    && AllLoopsRight(s.history)
  }

  ghost predicate AllLoopsRight(history: seq<Event>) {
    forall p | 0 <= p < |history| :: LoopsRight(history, p)
  }

  ghost predicate Inv(s: Sync) {
    DemandsInv(s) && WaitersInv(s) && HistoryInv(s)
  }

  lemma OpenSnoc(history: seq<Event>, e: Event, q: Digest)
    ensures Open(history + [e], q) == Reopened(Open(history, q), e, q)
  {}

  /** What is right stays right when more happens, unless the last event was still to be answered. */
  lemma LoopsStay(history: seq<Event>, more: seq<Event>, p: nat)
    requires p < |history| && LoopsRight(history, p)
    ensures LoopsRight(history + more, p)
  {
    assert (history + more)[..p] == history[..p] && (history + more)[..p + 1] == history[..p + 1];
  }

  lemma AskKeeps(s: Sync, author: PublicKey, digest: Digest, block: Option<Block>, found: bool)
    requires Inv(s)
    ensures Inv(Ask(s, author, digest, block, found))
  {
    var t := Ask(s, author, digest, block, found);
    if !found && digest !in s.pending {
      AskHistory(s, author, digest, block);
      assert WaitersInv(t);
      forall q, d
        ensures d in Wanted(t.demands, q) <==> d in t.pending && t.pending[d].Some? && DigestOf(t.pending[d].value) == q
      {
        assert d in Wanted(s.demands, q) <==> d in s.pending && s.pending[d].Some? && DigestOf(s.pending[d].value) == q;
      }
    }
  }

  lemma AskHistory(s: Sync, author: PublicKey, digest: Digest, block: Option<Block>)
    requires HistoryInv(s) && digest !in s.pending
    ensures HistoryInv(Ask(s, author, digest, block, false))
  {
    var t := Ask(s, author, digest, block, false);
    if block.Some? {
      var e := Registered(digest, block.value);
      forall q ensures Wanted(t.demands, q) == Open(t.history, q) {
        OpenSnoc(s.history, e, q);
      }
      forall p | 0 <= p < |t.history| ensures LoopsRight(t.history, p) {
        if p < |s.history| {
          LoopsStay(s.history, [e], p);
        }
      }
    } else {
      assert t.history == s.history && t.demands == s.demands;
    }
  }

  lemma {:induction false} AskAllKeeps(s: Sync, requests: seq<(PublicKey, Digest)>, block: Option<Block>,
                                       found: seq<bool>)
    requires |found| == |requests| && Inv(s)
    ensures Inv(AskAll(s, requests, block, found))
    decreases |requests|
  {
    if requests != [] {
      var n := |requests| - 1;
      AskAllKeeps(s, requests[..n], block, found[..n]);
      AskKeeps(AskAll(s, requests[..n], block, found[..n]), requests[n].0, requests[n].1, block, found[n]);
    }
  }

  lemma OneOfSeveral(history: seq<Event>, d: Digest, b: Block)
    requires AllLoopsRight(history) && Open(history + [Finished(d, b)], DigestOf(b)) != {}
    ensures AllLoopsRight(history + [Finished(d, b)])
  {
    var all := history + [Finished(d, b)];
    forall p | 0 <= p < |all| ensures LoopsRight(all, p) {
      if p < |history| {
        LoopsStay(history, [Finished(d, b)], p);
      } else {
        assert all[..p + 1] == all;
      }
    }
  }

  lemma LastOfAll(history: seq<Event>, d: Digest, b: Block)
    requires AllLoopsRight(history) && Open(history + [Finished(d, b)], DigestOf(b)) == {}
    ensures AllLoopsRight(history + [Finished(d, b), LoopedBack(b)])
  {
    var all := history + [Finished(d, b), LoopedBack(b)];
    assert all[..|history| + 1] == history + [Finished(d, b)];
    forall p | 0 <= p < |all| ensures LoopsRight(all, p) {
      if p < |history| {
        LoopsStay(history, [Finished(d, b), LoopedBack(b)], p);
      }
    }
  }

  lemma OpenAfterFinish(history: seq<Event>, d: Digest, b: Block, q: Digest)
    ensures Open(history + [Finished(d, b)], q) == if DigestOf(b) == q then Open(history, q) - {d} else Open(history, q)
    ensures Open(history + [Finished(d, b), LoopedBack(b)], q) == Open(history + [Finished(d, b)], q)
  {
    OpenSnoc(history, Finished(d, b), q);
    OpenSnoc(history + [Finished(d, b)], LoopedBack(b), q);
    assert history + [Finished(d, b)] + [LoopedBack(b)] == history + [Finished(d, b), LoopedBack(b)];
  }

  lemma FinishHistory(s: Sync, w: Waiter)
    requires HistoryInv(s) && w in s.waiting
    ensures HistoryInv(Finish(s, w))
  {
    if w.block.Some? {
      var t, b := Finish(s, w), w.block.value;
      forall q ensures Wanted(t.demands, q) == Open(t.history, q) {
        OpenAfterFinish(s.history, w.digest, b, q);
        assert Wanted(s.demands, q) == Open(s.history, q);
      }
      OpenAfterFinish(s.history, w.digest, b, DigestOf(b));
      assert Wanted(s.demands, DigestOf(b)) == Open(s.history, DigestOf(b));
      if Wanted(s.demands, DigestOf(b)) - {w.digest} == {} {
        LastOfAll(s.history, w.digest, b);
      } else {
        OneOfSeveral(s.history, w.digest, b);
      }
    }
  }

  lemma FinishKeeps(s: Sync, w: Waiter)
    requires Inv(s) && w in s.waiting
    ensures Inv(Finish(s, w))
  {
    FinishHistory(s, w);
    assert s.waiting[w] == 1;
    var t := Finish(s, w);
    FinishWaiters(s, w, t);
    FinishDemands(s, w, t);
  }

  lemma FinishWaiters(s: Sync, w: Waiter, t: Sync)
    requires WaitersInv(s) && w in s.waiting && t.failed == s.failed
    requires t.pending == s.pending - {w.digest} && t.waiting == s.waiting - multiset{w}
    ensures WaitersInv(t)
  {}

  lemma FinishDemands(s: Sync, w: Waiter, t: Sync)
    requires DemandsInv(s) && WaitersInv(s) && w in s.waiting && t == Finish(s, w)
    ensures DemandsInv(t)
  {
    assert s.waiting[w] == 1;
    forall q, d
      ensures d in Wanted(t.demands, q) <==> d in t.pending && t.pending[d].Some? && DigestOf(t.pending[d].value) == q
    {
      assert d in Wanted(s.demands, q) <==> d in s.pending && s.pending[d].Some? && DigestOf(s.pending[d].value) == q;
    }
  }

  lemma BreakKeeps(s: Sync, w: Waiter)
    requires Inv(s) && w in s.waiting
    ensures Inv(Break(s, w))
  {}

  lemma NextKeeps(s: Sync, t: Turn)
    requires Inv(s) && Possible(s, t)
    ensures Inv(Next(s, t))
  {
    match t
    case Requests(requests, block, found) => AskAllKeeps(s, requests, block, found);
    case Fetched(w) => FinishKeeps(s, w);
    case Broken(w) => BreakKeeps(s, w);
    case Timer(due) =>
  }

  /** The bookkeeping is right in every reachable state. */
  lemma {:induction false} ReachableIsRight(ss: seq<Sync>)
    requires Reachable(ss)
    ensures Inv(Final(ss))
    decreases |ss|
  {
    if |ss| > 1 {
      var front := ss[..|ss| - 1];
      forall i | 0 <= i < |front| - 1 ensures Turns(front[i], front[i + 1]) {
        assert Turns(ss[i], ss[i + 1]);
      }
      ReachableIsRight(front);
      assert Turns(ss[|ss| - 2], ss[|ss| - 2 + 1]);
      assert Turns(Final(front), Final(ss));
      var t :| Turned(Final(front), t, Final(ss));
      NextKeeps(Final(front), t);
    }
  }

  lemma WaitedForIsWanted(s: Sync, w: Waiter)
    requires Inv(s) && w in s.waiting
    ensures w.digest in s.pending && s.pending[w.digest] == w.block
    ensures w.block.Some? ==> DigestOf(w.block.value) in s.demands && w.digest in s.demands[DigestOf(w.block.value)]
  {
    assert s.waiting[w] != 0;
    if w.block.Some? {
      assert w.digest in Wanted(s.demands, DigestOf(w.block.value));
    }
  }

  /** The demands of different blocks are disjoint, every waiter is the only one for a pending digest,
      and when it succeeds the demands of its block are found and contain it. */
  ghost predicate LookupsSucceed(s: Sync) {
    && (forall q, r :: q != r ==> Wanted(s.demands, q) !! Wanted(s.demands, r))
    && forall w | w in s.waiting ::
         && w.digest in s.pending && s.pending[w.digest] == w.block && s.waiting[w] == 1
         && (w.block.Some? ==> DigestOf(w.block.value) in s.demands && w.digest in s.demands[DigestOf(w.block.value)])
  }

  lemma LookupSucceeds(ss: seq<Sync>)
    requires Reachable(ss)
    ensures LookupsSucceed(Final(ss))
  {
    ReachableIsRight(ss);
    var s := Final(ss);
    forall q, r | q != r ensures Wanted(s.demands, q) !! Wanted(s.demands, r) {
      forall d | d in Wanted(s.demands, q) ensures d !in Wanted(s.demands, r) {
        assert DigestOf(s.pending[d].value) == q;
      }
    }
    forall w | w in s.waiting
      ensures w.digest in s.pending && s.pending[w.digest] == w.block && s.waiting[w] == 1
      ensures w.block.Some? ==> w.digest in Wanted(s.demands, DigestOf(w.block.value))
    {
      WaitedForIsWanted(s, w);
    }
  }

  /** A block is sent back to the core exactly when the last demand registered for it has finished. */
  lemma LoopedBackExactly(ss: seq<Sync>)
    requires Reachable(ss)
    ensures forall p | 0 <= p < |Final(ss).history| :: LoopsRight(Final(ss).history, p)
    ensures forall q :: q in Final(ss).demands <==> Open(Final(ss).history, q) != {}
  {
    ReachableIsRight(ss);
    var s := Final(ss);
    forall q ensures q in s.demands <==> Open(s.history, q) != {} {
      assert Wanted(s.demands, q) == Open(s.history, q);
    }
  }

  // ----- What is asked for -----

  /** To whom the digest was asked for, in order; None is everyone. */
  ghost function Requested(sent: seq<(Option<PublicKey>, Digest)>, d: Digest): seq<Option<PublicKey>> {
    if sent == [] then []
    else Requested(sent[..|sent| - 1], d) + if sent[|sent| - 1].1 == d then [sent[|sent| - 1].0] else []
  }

  /** The first of the requests for the digest that the store cannot answer. */
  ghost predicate FirstMissing(requests: seq<(PublicKey, Digest)>, found: seq<bool>, d: Digest, i: nat)
    requires |found| == |requests|
  {
    && i < |requests| && requests[i].1 == d && !found[i]
    && forall j :: 0 <= j < i && requests[j].1 == d ==> found[j]
  }

  ghost predicate NotAsked(s: Sync, t: Sync, d: Digest) {
    && Requested(t.sent, d) == Requested(s.sent, d)
    && (d in t.pending <==> d in s.pending) && (d in s.pending ==> t.pending[d] == s.pending[d])
  }

  ghost predicate Asked(s: Sync, t: Sync, d: Digest, author: PublicKey, block: Option<Block>) {
    && Requested(t.sent, d) == Requested(s.sent, d) + [Some(author)]
    && d in t.pending && t.pending[d] == block && Waiter(d, block) in t.waiting
  }

  lemma AskAsks(s: Sync, author: PublicKey, digest: Digest, block: Option<Block>, found: bool, d: Digest)
    ensures var t := Ask(s, author, digest, block, found);
            if d == digest && !found && d !in s.pending then Asked(s, t, d, author, block) else NotAsked(s, t, d)
    ensures forall w | w in s.waiting :: w in Ask(s, author, digest, block, found).waiting
  {
    var t := Ask(s, author, digest, block, found);
    if !found && digest !in s.pending {
      assert t.sent[..|t.sent| - 1] == s.sent;
    }
  }

  ghost predicate AllFound(requests: seq<(PublicKey, Digest)>, found: seq<bool>, d: Digest)
    requires |found| == |requests|
  {
    forall i :: 0 <= i < |requests| && requests[i].1 == d ==> found[i]
  }

  lemma StillAsked(s: Sync, t: Sync, u: Sync, d: Digest, author: PublicKey, block: Option<Block>)
    requires Asked(s, t, d, author, block) && NotAsked(t, u, d) && forall w | w in t.waiting :: w in u.waiting
    ensures Asked(s, u, d, author, block)
  {}

  lemma {:induction false} AsksFirst(s: Sync, requests: seq<(PublicKey, Digest)>, block: Option<Block>,
                                     found: seq<bool>, d: Digest, i: nat)
    requires |found| == |requests| && d !in s.pending && FirstMissing(requests, found, d, i)
    ensures Asked(s, AskAll(s, requests, block, found), d, requests[i].0, block)
    decreases |requests|
  {
    var n := |requests| - 1;
    var front, t := AskAll(s, requests[..n], block, found[..n]), AskAll(s, requests, block, found);
    AskAsks(front, requests[n].0, requests[n].1, block, found[n], d);
    if i < n {
      AsksFirst(s, requests[..n], block, found[..n], d, i);
      StillAsked(s, front, t, d, requests[i].0, block);
    } else {
      AsksNothing(s, requests[..n], block, found[..n], d);
    }
  }

  lemma {:induction false} AsksNothing(s: Sync, requests: seq<(PublicKey, Digest)>, block: Option<Block>,
                                       found: seq<bool>, d: Digest)
    requires |found| == |requests| && (d in s.pending || AllFound(requests, found, d))
    ensures NotAsked(s, AskAll(s, requests, block, found), d)
    decreases |requests|
  {
    if requests != [] {
      var n := |requests| - 1;
      AsksNothing(s, requests[..n], block, found[..n], d);
      AskAsks(AskAll(s, requests[..n], block, found[..n]), requests[n].0, requests[n].1, block, found[n], d);
    }
  }

  /** Each digest that is neither stored nor pending is asked for once, of the first author named for it, and
      waited for; nothing else is asked for. */
  lemma AsksExactly(s: Sync, requests: seq<(PublicKey, Digest)>, block: Option<Block>, found: seq<bool>, d: Digest)
    requires |found| == |requests|
    ensures forall i: nat :: FirstMissing(requests, found, d, i) && d !in s.pending ==>
              Asked(s, AskAll(s, requests, block, found), d, requests[i].0, block)
    ensures d in s.pending || AllFound(requests, found, d) ==> NotAsked(s, AskAll(s, requests, block, found), d)
  {
    forall i: nat | FirstMissing(requests, found, d, i) && d !in s.pending
      ensures Asked(s, AskAll(s, requests, block, found), d, requests[i].0, block)
    {
      AsksFirst(s, requests, block, found, d, i);
    }
    if d in s.pending || AllFound(requests, found, d) {
      AsksNothing(s, requests, block, found, d);
    }
  }

  /** Whatever is pending has been asked for. */
  ghost predicate PendingAsked(s: Sync) {
    forall d | d in s.pending :: Requested(s.sent, d) != []
  }

  lemma {:induction false} MoreRequested(a: seq<(Option<PublicKey>, Digest)>, b: seq<(Option<PublicKey>, Digest)>,
                                         d: Digest)
    ensures Requested(a + b, d) == Requested(a, d) + Requested(b, d)
    decreases |b|
  {
    if b == [] {
      assert a + b == a;
    } else {
      assert (a + b)[..|a + b| - 1] == a + b[..|b| - 1];
      MoreRequested(a, b[..|b| - 1], d);
    }
  }

  lemma {:induction false} AskAllPending(s: Sync, requests: seq<(PublicKey, Digest)>, block: Option<Block>,
                                         found: seq<bool>)
    requires |found| == |requests| && PendingAsked(s)
    ensures PendingAsked(AskAll(s, requests, block, found))
    decreases |requests|
  {
    if requests != [] {
      var n := |requests| - 1;
      var front, t := AskAll(s, requests[..n], block, found[..n]), AskAll(s, requests, block, found);
      AskAllPending(s, requests[..n], block, found[..n]);
      forall d | d in t.pending ensures Requested(t.sent, d) != [] {
        AskAsks(front, requests[n].0, requests[n].1, block, found[n], d);
      }
    }
  }

  /** In every reachable state each pending digest has been asked for. */
  lemma {:induction false} PendingIsRequested(ss: seq<Sync>)
    requires Reachable(ss)
    ensures PendingAsked(Final(ss))
    decreases |ss|
  {
    if |ss| > 1 {
      var front := ss[..|ss| - 1];
      forall i | 0 <= i < |front| - 1 ensures Turns(front[i], front[i + 1]) {
        assert Turns(ss[i], ss[i + 1]);
      }
      PendingIsRequested(front);
      assert Turns(ss[|ss| - 2], ss[|ss| - 2 + 1]);
      assert Turns(Final(front), Final(ss));
      var t :| Turned(Final(front), t, Final(ss));
      NextPending(Final(front), t);
    }
  }

  lemma NextPending(s: Sync, t: Turn)
    requires PendingAsked(s) && Possible(s, t)
    ensures PendingAsked(Next(s, t))
  {
    match t
    case Requests(requests, block, found) => AskAllPending(s, requests, block, found);
    case Fetched(_) =>
    case Broken(_) =>
    case Timer(due) =>
      forall d | d in s.pending ensures Requested(Next(s, t).sent, d) != [] {
        MoreRequested(s.sent, ToEveryone(due), d);
      }
  }

  lemma {:induction false} EveryoneIsAsked(due: seq<Digest>, d: Digest)
    requires forall i, j :: 0 <= i < j < |due| ==> due[i] != due[j]
    ensures Requested(ToEveryone(due), d) == if d in due then [None] else []
    decreases |due|
  {
    if due != [] {
      var front := due[..|due| - 1];
      assert ToEveryone(due)[..|due| - 1] == ToEveryone(front);
      EveryoneIsAsked(front, d);
      assert due == front + [due[|due| - 1]];
    }
  }

  /** The timer asks everyone, once, for what is overdue and for nothing else; it changes nothing else either. */
  lemma TimerAsks(s: Sync, due: seq<Digest>, d: Digest)
    requires forall i, j :: 0 <= i < j < |due| ==> due[i] != due[j]
    ensures Requested(Retry(s, due).sent, d) == Requested(s.sent, d) + if d in due then [None] else []
    ensures Retry(s, due).(sent := s.sent) == s
  {
    EveryoneIsAsked(due, d);
    MoreRequested(s.sent, ToEveryone(due), d);
  }

  // ----- The loop -----

  class Synchronizer {
    var pending: map<Digest, Option<Block>>
    var waiting: multiset<Waiter>
    var demands: map<Digest, set<Digest>>
    var sent: seq<(Option<PublicKey>, Digest)>
    var loopBacks: seq<Block>
    ghost var failed: set<Digest>
    ghost var history: seq<Event>

    ghost function State(): Sync
      reads this
    {
      Sync(pending, waiting, demands, failed, sent, history)
    }

    constructor ()
      ensures State() == IDLE && loopBacks == [] && Inv(State())
    {
      pending, waiting, demands, sent, loopBacks := map[], multiset{}, map[], [], [];
      failed, history := {}, [];
    }

    method HandleRequest(author: PublicKey, digest: Digest, block: Option<Block>, found: bool)
      modifies this`pending, this`waiting, this`demands, this`sent, this`history
      ensures State() == Ask(old(State()), author, digest, block, found)
    {
      if found || digest in pending {
        return;
      }
      waiting := waiting + multiset{Waiter(digest, block)};
      pending := pending[digest := block];
      if block.Some? {
        var q := DigestOf(block.value);
        var demandsSet := if q in demands then demands[q] else {};
        demands := demands[q := demandsSet + {digest}];
        history := history + [Registered(digest, block.value)];
      }
      sent := sent + [(Some(author), digest)];
    }

    method HandleRequests(requests: seq<(PublicKey, Digest)>, block: Option<Block>, found: seq<bool>)
      requires |found| == |requests|
      modifies this`pending, this`waiting, this`demands, this`sent, this`history
      ensures State() == AskAll(old(State()), requests, block, found)
    {
      for i := 0 to |requests|
        invariant State() == AskAll(old(State()), requests[..i], block, found[..i])
      {
        assert requests[..i + 1][..i] == requests[..i] && found[..i + 1][..i] == found[..i];
        HandleRequest(requests[i].0, requests[i].1, block, found[i]);
      }
      assert requests[..|requests|] == requests && found[..|requests|] == found;
    }

    /** The fetched block is the one waited for, because the store is content-addressed. */
    method HandleFetched(w: Waiter, fetched: Block)
      requires Inv(State()) && w in waiting && DigestOf(fetched) == w.digest
      modifies this`pending, this`waiting, this`demands, this`loopBacks, this`history
      ensures State() == Finish(old(State()), w)
      ensures loopBacks == old(loopBacks) +
                if w.block.Some? && Wanted(old(demands), DigestOf(w.block.value)) == {w.digest}
                then [w.block.value] else []
    {
      WaitedForIsWanted(State(), w);
      var digest := DigestOf(fetched);
      waiting := waiting - multiset{w};
      pending := pending - {digest};
      if w.block.Some? {
        var q := DigestOf(w.block.value);
        var demandsSet := demands[q] - {digest};
        if demandsSet == {} {
          assert demands[q] == {digest};
          demands := demands - {q};
          loopBacks := loopBacks + [w.block.value];
          history := history + [Finished(digest, w.block.value), LoopedBack(w.block.value)];
        } else {
          demands := demands[q := demandsSet];
          history := history + [Finished(digest, w.block.value)];
        }
      }
    }

    method HandleBroken(w: Waiter)
      requires w in waiting
      modifies this`waiting, this`failed
      ensures State() == Break(old(State()), w)
    {
      waiting := waiting - multiset{w};
      failed := failed + {w.digest};
    }

    /** Repeats the requests that have been pending for too long, in the order the table is walked. */
    method HandleTimer(due: seq<Digest>)
      modifies this`sent
      ensures State() == Retry(old(State()), due)
    {
      for i := 0 to |due|
        invariant sent == old(sent) + ToEveryone(due[..i])
      {
        assert ToEveryone(due[..i + 1]) == ToEveryone(due[..i]) + [(None, due[i])];
        sent := sent + [(None, due[i])];
      }
      assert due[..|due|] == due;
    }
  }
}
