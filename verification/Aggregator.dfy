/** The makers that collect signed messages into certificates, and the tables that hold them.
    The functions say what one append does; the classes perform it in place. */
module Aggregators {
  import opened Committees
  import opened Options
  import opened Messages

  /** What one append yields: an error for a repeated author, nothing yet, or a certificate. */
  datatype Appended<+T> = Reused(author: PublicKey) | Pending | Made(value: T)

  datatype Maker<V> = Maker(weight: nat, votes: seq<V>, used: set<PublicKey>)

  type VoteMaker = Maker<(PublicKey, Signature)>
  type TimeoutMaker = Maker<(PublicKey, Signature, nat)>
  type CoinMaker = Maker<Share>

  function EmptyMaker<V>(): Maker<V> {
    Maker(0, [], {})
  }

  function Counted<V>(c: Committee, m: Maker<V>, author: PublicKey, v: V): Maker<V> {
    Maker(m.weight + c.Stake(author), m.votes + [v], m.used + {author})
  }

  function QcAppend(c: Committee, m: VoteMaker, vote: Vote): (VoteMaker, Appended<QC>) {
    if vote.author in m.used then (m, Reused(vote.author))
    else
      var m' := Counted(c, m, vote.author, (vote.author, vote.signature));
      if m'.weight >= QuorumThreshold(c) then
        (m'.(weight := 0), Made(QC(vote.hash, vote.epoch, vote.height, vote.proposer, m'.votes)))
      else (m', Pending)
  }

  function TcAppend(c: Committee, m: TimeoutMaker, t: Timeout): (TimeoutMaker, Appended<TC>) {
    if t.author in m.used then (m, Reused(t.author))
    else
      var m' := Counted(c, m, t.author, (t.author, t.signature, t.highQc.height));
      if m'.weight >= QuorumThreshold(c) then (m'.(weight := 0), Made(TC(t.epoch, m'.votes)))
      else (m', Pending)
  }

  const VAL_PHASE: nat := 1
  const AUX_PHASE: nat := 2

  function ProofAppend(c: Committee, m: VoteMaker, v: ABAVal): (VoteMaker, Appended<ABAProof>) {
    if v.author in m.used then (m, Reused(v.author))
    else
      var m' := Counted(c, m, v.author, (v.author, v.signature));
      if m'.weight >= QuorumThreshold(c) then
        (m'.(weight := 0), Made(ABAProof(v.epoch, v.round, v.val, v.phase, m'.votes, false)))
      else if m'.weight == RandomCoinThreshold(c) && v.phase == VAL_PHASE then
        (m', Made(ABAProof(v.epoch, v.round, v.val, v.phase, m'.votes, true)))
      else (m', Pending)
  }

  /** `combined` is what combining the collected shares yields, if it succeeds. */
  function CoinAppend(c: Committee, m: CoinMaker, s: Share, combined: Option<nat>):
    (CoinMaker, Appended<nat>)
  {
    if s.author in m.used then (m, Reused(s.author))
    else
      var m' := Counted(c, m, s.author, s);
      if m'.weight == RandomCoinThreshold(c) && combined.Some? then (m', Made(combined.value % 2))
      else (m', Pending)
  }

  // ----- The tables -----

  datatype ValKey = ValKey(epoch: nat, round: nat, phase: nat, val: nat)

  datatype Tables = Tables(votes: map<nat, VoteMaker>, timeouts: map<nat, TimeoutMaker>,
                           vals: map<ValKey, VoteMaker>, coins: map<Round, CoinMaker>)

  const EMPTY_TABLES := Tables(map[], map[], map[], map[])

  function Entry<K, V>(table: map<K, Maker<V>>, key: K): Maker<V> {
    if key in table then table[key] else EmptyMaker()
  }

  function KeyOf(v: ABAVal): ValKey { ValKey(v.epoch, v.round, v.phase, v.val) }

  function AddVote(c: Committee, a: Tables, vote: Vote): (Tables, Appended<QC>) {
    var (m, r) := QcAppend(c, Entry(a.votes, vote.height), vote);
    (a.(votes := a.votes[vote.height := m]), r)
  }

  function AddTimeout(c: Committee, a: Tables, t: Timeout): (Tables, Appended<TC>) {
    var (m, r) := TcAppend(c, Entry(a.timeouts, t.epoch), t);
    (a.(timeouts := a.timeouts[t.epoch := m]), r)
  }

  function AddVal(c: Committee, a: Tables, v: ABAVal): (Tables, Appended<ABAProof>) {
    var (m, r) := ProofAppend(c, Entry(a.vals, KeyOf(v)), v);
    (a.(vals := a.vals[KeyOf(v) := m]), r)
  }

  function AddShare(c: Committee, a: Tables, s: Share, combined: Option<nat>): (Tables, Appended<nat>) {
    var (m, r) := CoinAppend(c, Entry(a.coins, Round(s.epoch, s.round)), s, combined);
    (a.(coins := a.coins[Round(s.epoch, s.round) := m]), r)
  }

  function Cleanup(a: Tables, epoch: nat, height: nat): Tables {
    a.(votes := map k | k in a.votes && k >= height :: a.votes[k],
       timeouts := map k | k in a.timeouts && k >= epoch :: a.timeouts[k])
  }

  function CleanupAba(a: Tables, epoch: nat): Tables {
    a.(vals := map k | k in a.vals && k.epoch >= epoch :: a.vals[k],
       coins := map k | k in a.coins && k.epoch >= epoch :: a.coins[k])
  }

  // ----- Makers agree with verifiers -----

  /** What every maker fed with accepted messages of stakeholders looks like. */
  ghost predicate WellMade(c: Committee, m: VoteMaker) {
    && Distinct(Names(m.votes)) && AllStakeholders(c, Names(m.votes))
    && Elements(Names(m.votes)) == m.used
    && m.weight <= c.Sum(m.used)
    && forall i :: 0 <= i < |m.votes| ==> m.votes[i].1.signer == m.votes[i].0
  }

  lemma NamesSnoc(votes: seq<(PublicKey, Signature)>, v: (PublicKey, Signature))
    ensures Names(votes + [v]) == Names(votes) + [v.0]
  {}

  lemma CountedIsWellMade(c: Committee, m: VoteMaker, author: PublicKey, sig: Signature)
    requires WellMade(c, m) && author !in m.used && c.Stake(author) > 0 && sig.signer == author
    ensures WellMade(c, Counted(c, m, author, (author, sig)))
  {
    NamesSnoc(m.votes, (author, sig));
    ElementsSnoc(Names(m.votes), author);
    SumAdd(c, m.used, author);
    assert forall i :: 0 <= i < |m.votes| ==> Names(m.votes)[i] in Elements(Names(m.votes));
  }

  lemma QcMakerStaysWellMade(c: Committee, m: VoteMaker, vote: Vote)
    requires WellMade(c, m) && VoteAccepted(c, vote)
    ensures WellMade(c, QcAppend(c, m, vote).0)
  {
    if vote.author !in m.used {
      CountedIsWellMade(c, m, vote.author, vote.signature);
    }
  }

  /** Votes are tabled by height alone, so a QC made here is accepted elsewhere exactly when
      every counted vote signs what the last one signs. */
  lemma MadeQcIsAccepted(c: Committee, m: VoteMaker, vote: Vote)
    requires WellMade(c, m) && VoteAccepted(c, vote) && QcAppend(c, m, vote).1.Made?
    ensures QcAccepted(c, QcAppend(c, m, vote).1.value) <==>
            forall i :: 0 <= i < |m.votes| ==> m.votes[i].1.statement == VoteStatement(vote)
  {
    CountedIsWellMade(c, m, vote.author, vote.signature);
    var qc := QcAppend(c, m, vote).1.value;
    assert forall i :: 0 <= i < |m.votes| ==> qc.votes[i] == m.votes[i];
    assert qc.votes[|m.votes|] == (vote.author, vote.signature);
    if QcAccepted(c, qc) {
      forall i | 0 <= i < |m.votes| ensures m.votes[i].1.statement == VoteStatement(vote) {
        assert SignatureOk(qc.votes[i].1, QcStatement(qc), qc.votes[i].0);
      }
    }
  }

  ghost predicate WellTimed(c: Committee, m: TimeoutMaker, epoch: nat) {
    && Distinct(TcNames(m.votes)) && AllStakeholders(c, TcNames(m.votes))
    && Elements(TcNames(m.votes)) == m.used
    && m.weight <= c.Sum(m.used)
    && forall i :: 0 <= i < |m.votes| ==>
         SignatureOk(m.votes[i].1, TimeoutS(epoch, m.votes[i].2), m.votes[i].0)
  }

  /** A TC made from accepted timeouts of one epoch is always accepted. */
  lemma MadeTcIsAccepted(c: Committee, m: TimeoutMaker, t: Timeout)
    requires WellTimed(c, m, t.epoch) && TimeoutAccepted(c, t)
    ensures WellTimed(c, EmptyMaker(), t.epoch) && WellTimed(c, TcAppend(c, m, t).0, t.epoch)
    ensures TcAppend(c, m, t).1.Made? ==>
              var tc := TcAppend(c, m, t).1.value; tc.epoch == t.epoch && TcAccepted(c, tc)
  {
    if t.author !in m.used {
      var v := (t.author, t.signature, t.highQc.height);
      assert TcNames(m.votes + [v]) == TcNames(m.votes) + [t.author];
      ElementsSnoc(TcNames(m.votes), t.author);
      SumAdd(c, m.used, t.author);
      assert forall i :: 0 <= i < |m.votes| ==> TcNames(m.votes)[i] in Elements(TcNames(m.votes));
    }
  }

  /** What a maker under one ABA key looks like; its authors need not hold stake. */
  ghost predicate WellProven(c: Committee, m: VoteMaker, statement: Statement) {
    && Distinct(Names(m.votes)) && Elements(Names(m.votes)) == m.used
    && m.weight <= c.Sum(m.used)
    && forall i :: 0 <= i < |m.votes| ==> SignatureOk(m.votes[i].1, statement, m.votes[i].0)
  }

  lemma ProofMakerStaysWellProven(c: Committee, m: VoteMaker, v: ABAVal)
    requires WellProven(c, m, ValStatement(v)) && ValAccepted(v)
    ensures WellProven(c, EmptyMaker(), ValStatement(v))
    ensures WellProven(c, ProofAppend(c, m, v).0, ValStatement(v))
    ensures ProofAppend(c, m, v).1.Made? ==>
              var p := ProofAppend(c, m, v).1.value;
              && ProofStatement(p) == ValStatement(v) && Distinct(Names(p.votes))
              && c.Sum(Elements(Names(p.votes))) >=
                   (if p.tag then RandomCoinThreshold(c) else QuorumThreshold(c))
              && forall i :: 0 <= i < |p.votes| ==>
                   SignatureOk(p.votes[i].1, ProofStatement(p), p.votes[i].0)
  {
    if v.author !in m.used {
      NamesSnoc(m.votes, (v.author, v.signature));
      ElementsSnoc(Names(m.votes), v.author);
      SumAdd(c, m.used, v.author);
      assert forall i :: 0 <= i < |m.votes| ==> Names(m.votes)[i] in Elements(Names(m.votes));
    }
  }

  /** An untagged proof made here is accepted exactly when every counted author holds stake. */
  lemma MadeProofIsAccepted(c: Committee, m: VoteMaker, v: ABAVal)
    requires WellProven(c, m, ValStatement(v)) && ValAccepted(v)
    requires ProofAppend(c, m, v).1.Made? && !ProofAppend(c, m, v).1.value.tag
    ensures ProofAccepted(c, ProofAppend(c, m, v).1.value) <==>
            c.Stake(v.author) > 0 && AllStakeholders(c, Names(m.votes))
  {
    ProofMakerStaysWellProven(c, m, v);
    NamesSnoc(m.votes, (v.author, v.signature));
    var names := Names(ProofAppend(c, m, v).1.value.votes);
    assert names == Names(m.votes) + [v.author];
    assert names[|m.votes|] == v.author;
    assert forall i :: 0 <= i < |m.votes| ==> names[i] == Names(m.votes)[i];
  }

  // ----- How often a maker emits -----

  function VotesAfter(c: Committee, votes: seq<Vote>): VoteMaker {
    if votes == [] then EmptyMaker()
    else QcAppend(c, VotesAfter(c, votes[..|votes| - 1]), votes[|votes| - 1]).0
  }

  lemma {:induction false} VotesMakeWell(c: Committee, votes: seq<Vote>)
    requires forall v | v in votes :: VoteAccepted(c, v)
    ensures WellMade(c, VotesAfter(c, votes))
    decreases |votes|
  {
    if votes != [] {
      VotesMakeWell(c, votes[..|votes| - 1]);
      QcMakerStaysWellMade(c, VotesAfter(c, votes[..|votes| - 1]), votes[|votes| - 1]);
    }
  }

  /** So it is after any sequence of verified votes. */
  lemma QcFromVotesIff(c: Committee, votes: seq<Vote>, vote: Vote)
    requires forall v | v in votes :: VoteAccepted(c, v)
    requires VoteAccepted(c, vote) && QcAppend(c, VotesAfter(c, votes), vote).1.Made?
    ensures var m := VotesAfter(c, votes);
            QcAccepted(c, QcAppend(c, m, vote).1.value) <==>
            forall i :: 0 <= i < |m.votes| ==> m.votes[i].1.statement == VoteStatement(vote)
  {
    VotesMakeWell(c, votes);
    MadeQcIsAccepted(c, VotesAfter(c, votes), vote);
  }

  function TimeoutsAfter(c: Committee, ts: seq<Timeout>): TimeoutMaker {
    if ts == [] then EmptyMaker()
    else TcAppend(c, TimeoutsAfter(c, ts[..|ts| - 1]), ts[|ts| - 1]).0
  }

  function ValsAfter(c: Committee, vs: seq<ABAVal>): VoteMaker {
    if vs == [] then EmptyMaker()
    else ProofAppend(c, ValsAfter(c, vs[..|vs| - 1]), vs[|vs| - 1]).0
  }

  function SharesAfter(c: Committee, ss: seq<Share>, combined: seq<Option<nat>>): CoinMaker
    requires |ss| == |combined|
  {
    if ss == [] then EmptyMaker()
    else CoinAppend(c, SharesAfter(c, ss[..|ss| - 1], combined[..|ss| - 1]), ss[|ss| - 1], combined[|ss| - 1]).0
  }

  ghost predicate Unspent<V>(c: Committee, m: Maker<V>) { m.weight == c.Sum(m.used) }

  ghost predicate Spent<V>(c: Committee, m: Maker<V>) {
    c.Sum(m.used) >= QuorumThreshold(c) + m.weight
  }

  ghost predicate MakesAt(c: Committee, votes: seq<Vote>, i: nat)
    requires i < |votes|
  {
    QcAppend(c, VotesAfter(c, votes[..i]), votes[i]).1.Made?
  }

  /** Some sequence of verified votes makes the maker emit twice. */
  ghost predicate EmitsTwice(c: Committee) {
    exists votes, i, j :: EmitsAt(c, votes, i, j)
  }

  ghost predicate EmitsAt(c: Committee, votes: seq<Vote>, i: nat, j: nat) {
    i < j < |votes| && (forall v | v in votes :: VoteAccepted(c, v)) && MakesAt(c, votes, i) && MakesAt(c, votes, j)
  }

  ghost predicate DisjointQuorums(c: Committee, a: set<PublicKey>, b: set<PublicKey>) {
    a !! b && c.Sum(a) >= QuorumThreshold(c) && c.Sum(b) >= QuorumThreshold(c)
  }

  lemma {:induction false} WeightIsUsed(c: Committee, votes: seq<Vote>)
    ensures VotesAfter(c, votes).weight <= c.Sum(VotesAfter(c, votes).used)
    decreases |votes|
  {
    if votes != [] {
      WeightIsUsed(c, votes[..|votes| - 1]);
      var m := VotesAfter(c, votes[..|votes| - 1]);
      if votes[|votes| - 1].author !in m.used {
        SumAdd(c, m.used, votes[|votes| - 1].author);
      }
    }
  }

  lemma AppendWeighs(c: Committee, votes: seq<Vote>, i: nat)
    requires i < |votes| && MakesAt(c, votes, i)
    ensures var m := VotesAfter(c, votes[..i]);
            && VotesAfter(c, votes[..i + 1]) == QcAppend(c, m, votes[i]).0
            && votes[i].author !in m.used && m.weight + c.Stake(votes[i].author) >= QuorumThreshold(c)
  {
    assert votes[..i + 1][..i] == votes[..i];
  }

  /** The weight reset: after a certificate, the weight is that of the authors counted since. */
  lemma {:induction false} WeightSince(c: Committee, votes: seq<Vote>, i: nat, j: nat)
    requires i < j <= |votes| && MakesAt(c, votes, i)
    ensures var a, m := VotesAfter(c, votes[..i + 1]).used, VotesAfter(c, votes[..j]);
            a <= m.used && m.weight <= c.Sum(m.used - a)
    decreases j
  {
    AppendWeighs(c, votes, i);
    if j > i + 1 {
      WeightSince(c, votes, i, j - 1);
      var a, m := VotesAfter(c, votes[..i + 1]).used, VotesAfter(c, votes[..j - 1]);
      assert votes[..j][..j - 1] == votes[..j - 1];
      AddedSince(c, a, m.used, votes[j - 1].author);
    }
  }

  lemma AddedSince(c: Committee, a: set<PublicKey>, used: set<PublicKey>, x: PublicKey)
    requires a <= used
    ensures x !in used ==> c.Sum(used + {x} - a) == c.Sum(used - a) + c.Stake(x)
  {
    if x !in used {
      SumAdd(c, used - a, x);
      assert used + {x} - a == used - a + {x};
    }
  }

  lemma SecondQcSplits(c: Committee, votes: seq<Vote>, i: nat, j: nat) returns (a: set<PublicKey>, b: set<PublicKey>)
    requires i < j < |votes| && MakesAt(c, votes, i) && MakesAt(c, votes, j)
    ensures DisjointQuorums(c, a, b)
  {
    var first, m := VotesAfter(c, votes[..i]), VotesAfter(c, votes[..j]);
    a := VotesAfter(c, votes[..i + 1]).used;
    b := m.used + {votes[j].author} - a;
    AppendWeighs(c, votes, i);
    AppendWeighs(c, votes, j);
    WeightIsUsed(c, votes[..i]);
    SumAdd(c, first.used, votes[i].author);
    WeightSince(c, votes, i, j);
    AddedSince(c, a, m.used, votes[j].author);
  }

  /** The weight reset makes a vote maker emit at most once, as long as the total stake
      3f + 1 + k has k <= f. */
  lemma AtMostOneQc(c: Committee, votes: seq<Vote>, i: nat, j: nat)
    requires (c.Total() - 1) % 3 <= MaxFaulty(c)
    requires i < j < |votes| && MakesAt(c, votes, i)
    ensures !MakesAt(c, votes, j)
  {
    if MakesAt(c, votes, j) {
      var a, b := SecondQcSplits(c, votes, i, j);
      SumUnion(c, a, b);
      SumAtMostTotal(c, a + b);
      assert a * b == {};
      SumEmpty(c);
    }
  }

  // ----- Two disjoint quorums make it emit twice -----

  function PlainVote(author: PublicKey): Vote {
    Vote(Zero, 0, 0, author, author, Signature(author, VoteS(Zero, 0, 0, author)))
  }

  lemma OneMoreVote(c: Committee, votes: seq<Vote>, v: Vote)
    ensures VotesAfter(c, votes + [v]) == QcAppend(c, VotesAfter(c, votes), v).0
    ensures MakesAt(c, votes + [v], |votes|) == QcAppend(c, VotesAfter(c, votes), v).1.Made?
  {
    assert (votes + [v])[..|votes|] == votes;
  }

  /** Votes of fresh authors that are heavy enough bring about the next certificate. */
  lemma {:induction false} Feed(c: Committee, votes: seq<Vote>, s: set<PublicKey>) returns (votes': seq<Vote>)
    requires var m := VotesAfter(c, votes);
             m.used !! s && m.weight < QuorumThreshold(c) <= m.weight + c.Sum(s)
    requires forall v | v in votes :: VoteAccepted(c, v)
    ensures |votes| < |votes'| && votes <= votes' && forall v | v in votes' :: VoteAccepted(c, v)
    ensures MakesAt(c, votes', |votes'| - 1)
    ensures VotesAfter(c, votes').weight == 0 && VotesAfter(c, votes').used <= VotesAfter(c, votes).used + s
    decreases s
  {
    var m := VotesAfter(c, votes);
    SumEmpty(c);
    assert s != {};
    var x :| x in s;
    assert s - {x} + {x} == s;
    SumAdd(c, s - {x}, x);
    if c.Stake(x) == 0 {
      votes' := Feed(c, votes, s - {x});
    } else {
      var v := PlainVote(x);
      OneMoreVote(c, votes, v);
      if m.weight + c.Stake(x) >= QuorumThreshold(c) {
        votes' := votes + [v];
      } else {
        votes' := Feed(c, votes + [v], s - {x});
      }
    }
  }

  lemma EarlierMakes(c: Committee, votes: seq<Vote>, votes': seq<Vote>, i: nat)
    requires votes <= votes' && i < |votes| && MakesAt(c, votes, i)
    ensures MakesAt(c, votes', i)
  {
    assert votes'[..i] == votes[..i];
  }

  lemma DisjointQuorumsEmit(c: Committee, a: set<PublicKey>, b: set<PublicKey>)
    requires DisjointQuorums(c, a, b)
    ensures EmitsTwice(c)
  {
    var first := Feed(c, [], a);
    var second := Feed(c, first, b);
    EarlierMakes(c, first, second, |first| - 1);
    assert EmitsAt(c, second, |first| - 1, |second| - 1);
  }

  /** A vote maker emits twice over some verified votes exactly when two disjoint sets of authors each
      reach the threshold. */
  lemma TwoQcsIff(c: Committee)
    ensures EmitsTwice(c) <==> exists a, b :: DisjointQuorums(c, a, b)
  {
    if EmitsTwice(c) {
      var votes, i, j :| EmitsAt(c, votes, i, j);
      var a, b := SecondQcSplits(c, votes, i, j);
    } else if exists a, b :: DisjointQuorums(c, a, b) {
      var a, b :| DisjointQuorums(c, a, b);
      DisjointQuorumsEmit(c, a, b);
    }
  }

  lemma {:induction false} TcMakerSpends(c: Committee, ts: seq<Timeout>, i: nat, j: nat)
    requires i < j <= |ts|
    ensures Unspent(c, TimeoutsAfter(c, ts[..j])) || Spent(c, TimeoutsAfter(c, ts[..j]))
    ensures TcAppend(c, TimeoutsAfter(c, ts[..i]), ts[i]).1.Made? ==> Spent(c, TimeoutsAfter(c, ts[..j]))
    decreases j
  {
    var m := TimeoutsAfter(c, ts[..j - 1]);
    SumEmpty(c);
    assert ts[..j][..j - 1] == ts[..j - 1];
    if j - 1 > 0 {
      TcMakerSpends(c, ts, if i < j - 1 then i else 0, j - 1);
    }
    if ts[j - 1].author !in m.used {
      SumAdd(c, m.used, ts[j - 1].author);
    }
  }

  lemma AtMostOneTc(c: Committee, ts: seq<Timeout>, i: nat, j: nat)
    requires (c.Total() - 1) % 3 <= MaxFaulty(c)
    requires i < j < |ts|
    requires TcAppend(c, TimeoutsAfter(c, ts[..i]), ts[i]).1.Made?
    ensures !TcAppend(c, TimeoutsAfter(c, ts[..j]), ts[j]).1.Made?
  {
    TcMakerSpends(c, ts, i, j);
    var m := TimeoutsAfter(c, ts[..j]);
    if ts[j].author !in m.used {
      SumAdd(c, m.used, ts[j].author);
      SumAtMostTotal(c, m.used + {ts[j].author});
    }
  }

  /** So k <= f is needed: when f = 0 any two stakeholders are enough. */
  lemma TwoQcsWhenFIsZero(c: Committee, x: PublicKey, y: PublicKey)
    requires MaxFaulty(c) == 0 && x != y && c.Stake(x) > 0 && c.Stake(y) > 0
    ensures (c.Total() - 1) % 3 > MaxFaulty(c) && EmitsTwice(c)
  {
    SumEmpty(c);
    SumAdd(c, {}, x);
    SumAdd(c, {}, y);
    SumAdd(c, {x}, y);
    assert {} + {x} == {x} && {} + {y} == {y};
    SumAtMostTotal(c, {x} + {y});
    assert DisjointQuorums(c, {x}, {y});
    TwoQcsIff(c);
  }

  // ----- Unit stakes: exactly when each maker emits -----

  /** 3f + 1 authorities of one unit each, with f >= 1. */
  ghost predicate UnitCommittee(c: Committee) {
    && c.KeyOrdered() && (forall i :: 0 <= i < |c.authorities| ==> c.authorities[i].stake == 1)
    && c.Total() == 3 * MaxFaulty(c) + 1 && MaxFaulty(c) >= 1
  }

  lemma {:induction false} UnitSum(c: Committee, s: set<PublicKey>)
    requires UnitCommittee(c) && s <= c.Members()
    ensures c.Sum(s) == |s|
    decreases |s|
  {
    if s == {} {
      SumEmpty(c);
    } else {
      var x :| x in s;
      UnitSum(c, s - {x});
      SumAdd(c, s - {x}, x);
      assert s - {x} + {x} == s;
      UnitStake(c, x);
    }
  }

  lemma UnitStake(c: Committee, x: PublicKey)
    requires UnitCommittee(c) && x in c.Members()
    ensures c.Stake(x) == 1
  {
    var i :| 0 <= i < |c.authorities| && c.authorities[i].name == x;
    StakeIsLookup(c, i);
  }

  ghost function ValAuthors(vs: seq<ABAVal>): set<PublicKey> {
    set i | 0 <= i < |vs| :: vs[i].author
  }

  ghost function ShareAuthors(ss: seq<Share>): set<PublicKey> {
    set i | 0 <= i < |ss| :: ss[i].author
  }

  lemma {:induction false} ValsAfterUnit(c: Committee, vs: seq<ABAVal>)
    requires UnitCommittee(c) && ValAuthors(vs) <= c.Members()
    ensures var n, q := |ValAuthors(vs)|, QuorumThreshold(c);
            && ValsAfter(c, vs).used == ValAuthors(vs)
            && ValsAfter(c, vs).weight == (if n >= q then n - q else n)
    decreases |vs|
  {
    if vs != [] {
      var vs', v := vs[..|vs| - 1], vs[|vs| - 1];
      assert ValAuthors(vs) == ValAuthors(vs') + {v.author};
      ValsAfterUnit(c, vs');
      UnitStake(c, v.author);
      UnitSum(c, ValAuthors(vs));
      SumAtMostTotal(c, ValAuthors(vs));
      assert v.author in ValAuthors(vs') ==> ValAuthors(vs) == ValAuthors(vs');
    }
  }

  /** With unit stakes, after any messages in any order, repeats included, the
      f+1st distinct author of a VAL value yields the one tagged proof, the 2f+1st the one
      untagged proof, and no other append yields anything. */
  lemma ValEmissions(c: Committee, vs: seq<ABAVal>, v: ABAVal)
    requires UnitCommittee(c) && ValAuthors(vs) <= c.Members() && v.author in c.Members()
    requires v.phase == VAL_PHASE
    ensures var n, r := |ValAuthors(vs)|, ProofAppend(c, ValsAfter(c, vs), v).1;
            && (r.Reused? <==> v.author in ValAuthors(vs))
            && (r.Made? <==> v.author !in ValAuthors(vs) && (n == MaxFaulty(c) || n == 2 * MaxFaulty(c)))
            && (r.Made? ==> (r.value.tag <==> n == MaxFaulty(c)))
  {
    ValsAfterUnit(c, vs);
    var m, n, f := ValsAfter(c, vs), |ValAuthors(vs)|, MaxFaulty(c);
    if v.author !in ValAuthors(vs) {
      UnitStake(c, v.author);
      UnitSum(c, ValAuthors(vs) + {v.author});
      SumAtMostTotal(c, ValAuthors(vs) + {v.author});
      WeightDecides(c, m, v, n, f);
    }
  }

  lemma WeightDecides(c: Committee, m: VoteMaker, v: ABAVal, n: nat, f: nat)
    requires f == MaxFaulty(c) && f >= 1 && n + 1 <= 3 * f + 1
    requires v.author !in m.used && c.Stake(v.author) == 1 && v.phase == VAL_PHASE
    requires m.weight == (if n >= 2 * f + 1 then n - (2 * f + 1) else n)
    ensures var r := ProofAppend(c, m, v).1;
            && (r.Made? <==> n == f || n == 2 * f) && !r.Reused?
            && (r.Made? ==> (r.value.tag <==> n == f))
  {}

  lemma {:induction false} SharesAfterUnit(c: Committee, ss: seq<Share>, combined: seq<Option<nat>>)
    requires |ss| == |combined|
    requires UnitCommittee(c) && ShareAuthors(ss) <= c.Members()
    ensures SharesAfter(c, ss, combined).used == ShareAuthors(ss)
    ensures SharesAfter(c, ss, combined).weight == |ShareAuthors(ss)|
    decreases |ss|
  {
    if ss != [] {
      var ss', s := ss[..|ss| - 1], ss[|ss| - 1];
      assert ShareAuthors(ss) == ShareAuthors(ss') + {s.author};
      SharesAfterUnit(c, ss', combined[..|ss| - 1]);
      UnitStake(c, s.author);
      assert s.author in ShareAuthors(ss') ==> ShareAuthors(ss) == ShareAuthors(ss');
    }
  }

  /** With unit stakes the f+1st distinct share is the only one that tries to combine a coin. */
  lemma CoinEmissions(c: Committee, ss: seq<Share>, combined: seq<Option<nat>>, s: Share, now: Option<nat>)
    requires |ss| == |combined|
    requires UnitCommittee(c) && ShareAuthors(ss) <= c.Members() && s.author in c.Members()
    ensures CoinAppend(c, SharesAfter(c, ss, combined), s, now).1.Made? <==>
            s.author !in ShareAuthors(ss) && |ShareAuthors(ss)| == MaxFaulty(c) && now.Some?
  {
    SharesAfterUnit(c, ss, combined);
    UnitStake(c, s.author);
  }
}
