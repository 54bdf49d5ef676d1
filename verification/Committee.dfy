/** The fixed committee: stakes, the two thresholds, and how quorums of authors overlap. */
module Committees {

  type PublicKey = nat

  /** The all-zero key, author of the genesis block. */
  const DEFAULT_KEY: PublicKey := 0

  datatype Authority = Authority(name: PublicKey, id: nat, stake: nat)

  /** Total stake of the authorities named in `s`. */
  function StakeSum(authorities: seq<Authority>, s: set<PublicKey>): nat {
    if authorities == [] then 0
    else (if authorities[0].name in s then authorities[0].stake else 0) + StakeSum(authorities[1..], s)
  }

  function TotalStake(authorities: seq<Authority>): nat {
    if authorities == [] then 0 else authorities[0].stake + TotalStake(authorities[1..])
  }

  /** The authorities in key order, each key once. */
  datatype RawCommittee = RawCommittee(authorities: seq<Authority>) {

    function Sum(s: set<PublicKey>): nat {
      StakeSum(authorities, s)
    }

    /** An unknown author holds no stake. */
    function Stake(name: PublicKey): nat {
      Sum({name})
    }

    function Total(): nat {
      TotalStake(authorities)
    }

    function Members(): set<PublicKey> {
      set i | 0 <= i < |authorities| :: authorities[i].name
    }

    ghost predicate KeyOrdered() {
      forall i, j :: 0 <= i < j < |authorities| ==> authorities[i].name < authorities[j].name
    }
  }

  /** The thresholds subtract one from the total stake, so a committee holds some. */
  type Committee = c: RawCommittee | c.Total() > 0 witness RawCommittee([Authority(1, 0, 1)])

  function MaxFaulty(c: Committee): nat {
    (c.Total() - 1) / 3
  }

  function QuorumThreshold(c: Committee): nat {
    2 * ((c.Total() - 1) / 3) + 1
  }

  function RandomCoinThreshold(c: Committee): nat {
    (c.Total() - 1) / 3 + 1
  }

  // ----- Sums over sets of authors -----

  lemma {:induction false} StakeSumUnion(authorities: seq<Authority>, a: set<PublicKey>, b: set<PublicKey>)
    ensures StakeSum(authorities, a + b) + StakeSum(authorities, a * b)
            == StakeSum(authorities, a) + StakeSum(authorities, b)
    ensures StakeSum(authorities, {}) == 0
    ensures StakeSum(authorities, a) <= TotalStake(authorities)
  {
    if authorities != [] {
      StakeSumUnion(authorities[1..], a, b);
    }
  }

  lemma SumUnion(c: RawCommittee, a: set<PublicKey>, b: set<PublicKey>)
    ensures c.Sum(a + b) + c.Sum(a * b) == c.Sum(a) + c.Sum(b)
  {
    StakeSumUnion(c.authorities, a, b);
  }

  lemma SumAdd(c: RawCommittee, s: set<PublicKey>, x: PublicKey)
    requires x !in s
    ensures c.Sum(s + {x}) == c.Sum(s) + c.Stake(x)
  {
    StakeSumUnion(c.authorities, s, {x});
    assert s * {x} == {};
  }

  lemma SumEmpty(c: RawCommittee)
    ensures c.Sum({}) == 0
  {
    StakeSumUnion(c.authorities, {}, {});
  }

  lemma SumMonotone(c: RawCommittee, a: set<PublicKey>, b: set<PublicKey>)
    requires a <= b
    ensures c.Sum(a) <= c.Sum(b)
  {
    SumUnion(c, a, b - a);
    SumEmpty(c);
    assert a + (b - a) == b && a * (b - a) == {};
  }

  lemma SumAtMostTotal(c: RawCommittee, s: set<PublicKey>)
    ensures c.Sum(s) <= c.Total()
  {
    StakeSumUnion(c.authorities, s, s);
  }

  /** Authors outside the committee add nothing. */
  lemma {:induction false} StakeSumAgree(authorities: seq<Authority>, a: set<PublicKey>, b: set<PublicKey>)
    requires forall i :: 0 <= i < |authorities| ==> (authorities[i].name in a <==> authorities[i].name in b)
    ensures StakeSum(authorities, a) == StakeSum(authorities, b)
  {
    if authorities != [] {
      StakeSumAgree(authorities[1..], a, b);
    }
  }

  lemma SumMembersOnly(c: RawCommittee, s: set<PublicKey>)
    ensures c.Sum(s) == c.Sum(s * c.Members())
    ensures forall x | x !in c.Members() :: c.Stake(x) == 0
  {
    StakeSumAgree(c.authorities, s, s * c.Members());
    forall x | x !in c.Members() ensures c.Stake(x) == 0 {
      StakeSumAgree(c.authorities, {x}, {});
      SumEmpty(c);
    }
  }

  lemma StakeholderIsMember(c: RawCommittee, x: PublicKey)
    requires c.Stake(x) > 0
    ensures x in c.Members()
  {
    SumMembersOnly(c, {});
  }

  /** With distinct keys, summing over one author is looking its stake up. */
  lemma {:induction false} StakeIsLookup(c: RawCommittee, i: nat)
    requires c.KeyOrdered() && i < |c.authorities|
    ensures c.Stake(c.authorities[i].name) == c.authorities[i].stake
    decreases |c.authorities|
  {
    var tail := RawCommittee(c.authorities[1..]);
    if i == 0 {
      StakeSumAgree(tail.authorities, {c.authorities[0].name}, {});
      SumEmpty(tail);
    } else {
      StakeIsLookup(tail, i - 1);
    }
  }

  // ----- Quorum arithmetic -----

  /** With total stake 3f + 1 + k, two quorums share at least f + 1 - k stake. */
  lemma QuorumOverlap(c: Committee, a: set<PublicKey>, b: set<PublicKey>)
    requires c.Sum(a) >= QuorumThreshold(c) && c.Sum(b) >= QuorumThreshold(c)
    ensures var k := (c.Total() - 1) % 3;
            && c.Total() == 3 * MaxFaulty(c) + 1 + k
            && c.Sum(a * b) + k >= MaxFaulty(c) + 1
  {
    SumUnion(c, a, b);
    SumAtMostTotal(c, a + b);
  }

  /** The bound is tight: two quorums of three can split a total stake of six. */
  lemma QuorumsMayMissEachOther()
    ensures exists c: Committee, a, b ::
              && c.Sum(a) >= QuorumThreshold(c) && c.Sum(b) >= QuorumThreshold(c)
              && a * b == {}
  {
    var c: Committee := RawCommittee([Authority(1, 0, 3), Authority(2, 1, 3)]);
    assert c.authorities[1..] == [Authority(2, 1, 3)] && c.authorities[1..][1..] == [];
    assert c.Sum({1}) >= QuorumThreshold(c) && c.Sum({2}) >= QuorumThreshold(c) && {1} * {2} == {};
  }
}
