/** A committee of three for the concrete cases: one authority may be faulty, and it leads the first epoch. */
module ThreeNodes {
  import opened Committees
  import opened Options
  import opened Messages
  import opened Aggregators
  import opened Nodes

  const LEADER: PublicKey := 1
  const OWNER: PublicKey := 2
  const OTHER: PublicKey := 3

  /** Four stakes, of which the other honest node holds two; one may be faulty. */
  function Three(): (c: Committee)
    ensures c.authorities == [Authority(LEADER, 0, 1), Authority(OWNER, 1, 1), Authority(OTHER, 2, 2)]
    ensures c.Total() == 4 && QuorumThreshold(c) == 3 && MaxFaulty(c) == 1
  {
    var c := RawCommittee([Authority(LEADER, 0, 1), Authority(OWNER, 1, 1), Authority(OTHER, 2, 2)]);
    assert c.authorities[1..] == [Authority(OWNER, 1, 1), Authority(OTHER, 2, 2)];
    assert c.authorities[1..][1..] == [Authority(OTHER, 2, 2)];
    assert TotalStake(c.authorities[1..][1..]) == 2 && TotalStake(c.authorities[1..]) == 3;
    c
  }

  lemma ThreeIsValid()
    ensures ValidCommittee(Three()) && Three().Members() == {LEADER, OWNER, OTHER} && LeaderOf(Three(), 0) == LEADER
    ensures Three().Stake(LEADER) == 1 && Three().Stake(OWNER) == 1 && Three().Stake(OTHER) == 2
    ensures Three().Sum({LEADER, OTHER}) == 3
  {
    var c := Three();
    assert c.authorities[0].name == LEADER && c.authorities[1].name == OWNER && c.authorities[2].name == OTHER;
    StakeIsLookup(c, 0);
    StakeIsLookup(c, 1);
    StakeIsLookup(c, 2);
    SumAdd(c, {LEADER}, OTHER);
    assert {LEADER} + {OTHER} == {LEADER, OTHER};
  }

  /** The certificate the leader and the other node vote for. */
  function Cert(b: Block): QC {
    QC(DigestOf(b), b.epoch, b.height, b.author, [(LEADER, BallotOf(b, LEADER)), (OTHER, BallotOf(b, OTHER))])
  }

  function BallotOf(b: Block, author: PublicKey): Signature {
    Signature(author, VoteS(DigestOf(b), b.epoch, b.height, b.author))
  }

  lemma CertIsAccepted(b: Block)
    ensures QcAccepted(Three(), Cert(b))
  {
    ThreeIsValid();
    var names := Names(Cert(b).votes);
    assert names == [LEADER, OTHER];
    assert Elements(names) == {LEADER, OTHER} by {
      assert names[0] == LEADER && names[1] == OTHER;
    }
  }
}
