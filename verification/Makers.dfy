/** The aggregator objects. Each maker appends in place; the aggregator owns one maker per key,
    creates it on first use and prunes whole keys. */
module Makers {
  import opened Committees
  import opened Options
  import opened Messages
  import opened Aggregators

  class QCMaker {
    var weight: nat
    var votes: seq<(PublicKey, Signature)>
    var used: set<PublicKey>

    ghost function State(): VoteMaker
      reads this
    {
      Maker(weight, votes, used)
    }

    constructor ()
      ensures State() == EmptyMaker()
    {
      weight, votes, used := 0, [], {};
    }

    method Append(vote: Vote, committee: Committee) returns (r: Appended<QC>)
      modifies this
      ensures (State(), r) == QcAppend(committee, old(State()), vote)
    {
      var author := vote.author;
      if author in used {
        return Reused(author);
      }
      used := used + {author};
      votes := votes + [(author, vote.signature)];
      weight := weight + committee.Stake(author);
      if weight >= QuorumThreshold(committee) {
        weight := 0;
        return Made(QC(vote.hash, vote.epoch, vote.height, vote.proposer, votes));
      }
      return Pending;
    }
  }

  class TCMaker {
    var weight: nat
    var votes: seq<(PublicKey, Signature, nat)>
    var used: set<PublicKey>

    ghost function State(): TimeoutMaker
      reads this
    {
      Maker(weight, votes, used)
    }

    constructor ()
      ensures State() == EmptyMaker()
    {
      weight, votes, used := 0, [], {};
    }

    method Append(timeout: Timeout, committee: Committee) returns (r: Appended<TC>)
      modifies this
      ensures (State(), r) == TcAppend(committee, old(State()), timeout)
    {
      var author := timeout.author;
      if author in used {
        return Reused(author);
      }
      used := used + {author};
      votes := votes + [(author, timeout.signature, timeout.highQc.height)];
      weight := weight + committee.Stake(author);
      if weight >= QuorumThreshold(committee) {
        weight := 0;
        return Made(TC(timeout.epoch, votes));
      }
      return Pending;
    }
  }

  class ABAProofMaker {
    var weight: nat
    var votes: seq<(PublicKey, Signature)>
    var used: set<PublicKey>

    ghost function State(): VoteMaker
      reads this
    {
      Maker(weight, votes, used)
    }

    constructor ()
      ensures State() == EmptyMaker()
    {
      weight, votes, used := 0, [], {};
    }

    method Append(val: ABAVal, committee: Committee) returns (r: Appended<ABAProof>)
      modifies this
      ensures (State(), r) == ProofAppend(committee, old(State()), val)
    {
      var author := val.author;
      if author in used {
        return Reused(author);
      }
      used := used + {author};
      votes := votes + [(author, val.signature)];
      weight := weight + committee.Stake(author);
      if weight >= QuorumThreshold(committee) {
        weight := 0;
        return Made(ABAProof(val.epoch, val.round, val.val, val.phase, votes, false));
      }
      if weight == RandomCoinThreshold(committee) && val.phase == VAL_PHASE {
        return Made(ABAProof(val.epoch, val.round, val.val, val.phase, votes, true));
      }
      return Pending;
    }
  }

  class ABARandomCoinMaker {
    var weight: nat
    var shares: seq<Share>
    var used: set<PublicKey>

    ghost function State(): CoinMaker
      reads this
    {
      Maker(weight, shares, used)
    }

    constructor ()
      ensures State() == EmptyMaker()
    {
      weight, shares, used := 0, [], {};
    }

    /** `combined` stands for what the threshold scheme returns for the collected shares. */
    method Append(share: Share, committee: Committee, combined: Option<nat>) returns (r: Appended<nat>)
      modifies this
      ensures (State(), r) == CoinAppend(committee, old(State()), share, combined)
    {
      var author := share.author;
      if author in used {
        return Reused(author);
      }
      used := used + {author};
      shares := shares + [share];
      weight := weight + committee.Stake(author);
      if weight == RandomCoinThreshold(committee) && combined.Some? {
        return Made(combined.value % 2);
      }
      return Pending;
    }
  }

  /** No two keys of a table share a maker. */
  ghost predicate Unshared<K(!new), M>(table: map<K, M>) {
    forall k, l | k in table && l in table && k != l :: table[k] != table[l]
  }

  class Aggregator {
    const committee: Committee
    var votesAggregators: map<nat, QCMaker>
    var timeoutsAggregators: map<nat, TCMaker>
    var abaValsAggregators: map<ValKey, ABAProofMaker>
    var abaRandomcoinAggregators: map<Round, ABARandomCoinMaker>

    ghost function Votes(): map<nat, VoteMaker>
      reads this`votesAggregators, set k | k in votesAggregators :: votesAggregators[k]
    {
      map k | k in votesAggregators :: votesAggregators[k].State()
    }

    ghost function Timeouts(): map<nat, TimeoutMaker>
      reads this`timeoutsAggregators, set k | k in timeoutsAggregators :: timeoutsAggregators[k]
    {
      map k | k in timeoutsAggregators :: timeoutsAggregators[k].State()
    }

    ghost function Vals(): map<ValKey, VoteMaker>
      reads this`abaValsAggregators, set k | k in abaValsAggregators :: abaValsAggregators[k]
    {
      map k | k in abaValsAggregators :: abaValsAggregators[k].State()
    }

    ghost function Coins(): map<Round, CoinMaker>
      reads this`abaRandomcoinAggregators, set k | k in abaRandomcoinAggregators :: abaRandomcoinAggregators[k]
    {
      map k | k in abaRandomcoinAggregators :: abaRandomcoinAggregators[k].State()
    }

    constructor (committee: Committee)
      ensures Tables(Votes(), Timeouts(), Vals(), Coins()) == EMPTY_TABLES
      ensures this.committee == committee
    {
      this.committee := committee;
      votesAggregators, timeoutsAggregators := map[], map[];
      abaValsAggregators, abaRandomcoinAggregators := map[], map[];
    }

    method AddVote(vote: Vote) returns (r: Appended<QC>)
      requires Unshared(votesAggregators)
      modifies this`votesAggregators, set k | k in votesAggregators :: votesAggregators[k]
      ensures Unshared(votesAggregators)
      ensures forall k | k in votesAggregators && k !in old(votesAggregators) :: fresh(votesAggregators[k])
      ensures var (m, a) := QcAppend(committee, Entry(old(Votes()), vote.height), vote);
              Votes() == old(Votes())[vote.height := m] && r == a
    {
      if vote.height !in votesAggregators {
        var maker := new QCMaker();
        votesAggregators := votesAggregators[vote.height := maker];
      }
      r := votesAggregators[vote.height].Append(vote, committee);
    }

    method AddTimeout(timeout: Timeout) returns (r: Appended<TC>)
      requires Unshared(timeoutsAggregators)
      modifies this`timeoutsAggregators, set k | k in timeoutsAggregators :: timeoutsAggregators[k]
      ensures Unshared(timeoutsAggregators)
      ensures forall k | k in timeoutsAggregators && k !in old(timeoutsAggregators) :: fresh(timeoutsAggregators[k])
      ensures var (m, a) := TcAppend(committee, Entry(old(Timeouts()), timeout.epoch), timeout);
              Timeouts() == old(Timeouts())[timeout.epoch := m] && r == a
    {
      if timeout.epoch !in timeoutsAggregators {
        var maker := new TCMaker();
        timeoutsAggregators := timeoutsAggregators[timeout.epoch := maker];
      }
      r := timeoutsAggregators[timeout.epoch].Append(timeout, committee);
    }

    method AddAbaVal(val: ABAVal) returns (r: Appended<ABAProof>)
      requires Unshared(abaValsAggregators)
      modifies this`abaValsAggregators, set k | k in abaValsAggregators :: abaValsAggregators[k]
      ensures Unshared(abaValsAggregators)
      ensures forall k | k in abaValsAggregators && k !in old(abaValsAggregators) :: fresh(abaValsAggregators[k])
      ensures var (m, a) := ProofAppend(committee, Entry(old(Vals()), KeyOf(val)), val);
              Vals() == old(Vals())[KeyOf(val) := m] && r == a
    {
      if KeyOf(val) !in abaValsAggregators {
        var maker := new ABAProofMaker();
        abaValsAggregators := abaValsAggregators[KeyOf(val) := maker];
      }
      r := abaValsAggregators[KeyOf(val)].Append(val, committee);
    }

    method AddAbaRandom(share: Share, combined: Option<nat>) returns (r: Appended<nat>)
      requires Unshared(abaRandomcoinAggregators)
      modifies this`abaRandomcoinAggregators, set k | k in abaRandomcoinAggregators :: abaRandomcoinAggregators[k]
      ensures Unshared(abaRandomcoinAggregators)
      ensures forall k | k in abaRandomcoinAggregators && k !in old(abaRandomcoinAggregators) ::
                fresh(abaRandomcoinAggregators[k])
      ensures var key := Round(share.epoch, share.round);
              var (m, a) := CoinAppend(committee, Entry(old(Coins()), key), share, combined);
              Coins() == old(Coins())[key := m] && r == a
    {
      if Round(share.epoch, share.round) !in abaRandomcoinAggregators {
        var maker := new ABARandomCoinMaker();
        abaRandomcoinAggregators := abaRandomcoinAggregators[Round(share.epoch, share.round) := maker];
      }
      r := abaRandomcoinAggregators[Round(share.epoch, share.round)].Append(share, committee, combined);
    }

    method Cleanup(epoch: nat, height: nat)
      modifies this`votesAggregators, this`timeoutsAggregators
      ensures old(Unshared(votesAggregators)) ==> Unshared(votesAggregators)
      ensures old(Unshared(timeoutsAggregators)) ==> Unshared(timeoutsAggregators)
      ensures Votes() == map k | k in old(Votes()) && k >= height :: old(Votes())[k]
      ensures Timeouts() == map k | k in old(Timeouts()) && k >= epoch :: old(Timeouts())[k]
    {
      votesAggregators := map k | k in votesAggregators && k >= height :: votesAggregators[k];
      timeoutsAggregators := map k | k in timeoutsAggregators && k >= epoch :: timeoutsAggregators[k];
    }

    method CleanupAba(epoch: nat)
      modifies this`abaValsAggregators, this`abaRandomcoinAggregators
      ensures old(Unshared(abaValsAggregators)) ==> Unshared(abaValsAggregators)
      ensures old(Unshared(abaRandomcoinAggregators)) ==> Unshared(abaRandomcoinAggregators)
      ensures Vals() == map k | k in old(Vals()) && k.epoch >= epoch :: old(Vals())[k]
      ensures Coins() == map k | k in old(Coins()) && k.epoch >= epoch :: old(Coins())[k]
    {
      abaValsAggregators := map k | k in abaValsAggregators && k.epoch >= epoch :: abaValsAggregators[k];
      abaRandomcoinAggregators :=
        map k | k in abaRandomcoinAggregators && k.epoch >= epoch :: abaRandomcoinAggregators[k];
    }
  }
}
