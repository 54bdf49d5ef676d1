/** What votes and timeouts guarantee at the end of every run. */
module ChainTheorems {
  import opened Committees
  import opened Messages
  import opened Aggregators
  import opened Commits
  import opened Nodes
  import opened Voting
  import opened Worlds
  import opened Agreement
  import opened Justified
  import opened Systems
  import A = AgreementTheorems

  // ----- What the theorems use of the invariant -----

  /** Every honest node's signed votes and timeouts are as `Voting` says. */
  ghost predicate AllVoting(c: Committee, w: World) {
    forall x | x in w :: LogInv(c, w[x])
  }

  lemma RunVotes(c: Committee, tr: seq<World>)
    requires Run(c, tr) && FaultBound(c, tr[0])
    ensures FaultBound(c, Last(tr)) && AllVoting(c, Last(tr))
  {
    RunKeepsInv(c, tr);
  }

  lemma HonestVote(w: World, a: PublicKey, s: Statement) returns (i: nat)
    requires a in w && s.VoteS? && Said(a, s) in Known(w)
    ensures i < |w[a].ledger.log| && IsVote(w[a].ledger.log[i], s)
  {
    var ev :| ev in w[a].ledger.log && IsVote(ev, s);
    i := InSeq(w[a].ledger.log, ev);
  }

  lemma HonestTimeout(w: World, a: PublicKey, e: nat, h: nat) returns (i: nat)
    requires a in w && Said(a, TimeoutS(e, h)) in Known(w)
    ensures i < |w[a].ledger.log| && w[a].ledger.log[i] == TimedOut(e, h)
  {
    i := InSeq(w[a].ledger.log, TimedOut(e, h));
  }

  /** An honest node never signs two different votes for one chain at one height. */
  lemma HonestVotesOnce(c: Committee, w: World, a: PublicKey, s: Statement, t: Statement)
    requires AllVoting(c, w) && a in w && s.VoteS? && t.VoteS?
    requires Said(a, s) in Known(w) && Said(a, t) in Known(w)
    requires s.proposer == t.proposer && s.height == t.height
    ensures s == t
  {}

  // ----- Certified uniqueness -----

  /** Any two accepted certificates for the same chain and height, made at any time and in any
      epochs, certify the same block. */
  lemma CertifiedUniqueness(c: Committee, tr: seq<World>, p: QC, q: QC)
    requires Run(c, tr) && FaultBound(c, tr[0])
    requires Certificate(c, Known(Last(tr)), p) && Certificate(c, Known(Last(tr)), q)
    requires p.proposer == q.proposer && p.height == q.height
    ensures p.hash == q.hash && p.epoch == q.epoch
  {
    RunVotes(c, tr);
    CertificatesAgree(c, Last(tr), p, q);
  }

  lemma CertificatesAgree(c: Committee, w: World, p: QC, q: QC)
    requires FaultBound(c, w) && AllVoting(c, w)
    requires Certificate(c, Known(w), p) && Certificate(c, Known(w), q)
    requires p.proposer == q.proposer && p.height == q.height
    ensures p.hash == q.hash && p.epoch == q.epoch
  {
    var a := QuorumsShareHonest(c, w, Elements(Names(p.votes)), Elements(Names(q.votes)));
    NamedSaid(Known(w), p.votes, QcStatement(p), a);
    NamedSaid(Known(w), q.votes, QcStatement(q), a);
    HonestVotesOnce(c, w, a, QcStatement(p), QcStatement(q));
  }

  // ----- A timeout certificate covers every commit -----

  lemma NamedTimeout(k: Knowledge, c: Committee, tc: TC, a: PublicKey) returns (i: nat)
    requires TimeoutCertificate(c, k, tc) && a in Elements(TcNames(tc.votes))
    ensures i < |tc.votes| && Said(a, TimeoutS(tc.epoch, tc.votes[i].2)) in k
  {
    i :| 0 <= i < |tc.votes| && TcNames(tc.votes)[i] == a;
    assert Unforged(k, tc.votes[i].1);
  }

  /** The honest votes counted in the certificate for the block were cast no later than epoch `e`
      and since the chain's owner began the tenure it is in during `e`. */
  ghost predicate CastWithin(c: Committee, w: World, q: QC, b: Block, e: nat) {
    forall a, ev :: a in w && a in Elements(Names(q.votes)) && ev in w[a].ledger.log
                    && ev.Voted? && DigestOf(ev.block) == DigestOf(b) ==>
      ev.voterEpoch <= e && Tenure(c, b.author, ev.voterEpoch) == Tenure(c, b.author, e)
  }

  /** The 2-chain rule: b0 and its child b1 at consecutive heights on the leader's chain, with a
      certificate for b1. */
  ghost predicate CommitsBlock(c: Committee, k: Knowledge, e: nat, b0: Block, b1: Block, q1: QC) {
    && b0.author == LeaderOf(c, e) && b1.author == LeaderOf(c, e)
    && b0.height + 1 == b1.height && b1.qc.hash == DigestOf(b0)
    && q1.hash == DigestOf(b1) && Certificate(c, k, q1)
  }

  /** Every timeout certificate for the epoch reports at least the height of every leader block
      committed by the 2-chain rule. */
  lemma TimeoutCoversCommit(c: Committee, tr: seq<World>, e: nat, b0: Block, b1: Block, q1: QC, tc: TC)
    requires Run(c, tr) && FaultBound(c, tr[0])
    requires CommitsBlock(c, Known(Last(tr)), e, b0, b1, q1) && CastWithin(c, Last(tr), q1, b1, e)
    requires TimeoutCertificate(c, Known(Last(tr)), tc) && tc.epoch == e
    ensures HighQcRounds(tc) != [] && b0.height <= Maximum(HighQcRounds(tc))
  {
    RunVotes(c, tr);
    CertificateCovers(c, Last(tr), e, b0, b1, q1, tc);
  }

  lemma CertificateCovers(c: Committee, w: World, e: nat, b0: Block, b1: Block, q1: QC, tc: TC)
    requires FaultBound(c, w) && AllVoting(c, w)
    requires CommitsBlock(c, Known(w), e, b0, b1, q1) && CastWithin(c, w, q1, b1, e)
    requires TimeoutCertificate(c, Known(w), tc) && tc.epoch == e
    ensures HighQcRounds(tc) != [] && b0.height <= Maximum(HighQcRounds(tc))
  {
    AcceptedTcHasVotes(c, tc);
    var a := QuorumsShareHonest(c, w, Elements(Names(q1.votes)), Elements(TcNames(tc.votes)));
    NamedSaid(Known(w), q1.votes, QcStatement(q1), a);
    var i := HonestVote(w, a, QcStatement(q1));
    var t := NamedTimeout(Known(w), c, tc, a);
    var j := HonestTimeout(w, a, e, tc.votes[t].2);
    VoterReports(c, w[a], i, j, b0, b1, e, tc.votes[t].2);
    assert HighQcRounds(tc)[t] == tc.votes[t].2;
  }

  lemma VoterReports(c: Committee, n: Core, i: nat, j: nat, b0: Block, b1: Block, e: nat, h: nat)
    requires LogInv(c, n) && i < |n.ledger.log| && j < |n.ledger.log|
    requires var ev := n.ledger.log[i];
             && ev.Voted? && DigestOf(ev.block) == DigestOf(b1) && ev.voterEpoch <= e
             && Tenure(c, b1.author, ev.voterEpoch) == Tenure(c, b1.author, e)
    requires n.ledger.log[j] == TimedOut(e, h)
    requires b1.author == LeaderOf(c, e) && b0.height + 1 == b1.height && b1.qc.hash == DigestOf(b0)
    ensures b0.height <= h
  {}

  // ----- Closing an epoch on a round-1 output never undercuts a commit -----

  /** What an honest node decides in round 1 is the maximum of a timeout certificate. */
  lemma RoundOneDecisionIsReported(c: Committee, w: World, x: PublicKey, e: nat, v: nat)
    requires AllJust(c, w) && x in w && Decided(e, 1, v) in w[x].aba.log
    ensures TcGives(c, Known(w), e, v)
  {
    A.EventIsJust(c, w, x, Decided(e, 1, v));
    var a :| a in w && Input(e, 1, v) in w[a].aba.log;
    A.EventIsJust(c, w, a, Input(e, 1, v));
  }

  /** The height an honest node closes the epoch with, if it was decided in round 1, is at least the
      height of every leader block committed in the epoch. */
  lemma ClosingNeverUndercuts(c: Committee, tr: seq<World>, x: PublicKey, e: nat, v: nat,
                              b0: Block, b1: Block, q1: QC)
    requires Run(c, tr) && FaultBound(c, tr[0])
    requires x in Last(tr) && Decided(e, 1, v) in Last(tr)[x].aba.log
    requires CommitsBlock(c, Known(Last(tr)), e, b0, b1, q1) && CastWithin(c, Last(tr), q1, b1, e)
    ensures b0.height <= v
  {
    RunVotes(c, tr);
    A.RunIsJust(c, tr);
    var w := Last(tr);
    RoundOneDecisionIsReported(c, w, x, e, v);
    var tc :| TcReports(c, Known(w), tc, e, v);
    CertificateCovers(c, w, e, b0, b1, q1, tc);
  }

  /** An honest node's votes for one chain rise strictly in height over the whole run, and it times
      out each epoch at most once. */
  lemma SignedHeightsRise(c: Committee, tr: seq<World>, x: PublicKey, i: nat, j: nat)
    requires Run(c, tr) && FaultBound(c, tr[0]) && x in Last(tr)
    requires i < j < |Last(tr)[x].ledger.log|
    ensures Rising(Last(tr)[x].ledger.log[i], Last(tr)[x].ledger.log[j])
  {
    RunVotes(c, tr);
    assert LogInv(c, Last(tr)[x]);
  }
}
