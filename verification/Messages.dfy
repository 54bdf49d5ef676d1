/** The messages of the protocol, what each of them signs, and when a certificate is accepted. */
module Messages {
  import opened Committees

  /** Ideal digests: two blocks have the same digest only if every hashed field agrees.
      A block's digest covers its parent's digest but no other part of its certificate. */
  datatype Digest =
    | Zero
    | Of(author: PublicKey, height: nat, epoch: nat, payload: seq<nat>,
         references: seq<Reference>, parent: Digest)

  datatype Reference = Reference(key: PublicKey, digest: Digest)

  /** A round of the agreement that closes an epoch. */
  datatype Round = Round(epoch: nat, round: nat)

  /** What a signature is about. Each constructor lists the fields its digest hashes. */
  datatype Statement =
    | BlockS(digest: Digest)
    | VoteS(hash: Digest, epoch: nat, height: nat, proposer: PublicKey)
    | TimeoutS(epoch: nat, highQcHeight: nat)
    | AbaS(epoch: nat, round: nat, val: nat, phase: nat)
    | CoinS(epoch: nat, round: nat)

  /** Ideal signatures: a signature names its signer and its statement, and verifies for no others. */
  datatype Signature = Signature(signer: PublicKey, statement: Statement)

  predicate SignatureOk(sig: Signature, statement: Statement, author: PublicKey) {
    sig == Signature(author, statement)
  }

  datatype QC = QC(hash: Digest, epoch: nat, height: nat, proposer: PublicKey,
                   votes: seq<(PublicKey, Signature)>)

  const GENESIS_QC := QC(Zero, 0, 0, DEFAULT_KEY, [])

  /** Certificates are compared by hash and height only. */
  predicate IsGenesis(qc: QC) {
    qc.hash == Zero && qc.height == 0
  }

  datatype Block = Block(qc: QC, author: PublicKey, height: nat, epoch: nat, payload: seq<nat>,
                         references: seq<Reference>, signature: Signature)

  function DigestOf(b: Block): Digest {
    Of(b.author, b.height, b.epoch, b.payload, b.references, b.qc.hash)
  }

  function SignedBlock(qc: QC, author: PublicKey, height: nat, epoch: nat, payload: seq<nat>,
                       references: seq<Reference>): Block
  {
    Block(qc, author, height, epoch, payload, references,
          Signature(author, BlockS(Of(author, height, epoch, payload, references, qc.hash))))
  }

  const GENESIS_BLOCK := SignedBlock(GENESIS_QC, DEFAULT_KEY, 0, 0, [], [])

  datatype Vote = Vote(hash: Digest, epoch: nat, height: nat, author: PublicKey,
                       proposer: PublicKey, signature: Signature)

  datatype Timeout = Timeout(highQc: QC, epoch: nat, author: PublicKey, signature: Signature)

  datatype TC = TC(epoch: nat, votes: seq<(PublicKey, Signature, nat)>)

  datatype ABAVal = ABAVal(author: PublicKey, epoch: nat, round: nat, phase: nat, val: nat,
                           signature: Signature)

  datatype ABAProof = ABAProof(epoch: nat, round: nat, val: nat, phase: nat,
                               votes: seq<(PublicKey, Signature)>, tag: bool)

  datatype Share = Share(epoch: nat, round: nat, author: PublicKey, signature: Signature)

  // ----- The statement behind each message -----

  function VoteStatement(v: Vote): Statement { VoteS(v.hash, v.epoch, v.height, v.proposer) }

  function QcStatement(qc: QC): Statement { VoteS(qc.hash, qc.epoch, qc.height, qc.proposer) }

  function TimeoutStatement(t: Timeout): Statement { TimeoutS(t.epoch, t.highQc.height) }

  function ValStatement(m: ABAVal): Statement { AbaS(m.epoch, m.round, m.val, m.phase) }

  function ProofStatement(p: ABAProof): Statement { AbaS(p.epoch, p.round, p.val, p.phase) }

  function ShareStatement(s: Share): Statement { CoinS(s.epoch, s.round) }

  // ----- Authors of a certificate -----

  function Names(votes: seq<(PublicKey, Signature)>): (names: seq<PublicKey>)
    ensures |names| == |votes|
  {
    seq(|votes|, i requires 0 <= i < |votes| => votes[i].0)
  }

  function TcNames(votes: seq<(PublicKey, Signature, nat)>): (names: seq<PublicKey>)
    ensures |names| == |votes|
  {
    seq(|votes|, i requires 0 <= i < |votes| => votes[i].0)
  }

  function Elements(names: seq<PublicKey>): set<PublicKey> {
    set i | 0 <= i < |names| :: names[i]
  }

  predicate Distinct(names: seq<PublicKey>) {
    forall i, j :: 0 <= i < j < |names| ==> names[i] != names[j]
  }

  predicate AllStakeholders(c: Committee, names: seq<PublicKey>) {
    forall i :: 0 <= i < |names| ==> c.Stake(names[i]) > 0
  }

  predicate IsQuorum(c: Committee, names: seq<PublicKey>) {
    Distinct(names) && AllStakeholders(c, names) && c.Sum(Elements(names)) >= QuorumThreshold(c)
  }

  // ----- When each message is accepted -----

  predicate QcAccepted(c: Committee, qc: QC) {
    && IsQuorum(c, Names(qc.votes))
    && forall i :: 0 <= i < |qc.votes| ==> SignatureOk(qc.votes[i].1, QcStatement(qc), qc.votes[i].0)
  }

  predicate TcAccepted(c: Committee, tc: TC) {
    && IsQuorum(c, TcNames(tc.votes))
    && forall i :: 0 <= i < |tc.votes| ==>
         SignatureOk(tc.votes[i].1, TimeoutS(tc.epoch, tc.votes[i].2), tc.votes[i].0)
  }

  predicate ProofAccepted(c: Committee, p: ABAProof) {
    && IsQuorum(c, Names(p.votes))
    && forall i :: 0 <= i < |p.votes| ==> SignatureOk(p.votes[i].1, ProofStatement(p), p.votes[i].0)
  }

  predicate BlockAccepted(c: Committee, b: Block) {
    && c.Stake(b.author) > 0
    && SignatureOk(b.signature, BlockS(DigestOf(b)), b.author)
    && (IsGenesis(b.qc) || QcAccepted(c, b.qc))
  }

  predicate VoteAccepted(c: Committee, v: Vote) {
    c.Stake(v.author) > 0 && SignatureOk(v.signature, VoteStatement(v), v.author)
  }

  predicate TimeoutAccepted(c: Committee, t: Timeout) {
    && c.Stake(t.author) > 0
    && SignatureOk(t.signature, TimeoutStatement(t), t.author)
    && (IsGenesis(t.highQc) || QcAccepted(c, t.highQc))
  }

  /** An ABA value is only checked for its signature: its author need not hold stake. */
  predicate ValAccepted(m: ABAVal) {
    SignatureOk(m.signature, ValStatement(m), m.author)
  }

  predicate ShareAccepted(c: Committee, s: Share) {
    c.Stake(s.author) > 0 && SignatureOk(s.signature, ShareStatement(s), s.author)
  }

  // ----- The heights a timeout certificate reports -----

  function HighQcRounds(tc: TC): (heights: seq<nat>)
    ensures |heights| == |tc.votes|
  {
    seq(|tc.votes|, i requires 0 <= i < |tc.votes| => tc.votes[i].2)
  }

  function Maximum(s: seq<nat>): (m: nat)
    requires s != []
    ensures m in s && forall i :: 0 <= i < |s| ==> s[i] <= m
  {
    if |s| == 1 then s[0]
    else
      var m := Maximum(s[1..]);
      assert forall i :: 0 < i < |s| ==> s[i] == s[1..][i - 1];
      if s[0] <= m then m else s[0]
  }

  /** Every accepted certificate has a vote, so the maximum over its heights exists. */
  lemma AcceptedTcHasVotes(c: Committee, tc: TC)
    requires TcAccepted(c, tc)
    ensures HighQcRounds(tc) != []
  {
    SumEmpty(c);
    assert tc.votes == [] ==> Elements(TcNames(tc.votes)) == {};
  }

  // ----- The verification loops -----

  datatype Error =
    | AuthorityReuse(name: PublicKey)
    | UnknownAuthority(name: PublicKey)
    | RequiresQuorum
    | InvalidSignature

  datatype Outcome = Pass | Fail(error: Error)

  ghost predicate FirstBadName(c: Committee, names: seq<PublicKey>, i: nat, error: Error)
    requires i < |names|
  {
    && Distinct(names[..i]) && AllStakeholders(c, names[..i])
    && if names[i] in names[..i] then error == AuthorityReuse(names[i])
       else c.Stake(names[i]) == 0 && error == UnknownAuthority(names[i])
  }

  /** The weighing loop shared by the three certificates. */
  method CheckQuorum(c: Committee, names: seq<PublicKey>) returns (r: Outcome)
    ensures r.Pass? <==> IsQuorum(c, names)
    ensures r == Fail(RequiresQuorum) <==>
            Distinct(names) && AllStakeholders(c, names) && c.Sum(Elements(names)) < QuorumThreshold(c)
    ensures r.Fail? && r.error != RequiresQuorum ==>
              exists i :: 0 <= i < |names| && FirstBadName(c, names, i, r.error)
  {
    SumEmpty(c);
    var weight := 0;
    var used: set<PublicKey> := {};
    var i := 0;
    while i < |names|
      invariant 0 <= i <= |names|
      invariant used == Elements(names[..i])
      invariant Distinct(names[..i]) && AllStakeholders(c, names[..i])
      invariant weight == c.Sum(used)
    {
      var name := names[i];
      assert name in used <==> name in names[..i];
      if name in used {
        assert FirstBadName(c, names, i, AuthorityReuse(name));
        return Fail(AuthorityReuse(name));
      }
      var votingRights := c.Stake(name);
      if votingRights == 0 {
        assert FirstBadName(c, names, i, UnknownAuthority(name));
        return Fail(UnknownAuthority(name));
      }
      SumAdd(c, used, name);
      assert names[..i + 1] == names[..i] + [name];
      ElementsSnoc(names[..i], name);
      used := used + {name};
      weight := weight + votingRights;
      i := i + 1;
    }
    assert names[..i] == names;
    if weight < QuorumThreshold(c) {
      return Fail(RequiresQuorum);
    }
    return Pass;
  }

  lemma ElementsSnoc(names: seq<PublicKey>, name: PublicKey)
    ensures Elements(names + [name]) == Elements(names) + {name}
  {
    assert forall i :: 0 <= i < |names| ==> (names + [name])[i] == names[i];
    assert (names + [name])[|names|] == name;
  }

  method CheckBatch(statement: Statement, votes: seq<(PublicKey, Signature)>) returns (ok: bool)
    ensures ok <==> forall i :: 0 <= i < |votes| ==> SignatureOk(votes[i].1, statement, votes[i].0)
  {
    for i := 0 to |votes|
      invariant forall j :: 0 <= j < i ==> SignatureOk(votes[j].1, statement, votes[j].0)
    {
      if !SignatureOk(votes[i].1, statement, votes[i].0) {
        return false;
      }
    }
    return true;
  }

  method VerifyQc(c: Committee, qc: QC) returns (r: Outcome)
    ensures r.Pass? <==> QcAccepted(c, qc)
    ensures r == Fail(InvalidSignature) <==> IsQuorum(c, Names(qc.votes)) && !QcAccepted(c, qc)
  {
    r := CheckQuorum(c, Names(qc.votes));
    if r.Fail? {
      assert r.error != InvalidSignature;
      return;
    }
    var ok := CheckBatch(QcStatement(qc), qc.votes);
    r := if ok then Pass else Fail(InvalidSignature);
  }

  method VerifyProof(c: Committee, p: ABAProof) returns (r: Outcome)
    ensures r.Pass? <==> ProofAccepted(c, p)
    ensures r == Fail(InvalidSignature) <==> IsQuorum(c, Names(p.votes)) && !ProofAccepted(c, p)
  {
    r := CheckQuorum(c, Names(p.votes));
    if r.Fail? {
      assert r.error != InvalidSignature;
      return;
    }
    var ok := CheckBatch(ProofStatement(p), p.votes);
    r := if ok then Pass else Fail(InvalidSignature);
  }

  method VerifyTc(c: Committee, tc: TC) returns (r: Outcome)
    ensures r.Pass? <==> TcAccepted(c, tc)
    ensures r == Fail(InvalidSignature) <==> IsQuorum(c, TcNames(tc.votes)) && !TcAccepted(c, tc)
  {
    r := CheckQuorum(c, TcNames(tc.votes));
    if r.Fail? {
      assert r.error != InvalidSignature;
      return;
    }
    for i := 0 to |tc.votes|
      invariant forall j :: 0 <= j < i ==>
                  SignatureOk(tc.votes[j].1, TimeoutS(tc.epoch, tc.votes[j].2), tc.votes[j].0)
    {
      if !SignatureOk(tc.votes[i].1, TimeoutS(tc.epoch, tc.votes[i].2), tc.votes[i].0) {
        return Fail(InvalidSignature);
      }
    }
    return Pass;
  }
}
