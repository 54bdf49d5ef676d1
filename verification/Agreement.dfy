/** The threshold agreement over whole runs: every value in play was some honest node's own input,
    certificates are backed by signatures, and unanimity locks every later round. */
module Agreement {
  import opened Committees
  import opened Options
  import opened Messages
  import opened Aggregators
  import opened Commits
  import opened Nodes
  import opened NodeSafety
  import opened OnceOnly
  import opened Worlds

  // ----- What the tables and caches hold is backed by signatures -----

  ghost predicate KeyInv(c: Committee, k: Knowledge, key: ValKey, m: VoteMaker) {
    var s := AbaS(key.epoch, key.round, key.val, key.phase);
    WellProven(c, m, s) && forall a | a in m.used :: Said(a, s) in k
  }

  ghost predicate ValsInv(c: Committee, k: Knowledge, vals: map<ValKey, VoteMaker>) {
    forall key | key in vals :: KeyInv(c, k, key, vals[key])
  }

  /** Signatures on the proof's statement with at least the given stake. */
  ghost predicate Backed(c: Committee, k: Knowledge, p: ABAProof, stake: nat) {
    && c.Sum(Elements(Names(p.votes))) >= stake
    && forall a | a in Elements(Names(p.votes)) :: Said(a, ProofStatement(p)) in k
  }

  ghost predicate AllBacked(c: Committee, k: Knowledge, table: map<Round, ABAProof>, stake: nat) {
    forall r | r in table :: Backed(c, k, table[r], stake)
  }

  ghost predicate CachesBacked(c: Committee, k: Knowledge, a: Aba) {
    && ValsInv(c, k, a.tables.vals)
    && AllBacked(c, k, a.val1, RandomCoinThreshold(c)) && AllBacked(c, k, a.val2, QuorumThreshold(c))
    && AllBacked(c, k, a.aux, QuorumThreshold(c)) && AllBacked(c, k, a.proofs, QuorumThreshold(c))
  }

  lemma BackedGrows(c: Committee, k: Knowledge, k': Knowledge, a: Aba)
    requires k <= k' && CachesBacked(c, k, a)
    ensures CachesBacked(c, k', a)
  {}

  lemma AddValBacked(c: Committee, k: Knowledge, tables: Tables, m: ABAVal)
    requires ValsInv(c, k, tables.vals) && ValAccepted(m) && Unforged(k, m.signature)
    ensures ValsInv(c, k, AddVal(c, tables, m).0.vals)
    ensures AddVal(c, tables, m).1.Made? ==>
              var p := AddVal(c, tables, m).1.value;
              && ProofStatement(p) == ValStatement(m)
              && Backed(c, k, p, if p.tag then RandomCoinThreshold(c) else QuorumThreshold(c))
  {
    var entry := Entry(tables.vals, KeyOf(m));
    SumEmpty(c);
    assert KeyInv(c, k, KeyOf(m), entry);
    ProofMakerStaysWellProven(c, entry, m);
    assert KeyInv(c, k, KeyOf(m), ProofAppend(c, entry, m).0);
    var r := ProofAppend(c, entry, m).1;
    if r.Made? {
      NamesSnoc(entry.votes, (m.author, m.signature));
      ElementsSnoc(Names(entry.votes), m.author);
    }
  }

  lemma HandleAbaValBacked(c: Committee, k: Knowledge, n: Core, m: ABAVal)
    requires CachesBacked(c, k, n.aba) && Unforged(k, m.signature)
    ensures CachesBacked(c, k, HandleAbaVal(c, n, m).0.aba)
  {
    if TakesVal(n, m) {
      AddValBacked(c, k, n.aba.tables, m);
      var (tables, r) := AddVal(c, n.aba.tables, m);
      if r.Made? {
        TagBacked(c, n.aba.tables, m);
      }
    }
  }

  /** Only VAL messages yield tagged proofs. */
  lemma TagBacked(c: Committee, tables: Tables, m: ABAVal)
    requires AddVal(c, tables, m).1.Made?
    ensures AddVal(c, tables, m).1.value.tag ==> m.phase == VAL_PHASE
  {}

  lemma HandleAbaProofBacked(c: Committee, k: Knowledge, n: Core, p: ABAProof)
    requires CachesBacked(c, k, n.aba) && VotesUnforged(k, p.votes)
    ensures CachesBacked(c, k, HandleAbaProof(c, n, p).0.aba)
  {}

  lemma AcceptedIsBacked(c: Committee, k: Knowledge, p: ABAProof)
    requires AbaCertificate(c, k, p)
    ensures Backed(c, k, p, QuorumThreshold(c))
  {
    forall a | a in Elements(Names(p.votes)) ensures Said(a, ProofStatement(p)) in k {
      NamedSaid(k, p.votes, ProofStatement(p), a);
    }
  }

  lemma HandleCoinShareBacked(c: Committee, k: Knowledge, n: Core, s: Share, combined: Option<nat>)
    requires CachesBacked(c, k, n.aba)
    ensures CachesBacked(c, k, HandleCoinShare(c, n, s, combined).0.aba)
  {}

  /** The node's own signatures exist. */
  ghost predicate OwnKnown(k: Knowledge, n: Core) {
    forall s :: SignedBy(n, s) ==> Said(n.name, s) in k
  }

  lemma SentAndHandledBacked(c: Committee, k: Knowledge, n1: Core, n': Core, own: ABAVal)
    requires CachesBacked(c, k, n1.aba) && OwnKnown(k, n') && n'.name == n1.name
    requires n'.aba.log == n1.aba.log && SignedAba(n1.aba.log, ValStatement(own))
    requires own.signature == Signature(n1.name, ValStatement(own))
    ensures CachesBacked(c, k, HandleAbaVal(c, n1, own).0.aba)
  {
    assert SignedBy(n', ValStatement(own));
    HandleAbaValBacked(c, k, n1, own);
  }

  lemma TcStepBacked(c: Committee, k: Knowledge, n: Core)
    requires NodeInv(c, n) && CachesBacked(c, k, n.aba) && OwnKnown(k, TcStep(c, n).0)
    ensures CachesBacked(c, k, TcStep(c, n).0.aba)
  {
    if !n.aba.tcProcessed && n.epoch in n.tcs {
      var v := Maximum(HighQcRounds(n.tcs[n.epoch]));
      var n1 := Logged(n.(aba := n.aba.(input := n.aba.input[1 := v])), Input(n.epoch, 1, v));
      var own := OwnVal(n, n.epoch, 1, v, VAL_PHASE);
      HandleAbaValFrame(c, n1, own);
      SentAndHandledBacked(c, k, n1, TcStep(c, n).0, own);
    }
  }

  lemma Val1StepBacked(c: Committee, k: Knowledge, n: Core)
    requires NodeInv(c, n) && CachesBacked(c, k, n.aba) && OwnKnown(k, Val1Step(c, n).0)
    ensures CachesBacked(c, k, Val1Step(c, n).0.aba)
  {
    if n.aba.phase >= VAL_PHASE && Now(n) in n.aba.val1 && !n.aba.valSent {
      var p := n.aba.val1[Now(n)];
      var n1 := Logged(n.(aba := n.aba.(valSent := true)), Relay(p.epoch, p.round, p.val));
      var own := OwnVal(n, p.epoch, p.round, p.val, p.phase);
      if n.aba.input[p.round] != p.val {
        HandleAbaValFrame(c, n1, own);
        SentAndHandledBacked(c, k, n1, Val1Step(c, n).0, own);
      }
    }
  }

  lemma SendAuxBacked(c: Committee, k: Knowledge, n: Core, p: ABAProof, n': Core)
    requires CachesBacked(c, k, n.aba) && OwnKnown(k, n') && n'.name == n.name
    requires n'.aba.log == n.aba.log + [Aux(p.epoch, p.round, p.val)]
    ensures CachesBacked(c, k, HandleAbaVal(c, AuxLogged(n, p), OwnVal(n, p.epoch, p.round, p.val, AUX_PHASE)).0.aba)
  {
    SentAndHandledBacked(c, k, AuxLogged(n, p), n', OwnVal(n, p.epoch, p.round, p.val, AUX_PHASE));
  }

  lemma SendAuxLog(c: Committee, n: Core, p: ABAProof)
    ensures var n2 := HandleAbaVal(c, AuxLogged(n, p), OwnVal(n, p.epoch, p.round, p.val, AUX_PHASE)).0;
            n2.name == n.name && n2.aba.log == n.aba.log + [Aux(p.epoch, p.round, p.val)]
  {}

  lemma Val2StepBacked(c: Committee, k: Knowledge, n: Core)
    requires CachesBacked(c, k, n.aba) && OwnKnown(k, Val2Step(c, n).0)
    ensures CachesBacked(c, k, Val2Step(c, n).0.aba)
  {
    if n.aba.phase >= VAL_PHASE && Now(n) in n.aba.val2 {
      var p, n2 := Val2StepCases(c, n);
      var n' := Val2Step(c, n).0;
      if n.aba.bin != {} && !n.aba.auxSent {
        SendAuxLog(c, n, p);
        SendAuxBacked(c, k, n, p, n');
      }
      assert CachesBacked(c, k, n2.aba);
      BinBacked(c, k, n2, n', p.val);
    }
  }

  lemma BinBacked(c: Committee, k: Knowledge, n2: Core, n': Core, v: nat)
    requires CachesBacked(c, k, n2.aba) && (n' == n2 || n' == WithBin(n2, v))
    ensures CachesBacked(c, k, n'.aba)
  {}

  lemma AuxStepBacked(c: Committee, k: Knowledge, n: Core, combined: Option<nat>)
    requires CachesBacked(c, k, n.aba)
    ensures CachesBacked(c, k, AuxStep(c, n, combined).0.aba)
  {
    if n.aba.phase >= AUX_PHASE && Now(n) in n.aba.aux && !n.aba.coinSent {
      var p := n.aba.aux[Now(n)];
      var n1 := Logged(n.(aba := n.aba.(coinSent := true)), CoinSent(p.epoch, p.round));
      var own := Share(p.epoch, p.round, n.name, Signature(n.name, CoinS(p.epoch, p.round)));
      HandleCoinShareBacked(c, k, n1, own, combined);
    }
  }

  lemma NextRoundBacked(c: Committee, k: Knowledge, a: Aba, epoch: nat, v: nat)
    requires CachesBacked(c, k, a)
    ensures CachesBacked(c, k, NextRound(a, epoch, v))
  {}

  lemma NextEpochBacked(c: Committee, k: Knowledge, a: Aba, epoch: nat)
    requires CachesBacked(c, k, a)
    ensures CachesBacked(c, k, NextEpochAba(a, epoch))
  {}

  lemma AdvanceRoundBacked(c: Committee, k: Knowledge, n: Core, v: nat)
    requires CachesBacked(c, k, n.aba) && OwnKnown(k, AdvanceRound(c, n, v).0)
    ensures CachesBacked(c, k, AdvanceRound(c, n, v).0.aba)
  {
    NextRoundBacked(c, k, n.aba, n.epoch, v);
    var n1, own := RoundStarted(n, v), OwnVal(n, n.epoch, n.aba.round + 1, v, VAL_PHASE);
    assert AdvanceRound(c, n, v) == HandleAbaVal(c, n1, own);
    HandleAbaValFrame(c, n1, own);
    assert CachesBacked(c, k, n1.aba);
    SentAndHandledBacked(c, k, n1, AdvanceRound(c, n, v).0, own);
  }

  lemma DecidedBacked(c: Committee, k: Knowledge, n: Core, v: nat, p: ABAProof)
    requires CachesBacked(c, k, n.aba)
    ensures CachesBacked(c, k, SendProof(Decide(n, v), p).aba)
  {}

  lemma CoinStepBacked(c: Committee, k: Knowledge, n: Core)
    requires NodeInv(c, n) && CachesBacked(c, k, n.aba) && OwnKnown(k, CoinStep(c, n).0)
    ensures CachesBacked(c, k, CoinStep(c, n).0.aba)
  {
    if n.aba.phase == COIN_PHASE {
      var decided, v := CoinStepCases(c, n);
      if decided {
        DecidedBacked(c, k, n, v, n.aba.aux[Now(n)]);
      } else {
        AdvanceRoundBacked(c, k, n, v);
      }
    }
  }

  lemma CloseEpochBacked(c: Committee, k: Knowledge, n: Core, draft: Draft)
    requires NodeInv(c, n) && n.aba.output.Some? && CachesBacked(c, k, n.aba)
    ensures CachesBacked(c, k, CloseEpoch(c, n, draft).aba)
  {
    NextEpochBacked(c, k, n.aba, n.epoch + 1);
    CloseEpochShape(c, n, draft);
  }
}
