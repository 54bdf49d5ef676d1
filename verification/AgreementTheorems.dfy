/** What the agreement guarantees at the end of every run. */
module AgreementTheorems {
  import opened Committees
  import opened Options
  import opened Messages
  import opened Aggregators
  import opened Nodes
  import opened OnceOnly
  import opened Worlds
  import opened Agreement
  import opened Justified
  import opened Systems

  // ----- What the theorems use of the invariant -----

  lemma RunIsJust(c: Committee, tr: seq<World>)
    requires Run(c, tr) && FaultBound(c, tr[0])
    ensures FaultBound(c, Last(tr)) && AllJust(c, Last(tr))
    ensures forall x | x in Last(tr) :: BinJust(Chosen(Last(tr)), Last(tr)[x])
  {
    RunKeepsInv(c, tr);
  }

  lemma RunSendsOnce(c: Committee, tr: seq<World>)
    requires Run(c, tr) && FaultBound(c, tr[0])
    ensures FaultBound(c, Last(tr))
    ensures forall x | x in Last(tr) :: NoSlotTwice(Last(tr)[x].aba.log)
  {
    RunKeepsInv(c, tr);
  }

  lemma EventIsJust(c: Committee, w: World, x: PublicKey, e: AbaEvent)
    requires AllJust(c, w) && x in w && e in w[x].aba.log
    ensures EventJust(c, Known(w), Chosen(w), e)
  {}

  // ----- VAL justification -----

  /** Relays and members of `bin` were some honest node's own input to that very round, and so was
      every value with more than the faulty stake behind it in either phase. */
  lemma ValJustification(c: Committee, tr: seq<World>)
    requires Run(c, tr) && FaultBound(c, tr[0])
    ensures forall x, e, r, v :: x in Last(tr) && Relay(e, r, v) in Last(tr)[x].aba.log ==>
              Choice(e, r, v) in Chosen(Last(tr))
    ensures forall x, v :: x in Last(tr) && v in Last(tr)[x].aba.bin ==>
              Choice(Last(tr)[x].epoch, Last(tr)[x].aba.round, v) in Chosen(Last(tr))
    ensures forall p, stake: nat :: Backed(c, Known(Last(tr)), p, stake) && stake > MaxFaulty(c) ==>
              Choice(p.epoch, p.round, p.val) in Chosen(Last(tr))
  {
    RunIsJust(c, tr);
    var w := Last(tr);
    forall x, e, r, v | x in w && Relay(e, r, v) in w[x].aba.log ensures Choice(e, r, v) in Chosen(w) {
      EventIsJust(c, w, x, Relay(e, r, v));
    }
    forall x, v | x in w && v in w[x].aba.bin ensures Choice(w[x].epoch, w[x].aba.round, v) in Chosen(w) {
      assert BinJust(Chosen(w), w[x]);
    }
    forall p, stake: nat | Backed(c, Known(w), p, stake) && stake > MaxFaulty(c)
      ensures Choice(p.epoch, p.round, p.val) in Chosen(w)
    {
      BackedIsChosen(c, w, p, stake);
    }
  }

  // ----- Uniqueness of AUX certificates -----

  lemma OneAuxPerRound(log: seq<AbaEvent>, e: nat, r: nat, v: nat, u: nat)
    requires NoSlotTwice(log) && Aux(e, r, v) in log && Aux(e, r, u) in log
    ensures v == u
  {}

  /** Two accepted AUX certificates for the same epoch and round carry the same value. */
  lemma AuxCertificateUnique(c: Committee, tr: seq<World>, p: ABAProof, q: ABAProof)
    requires Run(c, tr) && FaultBound(c, tr[0])
    requires AbaCertificate(c, Known(Last(tr)), p) && AbaCertificate(c, Known(Last(tr)), q)
    requires p.phase == AUX_PHASE && q.phase == AUX_PHASE && p.epoch == q.epoch && p.round == q.round
    ensures p.val == q.val
  {
    RunSendsOnce(c, tr);
    var w := Last(tr);
    AcceptedIsBacked(c, Known(w), p);
    AcceptedIsBacked(c, Known(w), q);
    var a := QuorumsShareHonest(c, w, Elements(Names(p.votes)), Elements(Names(q.votes)));
    assert Said(a, ProofStatement(p)) in Known(w) && Said(a, ProofStatement(q)) in Known(w);
    assert SignedAba(w[a].aba.log, ProofStatement(p)) && SignedAba(w[a].aba.log, ProofStatement(q));
    OneAuxPerRound(w[a].aba.log, p.epoch, p.round, p.val, q.val);
  }

  // ----- The unanimity lock -----

  /** Every honest input to the round is v. */
  ghost predicate Unanimous(j: iset<Choice>, e: nat, r: nat, v: nat) {
    forall u :: Choice(e, r, u) in j ==> u == v
  }

  /** An input of a later round was an input of the round before, or that round was split. */
  ghost predicate RoundsFollow(j: iset<Choice>) {
    forall e, r, u :: r >= 2 && Choice(e, r, u) in j ==> Choice(e, r - 1, u) in j || Split(j, e, r - 1)
  }

  lemma InputsFollow(c: Committee, w: World)
    requires AllJust(c, w)
    ensures RoundsFollow(Chosen(w))
  {}

  lemma {:induction false} UnanimityCarries(j: iset<Choice>, e: nat, r: nat, v: nat, r': nat)
    requires RoundsFollow(j) && 1 <= r <= r' && Unanimous(j, e, r, v)
    ensures Unanimous(j, e, r', v)
    decreases r'
  {
    if r < r' {
      UnanimityCarries(j, e, r, v, r' - 1);
      forall u | Choice(e, r', u) in j ensures u == v {
        var p: nat := r' - 1;
        assert Unanimous(j, e, p, v);
        assert !Split(j, e, p);
        assert Choice(e, p, u) in j;
      }
    }
  }

  /** The node's own input, relayed, AUX and decided values of the round, and what it accepts while
      in it, are all v. */
  ghost predicate Locked(n: Core, e: nat, r: nat, v: nat) {
    && (forall u :: Input(e, r, u) in n.aba.log ==> u == v)
    && (forall u :: Relay(e, r, u) in n.aba.log ==> u == v)
    && (forall u :: Aux(e, r, u) in n.aba.log ==> u == v)
    && (forall u :: Decided(e, r, u) in n.aba.log ==> u == v)
    && (n.epoch == e && n.aba.round == r ==> n.aba.bin <= {v})
  }

  lemma UnanimousIsLocked(c: Committee, w: World, x: PublicKey, e: nat, r: nat, v: nat)
    requires AllJust(c, w) && Unanimous(Chosen(w), e, r, v) && x in w && BinJust(Chosen(w), w[x])
    ensures Locked(w[x], e, r, v)
  {
    var log := w[x].aba.log;
    forall u | Input(e, r, u) in log ensures u == v {
      assert Choice(e, r, u) in Chosen(w);
    }
    forall u | Relay(e, r, u) in log ensures u == v {
      EventIsJust(c, w, x, Relay(e, r, u));
    }
    forall u | Aux(e, r, u) in log ensures u == v {
      EventIsJust(c, w, x, Aux(e, r, u));
    }
    forall u | Decided(e, r, u) in log ensures u == v {
      EventIsJust(c, w, x, Decided(e, r, u));
    }
  }

  /** If every honest input of a round is v then, in that and every later round of the epoch, all
      honest inputs are v, honest nodes accept no other value, and they decide no other value,
      whether through the coin or through somebody else's proof. */
  lemma UnanimityLock(c: Committee, tr: seq<World>, e: nat, r: nat, v: nat)
    requires Run(c, tr) && FaultBound(c, tr[0]) && r >= 1
    requires Unanimous(Chosen(Last(tr)), e, r, v)
    ensures forall x, r' :: x in Last(tr) && r' >= r ==> Locked(Last(tr)[x], e, r', v)
  {
    RunIsJust(c, tr);
    var w := Last(tr);
    InputsFollow(c, w);
    forall x, r' | x in w && r' >= r ensures Locked(w[x], e, r', v) {
      UnanimityCarries(Chosen(w), e, r, v, r');
      UnanimousIsLocked(c, w, x, e, r', v);
    }
  }

  // ----- Progress and once-only sends -----

  lemma NotBeforeTransitive(a: Core, b: Core, d: Core)
    requires NotBefore(a, b) && NotBefore(b, d)
    ensures NotBefore(a, d)
  {}

  lemma ActorNotBefore(c: Committee, w: World, w': World, x: PublicKey, a: Action)
    requires SystemInv(c, w) && StepBy(c, w, w', x, a)
    ensures x in w' && w' == w[x := w'[x]] && NotBefore(w[x], w'[x])
  {
    ActionKeepsOnce(c, w, x, a);
  }

  lemma StepNotBefore(c: Committee, w: World, w': World, y: PublicKey)
    requires SystemInv(c, w) && Step(c, w, w') && y in w
    ensures y in w' && NotBefore(w[y], w'[y])
  {
    var x, a :| StepBy(c, w, w', x, a);
    ActorNotBefore(c, w, w', x, a);
    OthersStand(w, w', x, y);
  }

  lemma OthersStand(w: World, w': World, x: PublicKey, y: PublicKey)
    requires x in w && x in w' && w' == w[x := w'[x]] && NotBefore(w[x], w'[x]) && y in w
    ensures y in w' && NotBefore(w[y], w'[y])
  {}

  /** (epoch, round, phase) of a node never decreases along a run. */
  lemma {:induction false} PhasesNeverGoBack(c: Committee, tr: seq<World>, i: nat, x: PublicKey)
    requires Run(c, tr) && FaultBound(c, tr[0]) && i < |tr| && x in tr[i]
    ensures x in Last(tr) && NotBefore(tr[i][x], Last(tr)[x])
    decreases |tr|
  {
    if i < |tr| - 1 {
      var front := tr[..|tr| - 1];
      PrefixRun(c, tr, |tr| - 1);
      PhasesNeverGoBack(c, front, i, x);
      RunKeepsInv(c, front);
      assert Step(c, tr[|tr| - 2], tr[|tr| - 1]);
      StepNotBefore(c, Last(front), Last(tr), x);
      NotBeforeTransitive(tr[i][x], Last(front)[x], Last(tr)[x]);
    }
  }

  /** Over any run a node sends at most one input, one relay, one AUX, one coin share and one proof
      per epoch and round, and a pending output has the parity of the current round's coin. */
  lemma SendsOnce(c: Committee, tr: seq<World>, x: PublicKey)
    requires Run(c, tr) && FaultBound(c, tr[0]) && x in Last(tr)
    ensures NoSlotTwice(Last(tr)[x].aba.log)
    ensures var n := Last(tr)[x];
            n.aba.output.Some? ==>
              && Now(n) in n.aba.coin && n.aba.output.value % 2 == n.aba.coin[Now(n)]
              && Decided(n.epoch, n.aba.round, n.aba.output.value) in n.aba.log
  {
    RunKeepsInv(c, tr);
    assert OnceInv(Last(tr)[x]);
  }

  // ----- Partial operations -----

  /** In every reachable state: a timeout certificate about to be used reports heights, the input of
      the current round exists once values are exchanged, and a single accepted value in the coin
      phase comes with its AUX certificate. */
  lemma PartialOperationsDefined(c: Committee, tr: seq<World>, x: PublicKey)
    requires Run(c, tr) && FaultBound(c, tr[0]) && x in Last(tr)
    ensures var n := Last(tr)[x];
            && (n.epoch in n.tcs ==> HighQcRounds(n.tcs[n.epoch]) != [])
            && (n.aba.phase >= VAL_PHASE && Now(n) in n.aba.val1 ==> n.aba.val1[Now(n)].round in n.aba.input)
            && (n.aba.phase == COIN_PHASE && |n.aba.bin| == 1 ==> Now(n) in n.aba.aux)
            && (n.aba.phase >= AUX_PHASE ==> |n.aba.bin| >= 1)
  {
    RunKeepsInv(c, tr);
    var n := Last(tr)[x];
    assert NodeInv(c, n);
    assert n.aba.phase >= AUX_PHASE ==> n.aba.bin != {};
  }
}
