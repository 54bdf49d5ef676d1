/** What a node of the agreement does when something is due: the phases are entered, values relayed and
    confirmed, coins opened and outputs decided exactly when the state calls for it. */
module Phases {
  import opened Committees
  import opened Options
  import opened Messages
  import opened Aggregators
  import opened Commits
  import opened Nodes
  import opened NodeSafety
  import opened OnceOnly
  import opened Worlds
  import opened Agreement
  import opened Systems

  // ----- Entering phases -----

  /** In every reachable state a node in the coin phase has its round's coin, has counted AUX messages of
      the round up to the quorum threshold, and has two values or an AUX certificate. */
  lemma CoinPhaseIsEarned(c: Committee, tr: seq<World>, x: PublicKey)
    requires Run(c, tr) && FaultBound(c, tr[0]) && x in Last(tr) && Last(tr)[x].aba.phase == COIN_PHASE
    ensures var n := Last(tr)[x]; var now := Round(n.epoch, n.aba.round);
            && now in n.aba.coin && now in n.aba.auxNums && n.aba.auxNums[now] >= QuorumThreshold(c)
            && (|n.aba.bin| >= 2 || now in n.aba.aux)
  {
    RunKeepsInv(c, tr);
    assert NodeInv(c, Last(tr)[x]);
  }

  /** The coin phase can be entered. */
  ghost predicate CoinIsDue(c: Committee, n: Core) {
    var now := Round(n.epoch, n.aba.round);
    && now in n.aba.coin && now in n.aba.auxNums && n.aba.auxNums[now] >= QuorumThreshold(c)
    && (|n.aba.bin| == 2 || now in n.aba.aux)
  }

  /** When a node in view change enters phases it is in a value phase exactly if it has used a timeout
      certificate, past the first exactly if it has accepted a value, and in the coin phase exactly if
      it was or the coin is due as well. */
  lemma PhasesAreDue(c: Committee, w: World, w': World, x: PublicKey)
    requires StepBy(c, w, w', x, Phases)
    ensures var n, phase := w[x], w'[x].aba.phase;
            && (phase >= VAL_PHASE <==> n.aba.tcProcessed)
            && (phase >= AUX_PHASE <==> n.aba.tcProcessed && n.aba.bin != {})
            && (phase == COIN_PHASE <==>
                  n.aba.phase == COIN_PHASE || (n.aba.tcProcessed && n.aba.bin != {} && CoinIsDue(c, n)))
  {}

  // ----- Receiving -----

  /** An AUX message of the current or a later round is counted, with repeats; nothing else is. */
  lemma AuxIsCounted(c: Committee, w: World, w': World, x: PublicKey, m: ABAVal)
    requires StepBy(c, w, w', x, OnAbaVal(m))
    ensures var n, nums, nums' := w[x], w[x].aba.auxNums, w'[x].aba.auxNums;
            var key := Round(m.epoch, m.round);
            if m.phase == AUX_PHASE && ValAccepted(m) && n.aba.output.None?
               && (m.epoch > n.epoch || (m.epoch == n.epoch && m.round >= n.aba.round))
            then nums' == nums[key := 1 + if key in nums then nums[key] else 0]
            else nums' == nums
  {}

  /** Not yet counted for this value, and with enough stake to bring the count to the given weight. */
  ghost predicate Brings(c: Committee, n: Core, m: ABAVal, weight: nat) {
    var maker := Entry(n.aba.tables.vals, ValKey(m.epoch, m.round, m.phase, m.val));
    m.author !in maker.used && maker.weight + c.Stake(m.author) >= weight
  }

  /** The message is for the current or a later round of an undecided node. */
  ghost predicate Timely(n: Core, epoch: nat, round: nat) {
    n.aba.output.None? && (epoch > n.epoch || (epoch == n.epoch && round >= n.aba.round))
  }

  /** A value with a quorum behind it is filed under its round: a certificate of its first or second phase. */
  lemma QuorumIsFiled(c: Committee, w: World, w': World, x: PublicKey, m: ABAVal)
    requires StepBy(c, w, w', x, OnAbaVal(m)) && ValAccepted(m) && Timely(w[x], m.epoch, m.round)
    requires (m.phase == VAL_PHASE || m.phase == AUX_PHASE) && Brings(c, w[x], m, QuorumThreshold(c))
    ensures var key := Round(m.epoch, m.round);
            var table := if m.phase == VAL_PHASE then w'[x].aba.val2 else w'[x].aba.aux;
            key in table && table[key].val == m.val && !table[key].tag
  {}

  /** With exactly f + 1 stake, but no quorum yet, a first-phase value is filed for relaying. */
  lemma SupportIsFiled(c: Committee, w: World, w': World, x: PublicKey, m: ABAVal)
    requires StepBy(c, w, w', x, OnAbaVal(m)) && ValAccepted(m) && Timely(w[x], m.epoch, m.round)
    requires m.phase == VAL_PHASE && !Brings(c, w[x], m, QuorumThreshold(c))
    requires Brings(c, w[x], m, RandomCoinThreshold(c)) && !Brings(c, w[x], m, RandomCoinThreshold(c) + 1)
    ensures var key := Round(m.epoch, m.round);
            key in w'[x].aba.val1 && w'[x].aba.val1[key].val == m.val
  {}

  /** An accepted proof of the current or a later round is filed, and no other entry is touched. */
  lemma ProofIsFiled(c: Committee, w: World, w': World, x: PublicKey, p: ABAProof)
    requires StepBy(c, w, w', x, OnAbaProof(p)) && ProofAccepted(c, p) && Timely(w[x], p.epoch, p.round)
    ensures w'[x].aba.proofs == w[x].aba.proofs[Round(p.epoch, p.round) := p]
  {}

  /** Zero or one, whichever is as even as the number. */
  ghost predicate Parity(coin: nat, v: nat) {
    coin < 2 && (v + coin) % 2 == 0
  }

  /** The share that brings the collection to f + 1 opens the coin: the parity of what the shares combine
      to, so nodes that combine to the same number have the same coin. */
  lemma CoinIsOpened(c: Committee, w: World, w': World, x: PublicKey, s: Share, v: nat)
    requires StepBy(c, w, w', x, OnCoinShare(s, Some(v))) && ShareAccepted(c, s) && Timely(w[x], s.epoch, s.round)
    requires var maker := Entry(w[x].aba.tables.coins, Round(s.epoch, s.round));
             s.author !in maker.used && maker.weight + c.Stake(s.author) == RandomCoinThreshold(c)
    ensures Round(s.epoch, s.round) in w'[x].aba.coin && Parity(w'[x].aba.coin[Round(s.epoch, s.round)], v)
  {}
}
