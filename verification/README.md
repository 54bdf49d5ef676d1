# Consensus core: model and proofs

The repository runs one HotStuff-style chain per authority. A rotating leader's chain linearises the
other chains through references, and a threshold-coin agreement (a timeout certificate, then VAL,
AUX and coin rounds) closes each epoch. This project models the consensus node, its aggregator,
its block synchroniser and its store, and proves safety over every run of the whole system.

## How it is built

**Node layer.** `Messages` and `Makers` hold the verification loops and the maker objects, `Cores`
holds the node object with the source's fields and handlers, `Synchronizers` and `Stores` the two
background loops. Every method that changes state is proved equal to a function on values:
`Aggregators` for the makers, `Commits` for committing, `Nodes` and `Passes` for the handlers. A
chain is a value in the source too (it is cloned out of the table, changed and inserted again), so
the node object takes a chain out, changes the copy and puts it back.

**Committing.** While a handler works on a clone of the leader's chain, the table still holds that
chain as it was. A reference of a leader block to the leader's own chain therefore re-enters it on
the stale entry (`consensus/src/core.rs:250-252`). `Commits.CommitPrev` is that recursion with every
such call followed; its `depth` bounds how deep calls nest, and a call that does not end is `Stuck`
at every depth. `Commits.CommitResult` is the result at a depth that is enough. `Commits.CommitLeader`
is the plain height-by-height form, and `Reentries` and `ReentryTheorems` say when the two agree.
`Descents` says when the recursion ends, `CommitFailures` what is lost when it fails.

**Run layer.** `Worlds` defines runs. A world maps every honest authority to its state. In each step
one honest node takes one step of `Nodes`; everybody else may have signed anything, and any message
whose signatures exist may arrive at any time, again, or never. `Systems` proves that every step
keeps the invariants of `NodeSafety` (local), `OnceOnly` (what was sent), `Voting` (what was signed
on the chains), `Agreement` and `Justified` (certificates and values of the agreement).
`Certification`, `Heights` and `Records` add invariants about certified entries, reachable heights
and deliveries. `Delivery` defines the ideal order over certified digests, and `Overlays` what
becomes of it when one chain's entries are replaced. The theorems are in `AgreementTheorems`,
`ChainTheorems`, `RestartTheorems` and `DeliveryTheorems`. `Turns` connects the layers: each handler
of the event loop is a stretch of such a run. Steps are finer than turns, so the theorems hold in
more states than the program can be observed in. `ReturnTheorems` shows over runs when the commits in
those steps end. `CommitExamples` holds concrete commits that go wrong, `ReentryRuns` and `MixedVotes`
concrete runs in which honest nodes diverge, step by step on the committee of `ThreeNodes`.

**What is due is done.** Safety alone would hold of a node that does nothing. `Leaders` states the
rotation. `Phases`, `Sends`, `ViewChanges`, `Proposals` and `Handling` state, without naming the
functions of `Nodes`, what a message or a step must bring about: what is counted, filed, sent,
proposed, voted for and given up. `Carrying` shows that a node keeps what it still needs, `Decisions`
that an epoch ends on its last decision, and `Closings` that by then everything up to the decided
height has been delivered.

Each vote is recorded with the epoch in which it was cast, and each node with the history it needs
for the statements: what it signed, what it sent, and what it delivered per epoch.

## Assumptions

- Signatures are ideal: honest signatures exist only on what was signed. Digests are injective and
  cover the fields the source hashes; of a certificate, a block's digest covers the parent digest only.
- The committee is fixed, its keys are distinct and none is the default key. The safety theorems
  need total stake 3f + 1 with at most f faulty: `quorum_threshold` computes 2f + 1 and not the
  N - f of its comment (`consensus/src/config.rs:106-109`), and `Committees.QuorumsMayMissEachOther`
  shows two disjoint quorums when the total is not of that form.
- A node counts votes on its own blocks only, as senders intend (`consensus/src/core.rs:478-490`).
- A certificate processed on a chain names that chain's owner.
- A looped-back block extends a certificate no higher than its chain's current high certificate.
- A step ends: a node whose commit does not return takes no further step. `ReturnTheorems` says which
  commits return.
- What the table holds of the leader's chain during a step is any state of it with a counter no
  higher and, unless it is the node's own chain, with certified entries.
- The order in which hash maps are walked, payloads, what the mempool knows, and what combining coin
  shares yields are parameters, free in every step.
- Heights, epochs and rounds are unbounded naturals.

## What turned out conditional

- That a commit which returns true meets the commit specification fails for a leader block that
  refers to the leader's own chain: neither `Block::verify` nor `make_vote` looks at references.
  `ReentryTheorems.TrueMeetsSpecIff` has the exact condition (`NoReentry`): every reference of a
  leader block still to be committed leads to another chain or to a leader height the table already
  counts. `ReentryRuns.ReentryDiverges` is a run in which two honest nodes diverge that way although
  every call returns true.
- The recursion need not end (`CommitExamples.ReentryNeverReturns`). `Descents.ReturnsIff` says exactly
  when a commit that does not return false ends, and `ReturnTheorems.CommitsReturnIff` says so of every
  reachable state. References into lower heights are harmless in this respect.
- A commit that fails inside a reference keeps the blocks it pushed but drops the counter
  (`consensus/src/core.rs:248-251`). `CommitFailures.CommitDeliversIff` covers every outcome: blocks
  and counters match exactly when no committed block leads back and the failing height lost nothing.
  `CommitExamples.FailedCommitDeliversAgain` is a concrete double delivery.
- Vote makers are keyed by height alone, so a node may assemble a certificate over votes for different
  blocks and use it without verifying it. `Aggregators.MadeQcIsAccepted` gives the exact condition.
  Only the node's own chain is affected, since all other entries come from verified certificates.
  `DeliveryTheorems.DeliversIdealIff` shows that a node delivers the ideal order exactly when the
  entries of its own chain that it delivered are certified, and `MixedVotes.HonestNodesDiverge`
  exhibits a run in which they are not and two honest nodes diverge.
- Likewise the 2-chain rule commits what `TimeoutCoversCommit` covers exactly when the certificate in
  the processed block verifies (`RestartTheorems.TwoChainCommits`), which only an own block can fail.
- An untagged proof passes verification exactly when all counted authors hold stake, because
  `ABAVal::verify` does not look at stake (`Aggregators.MadeProofIsAccepted`).
- A vote maker emits at most once if k <= f for total stake 3f + 1 + k. It can emit twice exactly when
  two disjoint sets of authors each reach the threshold (`Aggregators.TwoQcsIff`).
- A block whose certificate is genesis may be voted for at any height, so `RestartIsFresh` needs the
  leader to extend its own certificates; `HonestLeaderExtends` shows that an honest one does as long as
  its proposals carry certificates that verify.
- From round 2 on a raw coin may become an input (`consensus/src/core.rs:892`). The lock, uniqueness
  and justification theorems account for that; general agreement of the outputs is not claimed.

## Model

| member | source | states |
|---|---|---|
| `DeliveryTheorems.DeliversIdealIff` | consensus/src/core.rs:228-291 | over every run: an epoch in which every commit of an honest node returned true and none led back to the leader's chain delivered the ideal order over all certified digests exactly when every block the node delivered on its own chain is the certified one; nothing is asked of the other chains |
| `DeliveryTheorems.TrueDeliversIdealIff` | consensus/src/core.rs:228-291 | in an epoch led by another authority, and with every commit returning true, a node delivered the ideal order exactly when none of its commits led back and every block it delivered on its own chain is the certified one |
| `DeliveryTheorems.PrefixConsistent` | consensus/src/core.rs:228-291 | over every run: in one epoch and from equal commit counters, what two honest nodes with such epochs delivered is prefix-comparable, however each split its commits |
| `DeliveryTheorems.ConsistentAcrossEpochs` | consensus/src/core.rs:1026-1040 | everything two honest nodes delivered since the start, across such epochs, is prefix-comparable as long as both closed the earlier epochs alike |
| `DeliveryTheorems.CommitsDeliver` | consensus/src/core.rs:228-262 | in every reachable state, whatever the table holds of the leader's chain meanwhile, a commit that returns true meets the commit specification exactly when no leader block still to be committed refers to the leader's chain above what the table counts |
| `DeliveryTheorems.OthersAreWellKept` | consensus/src/core.rs:293-298 | in every reachable state the entries a node keeps for any other authority's chain name blocks of that chain at their heights |
| `DeliveryTheorems.AlikeIsConsistent` | consensus/src/core.rs:1016-1040 | any two histories that follow the ideal order over one set of certified digests, start alike and close their epochs alike are prefix-comparable |
| `Records.RunKeepsRecords` | consensus/src/core.rs:265-291 | at the end of every run each per-epoch record of an honest node without failed or re-entrant commits is what the ideal order delivers once the node's own delivered blocks are laid over the certified digests, or it contains a block of the leader delivered on the node's own chain and more of the leader's blocks than the leader's chain has heights; each epoch starts from the counters the last one left |
| `Records.CertificateNamesBlock` | consensus/src/messages.rs:207-229 | an accepted certificate names a block of its proposer at its height and epoch, because some honest voter saw that block |
| `Records.DigestsGrow` | consensus/src/core.rs:293-298 | a step may add certified digests per chain and height but never changes one |
| `Delivery.CommitRefines` | consensus/src/core.rs:228-262 | whatever the tables and the store hold besides, a successful commit without re-entry whose delivered entries are certified delivers exactly the ideal order and leaves exactly the ideal counters |
| `Overlays.SameOrderIff` | consensus/src/core.rs:228-262 | entries laid over one chain of the certified digests give the same delivery exactly when each of them is certified, up to the references that delivery does not show |
| `Delivery.DeliverCompose` | consensus/src/core.rs:228-262 | committing height h and then h' delivers what committing the higher of the two at once does, with the same counters |
| `Delivery.DeliverPrefix` | consensus/src/core.rs:228-262 | a lower leader height delivers a prefix of what a higher one delivers |
| `Delivery.DeliverStable` | consensus/src/core.rs:228-262 | more certificates, or others that differ only in references nobody follows, never change what a leader height already delivers |
| `Delivery.DeliverCounter` | consensus/src/core.rs:259-259 | the leader's counter ends at the committed height, or where it was if that is higher |
| `AgreementTheorems.UnanimityLock` | consensus/src/core.rs:803-933 | if every honest input of a round is v then in that and every later round of the epoch all honest inputs, relays, AUX values, accepted values and decisions are v, through the coin or a received proof |
| `AgreementTheorems.ValJustification` | consensus/src/core.rs:695-752 | every relayed value, every member of bin_values and every value with more than the faulty stake behind it was the own input of some honest node in that very round |
| `AgreementTheorems.AuxCertificateUnique` | consensus/src/messages.rs:435-453 | two accepted AUX certificates of one epoch and round carry the same value |
| `AgreementTheorems.SendsOnce` | consensus/src/core.rs:695-787 | over any run at most one input, one relayed VAL, one AUX, one coin share and one proof per epoch and round; a pending output was decided in the current round and has the parity of its coin |
| `AgreementTheorems.PhasesNeverGoBack` | consensus/src/core.rs:975-1061 | (epoch, round, phase) of a node never decreases lexicographically along a run |
| `AgreementTheorems.PartialOperationsDefined` | consensus/src/core.rs:846-852 | in every reachable state the heights of a usable TC are not empty, the input of the current round exists when values are compared with it, and a single accepted value in the coin phase has its AUX certificate |
| `ChainTheorems.CertifiedUniqueness` | consensus/src/messages.rs:207-240 | any two accepted certificates for one chain and height, from any epochs of the run, have the same hash and epoch |
| `ChainTheorems.SignedHeightsRise` | consensus/src/core.rs:191-225 | an honest node's signed heights per chain strictly increase over the whole run, epoch switches included, and it times out each epoch at most once |
| `ChainTheorems.TimeoutCoversCommit` | consensus/src/core.rs:513-521 | the maximum height in every accepted TC of an epoch is at least every leader height committed by the 2-chain rule on votes cast within the tenure |
| `ChainTheorems.ClosingNeverUndercuts` | consensus/src/core.rs:1010-1040 | a round-1 decision is at least every leader height committed by the 2-chain rule in the epoch |
| `ChainTheorems.RoundOneDecisionIsReported` | consensus/src/core.rs:607-627 | what an honest node decides in round 1 is the maximum of an accepted TC of the epoch |
| `RestartTheorems.TwoChainCommits` | consensus/src/core.rs:496-546 | when a node about to process a block commits by the 2-chain rule, the two blocks below it are what TimeoutCoversCommit is about exactly when the block's certificate verifies |
| `RestartTheorems.FirstTenureCommitIsReported` | consensus/src/core.rs:513-521 | in a leader's first tenure, every accepted timeout certificate of the epoch has a maximum of at least each height an honest node commits by the 2-chain rule |
| `RestartTheorems.FirstTenureCommitIsKept` | consensus/src/core.rs:1010-1040 | so no round-1 decision of the epoch is below such a height |
| `RestartTheorems.FirstTenureCastsWithin` | consensus/src/core.rs:195-205 | in a leader's first tenure the casting condition of the covering theorem holds for every block of the tenure |
| `RestartTheorems.TcBoundsTenure` | consensus/src/core.rs:607-607 | in a leader's first tenure, if the leader extends its own certificates, its certificates are at most one above, and votes and last_voted_height at most two above, the maximum of any accepted timeout certificate of the epoch |
| `RestartTheorems.RestartIsFresh` | consensus/src/core.rs:1036-1040 | hence all of them are below the height at which its chain restarts after a round-1 decision |
| `RestartTheorems.HonestLeaderExtends` | consensus/src/core.rs:396-441 | an honest leader whose first-tenure proposals carry certificates that verify extends its own certificates, as far as honest voters can tell |
| `RestartTheorems.CertificateEpoch` | consensus/src/core.rs:424-433 | no accepted certificate on an honest owner's chain is ahead of that chain's epoch |
| `Closings.ClosedEpochIsDelivered` | consensus/src/core.rs:1010-1040 | over every run each epoch a node has closed has a last decision on record; unless the node led it, its record goes up to that decided height at least; and if its commits all returned true, its blocks include the certified block of the leader at every height from the epoch's start counter to where the record goes, and every block of another chain between its start counter and a height such a block refers to |
| `Closings.BlocksDeliverExactly` | consensus/src/core.rs:513-541 | in every reachable state a block outside a view change, of the leader and of no later epoch than its chain, with parent and grandparent stored one height apart, brings the delivery up to the grandparent, complete if every commit returned true; any other block delivers nothing |
| `Closings.ClosesExactly` | consensus/src/core.rs:1010-1066 | a decided node ends the epoch exactly when the block stored for the decided height of the leader's chain is at hand, whoever led: the record goes up to that block, exactly the certificates and caches of later epochs are kept, the leader's chain starts over ten heights above the decision, and the leader proposes |
| `Closings.DecisionEndsEpoch` | consensus/src/core.rs:975-1066 | the agreement's part of a turn does so for a decided node in view change |
| `Decisions.RunDecides` | consensus/src/core.rs:846-933 | in every reachable state a pending output is the last decision of the epoch on record, and every closed epoch has one |
| `Phases.CoinPhaseIsEarned` | consensus/src/core.rs:990-1000 | in every reachable state a node in the coin phase has its round's coin, AUX messages of the round counted up to the quorum threshold, and two values or an AUX certificate |
| `Phases.PhasesAreDue` | consensus/src/core.rs:975-1000 | entering phases in view change puts a node into each phase exactly when its conditions hold: a used timeout certificate, an accepted value, and then the coin, the counted quorum and two values or the AUX certificate |
| `Phases.AuxIsCounted` | consensus/src/core.rs:754-758 | an AUX message of an undecided node's current or a later round adds one to the count of its round, and nothing else changes a count on receipt |
| `Phases.QuorumIsFiled` | consensus/src/core.rs:680-693 | the message that brings a value's support to a quorum leaves its certificate filed under its round, for either phase |
| `Phases.SupportIsFiled` | consensus/src/aggregator.rs:215-224 | a first-phase value with exactly f + 1 stake behind it is filed for relaying |
| `Phases.ProofIsFiled` | consensus/src/core.rs:916-923 | an accepted timely proof is filed and no other entry is touched |
| `Phases.CoinIsOpened` | consensus/src/aggregator.rs:259-275 | the share that brings the collection to f + 1 opens the coin: zero or one, as even as what the shares combine to |
| `Sends.RelayIsSent` | consensus/src/core.rs:695-722 | in every reachable state in which a first-phase value other than the input has support, the step on it leaves a relay in the history of the round |
| `Sends.AuxIsSent` | consensus/src/core.rs:724-752 | in every reachable state in which a value is accepted and another quorum is at hand, the step on it leaves an AUX in the history of the round |
| `Sends.ShareIsSent` | consensus/src/core.rs:766-787 | in every reachable state in which an AUX certificate is due, the step on it leaves the coin share in the history of the round |
| `Sends.QuorumIsAccepted` | consensus/src/core.rs:750-750 | in every reachable state a value with a quorum is accepted, and no other: the node's own AUX never stands in its way |
| `Sends.CertificateIsUsed` | consensus/src/core.rs:590-630 | the first timeout certificate of the epoch makes a largest reported height the input of round 1, signed and on record |
| `Sends.CoinDecides` | consensus/src/core.rs:846-896 | in every reachable state of the coin phase the step decides exactly if the one accepted value, or with several the AUX certificate's, has the coin's parity, with the certificate sent; otherwise the next round has the one value as input, or else the coin |
| `Sends.ProofDecides` | consensus/src/core.rs:925-933 | a filed proof of the current round decides its value exactly if the round's coin is known and of the same parity |
| `ViewChanges.TcIsFiled` | consensus/src/core.rs:578-588 | an accepted timeout certificate of the current or a later epoch is filed on receipt and no other entry is lost |
| `ViewChanges.CollectedTcIsFiled` | consensus/src/core.rs:370-375 | so is the certificate that the node's own collection of timeouts completes |
| `ViewChanges.FiledTcStays` | consensus/src/core.rs:1055-1055 | over every run, once a certificate was received there is an accepted one for its epoch until that epoch is closed |
| `ViewChanges.TurnEntersViewChange` | consensus/src/core.rs:632-640 | at the end of every turn a node with a certificate for its epoch is in view change |
| `ViewChanges.TcLeadsToViewChange` | consensus/src/core.rs:578-651 | receiving an accepted certificate for the current epoch and ending the turn leaves the node in view change with a certificate filed, or in the next epoch |
| `ViewChanges.TimesOutExactly` | consensus/src/core.rs:632-651 | at the end of a turn a node signs a timeout exactly when it is not in view change, has no certificate for its epoch and some chain is more than ten heights ahead of the leader's; it reports the leader's high certificate |
| `ViewChanges.TimeoutEndsVoting` | consensus/src/core.rs:300-304 | over every run, all votes on the leader's chain after a timeout, in whatever epoch, are above the height the chain then stood at |
| `ViewChanges.NothingIsDelivered` | consensus/src/core.rs:536-538 | over every run, from the moment a node is in view change its record of the epoch stays as it is until the epoch is closed |
| `ViewChanges.ViewChangeIsEarned` | consensus/src/core.rs:632-651 | in every reachable state a node in view change has a timeout certificate of its epoch or has timed out in it |
| `Carrying.RunCarries` | consensus/src/core.rs:803-844 | over every run a node loses nothing it still needs: cache entries of the epoch for its round and later ones, coins, certificates of its epoch and later ones, stored blocks, what it signed, sent, voted for and recorded |
| `Proposals.ProposalIsExact` | consensus/src/core.rs:396-441 | what a step proposes is the node's next block, on its new high certificate, or on genesis when it has closed an epoch of its own, and refers once each to exactly the other chains with a certified block, by the hash of their latest |
| `Proposals.FirstProposal` | consensus/src/core.rs:1074-1082 | a new node has proposed one block, at height 1 on genesis, referring to nothing |
| `Proposals.ReferencesAreCertified` | consensus/src/core.rs:396-441 | over every run whatever an honest node's own block refers to is a certified block of another authority's chain |
| `Proposals.QuorumProposes` | consensus/src/core.rs:332-354 | a vote makes the node propose exactly when it completes a quorum at a height its chain has not left; the chain then stands right above with the certificate entered |
| `Proposals.QcIsTaken` | consensus/src/core.rs:379-393 | a certificate is entered at its height, moves the chain past it, replaces a lower high certificate and drops exactly the vote makers it has overtaken |
| `Proposals.VotesExactly` | consensus/src/core.rs:469-494 | a processed block is stored, and voted for exactly when it is votable: next on its chain or on genesis, of no earlier epoch, not the leader's in view change, above what was voted for and right above its certificate |
| `Handling.ProposalIsHandled` | consensus/src/core.rs:548-576 | a proposal that is not accepted changes nothing; otherwise its certificate is taken, and with the payload at hand it is stored and voted for exactly when votable |
| `Handling.TimeoutIsCounted` | consensus/src/core.rs:356-377 | an accepted timeout of the current or a later epoch is counted once per author, its certificate is taken, and a quorum leaves a certificate of all that was counted; any other changes nothing |
| `Handling.VoteIsCounted` | consensus/src/core.rs:332-343 | a vote that completes no quorum is counted once per author, and changes nothing if it is late, not accepted or repeated |
| `Handling.ValIsCounted` | consensus/src/core.rs:898-914 | a timely message of either phase is counted once per author and value, and nothing else is |
| `Handling.ShareIsCounted` | consensus/src/core.rs:789-801 | a timely accepted share is counted once per author, and nothing else is |
| `Handling.PassLeavesNothingDue` | consensus/src/core.rs:935-973 | a pass that ends without an error has decided, has begun another round, or leaves nothing due: the certificate used, supported values relayed, quorums accepted, the share sent, no coin to act on and no proof that decides |
| `Handling.InputIsCounted` | consensus/src/core.rs:609-627 | the node's own input is counted in its own table |
| `Handling.RelayIsCounted` | consensus/src/core.rs:708-720 | so is a value it relays |
| `Handling.CarriedValueIsCounted` | consensus/src/core.rs:803-841 | so is the value it goes on to the next round with |
| `Handling.AuxIsCountedToo` | consensus/src/core.rs:736-748 | so is its AUX |
| `Handling.OwnShareIsCounted` | consensus/src/core.rs:773-785 | so is its coin share, if it holds stake |
| `Handling.OwnTimeoutIsCounted` | consensus/src/core.rs:300-329 | so is its timeout, if the certificate in it is accepted |
| `Handling.OwnMessagesAreAccepted` | consensus/src/messages.rs:132-165 | what a member with stake signs passes verification everywhere: its votes, values and shares always, its blocks and timeouts exactly when the certificate in them does |
| `Handling.OwnTimeoutIsAccepted` | consensus/src/core.rs:306-313 | over every run the timeout a node with stake signs against another leader is accepted everywhere |
| `Systems.RunKeepsInv` | consensus/src/core.rs:1074-1173 | every run of honest nodes among at most f faulty stake keeps all node and system invariants |
| `Systems.StepKeepsInv` | consensus/src/core.rs:1074-1173 | one step of one honest node keeps them, and signatures and inputs are never taken back |
| `Systems.RunsExist` | consensus/src/core.rs:122-182 | every admissible committee with any choice of honest members has runs |
| `Systems.OwnInputIsAccepted` | consensus/src/core.rs:607-628 | a node's own round-1 input is never refused by its own table, so tc_processed is always set |
| `Turns.EndOfTurnReaches` | consensus/src/core.rs:1164-1172 | what ends every turn of the event loop takes the world along a run, whenever the closing commit returns |
| `Turns.ProposalReaches` | consensus/src/core.rs:548-575 | handling a proposal takes the world along a run, whenever the commit it leads to returns |
| `Turns.TimeoutReaches` | consensus/src/core.rs:356-376 | handling a timeout takes the world along a run |
| `Turns.CheckTimeoutTurn` | consensus/src/core.rs:632-651 | the timeout check is a sequence of steps of the node |
| `Turns.UpdateTurn` | consensus/src/core.rs:975-1072 | the agreement's part of a turn is a sequence of steps of the node, errors included |
| `Turns.OwnBlockTurn` | consensus/src/core.rs:444-462 | processing the block just proposed is a step of the node, whenever the commit it leads to returns |
| `Turns.MadeBlockIsReady` | consensus/src/core.rs:345-352 | the block made on a quorum extends the new high certificate, so it can be processed at once |
| `Turns.OwnVoteTurn` | consensus/src/core.rs:477-479 | handling the own vote is a step of the node |
| `Turns.RunGoesOn` | consensus/src/core.rs:1080-1173 | a run can be continued by any such stretch, so theorems about runs hold after each turn |
| `ReentryTheorems.TrueMeetsSpecIff` | consensus/src/core.rs:228-262 | a commit that returns true, with well-kept tables, meets the commit specification exactly when no leader block still to be committed refers to the leader's chain above what the table counts: contiguous certified blocks per chain between the counters, what a leader block refers to before it, counters equal to what was delivered |
| `Reentries.PlainCommit` | consensus/src/core.rs:228-262 | a commit that does not lead back, succeeding or not, equals the height-by-height form that leaves the leader's entry alone |
| `Commits.ResultAt` | consensus/src/core.rs:244-257 | the result of the nested recursion does not depend on how deep it is allowed to nest |
| `Commits.CommitLeaderDelivers` | consensus/src/core.rs:228-262 | the height-by-height form, when it succeeds, delivers for each chain exactly its certified blocks between its counters, in height order without repeats; everything a leader block refers to, with uncommitted ancestors, precedes it; counters equal what was delivered |
| `Commits.DeliversInOrder` | consensus/src/core.rs:233-260 | in what a commit delivers each chain's blocks rise strictly in height within its counters, so none is delivered twice |
| `Commits.CommitRefsDelivers` | consensus/src/core.rs:243-257 | following references in that form delivers and covers every referenced block and moves no counter of the leader |
| `Commits.CommitRangeDelivers` | consensus/src/core.rs:233-260 | on another chain: contiguous certified blocks up to the height, no other chain touched |
| `Commits.SortByKeySorts` | consensus/src/core.rs:243-243 | references are put in key order |
| `Commits.SortByKeyKeeps` | consensus/src/core.rs:243-243 | sorting keeps exactly the references |
| `MixedVotes.HonestNodesDiverge` | consensus/src/aggregator.rs:102-124 | there is a run with one faulty authority in which two honest nodes, from equal counters and with every commit returning true and none leading back, deliver different blocks up to the same leader height, because a vote for a foreign block was counted last on one node's own chain |
| `CommitFailures.CommitDeliversIff` | consensus/src/core.rs:245-254 | for every commit that returns, true or false: it delivers exactly what its counters say if and only if no leader block it committed leads back and, if it failed, the references of the height it failed on lost nothing: the failing one had pushed nothing, or it led back to an entry of the table whose next height fails at once and loses nothing |
| `CommitExamples.ReentryDeliversTwice` | consensus/src/core.rs:244-252 | an accepted leader block that refers to the accepted one below it: committed in one call the lower block is delivered twice, committed in two calls once, with every call returning true and the counters ending alike |
| `ReentryRuns.ReentryDiverges` | consensus/src/core.rs:244-252 | there is a run with one faulty authority in which two honest nodes commit the same heights from equal counters, every commit returning true, and deliver sequences that are not prefix-comparable, because one of them commits those two blocks at once |
| `CommitExamples.ReentryNeverReturns` | consensus/src/core.rs:244-252 | a concrete leader block that refers to a stored block of the leader at its own height: the recursion never returns, at any depth |
| `Descents.ReturnsIff` | consensus/src/core.rs:228-262 | termination of the nested recursion: a commit returns if every reference of a leader block still to be committed leads to a known chain and, in the leader's own, further down, in the chain at hand and in what the table holds of it on the way; and a commit that does not return false returns only then |
| `Descents.OnEntryReturnsIff` | consensus/src/core.rs:228-262 | on the chain as the table has it: a commit that does not return false returns exactly when no leader block still to be committed refers to a stored block of the leader at or above its own height, or to one of an unknown author |
| `ReturnTheorems.CommitsReturnIff` | consensus/src/core.rs:228-262 | the same in every reachable state of an honest node, whatever the table holds of the leader's chain meanwhile |
| `ReturnTheorems.BlocksReturn` | consensus/src/core.rs:513-546 | so in every reachable state processing a block comes to an end if what its 2-chain would commit leads down |
| `ReturnTheorems.ClosingsReturn` | consensus/src/core.rs:1010-1026 | and so does closing the epoch |
| `ReturnTheorems.SinkingProposalReaches` | consensus/src/core.rs:548-575 | with nothing assumed about termination: from every reachable state, handling a proposal whose commit leads down takes the world along a run |
| `ReturnTheorems.SinkingTurnEnds` | consensus/src/core.rs:1164-1172 | and so does what ends the turn |
| `CommitExamples.FailedCommitDeliversAgain` | consensus/src/core.rs:248-251 | a concrete commit over accepted blocks that fails after pushing a block and delivers it again when repeated |
| `NodeSafety.AttemptFrame` | consensus/src/core.rs:228-262 | a commit moves commit counters only, whether it succeeds or not and wherever its references lead; the leader's ends at the height if it returns true |
| `NodeSafety.CoinStepKeeps` | consensus/src/core.rs:846-896 | the coin step keeps the local invariant, so its unwrap is defined |
| `NodeSafety.CloseEpochKeeps` | consensus/src/core.rs:1010-1066 | closing the epoch keeps the local invariant through the resets |
| `NodeSafety.EnterPhasesKeeps` | consensus/src/core.rs:975-1000 | entering phases keeps the local invariant |
| `Certification.RunKeepsCert` | consensus/src/core.rs:293-298 | in every reachable state all table entries and high certificates of other authorities' chains are accepted certificates of their chain, and the high certificate of its own chain is made of votes cast for that chain |
| `Heights.RunKeepsHeights` | consensus/src/core.rs:300-304 | in every reachable state a high certificate has a quorum of votes at its height, mixed or not, and in the first tenure last_voted_height stays next to it |
| `Voting.NextEpochVoting` | consensus/src/core.rs:1026-1040 | an epoch switch keeps strictly rising votes and covering timeouts |
| `Voting.VoteOnVoting` | consensus/src/core.rs:195-225 | a vote is above every earlier vote on its chain and bounded by the processed certificate |
| `Voting.SignTimeoutVoting` | consensus/src/core.rs:300-313 | a timeout reports at least the certificate behind every vote it covers |
| `Agreement.AcceptedIsBacked` | consensus/src/messages.rs:435-453 | an accepted proof has a quorum of signatures on its own statement |
| `Justified.CoinStepJust` | consensus/src/core.rs:846-896 | what the coin step decides or carries on was an honest input of the round, or the round was split |
| `Justified.BackedIsChosen` | consensus/src/aggregator.rs:191-226 | more than the faulty stake behind a value means an honest input of it |
| `Committees.QuorumOverlap` | consensus/src/config.rs:105-113 | for total stake 3f+1+k two quorums share at least f+1-k stake |
| `Committees.QuorumsMayMissEachOther` | consensus/src/config.rs:105-109 | with k = 2 two quorums can be disjoint: the code computes 2f+1, not the N-f of its comment |
| `Committees.StakeIsLookup` | consensus/src/config.rs:97-99 | stake is the table entry of the authority |
| `Committees.StakeholderIsMember` | consensus/src/config.rs:97-99 | who holds stake is in the committee |
| `Worlds.QuorumsShareHonest` | consensus/src/config.rs:105-113 | two quorums share an honest authority when at most f of 3f+1 stake is faulty |
| `Worlds.MoreThanFaultyIsHonest` | consensus/src/config.rs:121-124 | more than f stake contains an honest authority |
| `Aggregators.MadeQcIsAccepted` | consensus/src/aggregator.rs:102-124 | a QC made from verified votes passes QC::verify exactly when every counted vote signs what the last one signs |
| `Aggregators.QcFromVotesIff` | consensus/src/aggregator.rs:102-124 | the same after any sequence of verified votes, with nothing assumed of the maker |
| `Aggregators.MadeTcIsAccepted` | consensus/src/aggregator.rs:145-171 | a TC made from verified timeouts always passes TC::verify |
| `Aggregators.MadeProofIsAccepted` | consensus/src/aggregator.rs:191-214 | an untagged proof passes ABAProof::verify exactly when every counted author holds stake |
| `Aggregators.AtMostOneQc` | consensus/src/aggregator.rs:113-114 | the weight reset makes a vote maker emit at most one QC over any appends whenever k <= f |
| `Aggregators.AtMostOneTc` | consensus/src/aggregator.rs:163-164 | the same for timeouts |
| `Aggregators.TwoQcsIff` | consensus/src/aggregator.rs:113-114 | a vote maker emits twice over some sequence of verified votes exactly when two disjoint sets of authors each reach the threshold |
| `Aggregators.TwoQcsWhenFIsZero` | consensus/src/aggregator.rs:113-114 | in particular when f = 0 and two authorities hold stake, where k > f |
| `Aggregators.ValEmissions` | consensus/src/aggregator.rs:191-226 | with unit stakes and f >= 1, in any arrival order, exactly the f+1st author yields the tagged proof and the 2f+1st the untagged one |
| `Aggregators.CoinEmissions` | consensus/src/aggregator.rs:246-277 | with unit stakes exactly the f+1st share attempts a combination |
| `Makers.QCMaker.Append` | consensus/src/aggregator.rs:102-124 | appending a vote in place does what the append function does: reuse error, pending, or the certificate, and the new weight, list and set |
| `Makers.TCMaker.Append` | consensus/src/aggregator.rs:145-171 | appending a timeout in place does what the append function does: reuse error, pending, or the certificate, and the new weight, list and set |
| `Makers.ABAProofMaker.Append` | consensus/src/aggregator.rs:191-226 | appending a value in place does what the append function does: reuse error, pending, or the certificate, and the new weight, list and set |
| `Makers.ABARandomCoinMaker.Append` | consensus/src/aggregator.rs:246-277 | appending a share in place does what the append function does: reuse error, pending, or the certificate, and the new weight, list and set |
| `Makers.Aggregator.AddVote` | consensus/src/aggregator.rs:34-43 | creates the maker of the height on first use, appends, and leaves the other makers alone |
| `Makers.Aggregator.AddTimeout` | consensus/src/aggregator.rs:45-54 | the same per epoch |
| `Makers.Aggregator.AddAbaVal` | consensus/src/aggregator.rs:56-61 | the same per epoch, round, phase and value |
| `Makers.Aggregator.AddAbaRandom` | consensus/src/aggregator.rs:63-72 | the same per epoch and round |
| `Makers.Aggregator.Cleanup` | consensus/src/aggregator.rs:74-77 | keeps exactly the makers from the given height and epoch on |
| `Makers.Aggregator.CleanupAba` | consensus/src/aggregator.rs:79-82 | keeps exactly the agreement makers from the given epoch on |
| `Messages.CheckQuorum` | consensus/src/messages.rs:209-225 | the weighing loop passes exactly distinct stakeholders with quorum weight, and names the first offender or the missing quorum otherwise |
| `Messages.VerifyQc` | consensus/src/messages.rs:207-229 | passes exactly accepted certificates; a signature error exactly when only the signatures are wrong |
| `Messages.VerifyTc` | consensus/src/messages.rs:326-351 | the same for timeout certificates, each vote with its own reported height |
| `Messages.VerifyProof` | consensus/src/messages.rs:436-453 | the same for agreement proofs |
| `Messages.CheckBatch` | consensus/src/messages.rs:228-228 | passes exactly when every signature is on the statement |
| `Messages.AcceptedTcHasVotes` | consensus/src/messages.rs:353-355 | an accepted TC reports at least one height |
| `Messages.Maximum` | consensus/src/core.rs:607-607 | the largest reported height, a member of the list |
| `Leaders.FirstLeader` | consensus/src/leader.rs:24-28 | epoch 0 belongs to the member with the smallest key |
| `Leaders.NextLeader` | consensus/src/leader.rs:24-28 | leadership passes from each epoch to the next to the next larger key, and from the largest to the smallest |
| `Leaders.EachLeadsOnce` | consensus/src/leader.rs:24-28 | in as many consecutive epochs as there are members each member leads exactly once |
| `Nodes.LeaderOf` | consensus/src/leader.rs:24-28 | the leader of an epoch is a committee member; which one, `Leaders.FirstLeader` and `Leaders.NextLeader` say |
| `Cores.Core.constructor` | consensus/src/core.rs:122-182 | the initial state with the first own block proposed |
| `Cores.Core.MakeVote` | consensus/src/core.rs:195-225 | a vote is cast exactly under the voting rules, raises last_voted_height and signs the block |
| `Cores.Core.ProcessBlockVote` | consensus/src/core.rs:469-494 | in place it is the voting step; a vote comes out exactly when one is cast |
| `Cores.Core.HandleVote` | consensus/src/core.rs:332-354 | in place it is the vote-counting step; a quorum yields the next own block |
| `Cores.Core.HandleTimeout` | consensus/src/core.rs:356-376 | in place it is the timeout step |
| `Cores.Core.HandleTc` | consensus/src/core.rs:578-588 | in place it files the accepted certificate |
| `Cores.Core.LocalTimeoutRound` | consensus/src/core.rs:300-329 | in place it signs the timeout and counts it |
| `Cores.Core.CheckTimeout` | consensus/src/core.rs:632-651 | the loop over chains finds a lagging leader exactly when there is one, and times out then |
| `Cores.Core.CommitPrevBlock` | consensus/src/core.rs:228-262 | the nested loops and recursion give the result, the chains and the pushed blocks of the recursive definition, re-entry into the leader's stale entry and failures included |
| `Cores.Core.CommitHeight` | consensus/src/core.rs:233-260 | one turn of the loop does what the definition does for the next height |
| `Cores.Core.CommitReferences` | consensus/src/core.rs:244-257 | the inner loop follows the references in order and stops at the first failure, keeping what was pushed |
| `Cores.Core.CommitReference` | consensus/src/core.rs:250-252 | one referenced block: the chain is cloned out of the table and put back only on success |
| `Cores.Core.Commit` | consensus/src/core.rs:265-291 | push_front with pop_back sends the blocks oldest first, whether the commit succeeded or not |
| `Cores.Core.CommitHead` | consensus/src/core.rs:513-521 | commits onto the chain at hand while the table still has its earlier state, and the history follows |
| `Cores.Core.ProcessBlockCommit` | consensus/src/core.rs:513-521 | commits the head of a 2-chain of the leader |
| `Cores.Core.ProcessBlock` | consensus/src/core.rs:524-546 | in place it is the block step: store, commit, vote |
| `Cores.Core.HandleProposal` | consensus/src/core.rs:548-575 | in place it is the proposal step: verify, certificate, payload, block |
| `Cores.Core.HandleValPhase` | consensus/src/core.rs:680-693 | in place it files the VAL message and the proof it completes |
| `Cores.Core.HandleAuxPhase` | consensus/src/core.rs:754-764 | in place it counts the AUX message, repeats included, and files the proof it completes |
| `Cores.Core.HandleAbaVal` | consensus/src/core.rs:898-914 | dispatch by phase after the expiry check |
| `Cores.Core.HandleAbaProof` | consensus/src/core.rs:916-923 | files an accepted proof of a current or later round |
| `Cores.Core.HandleCoinShare` | consensus/src/core.rs:789-801 | files the share and the coin it completes |
| `Cores.Core.ProcessTc` | consensus/src/core.rs:590-630 | takes the TC maximum as input of round 1 and sends it |
| `Cores.Core.ProcessValPhase1` | consensus/src/core.rs:695-722 | relays a value other than the input once per round |
| `Cores.Core.ProcessValPhase2` | consensus/src/core.rs:724-752 | sends AUX once when bin_values is not empty, then accepts the value |
| `Cores.Core.ProcessAuxPhase` | consensus/src/core.rs:766-787 | sends one coin share |
| `Cores.Core.AdvanceAbaRound` | consensus/src/core.rs:803-844 | enters the next round with the input, clears flags and prunes caches |
| `Cores.Core.ProcessCoinShare` | consensus/src/core.rs:846-896 | decides or carries a value on, by parity |
| `Cores.Core.ProcessAbaProof` | consensus/src/core.rs:925-933 | decides the proof's value if the coin agrees |
| `Cores.Core.ProcessAbaPhase` | consensus/src/core.rs:935-973 | one pass over the guarded steps, stopping at the first error |
| `Cores.Core.EnterPhases` | consensus/src/core.rs:975-1000 | the phase conditions in order |
| `Cores.Core.AdvanceEpoch` | consensus/src/core.rs:1026-1066 | moves to the next epoch, restarts the leader's chain and resets the agreement |
| `Cores.Core.CloseEpoch` | consensus/src/core.rs:1010-1066 | waits for the output's block, commits it and advances the epoch |
| `Cores.Core.UpdateAbaPhase` | consensus/src/core.rs:975-1072 | phases, then either closing or one pass |
| `Cores.Core.ReceiveProposal` | consensus/src/core.rs:1087-1093 | take the chain out, handle, put it back: the table ends as the step says |
| `Cores.Core.ReceiveVote` | consensus/src/core.rs:1094-1100 | the same for a vote, on the proposer's chain |
| `Cores.Core.ReceiveLoopBack` | consensus/src/core.rs:1101-1107 | the same for a looped-back block |
| `Cores.Core.ReceiveTimeout` | consensus/src/core.rs:1125-1132 | the same for a timeout, on the leader's chain of its epoch |
| `Cores.Core.EndTurn` | consensus/src/core.rs:1164-1172 | after every message: the agreement, then the timeout check, each on the leader of that moment |
| `Passes.AbaPass` | consensus/src/core.rs:935-973 | the guarded steps in order, stopping at the first error; the local invariant holds after it |
| `Passes.UpdateAba` | consensus/src/core.rs:975-1072 | phases, then closing or a pass; the local invariant holds after it, so every partial operation on the way is defined |
| `Synchronizers.ReachableIsRight` | consensus/src/synchronizer.rs:42-104 | in every reachable state the bookkeeping invariant holds: demands are the pending digests by requesting block, one waiter each unless its read failed, loop-backs in place |
| `Synchronizers.LookupSucceeds` | consensus/src/synchronizer.rs:81-86 | demands of different blocks are disjoint and the lookup on completion always succeeds |
| `Synchronizers.LoopedBackExactly` | consensus/src/synchronizer.rs:86-95 | a block is looped back exactly when its last registered demand has completed |
| `Synchronizers.AsksExactly` | consensus/src/synchronizer.rs:51-83 | a batch of requests asks once, of the first author named for it, for each digest that is neither stored nor pending, and waits for it; it asks for nothing else |
| `Synchronizers.PendingIsRequested` | consensus/src/synchronizer.rs:57-83 | in every reachable state each pending digest has been asked for |
| `Synchronizers.TimerAsks` | consensus/src/synchronizer.rs:105-124 | the timer asks everyone once for each overdue digest and changes nothing else |
| `Synchronizers.NextKeeps` | consensus/src/synchronizer.rs:44-122 | every arm keeps the bookkeeping invariant |
| `Synchronizers.Synchronizer.HandleRequests` | consensus/src/synchronizer.rs:45-78 | the request loop registers each missing digest once and asks for it |
| `Synchronizers.Synchronizer.HandleFetched` | consensus/src/synchronizer.rs:80-97 | completion removes the digest and loops the block back exactly when nothing else is demanded |
| `Synchronizers.Synchronizer.HandleTimer` | consensus/src/synchronizer.rs:100-121 | overdue digests are requested again from everyone |
| `Stores.NoLostWakeUp` | store/src/lib.rs:46-57 | over any command sequence each NotifyRead is answered at most once, with the value present or else the first value written later, and is queued until then |
| `Stores.AnsweredInOrder` | store/src/lib.rs:35-39 | readers of one key are answered in arrival order |
| `Stores.ReadsAreAnswered` | store/src/lib.rs:42-45 | over any command sequence each Read is answered exactly once, with the last value written successfully before it |
| `Stores.ObligationsAreAbsent` | store/src/lib.rs:32-57 | nobody waits for a key that is in the database |
| `Stores.DbIsLatest` | store/src/lib.rs:33-34 | the database holds the last successful write of each key |
| `Stores.Store.HandleWrite` | store/src/lib.rs:33-41 | writes and wakes all waiting readers, first come first |
| `Stores.Store.HandleNotifyRead` | store/src/lib.rs:46-57 | answers at once or queues |
| `Stores.Store.Run` | store/src/lib.rs:30-60 | the loop has always done what its commands say |

## Left out

- Networking, channels, delays, the command line, benchmarks and log parsing.
- Cryptography and serialisation: ideal signatures, structural digests, no byte formats.
- The mempool: whether a payload is known is a parameter of the proposal handler.
- Timers and wall-clock times of the synchroniser: a timer turn resends any pending digests.
- Closings.ClosedEpochIsDelivered: of an epoch the node led itself it does not say that the record reaches the decided height, because a certificate over mixed votes can put a block of another height there; `Closings.ClosesExactly` says that the record reaches the height of that block. A record with a commit that returned false promises nothing about its blocks.
- Closings.ClosesExactly: requires that the commit of the output's block returns.
- Closings.DecisionEndsEpoch: requires that the commit of the output's block returns.
- Phases.CoinIsOpened: stated for shares that combine; when combining fails no coin is opened, and the source does not try again.
- Handling.OwnTimeoutIsCounted: the certificate on the node's own chain, which it reports in its own epochs, may not verify.
- Handling.OwnTimeoutIsAccepted: against another leader only, for the same reason.
- Synchronizers.TimerAsks: which digests are overdue is a parameter, and each is listed once.
- Machine integers: heights, epochs, rounds, weights and counts do not wrap around.
- Cores.Core.HandleVote: stops where the new block is broadcast; processing one's own block and the vote on it are separate later steps, because the source's recursion (`consensus/src/core.rs:455`, `consensus/src/core.rs:478-479`) does not end when a single stake makes a quorum. `Turns.OwnBlockTurn` and `Turns.OwnVoteTurn` show that those steps can follow at once. It also requires a vote on the node's own block; the source would count a vote that names another proposer on that proposer's chain.
- Cores.Core.ReceiveVote: carries the requirement of `HandleVote`.
- Cores.Core.CommitPrevBlock: requires that the recursion returns, as a method that runs forever has no result to describe. `Descents.ReturnsIff` says when it does; a reference to an author without a chain, where the source panics, counts as not returning.
- Cores.Core.CommitHeight: carries the requirement of `CommitPrevBlock`.
- Cores.Core.CommitReferences: carries the requirement of `CommitPrevBlock`.
- Cores.Core.CommitReference: carries the requirement of `CommitPrevBlock`.
- Cores.Core.Commit: carries the requirement of `CommitPrevBlock`.
- Cores.Core.CommitHead: carries the requirement of `CommitPrevBlock`.
- Cores.Core.ProcessBlockCommit: carries the requirement of `CommitPrevBlock`.
- Cores.Core.ProcessBlock: carries the requirement of `CommitPrevBlock`, for the commit the block leads to, if any.
- Cores.Core.HandleProposal: carries the requirement of `CommitPrevBlock`, for the commit the block leads to, if any.
- Cores.Core.ReceiveProposal: carries the requirement of `CommitPrevBlock`, for the commit the block leads to, if any.
- Cores.Core.ReceiveLoopBack: carries the requirement of `CommitPrevBlock`, for the commit the block leads to, if any.
- Cores.Core.CloseEpoch: carries the requirement of `CommitPrevBlock`, for the commit of the output's block.
- Cores.Core.UpdateAbaPhase: carries the requirement of `CloseEpoch`.
- Cores.Core.EndTurn: carries the requirement of `CloseEpoch`.
- Cores.Core: the makers inside a chain and inside the node are values here; `Makers` proves the objects against the same functions.
- Descents.ReturnsIff: of a commit that returns false it says only that it returns if its references lead down; it may also return because it fails before it meets one that does not.
- ReturnTheorems.CommitsReturnIff: assumes that no block of the leader is on the node's own chain, which a certificate over mixed votes can break, and for the leader itself that the table's entries agree with the chain at hand.
- DeliveryTheorems.TrueDeliversIdealIff: for epochs that another authority leads; of its own epochs a node's record is characterised only if no commit led back (`DeliversIdealIff`).
- DeliveryTheorems.CommitsDeliver: assumes that the entries of the node's own chain name its own blocks, which a certificate over mixed votes can break; for all other chains `OthersAreWellKept` proves it.
- DeliveryTheorems.ConsistentAcrossEpochs: that both nodes closed earlier epochs at the same heights is a hypothesis, as the code does not establish agreement on outputs after round 1.
- ChainTheorems.TimeoutCoversCommit: the votes behind the certificate must have been cast within the tenure; `FirstTenureCastsWithin` discharges this for first tenures only.
- RestartTheorems.FirstTenureCommitIsReported: for a certificate that carries the first tenure's chain epoch, as nothing ties a certificate's epoch to that of the block below it.
- RestartTheorems.FirstTenureCommitIsKept: as above.
- RestartTheorems.RestartIsFresh: first tenures only; a later tenure restarts from another tenure's heights.
- RestartTheorems.HonestLeaderExtends: one direction only.
- Turns.ProposalReaches: the certificate inside the block names the chain's owner, which the source does not check.
- ReturnTheorems.SinkingProposalReaches: as above, and no block of the leader is on the node's own chain.
- Turns.TimeoutReaches: the certificate inside the timeout names the leader whose chain it is processed on, which the source does not check.
- Messages that name an authority outside the committee where the source unwraps the lookup of its chain: the handlers require a known author.
- Liveness, the distribution of the coin, and agreement of outputs across rounds.
- Storage errors on reads of the database; failing writes of the store are modelled.
- `large_threshold`, `QC::timeout`, `RandomCoin` and the sync-request handler, which only answers from the store.
