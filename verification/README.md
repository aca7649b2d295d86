# gobft in Dafny

gobft is a Go implementation of Tendermint consensus. This project models its hard core and proves
what the protocol is for: no two honest validators commit different data at one height, whatever
the network does and whatever a third of the voting power does.

## What is modelled

| module | file | what it holds |
|---|---|---|
| `Messages` | `message/message.go`, `state.go` | votes, commit certificates, fetch messages, the order of the steps |
| `Committees` | `vote_set.go` | voting power, quorums, quorum arithmetic in int64 |
| `Tallies`, `VoteSets` | `vote_set.go` | a vote set as a value and as the class that is updated in place |
| `FetchVotes` | `vote_set.go`, `message/message.go` | the exchange of a fetch request and its response, with the checks of both messages |
| `HeightVotes`, `HeightVoteSets` | `height_vote_set.go` | the vote sets of all rounds of a height, as a value and as a class |
| `CoreSpec`, `Cores` | `bftcore.go` | the state machine as functions on states and as the class `Core` |
| `CoreInvariant`, `CoreSteps`, `CoreHandlers`, `CoreRuns` | `bftcore.go` | the invariant of one node, kept by every `enterX`, every handler and every run |
| `CoreActions`, `CoreApprovals` | `bftcore.go` | what a node does on each vote and timeout: votes signed, lock, proposal and step; and whom it asked |
| `CoreFetching` | `bftcore.go` | what a node gains from fetch responses and commits, and from asking |
| `CatchUp` | `bftcore.go`, `vote_set.go` | a commit certificate makes a node commit |
| `SoleValidator` | `bftcore.go` | a committee of one commits what it proposes |
| `Ticker` | `ticker.go` | the timeout ticker, alone and together with a node |
| `Network`, `Safety` | `bftcore.go` | many nodes over an unreliable network; lock persistence, agreement, validity, one chain |

The classes follow the Go code method by method. Each method's postcondition equates the new state
with a function of the old state; functions and lemmas reason about those functions. A Go panic is
the flag `panicked` in the state, so "this panic never happens" is a statement about runs.

A node's state carries a journal that the code does not have: the votes it signed, each with the
set of votes it had accepted by then, the timeouts it scheduled, the data its application approved,
the commits it made since the start. The journal makes properties of whole runs into properties of states.

## How agreement is proved

The condition `vote.Round <= c.Round` on unlocking is commented out at `bftcore.go:842`, so a node
may unlock on a polka of a round ahead of its own and prevote in that same round. Induction on
rounds does not work then. Instead the network keeps a trace of all signed votes in the order of
signing. A polka against data that a quorum has precommitted shares an honest voter with that
quorum, and that voter had already accepted an earlier polka against the data
(`Safety.EarlierPolka`); descending through the trace, there is none (`Safety.NoPolkaAgainst`).

## Assumptions

* The committee depends on the height only, powers are not negative, the total is the sum of the
  powers, and its double fits in an int64 (`Committees.QuorumInt64Exact` shows that this bound is exact).
* Signatures are an oracle: a vote that verifies was signed by its address, as it stands, before it is
  delivered. This is stronger than what `Vote.Digest` (`message/message.go:87-98`) provides: `binary.Write`
  refuses values of type `int`, `time.Time` and `string`, and its error is dropped, so the round, the timestamp
  and the address are not part of the signed digest. `Safety.Agreement`, `Safety.LockPersistence` and
  `Safety.ExternalValidity` rest on the oracle: they are about the code with a digest that covers these fields.
* After `Commit` the application reports the committed height and data (`CoreSteps.AppContract`).
  Its other answers (proposer, decision, validation, history) are arbitrary; they may differ from vote to vote
  of one message, from height to height, and between the validation of a received proposal and the one
  before a prevote.
* `byzantinePrevote`, a hook for tests, is not set on honest nodes.
* One run of a node begins with `Start` at a last height of at least zero.

## Where the code and its comments disagree

The model follows the code.

* `vote_set.go:23` allows totals up to the maximum of uint64. `total*2/3 + 1` is the least two-thirds
  majority exactly for totals below 2^62 (`Committees.QuorumInt64Exact`); from there to the last int64
  but one no majority is ever reported (`VoteSets.VoteSet.AddVote`).
* `vote_set.go:89` and `height_vote_set.go:104` say that a duplicate vote returns no error; it returns one.
* `bftcore.go:839` gives the unlock condition with the bound that line 842 leaves out.
* `bftcore.go:623-634` unlocks at a polka for nil. Nil doubles as "no majority", so the branch is dead
  and the node keeps its lock (`CoreHandlers.NilPolkaKeepsLock`).
* `message/message.go:278` accepts certificates with missing precommits, but `bftcore.go:266` and
  `bftcore.go:327` dereference every entry (`CoreRuns.MissingVotePanics`), and so does the digest of an answer
  made of a commit from the history (`message/message.go:444`). `FetchVotesReq.ValidateBasic` does not look at
  the round, and `bftcore.go:305-307` dereferences the vote set of a negative round
  (`CoreRuns.NegativeRoundPanics`). `CoreRuns.PanicsExactly` shows that these are the only messages and
  timeouts that make the receive loop panic: every sanity check of the code is unreachable.
* `bftcore.go:508` has missing votes fetched every second until more than two thirds of any are there. A voter is listed
  once for each data it voted for, and requests and responses of more than 21 entries are refused
  (`message/message.go:389`, `message/message.go:465`), so a single equivocator can stop the exchange
  (`FetchVotes.OverlongRequest`); `FetchVotes.FetchExactly` gives the exact condition.

## Model

| member | source | states |
|---|---|---|
| `Safety.Agreement` | bftcore.go:588-712 | in every run of the network, any two commits of honest nodes at one height are of the same data, in whatever rounds, if at most a third of the power is Byzantine |
| `Safety.LockPersistence` | bftcore.go:834-848 | once a quorum precommitted data in a round, no later round ever has a polka for other data |
| `Safety.ExternalValidity` | bftcore.go:546-567 | committed data was approved, by an answer given during the run, by the application of some honest validator that prevoted it |
| `Safety.EarlierPolka` | bftcore.go:840-848 | a polka against precommitted data within a prefix of the trace needs one in a shorter prefix |
| `Safety.NoPolkaAgainst` | bftcore.go:834-848 | no prefix of the trace holds a polka against precommitted data |
| `Safety.QuorumHasPolka` | bftcore.go:636-655 | behind a precommit quorum for data there is a polka for it in the same round |
| `Safety.OneQuorumPerRound` | bftcore.go:588-600 | two precommit quorums of one round are for the same data |
| `Safety.LogsArePrefixes` | bftcore.go:714-739 | the commit logs of two honest nodes that started alike are prefixes of one another: height, base and data of every commit |
| `Safety.LogIsChain` | bftcore.go:168-209 | the commits of an honest node are of consecutive heights from its start, each built on the data before it |
| `Safety.CommitsAgree` | bftcore.go:695-712 | two commits of one height in a world that keeps the invariant are of the same data |
| `Safety.QuorumsAgree` | bftcore.go:588-670 | precommit quorums of any two rounds of a height are for the same data |
| `Safety.CommitIsQuorate` | bftcore.go:695-730 | the precommits of a commit are a quorum among the signed votes |
| `Safety.EarliestApproved` | bftcore.go:555-563 | data with a polka was approved by an answer of the application of an honest prevoter: the earliest honest prevote cannot come from a lock |
| `Safety.HonestEntry` | bftcore.go:522-530 | an honest vote in the trace was signed by its node, after everything it had accepted |
| `Network.RunInv` | bftcore.go:214-280 | in every run each honest node keeps its invariant, has accepted only votes signed before, and accounts for every vote under its name |
| `Network.DeliveryKeeps` | bftcore.go:239-280 | delivering any message or timeout to a node keeps the invariant of the network |
| `Network.RunAnswered` | bftcore.go:558-560 | over a run of the network, whatever a node notes as approved its application approved while some input of the run was handled at it |
| `CoreApprovals.HandleApproves` | bftcore.go:558-560 | data newly noted as approved was approved by an answer given while the input was handled, for exactly that height and data |
| `CoreApprovals.RunApproves` | bftcore.go:558-560 | the same over every run of a node |
| `CoreRuns.RunInv` | bftcore.go:214-237 | the invariant of a node holds after every run from `Start` |
| `CoreRuns.NoEquivocation` | bftcore.go:492-506 | a node never signs two votes of one kind for one height and round |
| `CoreRuns.OwnVoteTaken` | bftcore.go:521-530 | a vote a node signed at its current height is added to its own vote set when it comes back, unless held already |
| `CoreRuns.LockInvariant` | bftcore.go:636-667 | locked round and locked proposal are set together, the locked round shows a polka for the locked data, no later round one for other data |
| `CoreRuns.ProposalInvariant` | bftcore.go:907-949 | the proposal held is of the current height, round and base, own or verified; the locked one is of the current height and base |
| `CoreRuns.RoundSkip` | bftcore.go:863-898 | no round above the current one holds more than two thirds of any votes, and no precommit majority is left uncommitted |
| `CoreRuns.TrackedRounds` | bftcore.go:816-821 | all rounds up to the tracked one are stored, none beyond the watermark, at most round + 301 in all |
| `CoreRuns.TalliesRecount` | bftcore.go:179-206 | vote sets of a reachable state are recounts; the precommits kept from the last height have a majority for the committed data |
| `CoreRuns.PanicsExactly` | bftcore.go:239-367 | a run panics exactly at a commit or fetch response the node takes with a missing vote, a request of its height for a negative round, or a request for a past height whose commit in the history has a missing vote; no other panic is reachable |
| `CoreRuns.NegativeRoundPanics` | bftcore.go:303-309 | a well-formed request for a negative round makes every reachable node of that height panic |
| `CoreRuns.ReplyReconciles` | bftcore.go:282-315 | the answer of a reachable node to a request of its height leaves the requester with exactly the voters of both sides if and only if it missed none or the answer keeps to the limit |
| `CoreRuns.MissingVotePanics` | bftcore.go:255-268 | a well-formed commit with a missing entry makes a fresh node panic |
| `CoreRuns.NeverBack` | bftcore.go:162-166 | height, round and step never go back over a run, and the journal only grows |
| `CatchUp.CatchUpByCertificate` | bftcore.go:255-268 | a well-formed commit for the node's height and base, within the watermark, whose signers that verify have quorum power, makes it commit exactly that data and leave the height, whatever other entries the commit has and whichever votes the node had |
| `CatchUp.CertificateTravels` | vote_set.go:303-313 | a certificate made of a precommit majority makes every reachable node at that height and base commit the same data |
| `CatchUp.CertificateCommits` | bftcore.go:883-891 | precommits whose verified signers complete a quorum with those already held make the node commit their data; entries that do not verify do no harm |
| `CatchUp.RefusedHeld` | vote_set.go:130-134 | a precommit that does not verify is refused and everything held stays held |
| `CatchUp.NoQuorumHeld` | bftcore.go:887-891 | a node at rest never holds a quorum of precommits for data |
| `CatchUp.ProvingVoteHeld` | bftcore.go:817-827 | unless it commits, a node that handles a fitting precommit holds it and everything it held before |
| `CatchUp.RestIsLate` | bftcore.go:763-786 | after the commit the rest of the certificate changes neither height nor commits |
| `SoleValidator.SoleValidatorCommits` | bftcore.go:378-712 | from the start of any height it can reach, a node with all the power commits exactly what it proposes, by its own timeout and the two votes it signs |
| `SoleValidator.SoleValidatorStarts` | bftcore.go:76-102 | in particular from `Start`: three inputs lead to the first commit |
| `SoleValidator.Locks` | bftcore.go:834-873 | the polka of its own prevote makes that node lock and sign a precommit for the same data |
| `CoreInvariant.StartInv` | bftcore.go:76-102 | the state after `Start` satisfies the invariant |
| `CoreInvariant.SendKeeps` | bftcore.go:522-530 | signing a safe vote beyond the current position keeps the voting discipline |
| `CoreInvariant.VotingSends` | bftcore.go:522-530 | signing a safe vote of this height keeps discipline, order, base and remembered locks of all signed votes |
| `CoreInvariant.RelockRemembers` | bftcore.go:840-848 | a lock replaced or released by a later polka is still remembered through that polka |
| `CoreSteps.PrevoteIsSafe` | bftcore.go:555-564 | a prevote for the locked data, approved data or nil respects every earlier precommit of the node |
| `CoreSteps.EnterPrevoteOk` | bftcore.go:492-513 | `enterPrevote` keeps the invariant, advances to the fetch step and schedules its timeout |
| `CoreSteps.EnterPrevoteWaitOk` | bftcore.go:569-586 | with more than two thirds of any prevotes it moves to prevote-wait without a panic |
| `CoreSteps.EnterPrecommitWaitOk` | bftcore.go:672-693 | with more than two thirds of any precommits it moves to precommit-wait without a panic |
| `CoreSteps.EnterProposeOk` | bftcore.go:421-469 | `enterPropose` with its deferred update keeps the invariant and ends in propose or prevote-fetch |
| `CoreSteps.RoundSetUpBase` | bftcore.go:390-402 | starting a later round never makes `SetRound` panic |
| `CoreSteps.EnterNewRoundOk` | bftcore.go:378-405 | `enterNewRound` past its guard keeps the invariant and rests in the new round |
| `CoreSteps.LockedNodeRepeatsLock` | bftcore.go:421-469 | a locked node that starts a round prevotes at once, and all it signs on the way, its proposal included, is for the locked data |
| `CoreSteps.NeverLockedOnOther` | bftcore.go:617-663 | at a polka of the current round the node is unlocked or locked on that data, and `POLInfo` finds this round |
| `CoreSteps.DoPrecommitOk` | bftcore.go:602-669 | the lock after `enterPrecommit` is backed by the polka and every earlier precommit is still remembered |
| `CoreSteps.EnterPrecommitOk` | bftcore.go:588-670 | `enterPrecommit` keeps the invariant, never panics and rests in precommit-fetch of the same round |
| `CoreSteps.RecordBacked` | bftcore.go:714-730 | the record handed to the application carries a quorum of accepted precommits for its data |
| `CoreSteps.EnterCommitOk` | bftcore.go:695-739 | at a precommit majority the node commits exactly its data and starts the next height, without a panic |
| `CoreSteps.RecordBase` | bftcore.go:821-827 | recording a precommit, or refusing any vote, keeps the invariant |
| `CoreSteps.RecordPrevoteBase` | bftcore.go:834-848 | after a prevote is recorded, releasing an overruled lock restores the lock invariant |
| `CoreSteps.UnlockRemembers` | bftcore.go:840-848 | a released lock is remembered through an accepted polka against it |
| `CoreSteps.SettlesInNewRound` | bftcore.go:864-866 | a round skip leaves no votes of two thirds ahead of the node |
| `CoreSteps.AfterPrevoteOk` | bftcore.go:830-881 | every branch after an added prevote restores the invariant and commits nothing; which branch is taken is `CoreActions.PrevoteActs` |
| `CoreSteps.CommitChain` | bftcore.go:887-891 | the three calls at a precommit majority of any round end in exactly one commit, of its data |
| `CoreSteps.AnyPrecommitsOk` | bftcore.go:895-897 | more than two thirds of any precommits move the node to that round and to precommit-wait |
| `CoreHandlers.AfterPrecommitOk` | bftcore.go:883-898 | an added precommit commits if and only if it completes a majority, and restores the invariant; what else it does is `CoreActions.PrecommitMajorityActs` and `CoreActions.PrecommitSplitActs` |
| `CoreHandlers.ProposalOk` | bftcore.go:907-949 | any proposal message keeps the invariant; which proposal is taken is `CoreActions.ProposalActs` |
| `CoreHandlers.StragglerOk` | bftcore.go:763-786 | a late precommit for the last height keeps the invariant, with or without skipping the commit timeout |
| `CoreHandlers.HandleVoteOk` | bftcore.go:760-905 | any vote keeps the invariant and at most commits its own data; only a verified vote of this height is accepted |
| `CoreHandlers.HandleVotesOk` | bftcore.go:264-268 | a list of votes keeps the invariant and panics exactly on a missing vote |
| `CoreHandlers.TimeoutExact` | bftcore.go:335-339 | a scheduled timeout that passes the filter is for exactly the current height, round and step |
| `CoreHandlers.CurrentTimeoutOk` | bftcore.go:341-367 | a timeout for the current step moves the node on or schedules the same fetch step again |
| `CoreHandlers.FetchOk` | bftcore.go:471-490 | a fetch timeout finds its vote set and schedules itself again |
| `CoreHandlers.PrecommitCallIsNoOp` | bftcore.go:360-362 | the `enterPrecommit` call on a precommit-wait timeout does nothing |
| `CoreHandlers.NilPolkaKeepsLock` | bftcore.go:602-634 | when the prevotes for nil of the round have a quorum and at most a third of the power votes twice, no majority is reported, the node keeps its lock and precommits nil |
| `CoreHandlers.RequestedSetExists` | bftcore.go:303-309 | the vote set a request of the node's height asks for exists exactly if its round is not negative |
| `CoreHandlers.HandleOk` | bftcore.go:239-367 | every message and timeout keeps the invariant; it panics exactly for the messages named at `CoreRuns.PanicsExactly` |
| `CoreActions.EnterPrevoteActs` | bftcore.go:492-567 | exactly one prevote is signed: for the locked data, without a lock for proposed data that the application approves, else for nil |
| `CoreActions.RefusedDataGetsNil` | bftcore.go:558-564 | an unlocked node whose application refuses the proposed data prevotes nil |
| `CoreActions.EnterNewRoundActs` | bftcore.go:378-469 | a proposal is signed exactly if the node is the round's proposer, for the locked data or else the decided data; the node prevotes at once exactly if it then holds a proposal or a lock |
| `CoreActions.EnterPrecommitActs` | bftcore.go:588-670 | exactly one precommit is signed: for the polka's data, which is locked, if the node is locked on it or has its proposal; else for nil, keeping the lock without a polka and releasing it at one |
| `CoreActions.NewHeightTimeoutActs` | bftcore.go:346-349 | the timeout of a new height starts round 0 |
| `CoreActions.ProposeTimeoutActs` | bftcore.go:352-353 | without a proposal in time the node prevotes by its rule |
| `CoreActions.PrevoteWaitTimeoutActs` | bftcore.go:356-357 | when the wait for prevotes ends the node precommits by its rule |
| `CoreActions.PrecommitWaitTimeoutActs` | bftcore.go:360-362 | when the wait for precommits ends the node starts exactly the next round |
| `CoreActions.FetchTimeoutActs` | bftcore.go:354-359 | a fetch timeout changes nothing but schedules itself again |
| `CoreActions.ProposalActs` | bftcore.go:907-949 | a proposal is held from then on exactly if none was held, it is of the node's round and base, from the proposer, verified and accepted; a node that has not prevoted prevotes at once; any other changes nothing |
| `CoreActions.NewProposal` | bftcore.go:940-943 | whatever vote arrives, a newly held proposal is the one received, from the proposer and accepted, or the node's own as proposer |
| `CoreActions.AddedIsNew` | vote_set.go:105-146 | a vote is added exactly if it is of the node's height and base, within the watermark, verified and not held |
| `CoreActions.AcceptsExactly` | bftcore.go:248-254 | validators accept exactly the votes new to them, other nodes none |
| `CoreActions.PrevoteActs` | bftcore.go:830-881 | what an added prevote does to lock, proposal and step: release, discard, round skip, precommit, wait, prevote, or nothing |
| `CoreActions.PrevotesLeadOn` | bftcore.go:867-873 | two thirds of any prevotes in the node's round leave it at prevote-wait or later, a polka at precommit-fetch or later, with the timeout of the step scheduled |
| `CoreActions.PrevotesSkip` | bftcore.go:864-866 | two thirds of any prevotes of a later round take the node to that round |
| `CoreActions.PrecommitMajorityActs` | bftcore.go:887-894 | a precommit majority takes the node to its round, lets it precommit there, is committed, and starts the next height, whose round 0 begins at once exactly if the timeout may be skipped and all have voted |
| `CoreActions.PrecommitSplitActs` | bftcore.go:895-898 | without a majority, two thirds of any precommits of this or a later round take the node to that round and to precommit-wait; fewer or earlier ones do nothing |
| `CoreActions.PrecommitsLeadOn` | bftcore.go:895-897 | a split of precommits leaves the node in their round at precommit-wait with the timeout scheduled that starts the next one |
| `CoreActions.StragglerActs` | bftcore.go:763-786 | a late precommit is kept with the last commit, and round 0 begins at once exactly if the timeout may be skipped and all have voted; other votes of the last height change nothing |
| `CoreActions.OtherVoteActs` | bftcore.go:802-827 | votes of other heights, other kinds or beyond the watermark change nothing, refused ones at most the tracked rounds |
| `CoreFetching.VoteKeeps` | bftcore.go:760-905 | after any vote the node has committed, with the broadcast flag set unless a commit was received, or holds all it held and the vote if it fits |
| `CoreFetching.VotesKeep` | bftcore.go:264-268 | after any list of votes the node has committed or holds all it held and every fitting vote of the list |
| `CoreFetching.VotesInTurn` | bftcore.go:326-328 | a list is handled as its beginning and then its rest |
| `CoreFetching.OneVote` | bftcore.go:326-328 | a list of one vote is handled as that vote |
| `CoreFetching.QuorumLeaves` | bftcore.go:264-268 | a list whose verified precommits complete a quorum with those held takes the node to the next height, whatever else is in it |
| `CoreFetching.ResponseGains` | bftcore.go:317-330 | in either fetch step a well-formed response of the node's height makes it commit, or hold every fitting vote of the response |
| `CoreFetching.ResponseLeaves` | bftcore.go:317-330 | a response that completes a quorum of precommits takes the node to the next height |
| `CoreFetching.ResponseCommits` | bftcore.go:317-330 | a response with the precommits that complete a quorum for data makes the node commit exactly that data |
| `CoreFetching.OtherResponse` | bftcore.go:317-325 | a response that is not for the node changes nothing |
| `CoreFetching.CommitGains` | bftcore.go:255-268 | a commit of the node's height is committed on without sending the certificate out again, or remembered and its fitting votes held |
| `CoreFetching.OtherCommit` | bftcore.go:257-264 | a commit of another height or one that is not well formed changes nothing |
| `CoreFetching.RequestAsks` | bftcore.go:471-486 | what a fetching node sends names the voters of exactly the vote set it waits on |
| `CoreFetching.AnswerHas` | bftcore.go:303-309 | a request of the responder's height and a round it has been through is answered with exactly its votes of the voters not named |
| `CoreFetching.PastAnswer` | bftcore.go:290-301 | a request for a past height is answered exactly if the application kept the commit, with all its precommits |
| `CoreFetching.NoAnswer` | bftcore.go:282-310 | malformed requests and requests for what is ahead of the node are not answered |
| `CoreFetching.FetchRoundTrip` | bftcore.go:471-490 | request, answer and response between two nodes: the asking node commits or ends up with every vote of the other's vote set whose voter it did not know |
| `CoreFetching.FetchCatchesUp` | bftcore.go:290-330 | a node that lags behind commits the certificate that a node of a later height answers its request with |
| `Ticker.NoLostTimer` | ticker.go:98-131 | in every run of a node with its ticker no tick is dropped, and a timeout for exactly the current step is queued, armed or in flight |
| `Ticker.TockIsExact` | bftcore.go:332-367 | every tock in flight is stale and ignored, or exact, and then it moves the node on or repeats a fetch step |
| `Ticker.LatestTickHeld` | ticker.go:101-121 | whatever ticks arrive, the ticker holds the latest one read and drops exactly the earlier or repeated ones, fetch steps excepted |
| `Ticker.NextTickAccepted` | ticker.go:101-113 | the next tick of a schedule in order passes the filter |
| `Ticker.ScheduleGrows` | ticker.go:115-131 | whenever the schedule grows, or a timeout for the current step is still outstanding, one stays outstanding |
| `Ticker.RunTimedInv` | ticker.go:93-136 | the invariant of a node with its ticker holds after every run |
| `Ticker.TimeoutTicker.constructor` | ticker.go:37-47 | a new ticker is idle |
| `Ticker.TimeoutTicker.OnTick` | ticker.go:98-122 | an accepted tick replaces the current one and arms the timer, a dropped one changes nothing |
| `Ticker.TimeoutTicker.OnTimer` | ticker.go:123-131 | the expired timer puts its timeout in flight and is no longer armed |
| `Tallies.TallyRefinement` | vote_set.go:105-194 | after any votes each counter is a recount: per-data sums, total, largest voter count, and a majority is reported exactly if data other than nil has a quorum, and then for good |
| `Tallies.AddKeepsRecount` | vote_set.go:160-194 | one `AddVote` keeps every counter equal to a recount |
| `Tallies.VerdictExactly` | vote_set.go:105-146 | which votes are added, and which of base, position and signature each refusal is for |
| `Tallies.AddedThenRepeated` | vote_set.go:122-128 | an added vote is refused as a duplicate afterwards, and with another signature as non-deterministic |
| `Tallies.TotalIsPower` | vote_set.go:184-246 | the total is at least the power of all voters, and exactly that if nobody votes twice; then `HasAll` tells whether everybody has voted |
| `Tallies.MajorityIsStable` | vote_set.go:177-183 | a reported majority is never replaced, and a new one is for the vote just added |
| `Tallies.MajorityIsAny` | vote_set.go:233-240 | a majority for one data is more than two thirds of any |
| `Tallies.HeldAfter` | vote_set.go:105-146 | what is held after any votes is what was held before and what the valid votes among them offer |
| `Tallies.OrderIndependence` | vote_set.go:233-260 | order and repetition of votes change neither query, the majority provided that at most a third of the power equivocates |
| `Tallies.TwoMajoritiesEquivocate` | vote_set.go:177-183 | two data with a quorum take more than a third of the power to equivocate |
| `Tallies.FetchReconciles` | vote_set.go:315-353 | the requester accepts every vote of a response that it gets and then knows exactly the voters of both sides, equivocators included; the length checks are in `FetchVotes.FetchExactly` |
| `FetchVotes.FetchExactly` | message/message.go:379-397 | with the checks of request and response the requester ends up with exactly the voters of both sides if and only if it missed none, or it stores at most 21 votes and misses at most 21 |
| `FetchVotes.ResponseLength` | vote_set.go:338-344 | the length of a response is the number of entries the requester misses, an equivocator counted once for each data |
| `FetchVotes.OverlongRequest` | vote_set.go:315-329 | 22 or more votes of one validator make the request too long: it is refused, and the one vote the requester misses does not arrive |
| `Tallies.NilQuorumIsSilent` | vote_set.go:250-260 | a quorum for nil is more than two thirds of any, and no majority is reported unless more than a third of the power votes twice |
| `Tallies.CertificateIsSound` | vote_set.go:303-313 | a certificate of the majority has verified signers of quorum power, the height and round of its vote set, and passes `ValidateBasic` once signed |
| `Tallies.AllSigned` | vote_set.go:382-388 | a certificate is not empty and signed by every voter for its data |
| `VoteSets.VoteSet.constructor` | vote_set.go:42-55 | a new vote set is empty and its counters are a recount |
| `VoteSets.VoteSet.AddVote` | vote_set.go:94-146 | a vote is added exactly if base and position fit, it is not held and it verifies; each refusal has its own error and changes nothing; counters stay a recount for totals below 2^62, no majority ever appears for larger ones but the largest |
| `VoteSets.VoteSet.AddVerifiedVote` | vote_set.go:160-194 | the new counters are those of the int64 threshold for every total, which are those of unbounded arithmetic below 2^62; from there to the last total but one no majority is ever reported |
| `VoteSets.AddedExactly` | vote_set.go:170-183 | the int64 threshold adds a vote as the unbounded one does below 2^62, and reports no majority from there to the last total but one |
| `VoteSets.VoteSet.HasTwoThirdsAny` | vote_set.go:233-240 | the int64 test tells whether the sum is strictly more than two thirds of the total below 2^62, and is true of any power for larger totals |
| `VoteSets.VoteSet.MakeCommit` | vote_set.go:303-313 | lists each voter for the majority once, and is well formed under any signature |
| `VoteSets.VoteSet.GetAllVotes` | vote_set.go:382-388 | each stored vote for the data exactly once |
| `VoteSets.VoteSet.MakeFetchVotesReq` | vote_set.go:315-329 | names exactly the voters of the set, and has as many entries as votes are stored, an equivocator once for each data |
| `VoteSets.VoterList` | vote_set.go:316-321 | the loops list exactly the voters, once for each data they voted for |
| `VoteSets.VoteSet.MakeFetchVotesRsp` | vote_set.go:331-353 | each stored vote of a voter not named, exactly once, and nothing else |
| `VoteSets.Response` | vote_set.go:331-344 | exactly the stored votes of voters the request does not name, without repetition |
| `VoteSets.Respond` | vote_set.go:338-344 | the loops collect exactly the stored votes of unknown voters, without repetition |
| `HeightVotes.AddVoteInOk` | height_vote_set.go:106-120 | adding a vote keeps every vote set in its place with its counters recounted |
| `HeightVotes.AddVoteInElsewhere` | height_vote_set.go:106-120 | only the vote set of the vote's kind and round answers differently |
| `HeightVotes.AddVoteInHere` | height_vote_set.go:112-119 | a majority of that vote set stays, or appears for the vote's data; a refused vote changes no answer |
| `HeightVotes.AddVoteInStored` | height_vote_set.go:106-120 | all stored votes were accepted |
| `HeightVotes.SetRoundOk` | height_vote_set.go:76-89 | `SetRound` tracks exactly the rounds up to the new one in addition |
| `HeightVotes.SetRoundMaj` | height_vote_set.go:76-89 | `SetRound` changes no reported majority of any round |
| `HeightVotes.SetRoundAny` | height_vote_set.go:76-89 | `SetRound` changes no answer about two thirds of any votes |
| `HeightVotes.MajorityIsPolka` | height_vote_set.go:122-126 | a reported prevote majority is a polka among the accepted votes |
| `HeightVotes.PolRoundMeaning` | height_vote_set.go:134-147 | `POLInfo` is the greatest round with a reported majority, or -1 if there is none |
| `HeightVoteSets.HeightVoteSet.constructor` | height_vote_set.go:44-48 | tracks round zero only, without votes |
| `HeightVoteSets.HeightVoteSet.Reset` | height_vote_set.go:50-61 | whatever was tracked, the result is a new height vote set |
| `HeightVoteSets.HeightVoteSet.AddRound` | height_vote_set.go:91-102 | tracks one more round without votes and leaves the others alone |
| `HeightVoteSets.HeightVoteSet.SetRound` | height_vote_set.go:76-89 | the loop tracks all rounds up to the new one; rounds tracked before keep their votes |
| `HeightVoteSets.HeightVoteSet.AddVote` | height_vote_set.go:106-120 | verdict and error are those of the vote's own vote set; an unknown round is tracked from then on |
| `HeightVoteSets.HeightVoteSet.POLInfo` | height_vote_set.go:136-147 | the downward loop finds the last round with a majority and its data, or -1 and nil when no round has one |
| `Committees.QuorumIsLeast` | vote_set.go:172-178 | the quorum is the least strict two-thirds majority, and reaching it is the test of `HasTwoThirdsAny` |
| `Committees.QuorumInt64Exact` | vote_set.go:172-172 | the int64 quorum is the least two-thirds majority if and only if the total is below 2^62 |
| `Committees.QuorumInt64Overflow` | vote_set.go:172-183 | for larger totals the threshold is at most zero, so that no sum crosses it, or one at the very last |
| `Committees.QuorumIntersection` | vote_set.go:172-178 | two quorums share more than a third of the power |
| `Messages.ValidateBasic` | message/message.go:266-320 | accepts a commit exactly if it is well formed: present entries are precommits for one height, round, base and data from distinct addresses |
| `Messages.FirstPrecommit` | message/message.go:211-223 | the first present entry, an empty precommit if all are missing, none if there are no entries |
| `Messages.WellFormedPositions` | message/message.go:225-239 | all present entries of a well-formed commit are at its own height and round |
| `Cores.Core.constructor` | bftcore.go:76-102 | the state of a started node |
| `Cores.Core.Receive` | bftcore.go:214-280 | one iteration of the receive loop is the transition of its input; from the invariant it keeps the invariant, panics exactly for the messages of `CoreRuns.PanicsExactly`, and sends exactly the requests and responses the input calls for |
| `Cores.Core.HandleFetch` | bftcore.go:282-315 | panics exactly at a nil vote set or a missing vote of the history; otherwise answers with the commit of a past height or exactly the votes the request does not name, signed |
| `Cores.Core.HandleCommit` | bftcore.go:255-268 | the votes of a certificate are fed in if and only if it is well formed and not of a past height; the invariant is kept, and it panics exactly on a missing vote |
| `Cores.Core.HandleFetchRsp` | bftcore.go:317-330 | the votes are fed in if and only if the node is fetching at that height and the response is well formed; the invariant is kept, and it panics exactly on a missing vote |
| `Cores.Core.AddVotes` | bftcore.go:326-328 | the loop is the fold of the vote handler over the list, stopping at a missing vote |
| `Cores.Core.HandleTimeout` | bftcore.go:332-367 | a stale timeout changes nothing, others are the transition of their step; a scheduled timeout keeps the invariant and never panics |
| `Cores.Core.BeginStep` | bftcore.go:346-353 | the timeout transitions before a prevote, whose effect is `CoreHandlers.CurrentTimeoutOk` |
| `Cores.Core.EndWait` | bftcore.go:356-362 | the timeout transitions of the waiting steps, whose effect is `CoreHandlers.CurrentTimeoutOk` |
| `Cores.Core.FetchMissingVotes` | bftcore.go:471-490 | outside the fetch steps nothing changes and nothing is sent; in them the signed request names the voters of the vote set waited on, and the same timeout is scheduled again |
| `Cores.Core.AddVote` | bftcore.go:760-905 | the whole new state after any vote; from the invariant it keeps the invariant, never panics and at most commits the vote's own data |
| `Cores.Core.AddStraggler` | bftcore.go:763-786 | the whole new state after a vote of the last height; what it is for every case is `CoreActions.StragglerActs` |
| `Cores.Core.AfterPrevote` | bftcore.go:830-881 | the whole new state after an added prevote; what it is for every case is `CoreActions.PrevoteActs` |
| `Cores.Core.Reconsider` | bftcore.go:834-861 | a polka of a later round than the lock's for other data releases the lock, one of the node's round discards a proposal for other data, and nothing else changes |
| `Cores.Core.AfterPrecommit` | bftcore.go:883-898 | the whole new state after an added precommit; without a majority two thirds of any of this or a later round lead to precommit-wait in that round, and anything else to nothing |
| `Cores.Core.DefaultSetProposal` | bftcore.go:907-949 | the proposal is held exactly if none was, and it is of this round and base, from the proposer, verified and accepted; otherwise nothing changes |
| `Cores.Core.EnterNewRound` | bftcore.go:378-405 | the whole new state; what is signed and where the node rests is `CoreActions.EnterNewRoundActs` |
| `Cores.Core.EnterPropose` | bftcore.go:421-457 | the whole new state with the deferred update; who proposes what is `CoreActions.EnterNewRoundActs` |
| `Cores.Core.DoPropose` | bftcore.go:459-469 | the proposal signed and held; for which data is `CoreActions.EnterNewRoundActs` |
| `Cores.Core.EnterPrevote` | bftcore.go:492-506 | the whole new state; what is signed is `CoreActions.EnterPrevoteActs` |
| `Cores.Core.DoPrevote` | bftcore.go:546-567 | one prevote is signed: for the locked data, without a lock for proposed data that the application approves, else for nil |
| `Cores.Core.EnterPrevoteWait` | bftcore.go:569-586 | the whole new state with the deferred update, see `CoreSteps.EnterPrevoteWaitOk` |
| `Cores.Core.EnterPrecommit` | bftcore.go:588-600 | the whole new state with the deferred updates; what is signed and locked is `CoreActions.EnterPrecommitActs` |
| `Cores.Core.DoPrecommit` | bftcore.go:602-669 | at most one precommit is signed, for nil or for the data of this round's polka, on which the node is then locked; the lock is kept in `CoreSteps.DoPrecommitOk` |
| `Cores.Core.EnterPrecommitWait` | bftcore.go:672-693 | the whole new state with the deferred update, see `CoreSteps.EnterPrecommitWaitOk` |
| `Cores.Core.EnterCommit` | bftcore.go:695-712 | the whole new state; at a precommit majority exactly its data is committed and the invariant holds at the next height |
| `Cores.Core.DoCommit` | bftcore.go:714-739 | the record handed over, broadcast only if no commit was received, and the state of the next height |
| `Cores.Core.UpdateToAppState` | bftcore.go:168-209 | the fresh state of the next height with the precommits kept from the last, or the panic it takes |
| `Cores.Core.SignAddVote` | bftcore.go:522-530 | a validator's vote is signed and journalled with all it had accepted, a non-validator's is not |

## Left out

- `Safety.Agreement`: covers one run of each node; `Start` after `Stop` resets round and lock without a log (bftcore.go:92-94).
- Liveness: the README of gobft says that the network can halt; only timers are shown never to be lost, and a committee of one to commit.
- `state_sync.go`: height catch-up is deprecated and its only call is commented out (bftcore.go:788-800).
- Signing, digests and the codec: replaced by the signature oracle; a digest appears only where it dereferences a missing vote.
- Panics outside the receive loop: in the application, in `RecvMsg` on a nil message and in `GetLastCommit` without a last commit.
- Channels, goroutines, mutexes, peers, broadcast and logging: messages arrive in any order, any number of times or never, so a full message queue is a lost message; ticks are first in, first out.
- Durations, `StartTime`, `CommitTime` and timestamps: time does not pass in the model, timers may fire at any moment.
- `inFetch`: a flag that nothing reads.
- Int64 overflow of the vote sums and of a round plus the watermark: sums and rounds are unbounded.
- Object identity: vote sets inside a height vote set and inside `Core` are values, so that sharing between `LastCommit` and the vote sets of the old height is not captured; the vote sets inside `Core` use the unbounded quorum that `VoteSets.VoteSet.AddVerifiedVote` equates with the int64 one.
- `MinorQuorum`, `conflictingVotes`, `sumTotalFrac`, `WeightedMedian`: unused by the protocol; the field behind `MinorQuorum` is updated as in the code and nothing is claimed about it.
