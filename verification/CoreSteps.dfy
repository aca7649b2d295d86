/** Each `enterX` function and each handler of the core keeps the invariant of the node. */
module CoreSteps {
  import opened Messages
  import opened Committees
  import opened Tallies
  import opened HeightVotes
  import opened CoreSpec
  import opened CoreInvariant

  /** After a commit the application reports exactly what was committed. */
  ghost predicate AppContract(ans: Answers) {
    forall h, d :: ans.afterCommit(h, d) == Some(AppState(h, d))
  }

  ghost predicate AppReplies(rep: Replies) {
    forall i :: AppContract(rep(i))
  }

  /** What every nested call keeps apart from the fields it is about. */
  ghost predicate Moves(e: Env, c: State, n: State) {
    && Base(e, n) && AtRest(n)
    && Grows(c.journal, n.journal)
    && n.journal.accepted == c.journal.accepted
    && n.panicked == c.panicked
    && !Before(Position(n), Position(c))
  }

  /** The call stayed at its height and committed nothing. */
  ghost predicate SameHeight(c: State, n: State) {
    && n.height == c.height && n.journal.commits == c.journal.commits
    && n.lastCommittedData == c.lastCommittedData
    && n.lastCommit == c.lastCommit
    && n.hasRecvCommitRecords == c.hasRecvCommitRecords
  }

  /** A change of state inside a handler that signs, accepts and commits nothing. */
  ghost predicate Silent(c: State, m: State) {
    && m.journal == c.journal && m.panicked == c.panicked && !Before(Position(m), Position(c))
  }

  lemma SilentThenMoves(e: Env, c: State, m: State, n: State)
    requires Silent(c, m) && Moves(e, m, n)
    ensures Moves(e, c, n)
  {
    BeforeTrans(Position(c), Position(m), Position(n));
  }

  lemma MovesTwice(e: Env, c: State, m: State, n: State)
    requires Moves(e, c, m) && Moves(e, m, n)
    ensures Moves(e, c, n)
  {
    BeforeTrans(Position(c), Position(m), Position(n));
  }

  // ---- prevote ------------------------------------------------------------------------

  lemma LockedPolka(e: Env, c: State)
    requires Base(e, c) && c.lockedRound >= 0
    ensures Polka(CommitteeOf(e, c), c.journal.accepted, c.height, c.lockedRound, c.lockedProposal.value.proposed)
  {
    MajorityIsPolka(CommitteeOf(e, c), c.votes, c.journal.accepted, c.lockedRound);
  }

  /** The data a node may prevote now: what it is locked on, or approved data, or nil. */
  ghost predicate MayPrevote(c: State, approved: set<(int, ProposedData)>, d: ProposedData) {
    if c.lockedRound >= 0 && c.lockedProposal.Some? then d == c.lockedProposal.value.proposed
    else d == NIL || (c.height, d) in approved
  }

  lemma PrevoteIsSafe(e: Env, c: State, j: Journal, d: ProposedData)
    requires Base(e, c) && j.sent == c.journal.sent && j.accepted == c.journal.accepted
    requires MayPrevote(c, j.approved, d)
    ensures SafeToSend(e, j, Sign(e, NewVote(PrevoteType, c.height, c.round, d, c.lastCommittedData)))
  {
    var v := Sign(e, NewVote(PrevoteType, c.height, c.round, d, c.lastCommittedData));
    if c.lockedRound >= 0 {
      LockedPolka(e, c);
      assert SeenPolka(CommitteeOf(e, c), j.accepted, c.height, d);
    }
    forall i | 0 <= i < |j.sent| ensures Respects(e, j.sent[i].vote, Sent(v, j.accepted)) {
      var w := c.journal.sent[i].vote;
      if w.kind == PrecommitType && w.height == c.height && w.proposed != NIL && w.proposed != d {
        assert !LockedOn(c.lockedRound, c.lockedProposal, w);
      }
    }
  }

  /** Signing a vote of the current round, or not being a validator, then moving to its step. */
  lemma SignOk(e: Env, c: State, v: Vote)
    requires VotingPart(e, c.journal, c.height, c.lastCommittedData, c.lockedRound, c.lockedProposal, Position(c))
    requires SafeToSend(e, c.journal, Sign(e, v)) && Before(Position(c), VotePosition(v))
    requires v.height == c.height && v.prev == c.lastCommittedData && v.round >= 0
    requires v.kind == PrecommitType && v.proposed != NIL ==> LockedOn(c.lockedRound, c.lockedProposal, v)
    ensures var n := SignAddVote(e, c, v);
      && n == c.(journal := c.journal.(sent := n.journal.sent)) && c.journal.sent <= n.journal.sent
      && VotingPart(e, n.journal, c.height, c.lastCommittedData, c.lockedRound, c.lockedProposal, VotePosition(v))
  {
    if IsValidator(e, c.height) {
      VotingSends(e, c.journal, Sign(e, v), c.height, c.lastCommittedData, c.lockedRound, c.lockedProposal, Position(c));
    } else {
      VotingMoves(e, c.journal, c.journal, c.height, c.lastCommittedData, c.lockedRound, c.lockedProposal,
                  Position(c), VotePosition(v));
    }
  }

  lemma SignPrevote(e: Env, c: State, d: ProposedData)
    requires Base(e, c) && c.step < PREVOTE && MayPrevote(c, c.journal.approved, d)
    ensures var n := SignAddVote(e, c, NewVote(PrevoteType, c.height, c.round, d, c.lastCommittedData));
      && n == c.(journal := c.journal.(sent := n.journal.sent)) && c.journal.sent <= n.journal.sent
      && VotingPart(e, n.journal, c.height, c.lastCommittedData, c.lockedRound, c.lockedProposal,
                    Timeout(c.height, c.round, PREVOTE))
  {
    PrevoteIsSafe(e, c, c.journal, d);
    SignOk(e, c, NewVote(PrevoteType, c.height, c.round, d, c.lastCommittedData));
  }

  lemma ApproveOk(e: Env, c: State, d: ProposedData)
    requires Base(e, c)
    ensures Base(e, Approve(c, d))
  {
    VotingMoves(e, c.journal, Approve(c, d).journal, c.height, c.lastCommittedData, c.lockedRound, c.lockedProposal,
                Position(c), Position(c));
  }

  lemma DoPrevoteOk(e: Env, ans: Answers, c: State)
    requires Base(e, c) && c.step < PREVOTE
    ensures var n := DoPrevote(e, ans, c);
      && n == c.(journal := c.journal.(sent := n.journal.sent, approved := n.journal.approved))
      && c.journal.sent <= n.journal.sent && c.journal.approved <= n.journal.approved
      && VotingPart(e, n.journal, c.height, c.lastCommittedData, c.lockedRound, c.lockedProposal,
                    Timeout(c.height, c.round, PREVOTE))
  {
    if c.lockedRound >= 0 && c.lockedProposal.Some? {
      SignPrevote(e, c, c.lockedProposal.value.proposed);
    } else if c.proposal.Some? && ans.validate(c.height, c.proposal.value.proposed) {
      var d := c.proposal.value.proposed;
      ApproveOk(e, c, d);
      SignPrevote(e, Approve(c, d), d);
    } else {
      SignPrevote(e, c, NIL);
    }
  }

  /** A later step of the round with its timeout scheduled: the parts that changed make up the
      invariant again. */
  lemma AdvanceOk(e: Env, c: State, n: State, from: Timeout, j: Journal)
    requires Base(e, c) && c.step < n.step < COMMIT && IsResting(n.step)
    requires n == c.(step := n.step, lockedRound := n.lockedRound, lockedProposal := n.lockedProposal,
                     journal := j.(ticks := c.journal.ticks + [Position(n)]))
    requires j == c.journal.(sent := j.sent, approved := j.approved)
    requires c.journal.sent <= j.sent && c.journal.approved <= j.approved
    requires VotingPart(e, j, c.height, c.lastCommittedData, n.lockedRound, n.lockedProposal, from)
    requires !Before(Position(n), from)
    requires LockPart(n.votes, n.round, n.step, n.lockedRound, n.lockedProposal)
    requires ProposalPart(e, n.proposal, n.lockedProposal, n.height, n.round, n.lastCommittedData)
    ensures Moves(e, c, n) && SameHeight(c, n)
  {
    VotingMoves(e, j, n.journal, c.height, c.lastCommittedData, n.lockedRound, n.lockedProposal, from, Position(n));
    ScheduleKeeps(c.journal.ticks, Position(c), Position(n));
  }

  lemma EnterPrevoteOk(e: Env, ans: Answers, c: State)
    requires Base(e, c) && c.step < PREVOTE
    ensures var n := EnterPrevote(e, ans, c, c.height, c.round);
      && Moves(e, c, n) && SameHeight(c, n)
      && n == c.(step := PREVOTE_FETCH, journal := n.journal)
  {
    DoPrevoteOk(e, ans, c);
    AdvanceOk(e, c, EnterPrevote(e, ans, c, c.height, c.round), Timeout(c.height, c.round, PREVOTE),
              DoPrevote(e, ans, c).journal);
  }

  // ---- waiting steps ------------------------------------------------------------------

  /** Moving to a later step of the round and scheduling its timeout. */
  lemma WaitOk(e: Env, c: State, n: State, step: int)
    requires Base(e, c) && c.step < step < COMMIT && IsResting(step)
    requires n == c.(step := step, journal := c.journal.(ticks := c.journal.ticks + [Timeout(c.height, c.round, step)]))
    ensures Moves(e, c, n) && SameHeight(c, n)
  {
    AdvanceOk(e, c, n, Position(c), c.journal);
  }

  lemma EnterPrevoteWaitOk(e: Env, c: State)
    requires Base(e, c) && c.step < PREVOTE_WAIT && AnyAt(CommitteeOf(e, c), c.votes, PrevoteType, c.round)
    ensures var n := EnterPrevoteWait(e, c, c.height, c.round);
      && Moves(e, c, n) && SameHeight(c, n) && n == c.(step := PREVOTE_WAIT, journal := n.journal)
  {
    WaitOk(e, c, EnterPrevoteWait(e, c, c.height, c.round), PREVOTE_WAIT);
  }

  lemma EnterPrecommitWaitOk(e: Env, c: State)
    requires Base(e, c) && c.step < PRECOMMIT_WAIT && AnyAt(CommitteeOf(e, c), c.votes, PrecommitType, c.round)
    ensures var n := EnterPrecommitWait(e, c, c.height, c.round);
      && Moves(e, c, n) && SameHeight(c, n) && n == c.(step := PRECOMMIT_WAIT, journal := n.journal)
  {
    WaitOk(e, c, EnterPrecommitWait(e, c, c.height, c.round), PRECOMMIT_WAIT);
  }

  // ---- propose ------------------------------------------------------------------------

  /** The state of `enterPropose` once its deferred step update is done. */
  ghost function Proposed(e: Env, ans: Answers, c: State): State {
    var c1 := Schedule(c, c.height, c.round, PROPOSE);
    var c2 := if IsValidator(e, c1.height) && ans.proposer(c1.height, c1.round) == e.self
              then DoPropose(e, ans, c1, c.height, c.round) else c1;
    UpdateRoundStep(c2, c.round, PROPOSE)
  }

  lemma ProposalIsSafe(e: Env, j: Journal, v: Vote)
    requires v.kind == ProposalType
    ensures SafeToSend(e, j, Sign(e, v))
  {
  }

  /** The proposal is signed when the timeout is scheduled already. */
  lemma ProposedJournal(e: Env, ans: Answers, c: State)
    requires VotingPart(e, c.journal, c.height, c.lastCommittedData, c.lockedRound, c.lockedProposal, Position(c))
    requires c.step == NEW_ROUND && c.round >= 0
    ensures var n := Proposed(e, ans, c);
      && n == c.(step := PROPOSE, proposal := n.proposal, journal := n.journal)
      && n.journal == c.journal.(sent := n.journal.sent, ticks := c.journal.ticks + [Position(n)])
      && c.journal.sent <= n.journal.sent
      && VotingPart(e, n.journal, c.height, c.lastCommittedData, c.lockedRound, c.lockedProposal,
                    Timeout(c.height, c.round, PROPOSE))
  {
    var pos := Timeout(c.height, c.round, PROPOSE);
    var c1 := Schedule(c, c.height, c.round, PROPOSE);
    var data := if c.lockedRound > -1 && c.lockedProposal.Some? then c.lockedProposal.value.proposed else ans.decide(c.height);
    var v := NewVote(ProposalType, c.height, c.round, data, c.lastCommittedData);
    VotingMoves(e, c.journal, c1.journal, c.height, c.lastCommittedData, c.lockedRound, c.lockedProposal, Position(c), Position(c));
    VotingMoves(e, c1.journal, c1.journal, c.height, c.lastCommittedData, c.lockedRound, c.lockedProposal, Position(c), pos);
    ProposalIsSafe(e, c1.journal, v);
    SignOk(e, c1, v);
  }

  lemma ProposedOk(e: Env, ans: Answers, c: State, n: State)
    requires Base(e, c) && c.step == NEW_ROUND && n == Proposed(e, ans, c)
    ensures Moves(e, c, n) && SameHeight(c, n)
    ensures n == c.(step := PROPOSE, proposal := n.proposal, journal := n.journal)
  {
    ProposedJournal(e, ans, c);
    ScheduleKeeps(c.journal.ticks, Position(c), Position(n));
  }

  lemma EnterProposeOk(e: Env, ans: Answers, c: State)
    requires Base(e, c) && c.step == NEW_ROUND
    ensures var n := EnterPropose(e, ans, c, c.height, c.round);
      && Moves(e, c, n) && SameHeight(c, n)
      && n == c.(step := n.step, proposal := n.proposal, journal := n.journal)
      && n.step in {PROPOSE, PREVOTE_FETCH}
  {
    var m := Proposed(e, ans, c);
    ProposedOk(e, ans, c, m);
    if m.proposal.Some? || m.lockedRound >= 0 {
      EnterPrevoteOk(e, ans, m);
      MovesTwice(e, c, m, EnterPrevote(e, ans, m, c.height, c.round));
    }
  }

  /** The guard of `enterNewRound` lets the call through. */
  ghost predicate StartsRound(c: State, round: int) {
    round > c.round || (round == c.round && c.step == NEW_HEIGHT)
  }

  /** The state of `enterNewRound` when it calls `enterPropose`. */
  ghost function RoundSetUp(c: State, round: int): State {
    UpdateRoundStep(c, round, NEW_ROUND).(
      proposal := if round == 0 then c.proposal else None, votes := SetRound(c.votes, round + 1))
  }

  lemma SetRoundLock(c: State, round: int)
    requires LockPart(c.votes, c.round, c.step, c.lockedRound, c.lockedProposal) && StartsRound(c, round)
    ensures LockPart(SetRound(c.votes, round + 1), round, NEW_ROUND, c.lockedRound, c.lockedProposal)
  {
    SetRoundMaj(c.votes, round + 1);
  }

  lemma RoundSetUpBase(e: Env, c: State, round: int)
    requires Base(e, c) && StartsRound(c, round)
    ensures Base(e, RoundSetUp(c, round)) && Silent(c, RoundSetUp(c, round))
    ensures !SetRoundPanics(c.votes, round + 1)
  {
    var n := RoundSetUp(c, round);
    SetRoundOk(CommitteeOf(e, c), c.votes, round + 1);
    SetRoundStored(c.votes, round + 1, c.journal.accepted);
    SetRoundLock(c, round);
    VotingMoves(e, c.journal, c.journal, c.height, c.lastCommittedData, c.lockedRound, c.lockedProposal, Position(c), Position(n));
    MoveTicks(c.journal.ticks, Position(c), Position(n));
  }

  lemma EnterNewRoundUnfolds(e: Env, ans: Answers, c: State, round: int)
    requires StartsRound(c, round) && !SetRoundPanics(c.votes, round + 1)
    ensures EnterNewRound(e, ans, c, c.height, round) == EnterPropose(e, ans, RoundSetUp(c, round), c.height, round)
  {
  }

  lemma EnterNewRoundOk(e: Env, ans: Answers, c: State, round: int)
    requires Base(e, c) && StartsRound(c, round)
    ensures var n := EnterNewRound(e, ans, c, c.height, round);
      && Moves(e, c, n) && SameHeight(c, n)
      && n.round == round && n.step in {PROPOSE, PREVOTE_FETCH}
      && n.votes == SetRound(c.votes, round + 1)
  {
    var m := RoundSetUp(c, round);
    RoundSetUpBase(e, c, round);
    EnterNewRoundUnfolds(e, ans, c, round);
    EnterProposeOk(e, ans, m);
    SilentThenMoves(e, c, m, EnterPropose(e, ans, m, c.height, round));
  }

  /** Every vote signed between two journals is for `d` in a round. */
  ghost predicate OnlyFor(before: Journal, after: Journal, round: int, d: ProposedData) {
    forall i :: |before.sent| <= i < |after.sent| ==>
      after.sent[i].vote.round == round && after.sent[i].vote.proposed == d
  }

  lemma LockedPrevote(e: Env, ans: Answers, m: State, n: State)
    requires m.lockedRound >= 0 && m.lockedProposal.Some? && m.step < PREVOTE
    requires n == EnterPrevote(e, ans, m, m.height, m.round)
    ensures m.journal.sent <= n.journal.sent && OnlyFor(m.journal, n.journal, m.round, m.lockedProposal.value.proposed)
    ensures |n.journal.sent| == |m.journal.sent| + (if IsValidator(e, m.height) then 1 else 0)
    ensures n.step == PREVOTE_FETCH && n.lockedRound == m.lockedRound && n.lockedProposal == m.lockedProposal
  {
  }

  lemma LockedProposed(e: Env, ans: Answers, c: State)
    requires c.lockedRound >= 0 && c.lockedProposal.Some?
    ensures var m := Proposed(e, ans, c);
      && c.journal.sent <= m.journal.sent && OnlyFor(c.journal, m.journal, c.round, c.lockedProposal.value.proposed)
  {
  }

  /** A locked node that starts a round prevotes at once, and whatever it signs on the way, its own
      proposal included, is for the locked data; the lock stays. */
  lemma LockedNodeRepeatsLock(e: Env, ans: Answers, c: State, round: int)
    requires Base(e, c) && StartsRound(c, round) && c.lockedRound >= 0
    ensures var n := EnterNewRound(e, ans, c, c.height, round);
      && n.step == PREVOTE_FETCH && n.lockedRound == c.lockedRound && n.lockedProposal == c.lockedProposal
      && OnlyFor(c.journal, n.journal, round, c.lockedProposal.value.proposed)
      && (IsValidator(e, c.height) ==> |n.journal.sent| > |c.journal.sent|)
  {
    RoundSetUpBase(e, c, round);
    EnterNewRoundUnfolds(e, ans, c, round);
    LockedPropose(e, ans, RoundSetUp(c, round), EnterNewRound(e, ans, c, c.height, round));
  }

  lemma LockedPropose(e: Env, ans: Answers, c: State, n: State)
    requires c.lockedRound >= 0 && c.lockedProposal.Some? && c.step == NEW_ROUND
    requires n == EnterPropose(e, ans, c, c.height, c.round)
    ensures n.step == PREVOTE_FETCH && n.lockedRound == c.lockedRound && n.lockedProposal == c.lockedProposal
    ensures OnlyFor(c.journal, n.journal, c.round, c.lockedProposal.value.proposed)
    ensures IsValidator(e, c.height) ==> |n.journal.sent| > |c.journal.sent|
  {
    var m := Proposed(e, ans, c);
    LockedProposed(e, ans, c);
    LockedPrevote(e, ans, m, n);
    forall i | |c.journal.sent| <= i < |n.journal.sent|
      ensures n.journal.sent[i].vote.round == c.round && n.journal.sent[i].vote.proposed == c.lockedProposal.value.proposed
    {
      if i < |m.journal.sent| {
        assert n.journal.sent[i] == m.journal.sent[i];
      }
    }
  }

  // ---- precommit ----------------------------------------------------------------------

  ghost predicate NoPolkaAhead(hv: Votes, round: int) {
    forall r :: r > round ==> MajAt(hv, PrevoteType, r) == NIL
  }

  lemma NoneAheadNoPolka(k: Committee, hv: Votes, round: int)
    requires VotesOk(k, hv) && NoneAhead(k, hv, round, NOWHERE) && round >= 0
    ensures NoPolkaAhead(hv, round)
  {
    forall r | r > round ensures MajAt(hv, PrevoteType, r) == NIL {
      if MajAt(hv, PrevoteType, r) != NIL {
        MajImpliesAny(k, hv, PrevoteType, r);
      }
    }
  }

  /** The "should never happen" case of `enterPrecommit`: at a polka of the current round a node
      that has not precommitted yet is unlocked or locked on the very data of the polka; and
      `POLInfo` finds the current round. */
  lemma NeverLockedOnOther(e: Env, c: State)
    requires Base(e, c) && c.step < PRECOMMIT && NoPolkaAhead(c.votes, c.round)
    requires MajAt(c.votes, PrevoteType, c.round) != NIL
    ensures c.lockedRound >= 0 ==>
      c.lockedProposal.Some? && c.lockedProposal.value.proposed == MajAt(c.votes, PrevoteType, c.round)
    ensures PolRound(c.votes, c.votes.round) == c.round
  {
    PolRoundIs(c.votes, c.round, c.votes.round);
  }

  lemma PrecommitIsSafe(e: Env, j: Journal, v: Vote)
    requires OwnVote(e, v) && v.kind == PrecommitType
    requires v.proposed != NIL ==> Polka(e.committee(v.height), j.accepted, v.height, v.round, v.proposed)
    ensures SafeToSend(e, j, v)
  {
  }

  lemma PrecommitSend(e: Env, c: State, d: ProposedData)
    requires VotesPart(CommitteeOf(e, c), c.votes, c.height, c.lastCommittedData, c.journal.accepted)
    requires VotingPart(e, c.journal, c.height, c.lastCommittedData, c.lockedRound, c.lockedProposal, Position(c))
    requires c.step < PRECOMMIT && c.round >= 0
    requires d != NIL ==>
      && d == MajAt(c.votes, PrevoteType, c.round) && c.lockedRound == c.round
      && c.lockedProposal.Some? && c.lockedProposal.value.proposed == d
    ensures var n := SignAddVote(e, c, NewVote(PrecommitType, c.height, c.round, d, c.lastCommittedData));
      && n == c.(journal := c.journal.(sent := n.journal.sent)) && c.journal.sent <= n.journal.sent
      && VotingPart(e, n.journal, c.height, c.lastCommittedData, c.lockedRound, c.lockedProposal,
                    Timeout(c.height, c.round, PRECOMMIT))
  {
    var v := NewVote(PrecommitType, c.height, c.round, d, c.lastCommittedData);
    if d != NIL {
      MajorityIsPolka(CommitteeOf(e, c), c.votes, c.journal.accepted, c.round);
    }
    PrecommitIsSafe(e, c.journal, Sign(e, v));
    SignOk(e, c, v);
  }

  /** The lock after `enterPrecommit`: the polka's data if it is locked or proposed, else none. */
  ghost function NextLock(c: State): (int, Option<Vote>) {
    var polka := MajAt(c.votes, PrevoteType, c.round);
    if polka == NIL then (c.lockedRound, c.lockedProposal)
    else if c.lockedRound >= 0 then (c.round, c.lockedProposal)
    else if c.proposal.Some? && c.proposal.value.proposed == polka then (c.round, c.proposal)
    else (-1, None)
  }

  ghost function NextPrecommit(c: State): ProposedData {
    if MajAt(c.votes, PrevoteType, c.round) != NIL && NextLock(c).0 >= 0
    then MajAt(c.votes, PrevoteType, c.round) else NIL
  }

  /** What `NeverLockedOnOther` promises about a polka of the current round. */
  ghost predicate PolkaIsCurrent(c: State) {
    var polka := MajAt(c.votes, PrevoteType, c.round);
    polka != NIL ==>
      && (c.lockedRound >= 0 ==> c.lockedProposal.Some? && c.lockedProposal.value.proposed == polka)
      && PolRound(c.votes, c.votes.round) == c.round
  }

  lemma DoPrecommitUnfolds(e: Env, c: State)
    requires PolkaIsCurrent(c) && c.round >= 0
    ensures DoPrecommit(e, c, c.height, c.round) ==
      SignAddVote(e, c.(lockedRound := NextLock(c).0, lockedProposal := NextLock(c).1),
        NewVote(PrecommitType, c.height, c.round, NextPrecommit(c), c.lastCommittedData))
  {
  }

  lemma NextLockRemembered(e: Env, c: State)
    requires VotesPart(CommitteeOf(e, c), c.votes, c.height, c.lastCommittedData, c.journal.accepted)
    requires LockPart(c.votes, c.round, c.step, c.lockedRound, c.lockedProposal) && c.step < PRECOMMIT && PolkaIsCurrent(c)
    requires VotingPart(e, c.journal, c.height, c.lastCommittedData, c.lockedRound, c.lockedProposal, Position(c))
    ensures VotingPart(e, c.journal, c.height, c.lastCommittedData, NextLock(c).0, NextLock(c).1, Position(c))
  {
    var polka := MajAt(c.votes, PrevoteType, c.round);
    if polka != NIL {
      MajorityIsPolka(CommitteeOf(e, c), c.votes, c.journal.accepted, c.round);
      RelockRemembers(e, c.journal, c.height, c.lockedRound, c.lockedProposal, NextLock(c).0, NextLock(c).1, c.round, polka);
    }
  }

  lemma NextLockPart(c: State)
    requires LockPart(c.votes, c.round, c.step, c.lockedRound, c.lockedProposal) && c.step < PRECOMMIT
    requires NoPolkaAhead(c.votes, c.round) && PolkaIsCurrent(c) && c.round >= 0
    ensures LockPart(c.votes, c.round, PRECOMMIT_FETCH, NextLock(c).0, NextLock(c).1)
    ensures NextPrecommit(c) != NIL ==>
      && NextLock(c).0 == c.round && NextLock(c).1.Some? && NextLock(c).1.value.proposed == NextPrecommit(c)
  {
  }

  lemma PolkaCurrent(e: Env, c: State)
    requires Base(e, c) && c.step < PRECOMMIT && NoPolkaAhead(c.votes, c.round)
    ensures PolkaIsCurrent(c)
  {
    if MajAt(c.votes, PrevoteType, c.round) != NIL {
      NeverLockedOnOther(e, c);
    }
  }

  /** The state of `enterPrecommit` with its new lock, before it signs. */
  ghost function Relocked(c: State): State {
    c.(lockedRound := NextLock(c).0, lockedProposal := NextLock(c).1)
  }

  lemma DoPrecommitOk(e: Env, c: State)
    requires Base(e, c) && c.step < PRECOMMIT && NoPolkaAhead(c.votes, c.round)
    ensures var n := DoPrecommit(e, c, c.height, c.round);
      && n == Relocked(c).(journal := c.journal.(sent := n.journal.sent))
      && c.journal.sent <= n.journal.sent
      && VotingPart(e, n.journal, c.height, c.lastCommittedData, n.lockedRound, n.lockedProposal,
                    Timeout(c.height, c.round, PRECOMMIT))
      && LockPart(c.votes, c.round, PRECOMMIT_FETCH, n.lockedRound, n.lockedProposal)
  {
    PolkaCurrent(e, c);
    DoPrecommitUnfolds(e, c);
    NextLockRemembered(e, c);
    NextLockPart(c);
    PrecommitSend(e, Relocked(c), NextPrecommit(c));
  }

  lemma NextLockProposal(e: Env, c: State)
    requires ProposalPart(e, c.proposal, c.lockedProposal, c.height, c.round, c.lastCommittedData)
    ensures ProposalPart(e, c.proposal, NextLock(c).1, c.height, c.round, c.lastCommittedData)
  {
  }

  lemma EnterPrecommitUnfolds(e: Env, c: State, m: State)
    requires c.step < PRECOMMIT && m == DoPrecommit(e, c, c.height, c.round) && m.height == c.height
    ensures EnterPrecommit(e, c, c.height, c.round) ==
      Schedule(UpdateRoundStep(m, c.round, PRECOMMIT_FETCH), c.height, c.round, PRECOMMIT_FETCH)
  {
  }

  lemma EnterPrecommitOk(e: Env, c: State)
    requires Base(e, c) && c.step < PRECOMMIT && NoPolkaAhead(c.votes, c.round)
    ensures var n := EnterPrecommit(e, c, c.height, c.round);
      && Moves(e, c, n) && SameHeight(c, n)
      && n.round == c.round && n.step == PRECOMMIT_FETCH && n.votes == c.votes
  {
    var m := DoPrecommit(e, c, c.height, c.round);
    DoPrecommitOk(e, c);
    NextLockProposal(e, c);
    EnterPrecommitUnfolds(e, c, m);
    AdvanceOk(e, c, EnterPrecommit(e, c, c.height, c.round), Timeout(c.height, c.round, PRECOMMIT), m.journal);
  }

  // ---- commit -------------------------------------------------------------------------

  /** The record `MakeCommit` yields for a precommit set with a majority. */
  ghost function RecordOf(c: State, round: int, t: Tally): CommitRecord {
    CommitRecord(c.height, round, t.maj23, t.base, VotesFor(t, t.maj23).votes, !c.hasRecvCommitRecords)
  }

  lemma RecordBacked(e: Env, c: State, round: int, t: Tally)
    requires VotesPart(CommitteeOf(e, c), c.votes, c.height, c.lastCommittedData, c.journal.accepted)
    requires TallyAt(c.votes, PrecommitType, round) == Some(t) && t.maj23 != NIL
    ensures CommitBacked(e, RecordOf(c, round, t), c.journal.accepted)
    ensures VotesFor(t, t.maj23).votes != map[]
    ensures LastCommitPart(e, Some(t), c.height + 1, t.maj23)
  {
    assert TallyOk(CommitteeOf(e, c), c.votes, PrecommitType, round, t);
    assert DataOk(CommitteeOf(e, c), t, t.maj23);
    forall a | a in VotesFor(t, t.maj23).votes
      ensures Fits(CommitteeOf(e, c), t, t.maj23, a, VotesFor(t, t.maj23).votes[a])
      ensures VotesFor(t, t.maj23).votes[a] in c.journal.accepted
    {
      assert Holds(t, t.maj23, a);
    }
  }

  lemma CommitsKeep(e: Env, c: State, rec: CommitRecord)
    requires CommitsPart(e, c.journal.commits, c.journal.accepted)
    requires CommitBacked(e, rec, c.journal.accepted)
    ensures CommitsPart(e, c.journal.commits + [rec], c.journal.accepted)
  {
  }

  lemma ChainKeeps(start: AppState, commits: seq<CommitRecord>, height: int, last: ProposedData, rec: CommitRecord)
    requires ChainPart(start, commits, height, last) && rec.height == height && rec.prev == last
    ensures ChainPart(start, commits + [rec], height + 1, rec.data)
  {
    var all := commits + [rec];
    forall i | 0 <= i < |all| ensures Linked(start, all, i) {
      assert i < |commits| ==> Linked(start, commits, i);
    }
  }

  /** The first state of the next height, after `rec` was committed. */
  ghost function NextHeight(c: State, rec: CommitRecord, t: Tally): State {
    State(c.height + 1, 0, NEW_HEIGHT, None, -1, None, NewVotes(c.height + 1, rec.data), -1, Some(t), rec.data,
      false, c.panicked,
      c.journal.(commits := c.journal.commits + [rec],
                 ticks := c.journal.ticks + [Timeout(c.height + 1, 0, NEW_HEIGHT)]))
  }

  lemma NextHeightVotes(e: Env, n: State)
    requires n.round == 0 && n.step == NEW_HEIGHT && n.proposal == None && n.lockedRound == -1 && n.lockedProposal == None
    requires n.votes == NewVotes(n.height, n.lastCommittedData)
    ensures VotesPart(CommitteeOf(e, n), n.votes, n.height, n.lastCommittedData, n.journal.accepted)
    ensures RoundsPart(n.votes.round, n.votes.rounds.Keys, n.round, n.step)
    ensures LockPart(n.votes, n.round, n.step, n.lockedRound, n.lockedProposal)
    ensures ProposalPart(e, n.proposal, n.lockedProposal, n.height, n.round, n.lastCommittedData)
  {
    NewVotesOk(CommitteeOf(e, n), n.height, n.lastCommittedData);
    NewVotesStored(n.height, n.lastCommittedData, n.journal.accepted);
  }

  lemma NextHeightVoting(e: Env, j: Journal, n: Journal, base: ProposedData, lockedRound: int, lockedProposal: Option<Vote>,
                         pos: Timeout, next: Timeout, data: ProposedData)
    requires VotingPart(e, j, pos.height, base, lockedRound, lockedProposal, pos)
    requires next == Timeout(pos.height + 1, 0, NEW_HEIGHT) && n == j.(commits := n.commits, ticks := n.ticks)
    ensures VotingPart(e, n, next.height, data, -1, None, next)
  {
    NothingRemembered(e, n, pos.height, pos, next.height);
    MoveSent(j.sent, pos, next);
    DisciplineMono(e, j, n);
  }

  lemma NextHeightBase(e: Env, c: State, rec: CommitRecord, t: Tally, n: State)
    requires Base(e, c) && n == NextHeight(c, rec, t)
    requires CommitsPart(e, c.journal.commits + [rec], c.journal.accepted)
    requires ChainPart(c.journal.start, c.journal.commits + [rec], c.height + 1, rec.data)
    requires LastCommitPart(e, Some(t), c.height + 1, rec.data)
    ensures Base(e, n) && AtRest(n)
  {
    NextHeightVotes(e, n);
    NextHeightVoting(e, c.journal, n.journal, c.lastCommittedData, c.lockedRound, c.lockedProposal,
                     Position(c), Position(n), rec.data);
    ScheduleKeeps(c.journal.ticks, Position(c), Position(n));
  }

  /** Nothing was signed at a height that has not begun. */
  lemma NothingRemembered(e: Env, j: Journal, height: int, pos: Timeout, next: int)
    requires SentBehind(j.sent, pos) && pos.height == height && next > height
    ensures LockRemembered(e, j, next, -1, None)
  {
    forall i | 0 <= i < |j.sent| ensures j.sent[i].vote.height < next {
      assert !Before(pos, VotePosition(j.sent[i].vote));
    }
  }

  /** The state after a commit of the majority of `t` at `round`. */
  ghost function Committed(c: State, round: int, t: Tally): State {
    NextHeight(c, RecordOf(c, round, t), t)
  }

  lemma EnterCommitUnfolds(ans: Answers, c: State, round: int, t: Tally)
    requires AppContract(ans) && round >= 0 && 0 <= c.height && c.step < COMMIT
    requires TallyAt(c.votes, PrecommitType, round) == Some(t) && t.maj23 != NIL && VotesFor(t, t.maj23).votes != map[]
    ensures EnterCommit(ans, c, c.height, round) == Committed(c, round, t)
  {
    assert ans.afterCommit(c.height, t.maj23) == Some(AppState(c.height, t.maj23));
  }

  lemma NextHeightMoves(e: Env, c: State, rec: CommitRecord, t: Tally)
    requires Base(e, NextHeight(c, rec, t)) && AtRest(NextHeight(c, rec, t))
    ensures Moves(e, c, NextHeight(c, rec, t))
  {
  }

  lemma CommitParts(e: Env, c: State, round: int, t: Tally)
    requires VotesPart(CommitteeOf(e, c), c.votes, c.height, c.lastCommittedData, c.journal.accepted)
    requires CommitsPart(e, c.journal.commits, c.journal.accepted)
    requires ChainPart(c.journal.start, c.journal.commits, c.height, c.lastCommittedData)
    requires TallyAt(c.votes, PrecommitType, round) == Some(t) && t.maj23 != NIL
    ensures CommitsPart(e, c.journal.commits + [RecordOf(c, round, t)], c.journal.accepted)
    ensures ChainPart(c.journal.start, c.journal.commits + [RecordOf(c, round, t)], c.height + 1, t.maj23)
    ensures LastCommitPart(e, Some(t), c.height + 1, RecordOf(c, round, t).data)
    ensures VotesFor(t, t.maj23).votes != map[]
  {
    RecordBacked(e, c, round, t);
    CommitsKeep(e, c, RecordOf(c, round, t));
    assert TallyOk(CommitteeOf(e, c), c.votes, PrecommitType, round, t);
    ChainKeeps(c.journal.start, c.journal.commits, c.height, c.lastCommittedData, RecordOf(c, round, t));
  }

  lemma CommittedOk(e: Env, c: State, round: int, t: Tally)
    requires Base(e, c) && TallyAt(c.votes, PrecommitType, round) == Some(t) && t.maj23 != NIL
    ensures Moves(e, c, Committed(c, round, t))
    ensures VotesFor(t, t.maj23).votes != map[]
  {
    CommitParts(e, c, round, t);
    NextHeightBase(e, c, RecordOf(c, round, t), t, Committed(c, round, t));
    NextHeightMoves(e, c, RecordOf(c, round, t), t);
  }

  /** `enterCommit` at a reported majority commits exactly its data and moves to the next height. */
  lemma EnterCommitOk(e: Env, ans: Answers, c: State, round: int, t: Tally)
    requires Base(e, c) && AppContract(ans) && round >= 0
    requires TallyAt(c.votes, PrecommitType, round) == Some(t) && t.maj23 != NIL
    ensures Moves(e, c, Committed(c, round, t))
    ensures EnterCommit(ans, c, c.height, round) == Committed(c, round, t)
  {
    CommittedOk(e, c, round, t);
    EnterCommitUnfolds(ans, c, round, t);
  }

  // ---- recording a vote ---------------------------------------------------------------

  /** A vote `addVote` hands to the vote sets. */
  ghost predicate Relevant(c: State, v: Vote) {
    v.height == c.height && Collected(v.kind) && 0 <= v.round <= c.round + WATERMARK
  }

  lemma RecordVotes(e: Env, c: State, v: Vote)
    requires VotesPart(CommitteeOf(e, c), c.votes, c.height, c.lastCommittedData, c.journal.accepted) && Relevant(c, v)
    ensures var n := Record(e, c, v);
      VotesPart(CommitteeOf(e, n), n.votes, n.height, n.lastCommittedData, n.journal.accepted)
  {
    AddVoteInOk(CommitteeOf(e, c), c.votes, v);
    AddVoteInShape(CommitteeOf(e, c), c.votes, v);
    AddVoteInStored(CommitteeOf(e, c), c.votes, v, c.journal.accepted);
  }

  lemma RecordRounds(e: Env, c: State, v: Vote)
    requires RoundsPart(c.votes.round, c.votes.rounds.Keys, c.round, c.step) && Relevant(c, v)
    ensures var n := Record(e, c, v); RoundsPart(n.votes.round, n.votes.rounds.Keys, n.round, n.step)
  {
    AddVoteInShape(CommitteeOf(e, c), c.votes, v);
  }

  /** Recording keeps everything in the journal. */
  lemma AcceptKeeps(e: Env, c: State, n: Journal)
    requires Base(e, c) && c.journal.accepted <= n.accepted && n == c.journal.(accepted := n.accepted)
    ensures VotingPart(e, n, c.height, c.lastCommittedData, c.lockedRound, c.lockedProposal, Position(c))
    ensures CommitsPart(e, n.commits, n.accepted)
    ensures Grows(c.journal, n)
  {
    VotingMoves(e, c.journal, n, c.height, c.lastCommittedData, c.lockedRound, c.lockedProposal, Position(c), Position(c));
  }

  lemma RecordLock(e: Env, c: State, v: Vote)
    requires LockPart(c.votes, c.round, c.step, c.lockedRound, c.lockedProposal) && Relevant(c, v)
    requires v.kind == PrecommitType || JudgeIn(CommitteeOf(e, c), c.votes, v) != Added
    ensures LockPart(AddVoteIn(CommitteeOf(e, c), c.votes, v), c.round, c.step, c.lockedRound, c.lockedProposal)
  {
    var n := AddVoteIn(CommitteeOf(e, c), c.votes, v);
    AddVoteInHere(CommitteeOf(e, c), c.votes, v);
    AddVoteInElsewhere(CommitteeOf(e, c), c.votes, v);
    assert forall r :: MajAt(n, PrevoteType, r) == MajAt(c.votes, PrevoteType, r);
  }

  /** A vote that is not a prevote changes nothing the lock depends on, and neither does one
      that is refused. */
  lemma RecordBase(e: Env, c: State, v: Vote)
    requires Base(e, c) && Relevant(c, v)
    requires v.kind == PrecommitType || JudgeIn(CommitteeOf(e, c), c.votes, v) != Added
    ensures Base(e, Record(e, c, v))
  {
    var n := Record(e, c, v);
    RecordVotes(e, c, v);
    RecordRounds(e, c, v);
    RecordLock(e, c, v);
    AcceptKeeps(e, c, n.journal);
    RebuildBase(e, c, n);
  }

  lemma PrevoteLockPart(e: Env, c: State, v: Vote)
    requires LockPart(c.votes, c.round, c.step, c.lockedRound, c.lockedProposal)
    requires Relevant(c, v) && v.kind == PrevoteType
    ensures var n := UnlockOnPolka(Record(e, c, v), v);
      LockPart(n.votes, n.round, n.step, n.lockedRound, n.lockedProposal)
  {
    var m := Record(e, c, v);
    var n := UnlockOnPolka(m, v);
    AddVoteInHere(CommitteeOf(e, c), c.votes, v);
    AddVoteInElsewhere(CommitteeOf(e, c), c.votes, v);
    if n.lockedRound >= 0 {
      var d := n.lockedProposal.value.proposed;
      forall r | r > n.lockedRound ensures MajAt(n.votes, PrevoteType, r) in {NIL, d} {
        if r != v.round {
          assert MajAt(m.votes, PrevoteType, r) == MajAt(c.votes, PrevoteType, r);
        }
      }
    }
  }

  lemma RebuildBase(e: Env, c: State, n: State)
    requires Base(e, c)
    requires n == c.(votes := n.votes, lockedRound := n.lockedRound, lockedProposal := n.lockedProposal,
                     journal := c.journal.(accepted := n.journal.accepted))
    requires n.lockedProposal.Some? ==> n.lockedProposal == c.lockedProposal
    requires VotesPart(CommitteeOf(e, n), n.votes, n.height, n.lastCommittedData, n.journal.accepted)
    requires RoundsPart(n.votes.round, n.votes.rounds.Keys, n.round, n.step)
    requires LockPart(n.votes, n.round, n.step, n.lockedRound, n.lockedProposal)
    requires VotingPart(e, n.journal, n.height, n.lastCommittedData, n.lockedRound, n.lockedProposal, Position(n))
    requires CommitsPart(e, n.journal.commits, n.journal.accepted)
    ensures Base(e, n)
  {
  }

  lemma UnlockRemembers(e: Env, m: State, v: Vote)
    requires VotesPart(CommitteeOf(e, m), m.votes, m.height, m.lastCommittedData, m.journal.accepted)
    requires VotingPart(e, m.journal, m.height, m.lastCommittedData, m.lockedRound, m.lockedProposal, Position(m))
    ensures var n := UnlockOnPolka(m, v);
      VotingPart(e, n.journal, n.height, n.lastCommittedData, n.lockedRound, n.lockedProposal, Position(n))
  {
    var n := UnlockOnPolka(m, v);
    if n.lockedProposal != m.lockedProposal {
      var polka := MajAt(m.votes, PrevoteType, v.round);
      MajorityIsPolka(CommitteeOf(e, m), m.votes, m.journal.accepted, v.round);
      RelockRemembers(e, m.journal, m.height, m.lockedRound, m.lockedProposal, -1, None, v.round, polka);
    }
  }

  /** After a prevote is recorded and a lock it overrules released, the lock is in order again. */
  lemma RecordPrevoteBase(e: Env, c: State, v: Vote)
    requires Base(e, c) && Relevant(c, v) && v.kind == PrevoteType
    ensures Base(e, UnlockOnPolka(Record(e, c, v), v))
  {
    var m := Record(e, c, v);
    RecordVotes(e, c, v);
    RecordRounds(e, c, v);
    AcceptKeeps(e, c, m.journal);
    PrevoteLockPart(e, c, v);
    UnlockRemembers(e, m, v);
    RebuildBase(e, c, UnlockOnPolka(m, v));
  }

  lemma RecordAhead(e: Env, c: State, v: Vote)
    requires NoneAhead(CommitteeOf(e, c), c.votes, c.round, NOWHERE) && NoCommitted(c.votes, -1) && Relevant(c, v)
    requires c.round >= 0 && -1 !in c.votes.rounds
    ensures var n := Record(e, c, v);
      && NoneAhead(CommitteeOf(e, n), n.votes, n.round, (v.kind, v.round))
      && NoCommitted(n.votes, if v.kind == PrecommitType then v.round else -1)
      && MajAt(n.votes, PrecommitType, v.round) in {NIL, v.proposed}
  {
    AddVoteInHere(CommitteeOf(e, c), c.votes, v);
    AddVoteInElsewhere(CommitteeOf(e, c), c.votes, v);
    assert MajAt(c.votes, PrecommitType, v.round) == NIL;
  }

  lemma RefusedAhead(e: Env, c: State, v: Vote)
    requires NoneAhead(CommitteeOf(e, c), c.votes, c.round, NOWHERE) && NoCommitted(c.votes, -1) && Relevant(c, v)
    requires JudgeIn(CommitteeOf(e, c), c.votes, v) != Added
    ensures var n := Record(e, c, v);
      NoneAhead(CommitteeOf(e, n), n.votes, n.round, NOWHERE) && NoCommitted(n.votes, -1)
  {
    var n := Record(e, c, v);
    AddVoteInHere(CommitteeOf(e, c), c.votes, v);
    AddVoteInElsewhere(CommitteeOf(e, c), c.votes, v);
    assert forall kind, r :: MajAt(n.votes, kind, r) == MajAt(c.votes, kind, r);
    assert forall kind, r :: AnyAt(CommitteeOf(e, c), n.votes, kind, r) == AnyAt(CommitteeOf(e, c), c.votes, kind, r);
  }

  // ---- addVote ------------------------------------------------------------------------

  /** Handling a prevote stays at its height. */
  ghost predicate Settles(e: Env, c: State, n: State) {
    Moves(e, c, n) && SameHeight(c, n) && Inv(e, n)
  }

  lemma SettlesInNewRound(e: Env, ans: Answers, c: State, round: int, kind: VoteType)
    requires Base(e, c) && StartsRound(c, round)
    requires NoneAhead(CommitteeOf(e, c), c.votes, c.round, (kind, round)) && NoCommitted(c.votes, -1)
    ensures Settles(e, c, EnterNewRound(e, ans, c, c.height, round))
  {
    EnterNewRoundOk(e, ans, c, round);
    SetRoundAhead(CommitteeOf(e, c), c.votes, c.round, round, kind);
  }

  lemma SetRoundAhead(k: Committee, hv: Votes, before: int, round: int, kind: VoteType)
    requires NoneAhead(k, hv, before, (kind, round)) && NoCommitted(hv, -1) && before <= round
    ensures NoneAhead(k, SetRound(hv, round + 1), round, NOWHERE) && NoCommitted(SetRound(hv, round + 1), -1)
  {
    SetRoundMaj(hv, round + 1);
    SetRoundAny(k, hv, round + 1);
  }

  /** The state `addVote` branches on after a prevote was recorded. */
  ghost function Reconsidered(c: State, v: Vote): State {
    DropProposal(UnlockOnPolka(c, v), v)
  }

  lemma DropKeeps(e: Env, c: State, v: Vote)
    requires Base(e, c)
    ensures Base(e, DropProposal(c, v)) && Silent(c, DropProposal(c, v)) && SameHeight(c, DropProposal(c, v))
  {
    if DropProposal(c, v) != c {
      WithoutProposal(e, c, DropProposal(c, v));
    }
  }

  lemma WithoutProposal(e: Env, c: State, n: State)
    requires Base(e, c) && n == c.(proposal := None)
    ensures Base(e, n)
  {
    assert Position(n) == Position(c) && CommitteeOf(e, n) == CommitteeOf(e, c);
    assert ProposalPart(e, n.proposal, n.lockedProposal, n.height, n.round, n.lastCommittedData);
  }

  lemma StaysPut(e: Env, m: State)
    requires Base(e, m) && AtRest(m)
    ensures Moves(e, m, m) && SameHeight(m, m)
  {
  }

  /** A node at rest that does nothing more. */
  lemma SettlesHere(e: Env, m: State)
    requires Base(e, m) && AtRest(m) && NoneAhead(CommitteeOf(e, m), m.votes, m.round, NOWHERE) && NoCommitted(m.votes, -1)
    ensures Settles(e, m, m)
  {
    StaysPut(e, m);
  }

  /** A move within the round that leaves the votes alone. */
  lemma SettlesInRound(e: Env, m: State, n: State)
    requires NoneAhead(CommitteeOf(e, m), m.votes, m.round, NOWHERE) && NoCommitted(m.votes, -1)
    requires Moves(e, m, n) && SameHeight(m, n) && n.round == m.round && n.votes == m.votes
    ensures Settles(e, m, n)
  {
  }

  /** The branches of `addVote` for a prevote of the current round. */
  lemma CurrentRoundOk(e: Env, m: State, n: State)
    requires Base(e, m) && AtRest(m) && NoneAhead(CommitteeOf(e, m), m.votes, m.round, NOWHERE) && NoCommitted(m.votes, -1)
    requires n == if MajAt(m.votes, PrevoteType, m.round) != NIL then EnterPrecommit(e, m, m.height, m.round)
      else if AnyAt(CommitteeOf(e, m), m.votes, PrevoteType, m.round) then EnterPrevoteWait(e, m, m.height, m.round)
      else m
    ensures Settles(e, m, n)
  {
    if MajAt(m.votes, PrevoteType, m.round) != NIL && m.step < PRECOMMIT {
      NoneAheadNoPolka(CommitteeOf(e, m), m.votes, m.round);
      EnterPrecommitOk(e, m);
      SettlesInRound(e, m, n);
    } else if MajAt(m.votes, PrevoteType, m.round) == NIL && AnyAt(CommitteeOf(e, m), m.votes, PrevoteType, m.round)
      && m.step < PREVOTE_WAIT {
      EnterPrevoteWaitOk(e, m);
      SettlesInRound(e, m, n);
    } else {
      SettlesHere(e, m);
    }
  }

  lemma LatePrevoteOk(e: Env, ans: Answers, m: State, n: State)
    requires Base(e, m) && AtRest(m) && NoneAhead(CommitteeOf(e, m), m.votes, m.round, NOWHERE) && NoCommitted(m.votes, -1)
    requires n == if PREVOTE > m.step && m.proposal.Some? then EnterPrevote(e, ans, m, m.height, m.round) else m
    ensures Settles(e, m, n)
  {
    if PREVOTE > m.step && m.proposal.Some? {
      EnterPrevoteOk(e, ans, m);
      SettlesInRound(e, m, n);
    } else {
      SettlesHere(e, m);
    }
  }

  lemma AfterPrevoteOk(e: Env, ans: Answers, c: State, v: Vote)
    requires var m := Reconsidered(c, v);
      && Base(e, m) && AtRest(m) && NoCommitted(m.votes, -1)
      && NoneAhead(CommitteeOf(e, m), m.votes, m.round, (PrevoteType, v.round))
    ensures Settles(e, Reconsidered(c, v), AfterPrevote(e, ans, c, v))
  {
    var m, n := Reconsidered(c, v), AfterPrevote(e, ans, c, v);
    if m.round < v.round && AnyAt(CommitteeOf(e, m), m.votes, PrevoteType, v.round) {
      SettlesInNewRound(e, ans, m, v.round, PrevoteType);
    } else {
      assert NoneAhead(CommitteeOf(e, m), m.votes, m.round, NOWHERE);
      if m.round == v.round && PREVOTE <= m.step {
        CurrentRoundOk(e, m, n);
      } else {
        LatePrevoteOk(e, ans, m, n);
      }
    }
  }

  // ---- precommits ---------------------------------------------------------------------

  /** A commit at the height of `c`, caused by a precommit for `d` in `round`. */
  ghost predicate Commits(c: State, n: State, round: int, d: ProposedData) {
    && n.height == c.height + 1
    && |n.journal.commits| == |c.journal.commits| + 1
    && var rec := n.journal.commits[|c.journal.commits|];
       rec.height == c.height && rec.round == round && rec.data == d
  }

  /** The round change before a commit leaves the majority where it is. */
  ghost predicate ReachesRound(e: Env, c: State, round: int, m: State) {
    && Moves(e, c, m) && SameHeight(c, m)
    && NoPolkaAhead(m.votes, m.round) && m.round >= round
    && (round in c.votes.rounds ==> TallyAt(m.votes, PrecommitType, round) == TallyAt(c.votes, PrecommitType, round))
  }

  lemma NewRoundReaches(e: Env, ans: Answers, c: State, round: int, m: State)
    requires Base(e, c) && StartsRound(c, round) && NoneAheadOf(CommitteeOf(e, c), c.votes, c.round)
    requires m == EnterNewRound(e, ans, c, c.height, round)
    ensures ReachesRound(e, c, round, m)
  {
    EnterNewRoundOk(e, ans, c, round);
    SetRoundMaj(c.votes, round + 1);
    PolkaAheadAfter(CommitteeOf(e, c), c.votes, c.round, round);
  }

  lemma StayReaches(e: Env, c: State, round: int)
    requires Base(e, c) && AtRest(c) && round <= c.round && NoneAheadOf(CommitteeOf(e, c), c.votes, c.round)
    ensures ReachesRound(e, c, round, c)
  {
    StaysPut(e, c);
    PolkaAheadAfter(CommitteeOf(e, c), c.votes, c.round, c.round);
  }

  lemma ToCommitRound(e: Env, ans: Answers, c: State, round: int, m: State)
    requires Base(e, c) && AtRest(c) && NoneAhead(CommitteeOf(e, c), c.votes, c.round, (PrecommitType, round))
    requires m == EnterNewRound(e, ans, c, c.height, round)
    ensures ReachesRound(e, c, round, m)
  {
    assert NoneAheadOf(CommitteeOf(e, c), c.votes, c.round);
    if StartsRound(c, round) {
      NewRoundReaches(e, ans, c, round, m);
    } else {
      StayReaches(e, c, round);
    }
  }

  ghost predicate NoneAheadOf(k: Committee, hv: Votes, round: int) {
    forall r :: r > round ==> !AnyAt(k, hv, PrevoteType, r)
  }

  lemma PolkaAheadAfter(k: Committee, hv: Votes, round: int, later: int)
    requires VotesOk(k, hv) && NoneAheadOf(k, hv, round) && later >= round
    ensures NoPolkaAhead(hv, later)
  {
    forall r | r > later ensures MajAt(hv, PrevoteType, r) == NIL {
      if MajAt(hv, PrevoteType, r) != NIL {
        MajImpliesAny(k, hv, PrevoteType, r);
      }
    }
  }

  lemma ThroughPrecommit(e: Env, c: State, round: int)
    requires Base(e, c) && AtRest(c) && NoPolkaAhead(c.votes, c.round) && c.round >= round
    ensures var m := EnterPrecommit(e, c, c.height, round);
      && Moves(e, c, m) && SameHeight(c, m) && m.votes == c.votes
  {
    if c.round == round && c.step < PRECOMMIT {
      EnterPrecommitOk(e, c);
    } else {
      StaysPut(e, c);
    }
  }

  /** The first two calls of `addVote` at a precommit majority leave it in place. */
  lemma BeforeCommit(e: Env, ans: Answers, c: State, round: int, t: Tally) returns (n: State)
    requires Base(e, c) && AtRest(c) && NoneAhead(CommitteeOf(e, c), c.votes, c.round, (PrecommitType, round))
    requires TallyAt(c.votes, PrecommitType, round) == Some(t)
    ensures n == EnterPrecommit(e, EnterNewRound(e, ans, c, c.height, round), c.height, round)
    ensures Moves(e, c, n) && SameHeight(c, n) && TallyAt(n.votes, PrecommitType, round) == Some(t)
  {
    var m := EnterNewRound(e, ans, c, c.height, round);
    n := EnterPrecommit(e, m, c.height, round);
    ToCommitRound(e, ans, c, round, m);
    ThroughPrecommit(e, m, round);
    MovesTwice(e, c, m, n);
  }

  lemma CommittedInv(e: Env, c: State, round: int, t: Tally, n: State)
    requires Moves(e, c, n) && n == Committed(c, round, t)
    ensures Commits(c, n, round, t.maj23) && Inv(e, n) && n.round == 0 && n.step == NEW_HEIGHT
  {
    FreshHeightInv(e, n);
  }

  /** The commit itself. */
  lemma ThenCommit(e: Env, ans: Answers, c: State, round: int, t: Tally) returns (n: State)
    requires Base(e, c) && AppContract(ans) && round >= 0
    requires TallyAt(c.votes, PrecommitType, round) == Some(t) && t.maj23 != NIL
    ensures n == EnterCommit(ans, c, c.height, round)
    ensures Moves(e, c, n) && Commits(c, n, round, t.maj23) && Inv(e, n) && n.round == 0 && n.step == NEW_HEIGHT
  {
    n := Committed(c, round, t);
    EnterCommitOk(e, ans, c, round, t);
    CommittedInv(e, c, round, t, n);
  }

  /** The three calls of `addVote` at a precommit majority end in a commit of its data. */
  lemma CommitChain(e: Env, ans: Answers, c: State, round: int, t: Tally)
    requires Base(e, c) && AtRest(c) && NoneAhead(CommitteeOf(e, c), c.votes, c.round, (PrecommitType, round))
    requires AppContract(ans) && round >= 0
    requires TallyAt(c.votes, PrecommitType, round) == Some(t) && t.maj23 != NIL
    ensures var n := EnterCommit(ans, EnterPrecommit(e, EnterNewRound(e, ans, c, c.height, round), c.height, round), c.height, round);
      && Moves(e, c, n) && Commits(c, n, round, t.maj23) && Inv(e, n)
      && n.round == 0 && n.step == NEW_HEIGHT
  {
    var m := BeforeCommit(e, ans, c, round, t);
    var n := ThenCommit(e, ans, m, round, t);
    MovesTwice(e, c, m, n);
  }

  lemma FreshHeightInv(e: Env, c: State)
    requires Base(e, c) && AtRest(c) && c.votes == NewVotes(c.height, c.lastCommittedData)
    ensures Inv(e, c)
  {
    NewVotesOk(CommitteeOf(e, c), c.height, c.lastCommittedData);
  }

  /** More than two thirds of any precommits of this or a later round. */
  lemma AnyPrecommitsOk(e: Env, ans: Answers, c: State, round: int)
    requires Base(e, c) && AtRest(c) && NoneAhead(CommitteeOf(e, c), c.votes, c.round, (PrecommitType, round))
    requires NoCommitted(c.votes, -1) && c.round <= round && AnyAt(CommitteeOf(e, c), c.votes, PrecommitType, round)
    ensures Settles(e, c, EnterPrecommitWait(e, EnterNewRound(e, ans, c, c.height, round), c.height, round))
  {
    var m := EnterNewRound(e, ans, c, c.height, round);
    if StartsRound(c, round) {
      SettlesInNewRound(e, ans, c, round, PrecommitType);
      EnterNewRoundOk(e, ans, c, round);
      SetRoundAny(CommitteeOf(e, c), c.votes, round + 1);
    } else {
      StaysPut(e, c);
    }
    if m.step < PRECOMMIT_WAIT {
      EnterPrecommitWaitOk(e, m);
      MovesTwice(e, c, m, EnterPrecommitWait(e, m, c.height, round));
    }
  }
}
