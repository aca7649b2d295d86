/** Every handler of the core keeps the invariant, whatever message or timeout it is given. */
module CoreHandlers {
  import opened Messages
  import opened Committees
  import opened Tallies
  import opened HeightVotes
  import opened CoreSpec
  import opened CoreInvariant
  import opened CoreSteps

  // ---- one vote -----------------------------------------------------------------------

  /** The outcome of handling one vote: the invariant again, a grown journal, no step back, and
      at most one commit, which is then of the vote's own data. */
  ghost predicate VoteHandled(e: Env, c: State, v: Vote, n: State) {
    && Inv(e, n) && Grows(c.journal, n.journal) && n.panicked == c.panicked
    && !Before(Position(n), Position(c))
    && n.journal.accepted <= c.journal.accepted + {v}
    && (v in n.journal.accepted && v !in c.journal.accepted ==> v.height == c.height && Verified(CommitteeOf(e, c), v))
    && (Stays(c, n) || (v.kind == PrecommitType && v.height == c.height && Commits(c, n, v.round, v.proposed)))
  }

  /** No commit: height, base and commits are as before. */
  ghost predicate Stays(c: State, n: State) {
    n.height == c.height && n.journal.commits == c.journal.commits && n.lastCommittedData == c.lastCommittedData
  }

  lemma SettlesHandled(e: Env, c: State, v: Vote, n: State)
    requires Settles(e, c, n)
    ensures VoteHandled(e, c, v, n)
  {
  }

  lemma InvHandled(e: Env, c: State, v: Vote)
    requires Inv(e, c)
    ensures VoteHandled(e, c, v, c)
  {
  }

  lemma CommitThenSkip(e: Env, ans: Answers, c: State, m: State, round: int, d: ProposedData)
    requires Moves(e, c, m) && Commits(c, m, round, d) && Inv(e, m) && m.round == 0 && m.step == NEW_HEIGHT
    ensures var n := EnterNewRound(e, ans, m, m.height, 0);
      Moves(e, c, n) && Commits(c, n, round, d) && Inv(e, n)
  {
    SettlesInNewRound(e, ans, m, 0, PrevoteType);
    MovesTwice(e, c, m, EnterNewRound(e, ans, m, m.height, 0));
  }

  /** `addVote` after a precommit was recorded: a majority commits, anything else stays. */
  lemma AfterPrecommitOk(e: Env, ans: Answers, c: State, v: Vote)
    requires Base(e, c) && AtRest(c) && NoneAhead(CommitteeOf(e, c), c.votes, c.round, (PrecommitType, v.round))
    requires AppContract(ans) && v.round >= 0 && v.kind == PrecommitType
    requires NoCommitted(c.votes, v.round) && MajAt(c.votes, PrecommitType, v.round) in {NIL, v.proposed}
    ensures var n := AfterPrecommit(e, ans, c, v);
      && Moves(e, c, n) && Inv(e, n)
      && (if MajAt(c.votes, PrecommitType, v.round) != NIL then Commits(c, n, v.round, v.proposed) else SameHeight(c, n))
  {
    if MajAt(c.votes, PrecommitType, v.round) != NIL {
      var t := TallyAt(c.votes, PrecommitType, v.round).value;
      CommitChain(e, ans, c, v.round, t);
      var c3 := EnterCommit(ans, EnterPrecommit(e, EnterNewRound(e, ans, c, c.height, v.round), c.height, v.round), c.height, v.round);
      CommitThenSkip(e, ans, c, c3, v.round, v.proposed);
    } else if c.round <= v.round && AnyAt(CommitteeOf(e, c), c.votes, PrecommitType, v.round) {
      AnyPrecommitsOk(e, ans, c, v.round);
    } else {
      StaysPut(e, c);
    }
  }

  lemma RecordedPrecommit(e: Env, ans: Answers, c: State, v: Vote)
    requires Inv(e, c) && Relevant(c, v) && v.kind == PrecommitType && AppContract(ans)
    requires JudgeIn(CommitteeOf(e, c), c.votes, v) == Added
    ensures VoteHandled(e, c, v, AfterPrecommit(e, ans, Record(e, c, v), v))
  {
    var m := Record(e, c, v);
    RecordBase(e, c, v);
    RecordedAhead(e, c, v);
    AfterPrecommitOk(e, ans, m, v);
    RecordedThen(e, c, v, m, AfterPrecommit(e, ans, m, v));
  }

  /** From a recorded vote on, a move that ends in the invariant handles the vote. */
  lemma RecordedThen(e: Env, c: State, v: Vote, m: State, n: State)
    requires Inv(e, n) && Moves(e, m, n) && v.height == c.height && Position(m) == Position(c)
    requires m.panicked == c.panicked && m.lastCommittedData == c.lastCommittedData
    requires JudgeIn(CommitteeOf(e, c), c.votes, v) == Added
    requires m.journal == c.journal.(accepted := c.journal.accepted + {v})
    requires SameHeight(m, n) || (v.kind == PrecommitType && Commits(m, n, v.round, v.proposed))
    ensures VoteHandled(e, c, v, n)
  {
    JudgedVerified(CommitteeOf(e, c), c.votes, v);
  }

  lemma JudgedVerified(k: Committee, hv: Votes, v: Vote)
    requires JudgeIn(k, hv, v) == Added
    ensures Verified(k, v)
  {
  }

  lemma ReconsideredFields(e: Env, c: State, v: Vote)
    ensures var r, m := Record(e, c, v), Reconsidered(Record(e, c, v), v);
      && Position(m) == Position(c) && m.panicked == c.panicked && m.lastCommittedData == c.lastCommittedData
      && m.journal == r.journal && m.votes == r.votes && r.journal.ticks == c.journal.ticks
  {
  }

  lemma ReconsideredBase(e: Env, c: State, v: Vote)
    requires Base(e, c) && Relevant(c, v) && v.kind == PrevoteType
    ensures Base(e, Reconsidered(Record(e, c, v), v))
  {
    RecordPrevoteBase(e, c, v);
    DropKeeps(e, UnlockOnPolka(Record(e, c, v), v), v);
  }

  lemma RecordedAhead(e: Env, c: State, v: Vote)
    requires Inv(e, c) && Relevant(c, v)
    ensures var n := Record(e, c, v);
      && NoneAhead(CommitteeOf(e, n), n.votes, n.round, (v.kind, v.round))
      && NoCommitted(n.votes, if v.kind == PrecommitType then v.round else -1)
      && MajAt(n.votes, PrecommitType, v.round) in {NIL, v.proposed}
  {
    RecordAhead(e, c, v);
  }

  lemma ReconsideredOk(e: Env, c: State, v: Vote, m: State)
    requires Inv(e, c) && Relevant(c, v) && v.kind == PrevoteType && m == Reconsidered(Record(e, c, v), v)
    ensures Base(e, m) && AtRest(m) && NoCommitted(m.votes, -1)
    ensures NoneAhead(CommitteeOf(e, m), m.votes, m.round, (PrevoteType, v.round))
  {
    ReconsideredBase(e, c, v);
    RecordedAhead(e, c, v);
    ReconsideredFields(e, c, v);
  }

  lemma RecordedPrevote(e: Env, ans: Answers, c: State, v: Vote)
    requires Inv(e, c) && Relevant(c, v) && v.kind == PrevoteType
    requires JudgeIn(CommitteeOf(e, c), c.votes, v) == Added
    ensures VoteHandled(e, c, v, AfterPrevote(e, ans, Record(e, c, v), v))
  {
    var r := Record(e, c, v);
    ReconsideredOk(e, c, v, Reconsidered(r, v));
    ReconsideredFields(e, c, v);
    AfterPrevoteOk(e, ans, r, v);
    RecordedThen(e, c, v, Reconsidered(r, v), AfterPrevote(e, ans, r, v));
  }

  /** A refused vote may start tracking its round and changes nothing else. */
  lemma RefusedVote(e: Env, c: State, v: Vote)
    requires Inv(e, c) && Relevant(c, v) && JudgeIn(CommitteeOf(e, c), c.votes, v) != Added
    ensures VoteHandled(e, c, v, Record(e, c, v))
  {
    RecordBase(e, c, v);
    RefusedAhead(e, c, v);
  }

  lemma ProposalOk(e: Env, ans: Answers, c: State, v: Vote)
    requires Inv(e, c)
    ensures VoteHandled(e, c, v, DefaultSetProposal(e, ans, c, v))
  {
    var n := DefaultSetProposal(e, ans, c, v);
    if n == c {
      InvHandled(e, c, v);
    } else {
      var m := c.(proposal := Some(v));
      assert Base(e, m);
      if c.step < PREVOTE {
        EnterPrevoteOk(e, ans, m);
      } else {
        StaysPut(e, m);
      }
      assert Settles(e, m, n);
      SettlesHandled(e, m, v, n);
    }
  }

  lemma StragglerKeeps(e: Env, c: State, v: Vote)
    requires LastCommitPart(e, c.lastCommit, c.height, c.lastCommittedData) && c.lastCommit.Some?
    ensures LastCommitPart(e, Some(AddVote(CommitteeOf(e, c), c.lastCommit.value, v)), c.height, c.lastCommittedData)
  {
    var t, d := c.lastCommit.value, c.lastCommittedData;
    var u := AddVote(CommitteeOf(e, c), t, v);
    QuorumMono(e.committee(c.height - 1), t.byData[d].votes.Keys, u.byData[d].votes.Keys);
  }

  lemma StragglerInv(e: Env, c: State, v: Vote, m: State)
    requires Inv(e, c) && c.lastCommit.Some?
    requires m == c.(lastCommit := Some(AddVote(CommitteeOf(e, c), c.lastCommit.value, v)))
    ensures Inv(e, m)
  {
    StragglerKeeps(e, c, v);
  }

  lemma StragglerAdded(e: Env, ans: Answers, c: State, v: Vote, m: State, n: State)
    requires Inv(e, m) && m == c.(lastCommit := m.lastCommit) && c.step == NEW_HEIGHT
    requires n == m || n == EnterNewRound(e, ans, m, m.height, 0)
    ensures VoteHandled(e, c, v, n)
  {
    if n == m {
      InvHandled(e, m, v);
    } else {
      SettlesInNewRound(e, ans, m, 0, PrevoteType);
      SettlesHandled(e, m, v, n);
    }
  }

  lemma StragglerOk(e: Env, ans: Answers, c: State, v: Vote, n: State)
    requires Inv(e, c) && n == AddStraggler(e, ans, c, v)
    ensures VoteHandled(e, c, v, n)
  {
    if c.lastCommit.Some? && c.step == NEW_HEIGHT && v.kind == PrecommitType {
      var m := c.(lastCommit := Some(AddVote(CommitteeOf(e, c), c.lastCommit.value, v)));
      StragglerInv(e, c, v, m);
      StragglerAdded(e, ans, c, v, m, n);
    } else {
      InvHandled(e, c, v);
    }
  }

  /** `addVote` on any vote whatsoever. */
  lemma HandleVoteOk(e: Env, ans: Answers, c: State, v: Vote)
    requires Inv(e, c) && AppContract(ans)
    ensures VoteHandled(e, c, v, HandleVote(e, ans, c, v))
  {
    if v.height + 1 == c.height {
      StragglerOk(e, ans, c, v, HandleVote(e, ans, c, v));
    } else if v.height == c.height && v.kind == ProposalType {
      ProposalOk(e, ans, c, v);
    } else if Relevant(c, v) {
      if JudgeIn(CommitteeOf(e, c), c.votes, v) != Added {
        RefusedVote(e, c, v);
      } else if v.kind == PrevoteType {
        RecordedPrevote(e, ans, c, v);
      } else {
        RecordedPrecommit(e, ans, c, v);
      }
    } else {
      InvHandled(e, c, v);
    }
  }

  // ---- messages -----------------------------------------------------------------------

  /** The outcome of a handler: the invariant again, a grown journal, no step back, and every
      newly accepted vote was offered and verifies for its height. */
  ghost predicate Handled(e: Env, c: State, offered: set<Vote>, n: State) {
    && Inv(e, n) && Grows(c.journal, n.journal) && !Before(Position(n), Position(c))
    && forall v :: v in n.journal.accepted && v !in c.journal.accepted ==>
      v in offered && Verified(e.committee(v.height), v)
  }

  ghost function Present(votes: seq<Option<Vote>>): set<Vote> {
    set o | o in votes && o.Some? :: o.value
  }

  lemma HandledTwice(e: Env, c: State, m: State, n: State, v: Vote, offered: set<Vote>)
    requires VoteHandled(e, c, v, m) && Handled(e, m, offered, n)
    ensures Handled(e, c, offered + {v}, n)
  {
    BeforeTrans(Position(c), Position(m), Position(n));
  }

  lemma VotesStep(e: Env, rep: Replies, c: State, votes: seq<Option<Vote>>, n: State)
    requires votes != [] && !c.panicked && votes[0].Some? && n == HandleVote(e, rep(|votes|), c, votes[0].value)
    ensures HandleVotes(e, rep, c, votes) == HandleVotes(e, rep, n, votes[1..])
  {
  }

  lemma PresentSplit(votes: seq<Option<Vote>>)
    requires votes != [] && votes[0].Some?
    ensures Present(votes) == Present(votes[1..]) + {votes[0].value}
    ensures None in votes <==> None in votes[1..]
  {
    assert votes == [votes[0]] + votes[1..];
  }

  lemma HandledNothing(e: Env, c: State, offered: set<Vote>)
    requires Inv(e, c)
    ensures Handled(e, c, offered, c) && Handled(e, c, offered, Panic(c))
  {
  }

  /** Feeding votes one by one: it panics exactly on a missing vote. */
  lemma {:induction false} HandleVotesOk(e: Env, rep: Replies, c: State, votes: seq<Option<Vote>>, n: State)
    requires Inv(e, c) && AppReplies(rep) && n == HandleVotes(e, rep, c, votes)
    ensures Handled(e, c, Present(votes), n)
    ensures !c.panicked ==> (n.panicked <==> None in votes)
    decreases |votes|
  {
    if votes == [] || c.panicked || votes[0].None? {
      HandledNothing(e, c, Present(votes));
    } else {
      var v, m := votes[0].value, HandleVote(e, rep(|votes|), c, votes[0].value);
      HandleVoteOk(e, rep(|votes|), c, v);
      HandleVotesOk(e, rep, m, votes[1..], n);
      HandledTwice(e, c, m, n, v, Present(votes[1..]));
      PresentSplit(votes);
    }
  }

  // ---- timeouts -----------------------------------------------------------------------

  /** Timeout exactness: a timeout the node scheduled that passes the filter is for exactly the
      step the node is in. */
  lemma TimeoutExact(e: Env, c: State, ti: Timeout)
    requires Inv(e, c) && ti in c.journal.ticks
    ensures Stale(c, ti) || ti == Position(c)
  {
  }

  lemma FetchOk(e: Env, c: State)
    requires Inv(e, c) && IsFetch(c.step)
    ensures Settles(e, c, FetchMissingVotes(c))
    ensures FetchMissingVotes(c).journal.ticks == c.journal.ticks + [Position(c)]
  {
    var n := FetchMissingVotes(c);
    RescheduleKeeps(c.journal.ticks, Position(c));
    VotingMoves(e, c.journal, n.journal, c.height, c.lastCommittedData, c.lockedRound, c.lockedProposal, Position(c), Position(c));
  }

  /** What a timeout for the current step does: it moves the node on, or schedules the same fetch
      step again. */
  ghost predicate TimesOut(e: Env, c: State, n: State) {
    && Settles(e, c, n)
    && (Before(Position(c), Position(n)) || (IsFetch(c.step) && n.journal.ticks == c.journal.ticks + [Position(c)]))
  }

  lemma NewRoundTimeout(e: Env, ans: Answers, c: State, round: int, n: State)
    requires Inv(e, c) && StartsRound(c, round) && n == EnterNewRound(e, ans, c, c.height, round)
    ensures TimesOut(e, c, n)
  {
    SettlesInNewRound(e, ans, c, round, PrevoteType);
    EnterNewRoundOk(e, ans, c, round);
  }

  lemma ProposeTimeout(e: Env, ans: Answers, c: State, n: State)
    requires Inv(e, c) && c.step < PREVOTE && n == EnterPrevote(e, ans, c, c.height, c.round)
    ensures TimesOut(e, c, n)
  {
    EnterPrevoteOk(e, ans, c);
  }

  lemma PrevoteWaitTimeout(e: Env, c: State, n: State)
    requires Inv(e, c) && c.step < PRECOMMIT && n == EnterPrecommit(e, c, c.height, c.round)
    ensures TimesOut(e, c, n)
  {
    NoneAheadNoPolka(CommitteeOf(e, c), c.votes, c.round);
    EnterPrecommitOk(e, c);
  }

  lemma FetchTimeout(e: Env, c: State, n: State)
    requires Inv(e, c) && IsFetch(c.step) && n == FetchMissingVotes(c)
    ensures TimesOut(e, c, n)
  {
    FetchOk(e, c);
  }

  /** Which transition a timeout for the current step takes. */
  lemma TimeoutUnfolds(e: Env, ans: Answers, c: State, n: State)
    requires n == HandleTimeout(e, ans, c, Position(c))
    ensures c.step == NEW_HEIGHT ==> n == EnterNewRound(e, ans, c, c.height, 0)
    ensures c.step == PROPOSE ==> n == EnterPrevote(e, ans, c, c.height, c.round)
    ensures c.step == PREVOTE_WAIT ==> n == EnterPrecommit(e, c, c.height, c.round)
    ensures c.step == PRECOMMIT_WAIT ==> n == EnterNewRound(e, ans, c, c.height, c.round + 1)
    ensures IsFetch(c.step) ==> n == FetchMissingVotes(c)
  {
    if c.step == PRECOMMIT_WAIT {
      PrecommitCallIsNoOp(e, c);
    }
  }

  /** A timeout for the current step always moves the node on or schedules another fetch. */
  lemma CurrentTimeoutOk(e: Env, ans: Answers, c: State)
    requires Inv(e, c)
    ensures TimesOut(e, c, HandleTimeout(e, ans, c, Position(c)))
  {
    var n := HandleTimeout(e, ans, c, Position(c));
    TimeoutUnfolds(e, ans, c, n);
    AtRestTimeout(e, ans, c, n);
  }

  lemma AtRestTimeout(e: Env, ans: Answers, c: State, n: State)
    requires Inv(e, c)
    requires c.step == NEW_HEIGHT ==> n == EnterNewRound(e, ans, c, c.height, 0)
    requires c.step == PROPOSE ==> n == EnterPrevote(e, ans, c, c.height, c.round)
    requires c.step == PREVOTE_WAIT ==> n == EnterPrecommit(e, c, c.height, c.round)
    requires c.step == PRECOMMIT_WAIT ==> n == EnterNewRound(e, ans, c, c.height, c.round + 1)
    requires IsFetch(c.step) ==> n == FetchMissingVotes(c)
    ensures TimesOut(e, c, n)
  {
    if c.step == NEW_HEIGHT {
      NewRoundTimeout(e, ans, c, 0, n);
    } else if c.step == PROPOSE {
      ProposeTimeout(e, ans, c, n);
    } else if c.step == PREVOTE_WAIT {
      PrevoteWaitTimeout(e, c, n);
    } else if c.step == PRECOMMIT_WAIT {
      NewRoundTimeout(e, ans, c, c.round + 1, n);
    } else {
      FetchTimeout(e, c, n);
    }
  }

  /** The `enterPrecommit` call on a precommit-wait timeout never does anything. */
  lemma PrecommitCallIsNoOp(e: Env, c: State)
    requires c.step == PRECOMMIT_WAIT
    ensures EnterPrecommit(e, c, c.height, c.round) == c
  {
  }

  /** The precommit of the current round is for nil. */
  ghost predicate PrecommitsNil(c: State, n: State) {
    && |n.journal.sent| == |c.journal.sent| + 1
    && (var v := n.journal.sent[|c.journal.sent|].vote;
        v.kind == PrecommitType && v.height == c.height && v.round == c.round && v.proposed == NIL)
  }

  lemma NoPolkaKeepsLock(e: Env, c: State, n: State)
    requires c.step < PRECOMMIT && IsValidator(e, c.height) && MajAt(c.votes, PrevoteType, c.round) == NIL
    requires n == EnterPrecommit(e, c, c.height, c.round)
    ensures n.lockedRound == c.lockedRound && n.lockedProposal == c.lockedProposal && PrecommitsNil(c, n)
  {
  }

  /** A quorum of prevotes for nil does not release a lock: unless more than a third of the power votes
      twice no majority is reported, so `enterPrecommit` keeps the lock and precommits nil, and its
      branch for a nil polka is dead. */
  lemma NilPolkaKeepsLock(e: Env, c: State, t: Tally, n: State)
    requires Inv(e, c) && c.step < PRECOMMIT && IsValidator(e, c.height) && ValidCommittee(CommitteeOf(e, c))
    requires TallyAt(c.votes, PrevoteType, c.round) == Some(t)
    requires NIL in t.byData && HasQuorum(CommitteeOf(e, c), t.byData[NIL].votes.Keys)
    requires 3 * PowerOf(CommitteeOf(e, c).power, DoubleVoters(CommitteeOf(e, c), t)) <= CommitteeOf(e, c).total
    requires n == EnterPrecommit(e, c, c.height, c.round)
    ensures TwoThirdsMajority(t) == None && HasTwoThirdsAny(CommitteeOf(e, c), t)
    ensures n.lockedRound == c.lockedRound && n.lockedProposal == c.lockedProposal && PrecommitsNil(c, n)
  {
    assert TallyOk(CommitteeOf(e, c), c.votes, PrevoteType, c.round, t);
    NilQuorumIsSilent(CommitteeOf(e, c), t);
    NoPolkaKeepsLock(e, c, n);
  }

  // ---- any input ----------------------------------------------------------------------

  ghost function Offered(input: Input): set<Vote> {
    match input
    case VoteMsg(v) => {v}
    case CommitMsg(m) => Present(m.precommits)
    case FetchReqMsg(_) => {}
    case FetchRspMsg(m) => Present(m.missingVotes)
    case Tock(_) => {}
  }

  /** Timeouts come from the node's own schedule, late, lost, repeated or reordered. */
  ghost predicate Admissible(c: State, rep: Replies, input: Input) {
    && AppReplies(rep)
    && (input.Tock? ==> input.timeout in c.journal.ticks)
  }

  /** The message makes the node dereference nil: a missing vote of a commit or a fetch response it
      takes, a missing vote of the commit it would answer a request for a past height with, or the
      vote set of a negative round that a request of its height asks for. */
  ghost predicate HitsNil(c: State, rep: Replies, input: Input) {
    match input
    case CommitMsg(m) => TakesCommit(c, m) && None in m.precommits
    case FetchReqMsg(m) =>
      && WellFormedFetchReq(m)
      && (|| (m.height == c.height && m.round < 0)
          || (m.height < c.height && rep(0).history(m.height).Some?
              && None in rep(0).history(m.height).value.precommits))
    case FetchRspMsg(m) => TakesFetchRsp(c, m) && None in m.missingVotes
    case _ => false
  }

  lemma SettlesIsHandled(e: Env, c: State, n: State)
    requires Settles(e, c, n)
    ensures Handled(e, c, {}, n)
  {
  }

  lemma CommitMsgOk(e: Env, rep: Replies, c: State, m: Commit, n: State)
    requires Inv(e, c) && AppReplies(rep) && !c.panicked && n == HandleCommit(e, rep, c, m)
    ensures Handled(e, c, Present(m.precommits), n)
    ensures n.panicked <==> TakesCommit(c, m) && None in m.precommits
  {
    if TakesCommit(c, m) {
      var c1 := if CommitHeight(m) == c.height then c.(hasRecvCommitRecords := true) else c;
      FlagKeeps(e, c, c1);
      HandleVotesOk(e, rep, c1, m.precommits, n);
    }
  }

  lemma FlagKeeps(e: Env, c: State, n: State)
    requires Inv(e, c) && n == c.(hasRecvCommitRecords := n.hasRecvCommitRecords)
    ensures Inv(e, n)
  {
  }

  lemma VoteMsgOk(e: Env, ans: Answers, c: State, v: Vote, n: State)
    requires Inv(e, c) && AppContract(ans) && !c.panicked
    requires n == if IsValidator(e, c.height) then HandleVote(e, ans, c, v) else c
    ensures Handled(e, c, {v}, n) && !n.panicked
  {
    if IsValidator(e, c.height) {
      HandleVoteOk(e, ans, c, v);
      VoteHandledIsHandled(e, c, v, n);
    }
  }

  lemma VoteHandledIsHandled(e: Env, c: State, v: Vote, n: State)
    requires VoteHandled(e, c, v, n)
    ensures Handled(e, c, {v}, n)
  {
  }

  lemma TockOk(e: Env, ans: Answers, c: State, ti: Timeout, n: State)
    requires Inv(e, c) && ti in c.journal.ticks && n == HandleTimeout(e, ans, c, ti)
    ensures Handled(e, c, {}, n) && n.panicked == c.panicked
  {
    TimeoutExact(e, c, ti);
    if !Stale(c, ti) {
      CurrentTimeoutOk(e, ans, c);
      SettlesIsHandled(e, c, n);
    }
  }

  lemma FetchRspOk(e: Env, rep: Replies, c: State, m: FetchVotesRsp, n: State)
    requires Inv(e, c) && AppReplies(rep) && !c.panicked && n == HandleFetchRsp(e, rep, c, m)
    ensures Handled(e, c, Present(m.missingVotes), n)
    ensures n.panicked <==> TakesFetchRsp(c, m) && None in m.missingVotes
  {
    if TakesFetchRsp(c, m) {
      HandleVotesOk(e, rep, c, m.missingVotes, n);
    }
  }

  /** A request of the node's height finds its vote set exactly if its round is not negative. */
  lemma RequestedSetExists(e: Env, c: State, m: FetchVotesReq)
    requires Inv(e, c) && WellFormedFetchReq(m) && m.round <= c.round
    ensures TallyAt(c.votes, m.kind, m.round).Some? <==> m.round >= 0
  {
  }

  lemma FetchReqOk(e: Env, rep: Replies, c: State, m: FetchVotesReq, n: State)
    requires Inv(e, c) && !c.panicked && n == HandleFetch(rep(0), c, m)
    ensures Handled(e, c, {}, n)
    ensures n.panicked <==> HitsNil(c, rep, FetchReqMsg(m))
  {
    HandledNothing(e, c, {});
    if WellFormedFetchReq(m) && m.round <= c.round {
      RequestedSetExists(e, c, m);
    }
  }

  /** Every handler keeps the invariant; and of all panics in the code only dereferences of nil can
      happen, exactly for the messages of `HitsNil`. */
  lemma HandleOk(e: Env, rep: Replies, c: State, input: Input)
    requires Inv(e, c) && Admissible(c, rep, input) && !c.panicked
    ensures Handled(e, c, Offered(input), Handle(e, rep, c, input))
    ensures Handle(e, rep, c, input).panicked <==> HitsNil(c, rep, input)
  {
    var n := Handle(e, rep, c, input);
    match input
    case VoteMsg(v) => VoteMsgOk(e, rep(0), c, v, n);
    case CommitMsg(m) => CommitMsgOk(e, rep, c, m, n);
    case FetchReqMsg(m) => FetchReqOk(e, rep, c, m, n);
    case FetchRspMsg(m) => FetchRspOk(e, rep, c, m, n);
    case Tock(ti) => TockOk(e, rep(0), c, ti, n);
  }
}
