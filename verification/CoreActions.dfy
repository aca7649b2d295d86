/** What a node does on each vote and each timeout, told by what changes: the votes it signs, its lock,
    its proposal, and the step it rests in afterwards. */
module CoreActions {
  import opened Messages
  import opened Committees
  import opened Tallies
  import opened HeightVotes
  import opened CoreSpec
  import opened CoreInvariant
  import opened CoreSteps
  import opened CoreHandlers

  // ---- signing ------------------------------------------------------------------------

  /** A validator signs exactly this vote, anyone else none. */
  ghost predicate Casts(e: Env, c: State, n: State, v: Vote) {
    n.journal.sent == c.journal.sent +
      if IsValidator(e, c.height) then [Sent(Sign(e, v), c.journal.accepted)] else []
  }

  ghost function DataOf(p: Option<Vote>): Option<ProposedData> {
    if p.Some? then Some(p.value.proposed) else None
  }

  ghost function LockedData(c: State): Option<ProposedData> {
    if c.lockedRound >= 0 then DataOf(c.lockedProposal) else None
  }

  /** What a prevote is for: the locked data; without a lock the proposed data if the application
      approves it, and nil if it does not or nothing is proposed. */
  ghost predicate ChosenFor(ans: Answers, height: int, locked: Option<ProposedData>, proposed: Option<ProposedData>, d: ProposedData) {
    && (locked.Some? ==> d == locked.value)
    && (locked.None? && proposed.Some? && ans.validate(height, proposed.value) ==> d == proposed.value)
    && (locked.None? && (proposed.None? || !ans.validate(height, proposed.value)) ==> d == NIL)
  }

  /** A validator signs one prevote of its round by that rule. */
  ghost predicate CastsPrevote(e: Env, ans: Answers, c: State, n: State) {
    exists d ::
      && ChosenFor(ans, c.height, LockedData(c), DataOf(c.proposal), d)
      && Casts(e, c, n, NewVote(PrevoteType, c.height, c.round, d, c.lastCommittedData))
  }

  /** The node prevotes in its round by that rule and waits for prevotes. */
  ghost predicate Prevotes(e: Env, ans: Answers, c: State, n: State) {
    && n == c.(step := PREVOTE_FETCH,
               journal := c.journal.(sent := n.journal.sent, approved := n.journal.approved, ticks := n.journal.ticks))
    && n.journal.ticks == c.journal.ticks + [Position(n)]
    && CastsPrevote(e, ans, c, n)
  }

  /** An unlocked node whose application refuses the proposed data prevotes nil. */
  lemma RefusedDataGetsNil(e: Env, ans: Answers, c: State, n: State)
    requires Prevotes(e, ans, c, n) && LockedData(c).None?
    requires c.proposal.Some? && !ans.validate(c.height, c.proposal.value.proposed)
    ensures Casts(e, c, n, NewVote(PrevoteType, c.height, c.round, NIL, c.lastCommittedData))
  {
  }

  lemma EnterPrevoteActs(e: Env, ans: Answers, c: State, n: State)
    requires c.step < PREVOTE && (c.lockedRound >= 0 <==> c.lockedProposal.Some?)
    requires n == EnterPrevote(e, ans, c, c.height, c.round)
    ensures Prevotes(e, ans, c, n)
  {
    var d := if c.lockedRound >= 0 then c.lockedProposal.value.proposed
             else if c.proposal.Some? && ans.validate(c.height, c.proposal.value.proposed) then c.proposal.value.proposed
             else NIL;
    assert ChosenFor(ans, c.height, LockedData(c), DataOf(c.proposal), d);
    assert Casts(e, c, n, NewVote(PrevoteType, c.height, c.round, d, c.lastCommittedData));
  }

  // ---- a new round ------------------------------------------------------------------

  /** The round a node enters with its proposal reset: the votes of the round are tracked. */
  ghost predicate EntersRound(c: State, round: int, m: State) {
    && m == c.(round := round, step := PROPOSE, proposal := m.proposal, votes := m.votes, journal := m.journal)
    && m.votes == SetRound(c.votes, round + 1)
    && m.journal == c.journal.(sent := m.journal.sent, ticks := c.journal.ticks + [Timeout(c.height, round, PROPOSE)])
  }

  ghost predicate IsProposer(e: Env, ans: Answers, c: State, round: int) {
    IsValidator(e, c.height) && ans.proposer(c.height, round) == e.self
  }

  /** The proposer, and only the proposer, signs a proposal: for the locked data, else for what the
      application decides.  Everyone else keeps a proposal received early for round 0. */
  ghost predicate Proposes(e: Env, ans: Answers, c: State, round: int, m: State) {
    if IsProposer(e, ans, c, round) then
      var d := if LockedData(c).Some? then LockedData(c).value else ans.decide(c.height);
      var v := NewVote(ProposalType, c.height, round, d, c.lastCommittedData);
      m.proposal == Some(Sign(e, v)) && Casts(e, c, m, v)
    else
      m.proposal == (if round == 0 then c.proposal else None) && m.journal.sent == c.journal.sent
  }

  /** The node starts a round: it proposes if it is its turn, and prevotes at once if it holds a
      proposal or a lock; otherwise it waits for a proposal. */
  ghost predicate BeginsRound(e: Env, ans: Answers, c: State, round: int, n: State) {
    exists m ::
      && EntersRound(c, round, m) && Proposes(e, ans, c, round, m)
      && if m.proposal.Some? || LockedData(m).Some? then Prevotes(e, ans, m, n) else n == m
  }

  lemma ProposedActs(e: Env, ans: Answers, c: State, round: int, m: State)
    requires StartsRound(c, round) && (c.lockedRound >= 0 <==> c.lockedProposal.Some?)
    requires m == Proposed(e, ans, RoundSetUp(c, round))
    ensures EntersRound(c, round, m) && Proposes(e, ans, c, round, m)
  {
  }

  lemma EnterNewRoundActs(e: Env, ans: Answers, c: State, round: int, n: State)
    requires StartsRound(c, round) && (c.lockedRound >= 0 <==> c.lockedProposal.Some?)
    requires !SetRoundPanics(c.votes, round + 1) && n == EnterNewRound(e, ans, c, c.height, round)
    ensures BeginsRound(e, ans, c, round, n)
  {
    EnterNewRoundUnfolds(e, ans, c, round);
    var m := Proposed(e, ans, RoundSetUp(c, round));
    ProposedActs(e, ans, c, round, m);
    ProposedThen(e, ans, RoundSetUp(c, round), m, n);
    if m.proposal.Some? || LockedData(m).Some? {
      EnterPrevoteActs(e, ans, m, n);
    }
  }

  lemma ProposedThen(e: Env, ans: Answers, c: State, m: State, n: State)
    requires c.step == NEW_ROUND && m == Proposed(e, ans, c) && n == EnterPropose(e, ans, c, c.height, c.round)
    ensures n == if m.proposal.Some? || m.lockedRound >= 0 then EnterPrevote(e, ans, m, m.height, m.round) else m
    ensures m.step == PROPOSE && m.lockedRound == c.lockedRound && m.lockedProposal == c.lockedProposal
  {
  }

  /** A started round leaves the node in that round, waiting for a proposal or for prevotes. */
  lemma RoundBegun(e: Env, ans: Answers, c: State, round: int, n: State)
    requires BeginsRound(e, ans, c, round, n)
    ensures n.height == c.height && n.round == round && n.step in {PROPOSE, PREVOTE_FETCH}
    ensures n.votes == SetRound(c.votes, round + 1)
    ensures n.lockedRound == c.lockedRound && n.lockedProposal == c.lockedProposal
  {
  }

  // ---- precommit ----------------------------------------------------------------------

  /** The polka is for data the node is locked on or has the proposal of. */
  ghost predicate Supports(c: State, polka: ProposedData) {
    LockedData(c) == Some(polka) || DataOf(c.proposal) == Some(polka)
  }

  /** The node precommits in its round: the data of a polka it supports, locking it; else nil, keeping
      its lock without a polka and giving it up at a polka it does not support. */
  ghost predicate Precommits(e: Env, c: State, n: State) {
    var polka := MajAt(c.votes, PrevoteType, c.round);
    var lock := (n.lockedRound, DataOf(n.lockedProposal));
    && n == c.(step := PRECOMMIT_FETCH, lockedRound := n.lockedRound, lockedProposal := n.lockedProposal,
               journal := c.journal.(sent := n.journal.sent, ticks := n.journal.ticks))
    && n.journal.ticks == c.journal.ticks + [Position(n)]
    && (polka != NIL && Supports(c, polka) ==>
          lock == (c.round, Some(polka)) && Casts(e, c, n, NewVote(PrecommitType, c.height, c.round, polka, c.lastCommittedData)))
    && (polka == NIL ==> n.lockedRound == c.lockedRound && n.lockedProposal == c.lockedProposal)
    && (polka != NIL && !Supports(c, polka) ==> lock == (-1, None))
    && (polka == NIL || !Supports(c, polka) ==>
          Casts(e, c, n, NewVote(PrecommitType, c.height, c.round, NIL, c.lastCommittedData)))
  }

  lemma EnterPrecommitActs(e: Env, c: State, n: State)
    requires c.step < PRECOMMIT && c.round >= 0 && PolkaIsCurrent(c) && (c.lockedRound >= 0 <==> c.lockedProposal.Some?)
    requires n == EnterPrecommit(e, c, c.height, c.round)
    ensures Precommits(e, c, n)
  {
    DoPrecommitUnfolds(e, c);
    EnterPrecommitUnfolds(e, c, DoPrecommit(e, c, c.height, c.round));
  }

  // ---- timeouts -----------------------------------------------------------------------

  /** The node only schedules a timeout for a later or the same step of its round. */
  ghost predicate WaitsAt(c: State, step: int, n: State) {
    n == c.(step := step, journal := c.journal.(ticks := c.journal.ticks + [Timeout(c.height, c.round, step)]))
  }

  // What each timeout makes a node do.

  lemma NewHeightTimeoutActs(e: Env, ans: Answers, c: State, n: State)
    requires Inv(e, c) && c.step == NEW_HEIGHT && n == HandleTimeout(e, ans, c, Position(c))
    ensures BeginsRound(e, ans, c, 0, n)
  {
    TimeoutUnfolds(e, ans, c, n);
    RoundTimeoutActs(e, ans, c, 0, n);
  }

  lemma ProposeTimeoutActs(e: Env, ans: Answers, c: State, n: State)
    requires Inv(e, c) && c.step == PROPOSE && n == HandleTimeout(e, ans, c, Position(c))
    ensures Prevotes(e, ans, c, n)
  {
    TimeoutUnfolds(e, ans, c, n);
    PrevoteStepActs(e, ans, c, n);
  }

  lemma PrevoteWaitTimeoutActs(e: Env, ans: Answers, c: State, n: State)
    requires Inv(e, c) && c.step == PREVOTE_WAIT && n == HandleTimeout(e, ans, c, Position(c))
    ensures Precommits(e, c, n)
  {
    TimeoutUnfolds(e, ans, c, n);
    AtRestPolka(e, c);
    EnterPrecommitActs(e, c, n);
  }

  lemma PrecommitWaitTimeoutActs(e: Env, ans: Answers, c: State, n: State)
    requires Inv(e, c) && c.step == PRECOMMIT_WAIT && n == HandleTimeout(e, ans, c, Position(c))
    ensures BeginsRound(e, ans, c, c.round + 1, n)
  {
    TimeoutUnfolds(e, ans, c, n);
    RoundTimeoutActs(e, ans, c, c.round + 1, n);
  }

  lemma FetchTimeoutActs(e: Env, ans: Answers, c: State, n: State)
    requires Inv(e, c) && IsFetch(c.step) && n == HandleTimeout(e, ans, c, Position(c))
    ensures WaitsAt(c, c.step, n)
  {
    TimeoutUnfolds(e, ans, c, n);
  }

  lemma RoundTimeoutActs(e: Env, ans: Answers, c: State, round: int, n: State)
    requires Base(e, c) && StartsRound(c, round) && n == EnterNewRound(e, ans, c, c.height, round)
    ensures BeginsRound(e, ans, c, round, n)
  {
    RoundMayBegin(e, c, round);
    EnterNewRoundActs(e, ans, c, round, n);
  }

  lemma PrevoteStepActs(e: Env, ans: Answers, c: State, n: State)
    requires Base(e, c) && c.step < PREVOTE && n == EnterPrevote(e, ans, c, c.height, c.round)
    ensures Prevotes(e, ans, c, n)
  {
    EnterPrevoteActs(e, ans, c, n);
  }

  lemma RoundMayBegin(e: Env, c: State, round: int)
    requires Base(e, c) && StartsRound(c, round)
    ensures !SetRoundPanics(c.votes, round + 1) && (c.lockedRound >= 0 <==> c.lockedProposal.Some?)
  {
  }

  lemma AtRestPolka(e: Env, c: State)
    requires Inv(e, c) && c.step < PRECOMMIT
    ensures PolkaIsCurrent(c)
  {
    NoneAheadNoPolka(CommitteeOf(e, c), c.votes, c.round);
    PolkaCurrent(e, c);
  }

  // ---- proposals ----------------------------------------------------------------------

  /** A proposal the node takes: it has none, and this one is of its round and base, from the proposer,
      verified, and accepted by the application. */
  ghost predicate TakesProposal(e: Env, ans: Answers, c: State, v: Vote) {
    && c.proposal.None? && v.kind == ProposalType
    && v.height == c.height && v.round == c.round && v.prev == c.lastCommittedData
    && v.address == ans.proposer(c.height, c.round) && Verified(CommitteeOf(e, c), v)
    && ans.accept(c.height, v.proposed)
  }

  /** A proposal is held from then on exactly if the node takes it; a node that has not prevoted
      prevotes at once. */
  lemma ProposalActs(e: Env, ans: Answers, c: State, v: Vote, n: State)
    requires Inv(e, c) && v.kind == ProposalType && v.height == c.height && n == HandleVote(e, ans, c, v)
    ensures TakesProposal(e, ans, c, v) ==> n.proposal == Some(v)
    ensures TakesProposal(e, ans, c, v) && c.step < PREVOTE ==> Prevotes(e, ans, c.(proposal := Some(v)), n)
    ensures TakesProposal(e, ans, c, v) && c.step >= PREVOTE ==> n == c.(proposal := Some(v))
    ensures !TakesProposal(e, ans, c, v) ==> n == c
  {
    if TakesProposal(e, ans, c, v) && c.step < PREVOTE {
      EnterPrevoteActs(e, ans, c.(proposal := Some(v)), n);
    }
  }

  // ---- recording a vote -----------------------------------------------------------------

  ghost predicate HoldsVote(c: State, v: Vote) {
    var t := TallyAt(c.votes, v.kind, v.round);
    t.Some? && Holds(t.value, v.proposed, v.address)
  }

  /** A vote a node adds: for its height and base, of a round within the watermark, verified, and not
      held yet. */
  ghost predicate IsNew(e: Env, c: State, v: Vote) {
    Relevant(c, v) && v.prev == c.lastCommittedData && Verified(CommitteeOf(e, c), v) && !HoldsVote(c, v)
  }

  lemma AddedIsNew(e: Env, c: State, v: Vote)
    requires Inv(e, c) && Relevant(c, v)
    ensures JudgeIn(CommitteeOf(e, c), c.votes, v) == Added <==> IsNew(e, c, v)
  {
    JudgeTallyOk(CommitteeOf(e, c), c.votes, v);
    JudgeTallyAt(c.votes, v);
  }

  lemma NewIsHeld(e: Env, c: State, v: Vote)
    requires Inv(e, c) && IsNew(e, c, v)
    ensures HoldsVote(Record(e, c, v), v)
  {
    AddVoteInHolds(CommitteeOf(e, c), c.votes, v);
  }

  // ---- prevotes -----------------------------------------------------------------------

  /** A reported majority that releases the lock: of a later round than the lock's, for other data. */
  ghost predicate Releases(c: State, round: int, polka: ProposedData) {
    polka != NIL && c.lockedProposal.Some? && c.lockedRound < round && c.lockedProposal.value.proposed != polka
  }

  /** One of the node's round for other data than its proposal discards the proposal. */
  ghost predicate Discards(c: State, round: int, polka: ProposedData) {
    polka != NIL && round == c.round && c.proposal.Some? && c.proposal.value.proposed != polka
  }

  /** The node has added a prevote, and reconsidered lock and proposal; nothing else changed. */
  ghost predicate AddsPrevote(e: Env, c: State, v: Vote, m: State) {
    var polka := MajAt(m.votes, PrevoteType, v.round);
    && m == c.(votes := AddVoteIn(CommitteeOf(e, c), c.votes, v), proposal := m.proposal, lockedRound := m.lockedRound,
               lockedProposal := m.lockedProposal, journal := c.journal.(accepted := c.journal.accepted + {v}))
    && HoldsVote(m, v)
    && (if Releases(c, v.round, polka) then m.lockedRound == -1 && m.lockedProposal == None
        else m.lockedRound == c.lockedRound && m.lockedProposal == c.lockedProposal)
    && m.proposal == if Discards(c, v.round, polka) then None else c.proposal
  }

  /** What follows an added prevote: a later round with two thirds of any prevotes is started; in the
      node's own round a polka leads to a precommit and two thirds of any prevotes to waiting; a node
      that has not prevoted prevotes for its proposal. */
  ghost predicate ActsOnPrevotes(e: Env, ans: Answers, m: State, round: int, n: State) {
    var any, polka := AnyAt(CommitteeOf(e, m), m.votes, PrevoteType, round), MajAt(m.votes, PrevoteType, round);
    var skips := any && round > m.round;
    var here := round == m.round && m.step >= PREVOTE;
    && (skips ==> BeginsRound(e, ans, m, round, n))
    && (here && polka != NIL && m.step < PRECOMMIT ==> Precommits(e, m, n))
    && (here && polka == NIL && any && m.step < PREVOTE_WAIT ==> WaitsAt(m, PREVOTE_WAIT, n))
    && (!skips && m.step < PREVOTE && m.proposal.Some? ==> Prevotes(e, ans, m, n))
    && (here && (m.step >= PRECOMMIT || (polka == NIL && (!any || m.step >= PREVOTE_WAIT))) ==> n == m)
    && (!skips && !here && (m.step >= PREVOTE || m.proposal.None?) ==> n == m)
  }

  lemma PrevoteUnfolds(e: Env, ans: Answers, r: State, v: Vote, m: State, n: State)
    requires m == Reconsidered(r, v) && n == AfterPrevote(e, ans, r, v)
    ensures var any, polka := AnyAt(CommitteeOf(e, m), m.votes, PrevoteType, v.round), MajAt(m.votes, PrevoteType, v.round);
      n == if m.round < v.round && any then EnterNewRound(e, ans, m, m.height, v.round)
           else if m.round == v.round && PREVOTE <= m.step then
             (if polka != NIL then EnterPrecommit(e, m, m.height, v.round)
              else if any then EnterPrevoteWait(e, m, m.height, v.round) else m)
           else if PREVOTE > m.step && m.proposal.Some? then EnterPrevote(e, ans, m, m.height, m.round)
           else m
  {
  }

  /** The branches in the node's own round. */
  lemma OwnRoundActs(e: Env, ans: Answers, m: State, n: State)
    requires Base(e, m) && NoPolkaAhead(m.votes, m.round) && m.step >= PREVOTE
    requires var any, polka := AnyAt(CommitteeOf(e, m), m.votes, PrevoteType, m.round), MajAt(m.votes, PrevoteType, m.round);
      n == if polka != NIL then EnterPrecommit(e, m, m.height, m.round)
           else if any then EnterPrevoteWait(e, m, m.height, m.round) else m
    ensures ActsOnPrevotes(e, ans, m, m.round, n)
  {
    if MajAt(m.votes, PrevoteType, m.round) != NIL && m.step < PRECOMMIT {
      PolkaCurrent(e, m);
      EnterPrecommitActs(e, m, n);
    }
  }

  /** The state after a vote of this kind and round was added: nothing but its vote set may have two
      thirds ahead of the node. */
  ghost predicate ReadyFor(e: Env, m: State, kind: VoteType, round: int) {
    Base(e, m) && NoneAhead(CommitteeOf(e, m), m.votes, m.round, (kind, round))
  }

  lemma AfterPrevoteActs(e: Env, ans: Answers, r: State, v: Vote, m: State, n: State)
    requires m == Reconsidered(r, v) && ReadyFor(e, m, PrevoteType, v.round) && n == AfterPrevote(e, ans, r, v)
    ensures ActsOnPrevotes(e, ans, m, v.round, n)
  {
    PrevoteUnfolds(e, ans, r, v, m, n);
    if v.round > m.round && AnyAt(CommitteeOf(e, m), m.votes, PrevoteType, v.round) {
      RoundTimeoutActs(e, ans, m, v.round, n);
    } else if v.round == m.round && m.step >= PREVOTE {
      NoneAheadNoPolka(CommitteeOf(e, m), m.votes, m.round);
      OwnRoundActs(e, ans, m, n);
    } else if m.step < PREVOTE && m.proposal.Some? {
      PrevoteStepActs(e, ans, m, n);
    }
  }

  lemma AddedThen(e: Env, ans: Answers, c: State, v: Vote, n: State)
    requires Inv(e, c) && IsNew(e, c, v) && n == HandleVote(e, ans, c, v)
    ensures JudgeIn(CommitteeOf(e, c), c.votes, v) == Added
    ensures n == if v.kind == PrevoteType then AfterPrevote(e, ans, Record(e, c, v), v)
                 else AfterPrecommit(e, ans, Record(e, c, v), v)
  {
    AddedIsNew(e, c, v);
  }

  lemma PrevoteAdded(e: Env, c: State, v: Vote, m: State)
    requires Inv(e, c) && IsNew(e, c, v) && v.kind == PrevoteType && m == Reconsidered(Record(e, c, v), v)
    ensures AddsPrevote(e, c, v, m)
  {
    AddedIsNew(e, c, v);
    NewIsHeld(e, c, v);
    ReconsideredAdds(e, c, v, m);
  }

  lemma ReconsideredAdds(e: Env, c: State, v: Vote, m: State)
    requires JudgeIn(CommitteeOf(e, c), c.votes, v) == Added && HoldsVote(Record(e, c, v), v)
    requires m == Reconsidered(Record(e, c, v), v)
    ensures AddsPrevote(e, c, v, m)
  {
  }

  /** What a node does with a prevote it adds. */
  lemma PrevoteActs(e: Env, ans: Answers, c: State, v: Vote, n: State) returns (m: State)
    requires Inv(e, c) && IsNew(e, c, v) && v.kind == PrevoteType && n == HandleVote(e, ans, c, v)
    ensures AddsPrevote(e, c, v, m) && ActsOnPrevotes(e, ans, m, v.round, n)
  {
    var r := Record(e, c, v);
    m := Reconsidered(r, v);
    AddedThen(e, ans, c, v, n);
    PrevoteAdded(e, c, v, m);
    ReconsideredOk(e, c, v, m);
    AfterPrevoteActs(e, ans, r, v, m, n);
  }

  lemma RoundAnswers(k: Committee, hv: Votes, round: int, other: Votes)
    requires other == hv || other == SetRound(hv, round)
    ensures forall kind, r :: MajAt(other, kind, r) == MajAt(hv, kind, r) && AnyAt(k, other, kind, r) == AnyAt(k, hv, kind, r)
  {
    SetRoundMaj(hv, round);
    SetRoundAny(k, hv, round);
  }

  /** A split vote is not a dead end: after a prevote of its round that makes more than two thirds of
      any prevotes, a node that has prevoted rests in prevote-wait or later, a node that sees a polka in
      precommit-fetch or later; and the timeout of that step is scheduled. */
  lemma PrevotesLeadOn(e: Env, ans: Answers, c: State, v: Vote, n: State)
    requires Inv(e, c) && AppContract(ans) && IsNew(e, c, v) && v.kind == PrevoteType && n == HandleVote(e, ans, c, v)
    requires v.round == c.round && c.step >= PREVOTE && AnyAt(CommitteeOf(e, n), n.votes, PrevoteType, c.round)
    ensures n.height == c.height && n.round == c.round && LastTickIs(n.journal.ticks, Position(n))
    ensures n.step >= if MajAt(n.votes, PrevoteType, c.round) != NIL then PRECOMMIT_FETCH else PREVOTE_WAIT
  {
    var m := PrevoteActs(e, ans, c, v, n);
    HandleVoteOk(e, ans, c, v);
  }

  /** A round skip: a prevote that makes more than two thirds of any prevotes of a later round takes the
      node to that round. */
  lemma PrevotesSkip(e: Env, ans: Answers, c: State, v: Vote, n: State)
    requires Inv(e, c) && AppContract(ans) && IsNew(e, c, v) && v.kind == PrevoteType && n == HandleVote(e, ans, c, v)
    requires v.round > c.round && AnyAt(CommitteeOf(e, n), n.votes, PrevoteType, v.round)
    ensures n.height == c.height && n.round == v.round && n.step in {PROPOSE, PREVOTE_FETCH}
  {
    var m := PrevoteActs(e, ans, c, v, n);
    if AnyAt(CommitteeOf(e, m), m.votes, PrevoteType, v.round) {
      RoundBegun(e, ans, m, v.round, n);
    }
  }

  // ---- precommits ---------------------------------------------------------------------

  /** The state at the start of the next height, after a commit of the majority of `t` in `round`: the
      certificate is the votes of `t`, broadcast unless a commit was received, and `t` is kept. */
  ghost predicate StartsHeight(c: State, round: int, t: Tally, n: State) {
    && n.height == c.height + 1 && n.round == 0 && n.step == NEW_HEIGHT && n.commitRound == -1
    && n.proposal == None && n.lockedRound == -1 && n.lockedProposal == None
    && n.votes == NewVotes(c.height + 1, t.maj23) && n.lastCommittedData == t.maj23 && n.lastCommit == Some(t)
    && n.hasRecvCommitRecords == false
    && n.journal.commits == c.journal.commits +
      [CommitRecord(c.height, round, t.maj23, t.base, VotesFor(t, t.maj23).votes, !c.hasRecvCommitRecords)]
    && n.journal.ticks == c.journal.ticks + [Position(n)] && n.journal.sent == c.journal.sent
  }

  /** The node has added a precommit, and nothing else changed. */
  ghost predicate AddsPrecommit(e: Env, c: State, v: Vote, m: State) {
    && m == c.(votes := AddVoteIn(CommitteeOf(e, c), c.votes, v), journal := c.journal.(accepted := c.journal.accepted + {v}))
    && HoldsVote(m, v)
  }

  lemma PrecommitAdded(e: Env, c: State, v: Vote, m: State)
    requires Inv(e, c) && IsNew(e, c, v) && v.kind == PrecommitType && m == Record(e, c, v)
    ensures AddsPrecommit(e, c, v, m) && JudgeIn(CommitteeOf(e, c), c.votes, v) == Added
    ensures Base(e, m) && AtRest(m) && NoneAhead(CommitteeOf(e, m), m.votes, m.round, (PrecommitType, v.round))
  {
    AddedIsNew(e, c, v);
    NewIsHeld(e, c, v);
    RecordBase(e, c, v);
    RecordedAhead(e, c, v);
  }

  /** The node goes to a round if it is not there yet. */
  ghost predicate Reaches(e: Env, ans: Answers, m: State, round: int, a: State) {
    if StartsRound(m, round) then BeginsRound(e, ans, m, round, a) else a == m
  }

  lemma EnterNewRoundReaches(e: Env, ans: Answers, m: State, round: int, a: State)
    requires Base(e, m) && a == EnterNewRound(e, ans, m, m.height, round)
    ensures Reaches(e, ans, m, round, a)
  {
    if StartsRound(m, round) {
      RoundMayBegin(e, m, round);
      EnterNewRoundActs(e, ans, m, round, a);
    }
  }

  /** The node precommits in a round if it is there and has not precommitted yet. */
  ghost predicate PrecommitsIn(e: Env, a: State, round: int, p: State) {
    if a.round == round && a.step < PRECOMMIT then Precommits(e, a, p) else p == a
  }

  lemma EnterPrecommitIn(e: Env, a: State, round: int, p: State)
    requires Base(e, a) && NoPolkaAhead(a.votes, a.round) && a.round >= round && p == EnterPrecommit(e, a, a.height, round)
    ensures PrecommitsIn(e, a, round, p)
  {
    if a.round == round && a.step < PRECOMMIT {
      PolkaCurrent(e, a);
      EnterPrecommitActs(e, a, p);
    }
  }

  lemma CommittedStarts(c: State, round: int, t: Tally, n: State)
    requires n == Committed(c, round, t)
    ensures StartsHeight(c, round, t, n)
  {
  }

  lemma MajorityActs(e: Env, ans: Answers, m: State, round: int, t: Tally) returns (a: State, p: State, b: State)
    requires Base(e, m) && AtRest(m) && NoneAhead(CommitteeOf(e, m), m.votes, m.round, (PrecommitType, round))
    requires AppContract(ans) && round >= 0 && TallyAt(m.votes, PrecommitType, round) == Some(t) && t.maj23 != NIL
    ensures a == EnterNewRound(e, ans, m, m.height, round) && p == EnterPrecommit(e, a, m.height, round)
    ensures b == EnterCommit(ans, p, m.height, round) && b.height == m.height + 1
    ensures Reaches(e, ans, m, round, a) && PrecommitsIn(e, a, round, p) && StartsHeight(p, round, t, b) && Base(e, b)
  {
    a := EnterNewRound(e, ans, m, m.height, round);
    EnterNewRoundReaches(e, ans, m, round, a);
    ToCommitRound(e, ans, m, round, a);
    p := EnterPrecommit(e, a, m.height, round);
    EnterPrecommitIn(e, a, round, p);
    ThroughPrecommit(e, a, round);
    b := Committed(p, round, t);
    EnterCommitOk(e, ans, p, round, t);
    CommittedStarts(p, round, t, b);
  }

  lemma MajorityUnfolds(e: Env, ans: Answers, m: State, v: Vote, t: Tally, b: State, n: State)
    requires TallyAt(m.votes, PrecommitType, v.round) == Some(t) && t.maj23 != NIL && n == AfterPrecommit(e, ans, m, v)
    requires b == EnterCommit(ans, EnterPrecommit(e, EnterNewRound(e, ans, m, m.height, v.round), m.height, v.round), m.height, v.round)
    ensures n == if e.skipTimeoutCommit && HasAll(CommitteeOf(e, b), t) then EnterNewRound(e, ans, b, b.height, 0) else b
  {
  }

  lemma SplitUnfolds(e: Env, ans: Answers, m: State, v: Vote, a: State, n: State)
    requires MajAt(m.votes, PrecommitType, v.round) == NIL && n == AfterPrecommit(e, ans, m, v)
    requires a == EnterNewRound(e, ans, m, m.height, v.round)
    ensures n == if m.round <= v.round && AnyAt(CommitteeOf(e, m), m.votes, PrecommitType, v.round)
                 then EnterPrecommitWait(e, a, m.height, v.round) else m
  {
  }

  /** Round 0 of the next height begins without the commit timeout, if it may be skipped and everybody
      has precommitted. */
  ghost predicate MaySkip(e: Env, ans: Answers, b: State, t: Tally, n: State) {
    if e.skipTimeoutCommit && HasAll(CommitteeOf(e, b), t) then BeginsRound(e, ans, b, 0, n) else n == b
  }

  lemma SkipActs(e: Env, ans: Answers, b: State, t: Tally, n: State)
    requires Base(e, b) && b.round == 0 && b.step == NEW_HEIGHT
    requires n == if e.skipTimeoutCommit && HasAll(CommitteeOf(e, b), t) then EnterNewRound(e, ans, b, b.height, 0) else b
    ensures MaySkip(e, ans, b, t, n)
  {
    if n != b {
      EnterNewRoundReaches(e, ans, b, 0, EnterNewRound(e, ans, b, b.height, 0));
    } else if e.skipTimeoutCommit && HasAll(CommitteeOf(e, b), t) {
      EnterNewRoundReaches(e, ans, b, 0, n);
    }
  }

  lemma WaitUnfolds(e: Env, a: State, n: State)
    requires AnyAt(CommitteeOf(e, a), a.votes, PrecommitType, a.round) && n == EnterPrecommitWait(e, a, a.height, a.round)
    ensures if a.step < PRECOMMIT_WAIT then WaitsAt(a, PRECOMMIT_WAIT, n) else n == a
  {
  }

  lemma MajorityThen(e: Env, ans: Answers, m: State, v: Vote, t: Tally, n: State) returns (a: State, p: State, b: State)
    requires Base(e, m) && AtRest(m) && NoneAhead(CommitteeOf(e, m), m.votes, m.round, (PrecommitType, v.round))
    requires AppContract(ans) && v.round >= 0 && n == AfterPrecommit(e, ans, m, v)
    requires TallyAt(m.votes, PrecommitType, v.round) == Some(t) && t.maj23 != NIL
    ensures Reaches(e, ans, m, v.round, a) && PrecommitsIn(e, a, v.round, p) && StartsHeight(p, v.round, t, b)
    ensures MaySkip(e, ans, b, t, n)
  {
    a, p, b := MajorityActs(e, ans, m, v.round, t);
    MajorityUnfolds(e, ans, m, v, t, b, n);
    SkipActs(e, ans, b, t, n);
  }

  /** A precommit that completes a majority: the node goes to that round, precommits there, commits the
      majority and starts the next height; its round 0 begins at once if the commit timeout may be
      skipped and everybody has precommitted. */
  lemma PrecommitMajorityActs(e: Env, ans: Answers, c: State, v: Vote, t: Tally, n: State)
    returns (m: State, a: State, p: State, b: State)
    requires Inv(e, c) && AppContract(ans) && IsNew(e, c, v) && v.kind == PrecommitType && n == HandleVote(e, ans, c, v)
    requires TallyAt(AddVoteIn(CommitteeOf(e, c), c.votes, v), PrecommitType, v.round) == Some(t) && t.maj23 != NIL
    ensures AddsPrecommit(e, c, v, m) && Reaches(e, ans, m, v.round, a) && PrecommitsIn(e, a, v.round, p)
    ensures StartsHeight(p, v.round, t, b) && MaySkip(e, ans, b, t, n)
  {
    m := Record(e, c, v);
    PrecommitAdded(e, c, v, m);
    AddedThen(e, ans, c, v, n);
    a, p, b := MajorityThen(e, ans, m, v, t, n);
  }

  /** What follows a precommit without a majority: with more than two thirds of any precommits of this or
      a later round the node goes to that round and waits there; otherwise nothing. */
  ghost predicate ActsOnSplit(e: Env, ans: Answers, m: State, round: int, n: State) {
    if AnyAt(CommitteeOf(e, m), m.votes, PrecommitType, round) && round >= m.round then
      exists a ::
        && Reaches(e, ans, m, round, a)
        && if a.step < PRECOMMIT_WAIT then WaitsAt(a, PRECOMMIT_WAIT, n) else n == a
    else n == m
  }

  lemma AfterSplitActs(e: Env, ans: Answers, m: State, v: Vote, n: State)
    requires ReadyFor(e, m, PrecommitType, v.round) && MajAt(m.votes, PrecommitType, v.round) == NIL
    requires n == AfterPrecommit(e, ans, m, v)
    ensures ActsOnSplit(e, ans, m, v.round, n)
  {
    var a := EnterNewRound(e, ans, m, m.height, v.round);
    SplitUnfolds(e, ans, m, v, a, n);
    if AnyAt(CommitteeOf(e, m), m.votes, PrecommitType, v.round) && v.round >= m.round {
      EnterNewRoundReaches(e, ans, m, v.round, a);
      ReachedKeepsAnswers(e, ans, m, v.round, a);
      WaitUnfolds(e, a, n);
    }
  }

  /** What a node does with a precommit it adds that makes no majority. */
  lemma PrecommitSplitActs(e: Env, ans: Answers, c: State, v: Vote, n: State) returns (m: State)
    requires Inv(e, c) && IsNew(e, c, v) && v.kind == PrecommitType && n == HandleVote(e, ans, c, v)
    requires MajAt(AddVoteIn(CommitteeOf(e, c), c.votes, v), PrecommitType, v.round) == NIL
    ensures AddsPrecommit(e, c, v, m) && ActsOnSplit(e, ans, m, v.round, n)
  {
    m := Record(e, c, v);
    PrecommitAdded(e, c, v, m);
    AddedThen(e, ans, c, v, n);
    AfterSplitActs(e, ans, m, v, n);
  }

  lemma ReachedKeepsAnswers(e: Env, ans: Answers, m: State, round: int, a: State)
    requires Reaches(e, ans, m, round, a) && round >= m.round
    ensures a.height == m.height && a.round == round
    ensures AnyAt(CommitteeOf(e, a), a.votes, PrecommitType, round) == AnyAt(CommitteeOf(e, m), m.votes, PrecommitType, round)
    ensures MajAt(a.votes, PrecommitType, round) == MajAt(m.votes, PrecommitType, round)
  {
    if StartsRound(m, round) {
      RoundBegun(e, ans, m, round, a);
      SetRoundAny(CommitteeOf(e, m), m.votes, round + 1);
      SetRoundMaj(m.votes, round + 1);
    }
  }

  /** A split of precommits is not a dead end either: an added precommit of the node's round or a later
      one that makes more than two thirds of any, without a majority, leaves it in that round at
      precommit-wait with the timeout scheduled that takes it to the next round. */
  lemma PrecommitsLeadOn(e: Env, ans: Answers, c: State, v: Vote, n: State)
    requires Inv(e, c) && AppContract(ans) && IsNew(e, c, v) && v.kind == PrecommitType && n == HandleVote(e, ans, c, v)
    requires v.round >= c.round && n.height == c.height && AnyAt(CommitteeOf(e, n), n.votes, PrecommitType, v.round)
    ensures n.round == v.round && n.step == PRECOMMIT_WAIT && LastTickIs(n.journal.ticks, Position(n))
  {
    HandleVoteOk(e, ans, c, v);
    if MajAt(AddVoteIn(CommitteeOf(e, c), c.votes, v), PrecommitType, v.round) == NIL {
      SplitLeadsOn(e, ans, c, v, n);
    } else {
      MajorityLeadsOut(e, ans, c, v, n);
    }
  }

  lemma SplitLeadsOn(e: Env, ans: Answers, c: State, v: Vote, n: State)
    requires Inv(e, c) && IsNew(e, c, v) && v.kind == PrecommitType && n == HandleVote(e, ans, c, v)
    requires MajAt(AddVoteIn(CommitteeOf(e, c), c.votes, v), PrecommitType, v.round) == NIL
    requires v.round >= c.round && AnyAt(CommitteeOf(e, n), n.votes, PrecommitType, v.round)
    ensures n.round == v.round && n.step >= PRECOMMIT_WAIT
  {
    var m := PrecommitSplitActs(e, ans, c, v, n);
    if AnyAt(CommitteeOf(e, m), m.votes, PrecommitType, v.round) {
      var a :| Reaches(e, ans, m, v.round, a) && if a.step < PRECOMMIT_WAIT then WaitsAt(a, PRECOMMIT_WAIT, n) else n == a;
      ReachedKeepsAnswers(e, ans, m, v.round, a);
    }
  }

  lemma MajorityLeadsOut(e: Env, ans: Answers, c: State, v: Vote, n: State)
    requires Inv(e, c) && AppContract(ans) && IsNew(e, c, v) && v.kind == PrecommitType && n == HandleVote(e, ans, c, v)
    requires MajAt(AddVoteIn(CommitteeOf(e, c), c.votes, v), PrecommitType, v.round) != NIL
    ensures n.height == c.height + 1
  {
    var t := TallyAt(AddVoteIn(CommitteeOf(e, c), c.votes, v), PrecommitType, v.round).value;
    var m, a, p, b := PrecommitMajorityActs(e, ans, c, v, t, n);
    StayOrBegin(e, ans, m, v.round, a);
    MajorityLeaves(e, ans, p, v.round, t, b, n);
  }

  lemma StayOrBegin(e: Env, ans: Answers, m: State, round: int, a: State)
    requires Reaches(e, ans, m, round, a)
    ensures a.height == m.height
  {
    if StartsRound(m, round) {
      RoundBegun(e, ans, m, round, a);
    }
  }

  lemma MajorityLeaves(e: Env, ans: Answers, p: State, round: int, t: Tally, b: State, n: State)
    requires StartsHeight(p, round, t, b) && (n == b || BeginsRound(e, ans, b, 0, n))
    ensures n.height == p.height + 1
  {
    if n != b {
      RoundBegun(e, ans, b, 0, n);
    }
  }

  // ---- everything else ----------------------------------------------------------------

  /** A late precommit of the last height is kept with the certificate; once everybody is in it the next
      round may start without the timeout.  Any other vote of the last height changes nothing. */
  lemma StragglerActs(e: Env, ans: Answers, c: State, v: Vote, n: State)
    requires Inv(e, c) && v.height + 1 == c.height && n == HandleVote(e, ans, c, v)
    ensures var k := CommitteeOf(e, c);
      if c.step == NEW_HEIGHT && v.kind == PrecommitType && c.lastCommit.Some? && Judge(k, c.lastCommit.value, v) == Added
      then
        var b := c.(lastCommit := Some(AddVote(k, c.lastCommit.value, v)));
        && Holds(b.lastCommit.value, v.proposed, v.address)
        && MaySkip(e, ans, b, b.lastCommit.value, n)
      else n == c
  {
    if c.step == NEW_HEIGHT && v.kind == PrecommitType && c.lastCommit.Some? {
      var b := c.(lastCommit := Some(AddVote(CommitteeOf(e, c), c.lastCommit.value, v)));
      if n != b {
        RoundMayBegin(e, c, 0);
        EnterNewRoundActs(e, ans, b, 0, n);
      }
    }
  }

  /** A vote for another height, a kind that is not collected, or a round beyond the watermark changes
      nothing; a refused one at most starts the tracking of its round. */
  lemma OtherVoteActs(e: Env, ans: Answers, c: State, v: Vote, n: State)
    requires Inv(e, c) && n == HandleVote(e, ans, c, v)
    ensures v.height != c.height && v.height + 1 != c.height ==> n == c
    ensures v.height == c.height && v.kind != ProposalType && !Relevant(c, v) ==> n == c
    ensures Relevant(c, v) && !IsNew(e, c, v) ==>
      n == c.(votes := n.votes) && n.votes.rounds.Keys == c.votes.rounds.Keys + {v.round}
      && forall r :: r in c.votes.rounds ==> n.votes.rounds[r] == c.votes.rounds[r]
  {
    if Relevant(c, v) {
      AddedIsNew(e, c, v);
    }
  }

  /** What a node accepts: validators take exactly the votes that are new to them. */
  lemma AcceptsExactly(e: Env, rep: Replies, c: State, v: Vote, n: State)
    requires Inv(e, c) && AppReplies(rep) && n == Handle(e, rep, c, VoteMsg(v))
    ensures n.journal.accepted == c.journal.accepted + if IsValidator(e, c.height) && IsNew(e, c, v) then {v} else {}
    ensures n == if IsValidator(e, c.height) then HandleVote(e, rep(0), c, v) else c
  {
    if IsValidator(e, c.height) {
      AcceptsVote(e, rep(0), c, v, n);
    }
  }

  lemma NewPrevoteAccepted(e: Env, ans: Answers, c: State, v: Vote, n: State)
    requires Inv(e, c) && IsNew(e, c, v) && v.kind == PrevoteType && n == AfterPrevote(e, ans, Record(e, c, v), v)
    requires v in Record(e, c, v).journal.accepted
    ensures v in n.journal.accepted
  {
    ReconsideredOk(e, c, v, Reconsidered(Record(e, c, v), v));
    PrevoteKeepsAccepted(e, ans, Record(e, c, v), v, n);
  }

  lemma PrevoteKeepsAccepted(e: Env, ans: Answers, r: State, v: Vote, n: State)
    requires var m := Reconsidered(r, v);
      && Base(e, m) && AtRest(m) && NoCommitted(m.votes, -1)
      && NoneAhead(CommitteeOf(e, m), m.votes, m.round, (PrevoteType, v.round))
    requires n == AfterPrevote(e, ans, r, v)
    ensures n.journal.accepted == r.journal.accepted
  {
    AfterPrevoteOk(e, ans, r, v);
  }

  lemma NewPrecommitAccepted(e: Env, ans: Answers, c: State, v: Vote, n: State)
    requires Inv(e, c) && AppContract(ans) && IsNew(e, c, v) && v.kind == PrecommitType
    requires v in Record(e, c, v).journal.accepted && n == AfterPrecommit(e, ans, Record(e, c, v), v)
    ensures v in n.journal.accepted
  {
    PrecommitAdded(e, c, v, Record(e, c, v));
    RecordedAhead(e, c, v);
    AfterPrecommitOk(e, ans, Record(e, c, v), v);
  }

  lemma NewIsAccepted(e: Env, ans: Answers, c: State, v: Vote, n: State)
    requires Inv(e, c) && AppContract(ans) && IsNew(e, c, v) && n == HandleVote(e, ans, c, v)
    ensures v in n.journal.accepted
  {
    AddedThen(e, ans, c, v, n);
    if v.kind == PrevoteType {
      NewPrevoteAccepted(e, ans, c, v, n);
    } else {
      NewPrecommitAccepted(e, ans, c, v, n);
    }
  }

  lemma OldIsNotAccepted(e: Env, ans: Answers, c: State, v: Vote, n: State)
    requires Inv(e, c) && !IsNew(e, c, v) && v.height == c.height && n == HandleVote(e, ans, c, v)
    requires c.journal.accepted <= n.journal.accepted
    ensures n.journal.accepted == c.journal.accepted
  {
    if v.kind == ProposalType {
      EnterPrevoteAccepts(e, ans, c.(proposal := Some(v)), c.height, c.round);
    } else {
      OtherVoteActs(e, ans, c, v, n);
    }
  }

  lemma EnterPrevoteAccepts(e: Env, ans: Answers, c: State, height: int, round: int)
    ensures EnterPrevote(e, ans, c, height, round).journal.accepted == c.journal.accepted
  {
  }

  lemma AcceptsVote(e: Env, ans: Answers, c: State, v: Vote, n: State)
    requires Inv(e, c) && AppContract(ans) && n == HandleVote(e, ans, c, v)
    ensures n.journal.accepted == c.journal.accepted + if IsNew(e, c, v) then {v} else {}
  {
    HandleVoteOk(e, ans, c, v);
    if IsNew(e, c, v) {
      NewIsAccepted(e, ans, c, v, n);
    } else if v.height == c.height {
      OldIsNotAccepted(e, ans, c, v, n);
    }
  }

  // ---- where proposals come from --------------------------------------------------------

  /** The node holds a proposal of its own, being the proposer of its round. */
  ghost predicate OwnProposal(e: Env, ans: Answers, n: State) {
    n.proposal.Some? && n.proposal.value.address == e.self && n.proposal.value.kind == ProposalType
    && n.proposal.value.round == n.round && IsProposer(e, ans, n, n.round)
  }

  lemma BegunProposal(e: Env, ans: Answers, c: State, round: int, n: State)
    requires BeginsRound(e, ans, c, round, n)
    ensures n.proposal == None || n.proposal == c.proposal || OwnProposal(e, ans, n)
  {
  }

  /** A newly held proposal is the one just received, from the proposer of the round and accepted by the
      application, or the node's own. */
  lemma NewProposal(e: Env, ans: Answers, c: State, v: Vote, n: State)
    requires Inv(e, c) && AppContract(ans) && n == HandleVote(e, ans, c, v)
    requires n.proposal.Some? && n.proposal != c.proposal
    ensures (TakesProposal(e, ans, c, v) && n.proposal == Some(v)) || OwnProposal(e, ans, n)
  {
    if IsNew(e, c, v) && v.kind == PrevoteType {
      PrevoteProposal(e, ans, c, v, n);
    } else if IsNew(e, c, v) {
      PrecommitProposal(e, ans, c, v, n);
    } else {
      OtherProposal(e, ans, c, v, n);
    }
  }

  lemma PrevoteProposal(e: Env, ans: Answers, c: State, v: Vote, n: State)
    requires Inv(e, c) && IsNew(e, c, v) && v.kind == PrevoteType && n == HandleVote(e, ans, c, v)
    ensures n.proposal == None || n.proposal == c.proposal || OwnProposal(e, ans, n)
  {
    var m := PrevoteActs(e, ans, c, v, n);
    ActsProposal(e, ans, m, v.round, n);
  }

  lemma ActsProposal(e: Env, ans: Answers, m: State, round: int, n: State)
    requires ActsOnPrevotes(e, ans, m, round, n)
    ensures n.proposal == None || n.proposal == m.proposal || OwnProposal(e, ans, n)
  {
    if AnyAt(CommitteeOf(e, m), m.votes, PrevoteType, round) && round > m.round {
      BegunProposal(e, ans, m, round, n);
    }
  }

  lemma PrecommitProposal(e: Env, ans: Answers, c: State, v: Vote, n: State)
    requires Inv(e, c) && AppContract(ans) && IsNew(e, c, v) && v.kind == PrecommitType && n == HandleVote(e, ans, c, v)
    ensures n.proposal == None || n.proposal == c.proposal || OwnProposal(e, ans, n)
  {
    if MajAt(AddVoteIn(CommitteeOf(e, c), c.votes, v), PrecommitType, v.round) == NIL {
      var m := PrecommitSplitActs(e, ans, c, v, n);
      SplitProposal(e, ans, m, v.round, n);
    } else {
      var t := TallyAt(AddVoteIn(CommitteeOf(e, c), c.votes, v), PrecommitType, v.round).value;
      var m, a, p, b := PrecommitMajorityActs(e, ans, c, v, t, n);
      SkipProposal(e, ans, b, t, n);
    }
  }

  lemma SplitProposal(e: Env, ans: Answers, m: State, round: int, n: State)
    requires ActsOnSplit(e, ans, m, round, n)
    ensures n.proposal == None || n.proposal == m.proposal || OwnProposal(e, ans, n)
  {
    if n != m {
      var a :| Reaches(e, ans, m, round, a) && if a.step < PRECOMMIT_WAIT then WaitsAt(a, PRECOMMIT_WAIT, n) else n == a;
      if StartsRound(m, round) {
        BegunProposal(e, ans, m, round, a);
      }
    }
  }

  lemma SkipProposal(e: Env, ans: Answers, b: State, t: Tally, n: State)
    requires MaySkip(e, ans, b, t, n)
    ensures n.proposal == None || n.proposal == b.proposal || OwnProposal(e, ans, n)
  {
    if n != b {
      BegunProposal(e, ans, b, 0, n);
    }
  }

  lemma OtherProposal(e: Env, ans: Answers, c: State, v: Vote, n: State)
    requires Inv(e, c) && !IsNew(e, c, v) && n == HandleVote(e, ans, c, v)
    ensures n.proposal == None || n.proposal == c.proposal || OwnProposal(e, ans, n)
      || (TakesProposal(e, ans, c, v) && n.proposal == Some(v))
  {
    if v.height + 1 == c.height {
      StragglerProposal(e, ans, c, v, n);
    } else if v.height == c.height && v.kind == ProposalType {
      ProposalActs(e, ans, c, v, n);
    } else {
      OtherVoteActs(e, ans, c, v, n);
    }
  }

  lemma StragglerProposal(e: Env, ans: Answers, c: State, v: Vote, n: State)
    requires Inv(e, c) && v.height + 1 == c.height && n == HandleVote(e, ans, c, v)
    ensures n.proposal == None || n.proposal == c.proposal || OwnProposal(e, ans, n)
  {
    StragglerActs(e, ans, c, v, n);
    if n != c {
      var b := c.(lastCommit := Some(AddVote(CommitteeOf(e, c), c.lastCommit.value, v)));
      SkipProposal(e, ans, b, b.lastCommit.value, n);
    }
  }
}
