/** A committee of one: three inputs take a node from the start of a height to a commit of what it
    proposed.  So the statements about commits in reachable states are about something. */
module SoleValidator {
  import opened Messages
  import opened Committees
  import opened Tallies
  import opened HeightVotes
  import opened CoreSpec
  import opened CoreInvariant
  import opened CoreSteps
  import opened CoreHandlers
  import opened CatchUp
  import Runs = CoreRuns

  /** The node has all the power, and its own signatures verify. */
  ghost predicate Alone(e: Env, h: int) {
    && e.committee(h).power == map[e.self := e.committee(h).total] && e.committee(h).total > 0
    && forall v :: e.committee(h).verify(Sign(e, v))
  }

  /** At the start of a height, before any vote. */
  ghost predicate Fresh(c: State) {
    && c.round == 0 && c.step == NEW_HEIGHT && c.proposal.None? && c.lockedRound == -1 && c.lockedProposal.None?
    && c.votes == NewVotes(c.height, c.lastCommittedData)
  }

  ghost function Own(e: Env, height: int, base: ProposedData, kind: VoteType, d: ProposedData): Vote {
    Sign(e, NewVote(kind, height, 0, d, base))
  }

  /** The application makes the node the proposer of round 0 and would approve what it decides. */
  ghost predicate Proposing(e: Env, ans: Answers, h: int, d: ProposedData) {
    ans.proposer(h, 0) == e.self && ans.decide(h) == d && d != NIL && ans.validate(h, d)
  }

  /** The node has proposed and prevoted `d`, and has no prevotes yet. */
  ghost predicate Prevoted(c: State, n: State, d: ProposedData) {
    && Stays(c, n) && n.round == 0 && n.step == PREVOTE_FETCH && n.panicked == c.panicked
    && n.proposal.Some? && n.proposal.value.proposed == d && n.lockedProposal.None?
    && TallyAt(n.votes, PrevoteType, 0) == Some(NewTally(n.height, 0, PrevoteType, n.lastCommittedData))
  }

  ghost predicate Signed(c: State, n: State, v: Vote) {
    |n.journal.sent| > |c.journal.sent| && n.journal.sent[|n.journal.sent| - 1].vote == v
  }

  lemma Proposes(e: Env, ans: Answers, c: State, d: ProposedData, n: State)
    requires Alone(e, c.height) && Fresh(c) && Proposing(e, ans, c.height, d)
    requires n == EnterNewRound(e, ans, c, c.height, 0)
    ensures Prevoted(c, n, d) && Signed(c, n, Own(e, c.height, c.lastCommittedData, PrevoteType, d))
  {
  }

  lemma StartIsFresh(e: Env, app: AppState)
    requires app.lastHeight >= 0
    ensures Runs.Reachable(e, StartState(app)) && Fresh(StartState(app)) && !StartState(app).panicked
  {
    assert Runs.Legal(e, app, []) && Runs.After(e, app, []) == StartState(app);
  }

  lemma SolePower(e: Env, h: int)
    requires Alone(e, h)
    ensures HasQuorum(e.committee(h), {e.self}) && e.committee(h).total >= Quorum(e.committee(h).total)
  {
    var k := e.committee(h);
    PowerRemove(k.power, {e.self}, e.self);
    assert {e.self} - {e.self} == {};
  }

  /** The first vote of the sole validator is a majority at once. */
  lemma FirstVoteDecides(e: Env, c: State, kind: VoteType, d: ProposedData)
    requires Alone(e, c.height) && d != NIL && Collected(kind)
    requires TallyAt(c.votes, kind, 0) == Some(NewTally(c.height, 0, kind, c.lastCommittedData))
    ensures var v := Own(e, c.height, c.lastCommittedData, kind, d);
      && JudgeIn(CommitteeOf(e, c), c.votes, v) == Added
      && MajAt(AddVoteIn(CommitteeOf(e, c), c.votes, v), kind, 0) == d
  {
    var v := Own(e, c.height, c.lastCommittedData, kind, d);
    SolePower(e, c.height);
    JudgeTallyAt(c.votes, v);
    AddVoteInTally(CommitteeOf(e, c), c.votes, v);
  }

  /** A polka for the proposal makes an unlocked node lock and precommit it. */
  lemma LocksOnPolka(e: Env, c: State, d: ProposedData, n: State)
    requires PolkaIsCurrent(c) && IsValidator(e, c.height) && c.round == 0 && c.step < PRECOMMIT && d != NIL
    requires MajAt(c.votes, PrevoteType, 0) == d && c.lockedRound == -1
    requires c.proposal.Some? && c.proposal.value.proposed == d
    requires n == EnterPrecommit(e, c, c.height, 0)
    ensures Stays(c, n) && n.round == 0 && n.lockedRound == 0 && n.panicked == c.panicked
    ensures Signed(c, n, Own(e, c.height, c.lastCommittedData, PrecommitType, d))
  {
    DoPrecommitUnfolds(e, c);
    EnterPrecommitUnfolds(e, c, DoPrecommit(e, c, c.height, 0));
  }

  /** The prevote is recorded and makes a polka; the lock and the proposal stay as they are. */
  lemma PolkaAppears(e: Env, c: State, d: ProposedData, v: Vote, m: State)
    requires Inv(e, c) && Alone(e, c.height) && Prevoted(c, c, d) && d != NIL
    requires v == Own(e, c.height, c.lastCommittedData, PrevoteType, d) && m == Record(e, c, v)
    ensures JudgeIn(CommitteeOf(e, c), c.votes, v) == Added && Reconsidered(m, v) == m
    ensures MajAt(m.votes, PrevoteType, 0) == d && PolkaIsCurrent(m)
  {
    FirstVoteDecides(e, c, PrevoteType, d);
    ReconsideredOk(e, c, v, m);
    NoneAheadNoPolka(CommitteeOf(e, m), m.votes, 0);
    PolkaCurrent(e, m);
  }

  /** Its prevote comes back, it locks and precommits. */
  lemma Locks(e: Env, ans: Answers, c: State, d: ProposedData, n: State)
    requires Inv(e, c) && Alone(e, c.height) && Prevoted(c, c, d) && d != NIL
    requires n == HandleVote(e, ans, c, Own(e, c.height, c.lastCommittedData, PrevoteType, d))
    ensures Stays(c, n) && n.round == 0 && n.lockedRound == 0 && n.panicked == c.panicked
    ensures Signed(c, n, Own(e, c.height, c.lastCommittedData, PrecommitType, d))
  {
    var v := Own(e, c.height, c.lastCommittedData, PrevoteType, d);
    var m := Record(e, c, v);
    PolkaAppears(e, c, d, v, m);
    LocksOnPolka(e, m, d, n);
  }

  /** Its precommit comes back, it commits. */
  lemma Decides(e: Env, ans: Answers, c: State, d: ProposedData, n: State)
    requires Inv(e, c) && !c.panicked && AppContract(ans) && Alone(e, c.height) && c.round == 0 && d != NIL
    requires n == HandleVote(e, ans, c, Own(e, c.height, c.lastCommittedData, PrecommitType, d))
    ensures Commits(c, n, 0, d)
  {
    var v := Own(e, c.height, c.lastCommittedData, PrecommitType, d);
    var votes, k := [Some(v)], CommitteeOf(e, c);
    SolePower(e, c.height);
    assert VerifiedSigners(k, votes) == {e.self} by {
      assert votes[0].value.address == e.self;
    }
    assert {} + VerifiedSigners(k, votes) == {e.self};
    assert FitsHere(c, 0, d, v);
    var rep: Replies := i => ans;
    CertificateCommits(e, rep, c, votes, 0, d, {});
    assert votes[1..] == [];
    assert HandleVotes(e, rep, n, []) == n;
  }

  /** The node that has all the power commits what it proposes, from the start of any height it can
      reach, by its own timeout and the two votes it signs. */
  lemma SoleValidatorCommits(e: Env, rep: Replies, c: State, d: ProposedData) returns (c1: State, c2: State, c3: State)
    requires Runs.Reachable(e, c) && !c.panicked && Alone(e, c.height) && Fresh(c)
    requires AppReplies(rep) && Proposing(e, rep(0), c.height, d)
    ensures Position(c) in c.journal.ticks
    ensures c1 == Handle(e, rep, c, Tock(Position(c)))
    ensures Signed(c, c1, Own(e, c.height, c.lastCommittedData, PrevoteType, d))
    ensures c2 == Handle(e, rep, c1, VoteMsg(Own(e, c.height, c.lastCommittedData, PrevoteType, d)))
    ensures Signed(c1, c2, Own(e, c.height, c.lastCommittedData, PrecommitType, d))
    ensures c3 == Handle(e, rep, c2, VoteMsg(Own(e, c.height, c.lastCommittedData, PrecommitType, d)))
    ensures Commits(c, c3, 0, d)
  {
    Runs.ReachableInv(e, c);
    c1 := AfterTimeout(e, rep, c, d);
    c2 := AfterPrevote(e, rep, c1, d);
    c3 := AfterPrecommit(e, rep, c2, d);
  }

  lemma AfterTimeout(e: Env, rep: Replies, c: State, d: ProposedData) returns (n: State)
    requires Inv(e, c) && !c.panicked && Alone(e, c.height) && Fresh(c) && AppReplies(rep) && Proposing(e, rep(0), c.height, d)
    ensures Position(c) in c.journal.ticks && n == Handle(e, rep, c, Tock(Position(c)))
    ensures Inv(e, n) && Prevoted(c, n, d) && Signed(c, n, Own(e, c.height, c.lastCommittedData, PrevoteType, d))
  {
    n := EnterNewRound(e, rep(0), c, c.height, 0);
    TimeoutStartsRound(e, rep, c);
    NewRoundTimeout(e, rep(0), c, 0, n);
    Proposes(e, rep(0), c, d, n);
  }

  lemma TimeoutStartsRound(e: Env, rep: Replies, c: State)
    requires c.step == NEW_HEIGHT
    ensures Handle(e, rep, c, Tock(Position(c))) == EnterNewRound(e, rep(0), c, c.height, 0)
  {
    TimeoutUnfolds(e, rep(0), c, Handle(e, rep, c, Tock(Position(c))));
  }

  lemma AfterPrevote(e: Env, rep: Replies, c: State, d: ProposedData) returns (n: State)
    requires Inv(e, c) && !c.panicked && Alone(e, c.height) && Prevoted(c, c, d) && AppReplies(rep) && d != NIL
    ensures n == Handle(e, rep, c, VoteMsg(Own(e, c.height, c.lastCommittedData, PrevoteType, d)))
    ensures Inv(e, n) && Stays(c, n) && n.round == 0 && n.panicked == c.panicked
    ensures Signed(c, n, Own(e, c.height, c.lastCommittedData, PrecommitType, d))
  {
    var v := Own(e, c.height, c.lastCommittedData, PrevoteType, d);
    n := HandleVote(e, rep(0), c, v);
    HandleVoteOk(e, rep(0), c, v);
    Locks(e, rep(0), c, d, n);
  }

  lemma AfterPrecommit(e: Env, rep: Replies, c: State, d: ProposedData) returns (n: State)
    requires Inv(e, c) && !c.panicked && Alone(e, c.height) && c.round == 0 && AppReplies(rep) && d != NIL
    ensures n == Handle(e, rep, c, VoteMsg(Own(e, c.height, c.lastCommittedData, PrecommitType, d)))
    ensures Commits(c, n, 0, d)
  {
    n := HandleVote(e, rep(0), c, Own(e, c.height, c.lastCommittedData, PrecommitType, d));
    Decides(e, rep(0), c, d, n);
  }

  /** In particular from `Start`. */
  lemma SoleValidatorStarts(e: Env, rep: Replies, app: AppState, d: ProposedData) returns (c1: State, c2: State, c3: State)
    requires app.lastHeight >= 0 && Alone(e, app.lastHeight + 1)
    requires AppReplies(rep) && Proposing(e, rep(0), app.lastHeight + 1, d)
    ensures c1 == Handle(e, rep, StartState(app), Tock(Timeout(app.lastHeight + 1, 0, NEW_HEIGHT)))
    ensures c2 == Handle(e, rep, c1, VoteMsg(Own(e, app.lastHeight + 1, app.lastProposedData, PrevoteType, d)))
    ensures c3 == Handle(e, rep, c2, VoteMsg(Own(e, app.lastHeight + 1, app.lastProposedData, PrecommitType, d)))
    ensures |c3.journal.commits| == 1 && c3.journal.commits[0].data == d && c3.height == app.lastHeight + 2
  {
    StartIsFresh(e, app);
    c1, c2, c3 := SoleValidatorCommits(e, rep, StartState(app), d);
  }
}
