/** The consensus state machine of bftcore.go as functions on values: each handler maps the
    state before to the state after.  What a handler does to the outside (votes it signs,
    timeouts it schedules, commits it hands to the application) is appended to a journal. */
module CoreSpec {
  import opened Messages
  import opened Committees
  import opened Tallies
  import opened HeightVotes

  /** `watermark` of config.go. */
  const WATERMARK := 300

  /** What stays fixed for a node: the committee of each height, its own key and how it signs. */
  datatype Env = Env(
    committee: int -> Committee,
    self: PubKey,
    sign: Vote -> nat,
    signReq: FetchVotesReq -> nat,
    signRsp: FetchVotesRsp -> nat,
    skipTimeoutCommit: bool)

  /** What the application answers while one vote or timeout is handled.  At most two heights are
      involved, and at each of them every question is asked at most once: `accept` is the validation
      of a received proposal, `validate` the one before a prevote. */
  datatype Answers = Answers(
    proposer: (int, int) -> PubKey,
    decide: int -> ProposedData,
    accept: (int, ProposedData) -> bool,
    validate: (int, ProposedData) -> bool,
    afterCommit: (int, ProposedData) -> Option<AppState>,
    history: int -> Option<Commit>)

  /** The answers during one message: for each vote of a list, by the number of votes from it to the
      end of the list, and at 0 for all other inputs. */
  type Replies = nat -> Answers

  /** A signed vote together with every vote the node had accepted when it signed. */
  datatype Sent = Sent(vote: Vote, seen: set<Vote>)

  /** A commit handed to the application: the precommits that prove it, by signer. */
  datatype CommitRecord = CommitRecord(
    height: int, round: int, data: ProposedData, prev: ProposedData, precommits: map<PubKey, Vote>, broadcast: bool)

  /** What a node did since it was started with the application at `start`. */
  datatype Journal = Journal(
    start: AppState,
    sent: seq<Sent>,
    accepted: set<Vote>,
    approved: set<(int, ProposedData)>,
    ticks: seq<Timeout>,
    commits: seq<CommitRecord>)

  /** `RoundState` and the other fields of `Core` that matter to the protocol. */
  datatype State = State(
    height: int,
    round: int,
    step: int,
    proposal: Option<Vote>,
    lockedRound: int,
    lockedProposal: Option<Vote>,
    votes: Votes,
    commitRound: int,
    lastCommit: Option<Tally>,
    lastCommittedData: ProposedData,
    hasRecvCommitRecords: bool,
    panicked: bool,
    journal: Journal)

  datatype Input =
    | VoteMsg(vote: Vote)
    | CommitMsg(commit: Commit)
    | FetchReqMsg(req: FetchVotesReq)
    | FetchRspMsg(rsp: FetchVotesRsp)
    | Tock(timeout: Timeout)

  ghost function Position(c: State): Timeout {
    Timeout(c.height, c.round, c.step)
  }

  function CommitteeOf(e: Env, c: State): Committee {
    e.committee(c.height)
  }

  ghost function Panic(c: State): State {
    c.(panicked := true)
  }

  ghost function UpdateRoundStep(c: State, round: int, step: int): State {
    c.(round := round, step := step)
  }

  ghost function Schedule(c: State, height: int, round: int, step: int): State {
    c.(journal := c.journal.(ticks := c.journal.ticks + [Timeout(height, round, step)]))
  }

  predicate IsValidator(e: Env, height: int) {
    e.self in e.committee(height).power
  }

  function Sign(e: Env, v: Vote): Vote {
    var w := v.(address := e.self);
    w.(signature := e.sign(w))
  }

  /** `signAddVote`: nothing is signed by a node outside the committee. */
  ghost function SignAddVote(e: Env, c: State, v: Vote): State {
    if !IsValidator(e, c.height) then c
    else c.(journal := c.journal.(sent := c.journal.sent + [Sent(Sign(e, v), c.journal.accepted)]))
  }

  ghost function Approve(c: State, d: ProposedData): State {
    c.(journal := c.journal.(approved := c.journal.approved + {(c.height, d)}))
  }

  // ---- prevote ------------------------------------------------------------------------

  ghost function DoPrevote(e: Env, ans: Answers, c: State): State {
    if c.lockedRound >= 0 && c.lockedProposal.Some? then
      SignAddVote(e, c, NewVote(PrevoteType, c.height, c.round, c.lockedProposal.value.proposed, c.lastCommittedData))
    else if c.proposal.Some? && ans.validate(c.height, c.proposal.value.proposed) then
      SignAddVote(e, Approve(c, c.proposal.value.proposed),
        NewVote(PrevoteType, c.height, c.round, c.proposal.value.proposed, c.lastCommittedData))
    else
      SignAddVote(e, c, NewVote(PrevoteType, c.height, c.round, NIL, c.lastCommittedData))
  }

  ghost function EnterPrevoteFetch(c: State, height: int, round: int): State {
    Schedule(UpdateRoundStep(c, round, PREVOTE_FETCH), height, round, PREVOTE_FETCH)
  }

  ghost function EnterPrevote(e: Env, ans: Answers, c: State, height: int, round: int): State {
    if c.height != height || round < c.round || (c.round == round && PREVOTE <= c.step) then c
    else EnterPrevoteFetch(UpdateRoundStep(DoPrevote(e, ans, c), round, PREVOTE), height, round)
  }

  ghost function EnterPrevoteWait(e: Env, c: State, height: int, round: int): State {
    if c.height != height || round < c.round || (c.round == round && PREVOTE_WAIT <= c.step) then c
    else if !AnyAt(CommitteeOf(e, c), c.votes, PrevoteType, round) then Panic(c)
    else UpdateRoundStep(Schedule(c, height, round, PREVOTE_WAIT), round, PREVOTE_WAIT)
  }

  // ---- propose ------------------------------------------------------------------------

  ghost function DoPropose(e: Env, ans: Answers, c: State, height: int, round: int): State {
    var data := if c.lockedRound > -1 && c.lockedProposal.Some? then c.lockedProposal.value.proposed else ans.decide(c.height);
    var proposal := NewVote(ProposalType, height, round, data, c.lastCommittedData);
    SignAddVote(e, c, proposal).(proposal := Some(if IsValidator(e, c.height) then Sign(e, proposal) else proposal))
  }

  ghost function EnterPropose(e: Env, ans: Answers, c: State, height: int, round: int): State {
    if c.height != height || round < c.round || (c.round == round && PROPOSE <= c.step) then c
    else
      var c1 := Schedule(c, height, round, PROPOSE);
      var c2 := if IsValidator(e, c1.height) && ans.proposer(c1.height, c1.round) == e.self
                then DoPropose(e, ans, c1, height, round) else c1;
      var c3 := UpdateRoundStep(c2, round, PROPOSE);
      if c3.proposal.Some? || c3.lockedRound >= 0 then EnterPrevote(e, ans, c3, height, c3.round) else c3
  }

  ghost function EnterNewRound(e: Env, ans: Answers, c: State, height: int, round: int): State {
    if c.height != height || round < c.round || (c.round == round && c.step != NEW_HEIGHT) then c
    else
      var c1 := UpdateRoundStep(c, round, NEW_ROUND);
      var c2 := if round == 0 then c1 else c1.(proposal := None);
      if SetRoundPanics(c2.votes, round + 1) then Panic(c2)
      else EnterPropose(e, ans, c2.(votes := SetRound(c2.votes, round + 1)), height, round)
  }

  // ---- precommit ----------------------------------------------------------------------

  ghost function EnterPrecommitFetch(c: State, height: int, round: int): State {
    Schedule(UpdateRoundStep(c, round, PRECOMMIT_FETCH), height, round, PRECOMMIT_FETCH)
  }

  /** The part of `enterPrecommit` before its deferred step updates. */
  ghost function DoPrecommit(e: Env, c: State, height: int, round: int): State {
    var polka := MajAt(c.votes, PrevoteType, round);
    var precommit := NewVote(PrecommitType, height, round, NIL, c.lastCommittedData);
    if polka == NIL then SignAddVote(e, c, precommit)
    else if PolRound(c.votes, c.votes.round) != round then Panic(c)
    else if c.lockedRound >= 0 && c.lockedProposal.None? then Panic(c)
    else if c.lockedRound >= 0 && c.lockedProposal.value.proposed == polka then
      SignAddVote(e, c.(lockedRound := round), precommit.(proposed := polka))
    else if c.proposal.Some? && c.proposal.value.proposed == polka then
      SignAddVote(e, c.(lockedRound := round, lockedProposal := c.proposal), precommit.(proposed := polka))
    else SignAddVote(e, c.(lockedRound := -1, lockedProposal := None), precommit)
  }

  ghost function EnterPrecommit(e: Env, c: State, height: int, round: int): State {
    if c.height != height || round < c.round || (c.round == round && PRECOMMIT <= c.step) then c
    else
      var c1 := UpdateRoundStep(DoPrecommit(e, c, height, round), round, PRECOMMIT);
      EnterPrecommitFetch(c1, c1.height, c1.round)
  }

  ghost function EnterPrecommitWait(e: Env, c: State, height: int, round: int): State {
    if c.height != height || round < c.round || (c.round == round && PRECOMMIT_WAIT <= c.step) then c
    else if !AnyAt(CommitteeOf(e, c), c.votes, PrecommitType, round) then Panic(c)
    else UpdateRoundStep(Schedule(c, height, round, PRECOMMIT_WAIT), round, PRECOMMIT_WAIT)
  }

  // ---- commit -------------------------------------------------------------------------

  /** The fields `updateToAppState` resets for a new height. */
  ghost function BeginHeight(c: State, app: AppState, last: Option<Tally>): State {
    c.(height := app.lastHeight + 1,
       round := 0,
       step := NEW_HEIGHT,
       proposal := None,
       lockedRound := -1,
       lockedProposal := None,
       commitRound := -1,
       lastCommit := last,
       lastCommittedData := app.lastProposedData,
       votes := NewVotes(app.lastHeight + 1, app.lastProposedData))
  }

  /** `updateToAppState` once a height has been worked on. */
  ghost function UpdateToAppState(c: State, app: Option<AppState>): State {
    if app.None? then c
    else if c.commitRound > -1 && 0 < c.height && c.height > app.value.lastHeight then Panic(c)
    else if c.commitRound > -1 && MajAt(c.votes, PrecommitType, c.commitRound) == NIL then Panic(c)
    else if app.value.lastHeight + 1 == 0 then Panic(c)
    else
      BeginHeight(c, app.value, if c.commitRound > -1 then TallyAt(c.votes, PrecommitType, c.commitRound) else None)
  }

  ghost function ScheduleRound0(c: State): State {
    Schedule(c, c.height, 0, NEW_HEIGHT)
  }

  ghost function DoCommit(ans: Answers, c: State, data: ProposedData): State {
    var t := TallyAt(c.votes, PrecommitType, c.commitRound);
    if t.None? || t.value.maj23 == NIL || VotesFor(t.value, t.value.maj23).votes == map[] then Panic(c)
    else if data != t.value.maj23 then Panic(c)
    else
      var record := CommitRecord(c.height, c.commitRound, data, t.value.base, VotesFor(t.value, data).votes,
                                 !c.hasRecvCommitRecords);
      var c1 := c.(journal := c.journal.(commits := c.journal.commits + [record]));
      var c2 := UpdateToAppState(c1, ans.afterCommit(c.height, data));
      ScheduleRound0(c2.(hasRecvCommitRecords := false))
  }

  ghost function EnterCommit(ans: Answers, c: State, height: int, commitRound: int): State {
    if c.height != height || COMMIT <= c.step then c
    else
      var maj23 := MajAt(c.votes, PrecommitType, commitRound);
      if maj23 == NIL then Panic(c)
      else DoCommit(ans, UpdateRoundStep(c.(commitRound := commitRound), c.round, COMMIT), maj23)
  }

  // ---- votes --------------------------------------------------------------------------

  ghost function DefaultSetProposal(e: Env, ans: Answers, c: State, v: Vote): State {
    if c.proposal.Some? then c
    else if v.height != c.height || v.round != c.round then c
    else if v.prev != c.lastCommittedData then c
    else if ans.proposer(c.height, c.round) != v.address then c
    else if !Verified(CommitteeOf(e, c), v) then c
    else if !ans.accept(c.height, v.proposed) then c
    else EnterPrevote(e, ans, c.(proposal := Some(v)), c.height, c.round)
  }

  /** A late precommit for the height just committed. */
  ghost function AddStraggler(e: Env, ans: Answers, c: State, v: Vote): State {
    if !(c.step == NEW_HEIGHT && v.kind == PrecommitType) || c.lastCommit.None? then c
    else
      var k := CommitteeOf(e, c);
      var t := AddVote(k, c.lastCommit.value, v);
      var c1 := c.(lastCommit := Some(t));
      if Judge(k, c.lastCommit.value, v) == Added && e.skipTimeoutCommit && HasAll(k, t)
      then EnterNewRound(e, ans, c1, c1.height, 0) else c1
  }

  /** Put the vote in its vote set and remember that it was accepted. */
  ghost function Record(e: Env, c: State, v: Vote): State {
    var k := CommitteeOf(e, c);
    c.(votes := AddVoteIn(k, c.votes, v),
       journal := if JudgeIn(k, c.votes, v) == Added
                  then c.journal.(accepted := c.journal.accepted + {v}) else c.journal)
  }

  /** A polka releases a lock on other data from an earlier round. */
  ghost function UnlockOnPolka(c: State, v: Vote): State {
    var polka := MajAt(c.votes, PrevoteType, v.round);
    if polka != NIL && c.lockedProposal.Some? && c.lockedRound < v.round && c.lockedProposal.value.proposed != polka
    then c.(lockedRound := -1, lockedProposal := None) else c
  }

  /** A polka of this round for other data discards the proposal. */
  ghost function DropProposal(c: State, v: Vote): State {
    var polka := MajAt(c.votes, PrevoteType, v.round);
    if polka != NIL && v.round == c.round && c.proposal.Some? && c.proposal.value.proposed != polka
    then c.(proposal := None) else c
  }

  /** `addVote` after a prevote was added: first lock and proposal, then the step. */
  ghost function AfterPrevote(e: Env, ans: Answers, c: State, v: Vote): State {
    FollowPrevotes(e, ans, DropProposal(UnlockOnPolka(c, v), v), v)
  }

  ghost function FollowPrevotes(e: Env, ans: Answers, c: State, v: Vote): State {
    var any := AnyAt(CommitteeOf(e, c), c.votes, PrevoteType, v.round);
    if c.round < v.round && any then EnterNewRound(e, ans, c, c.height, v.round)
    else if c.round == v.round && PREVOTE <= c.step then
      if MajAt(c.votes, PrevoteType, v.round) != NIL then EnterPrecommit(e, c, c.height, v.round)
      else if any then EnterPrevoteWait(e, c, c.height, v.round)
      else c
    else if PREVOTE > c.step && c.proposal.Some? then EnterPrevote(e, ans, c, c.height, c.round)
    else c
  }

  /** `addVote` after a precommit was added. */
  ghost function AfterPrecommit(e: Env, ans: Answers, c: State, v: Vote): State {
    var height := c.height;
    var k := CommitteeOf(e, c);
    if MajAt(c.votes, PrecommitType, v.round) != NIL then
      var precommits := TallyAt(c.votes, PrecommitType, v.round);
      var c1 := EnterNewRound(e, ans, c, height, v.round);
      var c2 := EnterPrecommit(e, c1, height, v.round);
      var c3 := EnterCommit(ans, c2, height, v.round);
      if e.skipTimeoutCommit && precommits.Some? && HasAll(CommitteeOf(e, c3), precommits.value)
      then EnterNewRound(e, ans, c3, c3.height, 0) else c3
    else if c.round <= v.round && AnyAt(k, c.votes, PrecommitType, v.round) then
      EnterPrecommitWait(e, EnterNewRound(e, ans, c, height, v.round), height, v.round)
    else c
  }

  /** `addVote`. */
  ghost function HandleVote(e: Env, ans: Answers, c: State, v: Vote): State {
    if v.height + 1 == c.height then AddStraggler(e, ans, c, v)
    else if v.height != c.height then c
    else if v.kind == ProposalType then DefaultSetProposal(e, ans, c, v)
    else if c.round + WATERMARK < v.round || v.round < 0 then c
    else
      var c1 := Record(e, c, v);
      if JudgeIn(CommitteeOf(e, c), c.votes, v) != Added then c1
      else if v.kind == PrevoteType then AfterPrevote(e, ans, c1, v)
      else AfterPrecommit(e, ans, c1, v)
  }

  /** The loops that feed votes to `tryAddVote`; a missing vote is dereferenced. */
  ghost function HandleVotes(e: Env, rep: Replies, c: State, votes: seq<Option<Vote>>): State
    decreases |votes|
  {
    if votes == [] || c.panicked then c
    else if votes[0].None? then Panic(c)
    else HandleVotes(e, rep, HandleVote(e, rep(|votes|), c, votes[0].value), votes[1..])
  }

  ghost predicate TakesCommit(c: State, m: Commit) {
    WellFormedCommit(m) && CommitHeight(m) >= c.height
  }

  ghost function HandleCommit(e: Env, rep: Replies, c: State, m: Commit): State {
    if !TakesCommit(c, m) then c
    else
      var c1 := if CommitHeight(m) == c.height then c.(hasRecvCommitRecords := true) else c;
      HandleVotes(e, rep, c1, m.precommits)
  }

  ghost predicate TakesFetchRsp(c: State, m: FetchVotesRsp) {
    && c.height == m.height && c.round <= m.round
    && (c.step == PREVOTE_FETCH || c.step == PRECOMMIT_FETCH)
    && WellFormedFetchRsp(m)
  }

  ghost function HandleFetchRsp(e: Env, rep: Replies, c: State, m: FetchVotesRsp): State {
    if TakesFetchRsp(c, m) then HandleVotes(e, rep, c, m.missingVotes) else c
  }

  // ---- answering a fetch request ------------------------------------------------------

  function SignRsp(e: Env, m: FetchVotesRsp): FetchVotesRsp {
    var r := m.(responser := e.self);
    r.(signature := e.signRsp(r))
  }

  /** `handleFetch` dereferences nil: the history has a commit with a missing precommit, whose digest
      is signed, or there is no vote set for the round. */
  ghost predicate PanicsOnFetch(ans: Answers, c: State, m: FetchVotesReq) {
    && WellFormedFetchReq(m)
    && (if m.height < c.height then
          ans.history(m.height).Some? && None in ans.history(m.height).value.precommits
        else
          m.height == c.height && m.round <= c.round && TallyAt(c.votes, m.kind, m.round).None?)
  }

  ghost function HandleFetch(ans: Answers, c: State, m: FetchVotesReq): State {
    if PanicsOnFetch(ans, c, m) then Panic(c) else c
  }

  /** What `handleFetch` sends back when it does not panic: the certificate of a past height, or the
      votes of a vote set that the request does not name, in any order. */
  ghost predicate IsReply(e: Env, ans: Answers, c: State, m: FetchVotesReq, rsp: Option<FetchVotesRsp>) {
    if !WellFormedFetchReq(m) then rsp == None
    else if m.height < c.height then
      rsp == if ans.history(m.height).None? then None
             else Some(SignRsp(e, FetchVotesRsp(PrecommitType, m.height, m.round, NO_KEY,
                                                ans.history(m.height).value.precommits, NO_SIGNATURE)))
    else if m.height == c.height && m.round <= c.round then
      var t := TallyAt(c.votes, m.kind, m.round);
      && t.Some?
      && (exists votes ::
            && IsResponse(t.value, Named(m.voters), votes)
            && rsp == Some(SignRsp(e, FetchVotesRsp(m.kind, m.height, m.round, NO_KEY, Listed(votes), NO_SIGNATURE))))
    else rsp == None
  }

  // ---- asking for missing votes --------------------------------------------------------

  function SignReq(e: Env, m: FetchVotesReq): FetchVotesReq {
    var r := m.(invoker := e.self);
    r.(signature := e.signReq(r))
  }

  /** What a node fetches in its step. */
  function FetchedKind(step: int): VoteType {
    if step == PREVOTE_FETCH then PrevoteType else PrecommitType
  }

  /** What `fetchMissingVotes` sends: in a fetch step the signed request for the votes of its round that
      the vote set does not have, naming each voter once for each data it voted for. */
  ghost predicate IsRequest(e: Env, c: State, req: Option<FetchVotesReq>) {
    if c.step != PREVOTE_FETCH && c.step != PRECOMMIT_FETCH then req == None
    else
      var t := TallyAt(c.votes, FetchedKind(c.step), c.round);
      && t.Some?
      && (exists voters ::
            && Named(voters) == VoterSet(t.value) && |voters| == CountVotes(t.value.byData)
            && req == Some(SignReq(e, FetchVotesReq(FetchedKind(c.step), c.height, c.round, NO_KEY, voters, NO_SIGNATURE))))
  }

  // ---- timeouts -----------------------------------------------------------------------

  ghost function FetchMissingVotes(c: State): State {
    if c.step != PREVOTE_FETCH && c.step != PRECOMMIT_FETCH then c
    else if c.round !in c.votes.rounds then Panic(c)
    else Schedule(c, c.height, c.round, c.step)
  }

  /** The filter at the head of `handleTimeout`. */
  ghost predicate Stale(c: State, ti: Timeout) {
    ti.height != c.height || ti.round < c.round || (ti.round == c.round && ti.step < c.step)
  }

  /** The cases of `handleTimeout` before a node has prevoted. */
  ghost function BeginStep(e: Env, ans: Answers, c: State, ti: Timeout): State {
    if ti.step == NEW_HEIGHT then EnterNewRound(e, ans, c, ti.height, 0)
    else if ti.step == NEW_ROUND then EnterPropose(e, ans, c, ti.height, 0)
    else EnterPrevote(e, ans, c, ti.height, ti.round)
  }

  /** The cases of `handleTimeout` for the two waiting steps. */
  ghost function EndWait(e: Env, ans: Answers, c: State, ti: Timeout): State {
    if ti.step == PREVOTE_WAIT then EnterPrecommit(e, c, ti.height, ti.round)
    else EnterNewRound(e, ans, EnterPrecommit(e, c, ti.height, ti.round), ti.height, ti.round + 1)
  }

  ghost function HandleTimeout(e: Env, ans: Answers, c: State, ti: Timeout): State {
    if Stale(c, ti) then c
    else if ti.step == NEW_HEIGHT || ti.step == NEW_ROUND || ti.step == PROPOSE then BeginStep(e, ans, c, ti)
    else if ti.step == PREVOTE_FETCH || ti.step == PRECOMMIT_FETCH then FetchMissingVotes(c)
    else if ti.step == PREVOTE_WAIT || ti.step == PRECOMMIT_WAIT then EndWait(e, ans, c, ti)
    else Panic(c)
  }

  /** One iteration of `receiveRoutine`. */
  ghost function Handle(e: Env, rep: Replies, c: State, input: Input): State {
    match input
    case VoteMsg(v) => if IsValidator(e, c.height) then HandleVote(e, rep(0), c, v) else c
    case CommitMsg(m) => HandleCommit(e, rep, c, m)
    case FetchReqMsg(m) => HandleFetch(rep(0), c, m)
    case FetchRspMsg(m) => HandleFetchRsp(e, rep, c, m)
    case Tock(ti) => HandleTimeout(e, rep(0), c, ti)
  }

  /** What a node sends while it handles an input, apart from the votes and commits of its journal. */
  datatype Outgoing = Nothing | SendsReq(req: FetchVotesReq) | SendsRsp(rsp: FetchVotesRsp)

  ghost predicate Sends(e: Env, rep: Replies, c: State, input: Input, out: Outgoing) {
    match input
    case FetchReqMsg(m) => !out.SendsReq? && IsReply(e, rep(0), c, m, if out.SendsRsp? then Some(out.rsp) else None)
    case Tock(ti) =>
      if Stale(c, ti) || (ti.step != PREVOTE_FETCH && ti.step != PRECOMMIT_FETCH) then out == Nothing
      else !out.SendsRsp? && IsRequest(e, c, if out.SendsReq? then Some(out.req) else None)
    case _ => out == Nothing
  }

  /** The state after `Start` of a new core whose application reports `app`. */
  ghost function StartState(app: AppState): State {
    ScheduleRound0(State(
      app.lastHeight + 1, 0, NEW_HEIGHT, None, -1, None,
      NewVotes(app.lastHeight + 1, app.lastProposedData), -1, None, app.lastProposedData,
      false, false, Journal(app, [], {}, {}, [], [])))
  }
}
