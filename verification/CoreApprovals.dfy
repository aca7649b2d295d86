/** The application is asked before a prevote: whatever a node notes as approved, some answer of its
    application approved. */
module CoreApprovals {
  import opened Messages
  import opened Committees
  import opened Tallies
  import opened HeightVotes
  import opened CoreSpec
  import opened CoreInvariant
  import opened CoreSteps
  import opened CoreHandlers
  import Runs = CoreRuns

  /** Nothing but what the application approves by these answers is noted in addition. */
  ghost predicate Approves(ans: Answers, c: State, n: State) {
    forall p :: p in n.journal.approved ==> p in c.journal.approved || ans.validate(p.0, p.1)
  }

  lemma ApprovesTwice(ans: Answers, c: State, m: State, n: State)
    requires Approves(ans, c, m) && Approves(ans, m, n)
    ensures Approves(ans, c, n)
  {
  }

  lemma EnterPrevoteApproves(e: Env, ans: Answers, c: State, height: int, round: int)
    ensures Approves(ans, c, EnterPrevote(e, ans, c, height, round))
  {
  }

  lemma EnterProposeApproves(e: Env, ans: Answers, c: State, height: int, round: int)
    ensures Approves(ans, c, EnterPropose(e, ans, c, height, round))
  {
  }

  lemma EnterNewRoundApproves(e: Env, ans: Answers, c: State, height: int, round: int)
    ensures Approves(ans, c, EnterNewRound(e, ans, c, height, round))
  {
  }

  lemma EnterPrecommitApproves(e: Env, ans: Answers, c: State, height: int, round: int)
    ensures Approves(ans, c, EnterPrecommit(e, c, height, round))
  {
  }

  lemma EnterPrevoteWaitApproves(e: Env, ans: Answers, c: State, height: int, round: int)
    ensures Approves(ans, c, EnterPrevoteWait(e, c, height, round))
  {
  }

  lemma EnterPrecommitWaitApproves(e: Env, ans: Answers, c: State, height: int, round: int)
    ensures Approves(ans, c, EnterPrecommitWait(e, c, height, round))
  {
  }

  lemma EnterCommitApproves(ans: Answers, c: State, height: int, round: int)
    ensures Approves(ans, c, EnterCommit(ans, c, height, round))
  {
  }

  lemma AfterPrevoteApproves(e: Env, ans: Answers, r: State, v: Vote)
    ensures Approves(ans, r, AfterPrevote(e, ans, r, v))
  {
    var m := DropProposal(UnlockOnPolka(r, v), v);
    EnterNewRoundApproves(e, ans, m, r.height, v.round);
    EnterPrecommitApproves(e, ans, m, r.height, v.round);
    EnterPrevoteWaitApproves(e, ans, m, r.height, v.round);
    EnterPrevoteApproves(e, ans, m, r.height, m.round);
  }

  lemma AfterPrecommitApproves(e: Env, ans: Answers, c: State, v: Vote)
    ensures Approves(ans, c, AfterPrecommit(e, ans, c, v))
  {
    var a := EnterNewRound(e, ans, c, c.height, v.round);
    var p := EnterPrecommit(e, a, c.height, v.round);
    var b := EnterCommit(ans, p, c.height, v.round);
    EnterNewRoundApproves(e, ans, c, c.height, v.round);
    EnterPrecommitApproves(e, ans, a, c.height, v.round);
    EnterCommitApproves(ans, p, c.height, v.round);
    EnterNewRoundApproves(e, ans, b, b.height, 0);
    EnterPrecommitWaitApproves(e, ans, a, c.height, v.round);
    ApprovesTwice(ans, c, a, p);
    ApprovesTwice(ans, c, p, b);
  }

  lemma StragglerApproves(e: Env, ans: Answers, c: State, v: Vote)
    ensures Approves(ans, c, AddStraggler(e, ans, c, v))
  {
    if c.lastCommit.Some? {
      var b := c.(lastCommit := Some(AddVote(CommitteeOf(e, c), c.lastCommit.value, v)));
      EnterNewRoundApproves(e, ans, b, b.height, 0);
    }
  }

  lemma ProposalApproves(e: Env, ans: Answers, c: State, v: Vote)
    ensures Approves(ans, c, DefaultSetProposal(e, ans, c, v))
  {
    EnterPrevoteApproves(e, ans, c.(proposal := Some(v)), c.height, c.round);
  }

  lemma HandleVoteApproves(e: Env, ans: Answers, c: State, v: Vote, n: State)
    requires n == HandleVote(e, ans, c, v)
    ensures Approves(ans, c, n)
  {
    StragglerApproves(e, ans, c, v);
    ProposalApproves(e, ans, c, v);
    AfterPrevoteApproves(e, ans, Record(e, c, v), v);
    AfterPrecommitApproves(e, ans, Record(e, c, v), v);
  }

  lemma BeginStepApproves(e: Env, ans: Answers, c: State, ti: Timeout)
    ensures Approves(ans, c, BeginStep(e, ans, c, ti))
  {
    if ti.step == NEW_HEIGHT {
      EnterNewRoundApproves(e, ans, c, ti.height, 0);
    } else if ti.step == NEW_ROUND {
      EnterProposeApproves(e, ans, c, ti.height, 0);
    } else {
      EnterPrevoteApproves(e, ans, c, ti.height, ti.round);
    }
  }

  lemma EndWaitApproves(e: Env, ans: Answers, c: State, ti: Timeout)
    ensures Approves(ans, c, EndWait(e, ans, c, ti))
  {
    var p := EnterPrecommit(e, c, ti.height, ti.round);
    EnterPrecommitApproves(e, ans, c, ti.height, ti.round);
    LeaveRoundApproves(e, ans, c, p, ti.height, ti.round + 1);
  }

  lemma LeaveRoundApproves(e: Env, ans: Answers, c: State, p: State, height: int, round: int)
    requires Approves(ans, c, p)
    ensures Approves(ans, c, EnterNewRound(e, ans, p, height, round))
  {
    EnterNewRoundApproves(e, ans, p, height, round);
    ApprovesTwice(ans, c, p, EnterNewRound(e, ans, p, height, round));
  }

  lemma FetchApproves(ans: Answers, c: State)
    ensures Approves(ans, c, FetchMissingVotes(c))
  {
  }

  lemma HandleTimeoutApproves(e: Env, ans: Answers, c: State, ti: Timeout, n: State)
    requires n == HandleTimeout(e, ans, c, ti)
    ensures Approves(ans, c, n)
  {
    TimeoutIs(e, ans, c, ti, n);
    BeginStepApproves(e, ans, c, ti);
    EndWaitApproves(e, ans, c, ti);
    FetchApproves(ans, c);
  }

  lemma TimeoutIs(e: Env, ans: Answers, c: State, ti: Timeout, n: State)
    requires n == HandleTimeout(e, ans, c, ti)
    ensures n == c || n == Panic(c) || n == BeginStep(e, ans, c, ti) || n == FetchMissingVotes(c) || n == EndWait(e, ans, c, ti)
  {
  }

  // ---- messages and runs --------------------------------------------------------------

  /** Some answer given during a message approves the data. */
  ghost predicate Validates(rep: Replies, h: int, d: ProposedData) {
    exists i :: rep(i).validate(h, d)
  }

  /** Nothing but what the application approves during the message is noted in addition. */
  ghost predicate AllApproved(rep: Replies, c: State, n: State) {
    forall p :: p in n.journal.approved ==> p in c.journal.approved || Validates(rep, p.0, p.1)
  }

  lemma ApprovedOnce(rep: Replies, i: nat, c: State, n: State)
    requires Approves(rep(i), c, n)
    ensures AllApproved(rep, c, n)
  {
  }

  lemma {:induction false} HandleVotesApproves(e: Env, rep: Replies, c: State, votes: seq<Option<Vote>>, n: State)
    requires n == HandleVotes(e, rep, c, votes)
    ensures AllApproved(rep, c, n)
    decreases |votes|
  {
    if votes != [] && !c.panicked && votes[0].Some? {
      var m := HandleVote(e, rep(|votes|), c, votes[0].value);
      HandleVoteApproves(e, rep(|votes|), c, votes[0].value, m);
      ApprovedOnce(rep, |votes|, c, m);
      HandleVotesApproves(e, rep, m, votes[1..], n);
    }
  }

  /** Whatever is newly approved while an input is handled, the application approved for exactly that
      height and data. */
  lemma HandleApproves(e: Env, rep: Replies, c: State, input: Input, n: State)
    requires n == Handle(e, rep, c, input)
    ensures AllApproved(rep, c, n)
  {
    match input
    case VoteMsg(v) =>
      if IsValidator(e, c.height) {
        HandleVoteApproves(e, rep(0), c, v, n);
        ApprovedOnce(rep, 0, c, n);
      }
    case CommitMsg(m) => CommitApproves(e, rep, c, m, n);
    case FetchReqMsg(_) =>
    case FetchRspMsg(m) =>
      if TakesFetchRsp(c, m) {
        HandleVotesApproves(e, rep, c, m.missingVotes, n);
      }
    case Tock(ti) =>
      HandleTimeoutApproves(e, rep(0), c, ti, n);
      ApprovedOnce(rep, 0, c, n);
  }

  lemma CommitApproves(e: Env, rep: Replies, c: State, m: Commit, n: State)
    requires n == HandleCommit(e, rep, c, m)
    ensures AllApproved(rep, c, n)
  {
    if TakesCommit(c, m) {
      var c1 := if CommitHeight(m) == c.height then c.(hasRecvCommitRecords := true) else c;
      HandleVotesApproves(e, rep, c1, m.precommits, n);
    }
  }

  /** Over a run: each approved pair was approved while some input of the run was handled. */
  lemma {:induction false} RunApproves(e: Env, app: AppState, run: seq<Runs.Stimulus>, h: int, d: ProposedData)
    requires Runs.Legal(e, app, run) && (h, d) in Runs.After(e, app, run).journal.approved
    ensures exists k :: 0 <= k < |run| && Validates(run[k].replies, h, d)
    decreases |run|
  {
    if run != [] {
      var last := |run| - 1;
      var c := Runs.After(e, app, run[..last]);
      if (h, d) in c.journal.approved {
        RunApproves(e, app, run[..last], h, d);
        var k :| 0 <= k < last && Validates(run[..last][k].replies, h, d);
        assert run[k] == run[..last][k];
      } else {
        HandleApproves(e, run[last].replies, c, run[last].input, Runs.After(e, app, run));
      }
    }
  }
}
