/** `Core` (bftcore.go): the object whose methods update the round state in place.  Each method is
    proved to change the state exactly as the function of `CoreSpec` it is named after; the
    properties of runs are proved about those functions. */
module Cores {
  import opened Messages
  import opened Committees
  import opened Tallies
  import opened HeightVotes
  import Spec = CoreSpec
  import VoteSets
  import opened CoreInvariant
  import opened CoreSteps
  import opened CoreHandlers
  import opened CoreActions

  /** `enterNewRound` past its guard and sanity check is `enterPropose` on the new round's state. */
  lemma NewRoundProposes(e: Spec.Env, ans: Spec.Answers, c: Spec.State, m: Spec.State, round: int)
    requires round > c.round || (round == c.round && c.step == NEW_HEIGHT)
    requires !SetRoundPanics(c.votes, round + 1)
    requires m == c.(round := round, step := NEW_ROUND, proposal := if round == 0 then c.proposal else None,
                     votes := SetRound(c.votes, round + 1))
    ensures Spec.EnterNewRound(e, ans, c, c.height, round) == Spec.EnterPropose(e, ans, m, c.height, round)
  {
  }

  /** The last vote signed is a precommit of this round: for nil, or for the data of the polka the node
      sees in this round and is now locked on. */
  ghost predicate PrecommitBacked(c: Spec.State, height: int, round: int) {
    && |c.journal.sent| > 0
    && (var v := c.journal.sent[|c.journal.sent| - 1].vote;
        && v.kind == PrecommitType && v.height == height && v.round == round && v.prev == c.lastCommittedData
        && (v.proposed != NIL ==>
              && MajAt(c.votes, PrevoteType, round) == v.proposed && c.lockedRound == round
              && c.lockedProposal.Some? && c.lockedProposal.value.proposed == v.proposed))
  }

  lemma VotesEnd(e: Spec.Env, rep: Spec.Replies, c: Spec.State, votes: seq<Option<Vote>>)
    requires votes == [] || c.panicked || votes[0].None?
    ensures Spec.HandleVotes(e, rep, c, votes) == if votes == [] || c.panicked then c else Spec.Panic(c)
  {
  }

  lemma ResponseFits(k: Committee, hv: Votes, kind: VoteType, round: int, t: Tally, known: set<PubKey>, votes: seq<Vote>)
    requires VotesOk(k, hv) && TallyAt(hv, kind, round) == Some(t)
    requires VoteSets.AllKeyed(t.byData) ==> VoteSets.Collects(t.byData, known, votes)
    ensures IsResponse(t, known, votes)
  {
    assert Recounts(k, t);
    VoteSets.KeyedByAddress(k, t);
    VoteSets.AnswersWithStored(t, known, votes);
  }

  class Core {
    const env: Spec.Env

    var height: int
    var round: int
    var step: int
    var proposal: Option<Vote>
    var lockedRound: int
    var lockedProposal: Option<Vote>
    var votes: Votes
    var commitRound: int
    var lastCommit: Option<Tally>
    var lastCommittedData: ProposedData
    var hasRecvCommitRecords: bool
    var panicked: bool
    ghost var journal: Spec.Journal

    ghost function Value(): Spec.State
      reads this
    {
      Spec.State(height, round, step, proposal, lockedRound, lockedProposal, votes, commitRound, lastCommit,
        lastCommittedData, hasRecvCommitRecords, panicked, journal)
    }

    /** `NewCore` followed by `Start`, which panics for height zero. */
    constructor (env: Spec.Env, app: AppState)
      requires app.lastHeight + 1 != 0
      ensures this.env == env && Value() == Spec.StartState(app)
    {
      this.env := env;
      height, round, step := app.lastHeight + 1, 0, NEW_HEIGHT;
      proposal, lockedRound, lockedProposal := None, -1, None;
      votes := NewVotes(app.lastHeight + 1, app.lastProposedData);
      commitRound, lastCommit, lastCommittedData := -1, None, app.lastProposedData;
      hasRecvCommitRecords, panicked := false, false;
      journal := Spec.Journal(app, [], {}, {}, [], []);
      new;
      ScheduleRound0();
    }

    function Committee(): Committees.Committee
      reads this`height
    {
      env.committee(height)
    }

    method Panic()
      modifies this`panicked
      ensures Value() == Spec.Panic(old(Value()))
    {
      panicked := true;
    }

    method UpdateRoundStep(round: int, step: int)
      modifies this`round, this`step
      ensures Value() == Spec.UpdateRoundStep(old(Value()), round, step)
    {
      this.round := round;
      this.step := step;
    }

    method ScheduleTimeout(height: int, round: int, step: int)
      modifies this`journal
      ensures Value() == Spec.Schedule(old(Value()), height, round, step)
    {
      journal := journal.(ticks := journal.ticks + [Timeout(height, round, step)]);
    }

    method ScheduleRound0()
      modifies this`journal
      ensures Value() == Spec.ScheduleRound0(old(Value()))
    {
      ScheduleTimeout(height, 0, NEW_HEIGHT);
    }

    method SignAddVote(vote: Vote) returns (signed: Vote)
      modifies this`journal
      ensures Value() == Spec.SignAddVote(env, old(Value()), vote)
      ensures signed == if Spec.IsValidator(env, height) then Spec.Sign(env, vote) else vote
    {
      signed := vote;
      if env.self !in Committee().power {
        return;
      }
      signed := signed.(address := env.self);
      signed := signed.(signature := env.sign(signed));
      journal := journal.(sent := journal.sent + [Spec.Sent(signed, journal.accepted)]);
    }

    method DoPrevote(ans: Spec.Answers)
      modifies this`journal
      ensures Value() == Spec.DoPrevote(env, ans, old(Value()))
      ensures old(lockedRound >= 0 <==> lockedProposal.Some?) ==> CastsPrevote(env, ans, old(Value()), Value())
    {
      ghost var d := if lockedRound >= 0 && lockedProposal.Some? then lockedProposal.value.proposed
        else if proposal.Some? && ans.validate(height, proposal.value.proposed) then proposal.value.proposed
        else NIL;
      assert (lockedRound >= 0 <==> lockedProposal.Some?) ==> ChosenFor(ans, height, LockedData(Value()), DataOf(proposal), d);
      var prevote;
      if lockedRound >= 0 && lockedProposal.Some? {
        prevote := NewVote(PrevoteType, height, round, lockedProposal.value.proposed, lastCommittedData);
      } else if proposal.Some? && ans.validate(height, proposal.value.proposed) {
        journal := journal.(approved := journal.approved + {(height, proposal.value.proposed)});
        prevote := NewVote(PrevoteType, height, round, proposal.value.proposed, lastCommittedData);
      } else {
        prevote := NewVote(PrevoteType, height, round, NIL, lastCommittedData);
      }
      var _ := SignAddVote(prevote);
    }

    method EnterPrevoteFetch(height: int, round: int)
      modifies this`round, this`step, this`journal
      ensures Value() == Spec.EnterPrevoteFetch(old(Value()), height, round)
    {
      UpdateRoundStep(round, PREVOTE_FETCH);
      ScheduleTimeout(height, round, PREVOTE_FETCH);
    }

    method EnterPrevote(ans: Spec.Answers, height: int, round: int)
      modifies this`round, this`step, this`journal
      ensures Value() == Spec.EnterPrevote(env, ans, old(Value()), height, round)
    {
      if this.height != height || round < this.round || (this.round == round && PREVOTE <= step) {
        return;
      }
      DoPrevote(ans);
      UpdateRoundStep(round, PREVOTE);
      EnterPrevoteFetch(height, round);
    }

    method EnterPrevoteWait(height: int, round: int)
      modifies this`round, this`step, this`journal, this`panicked
      ensures Value() == Spec.EnterPrevoteWait(env, old(Value()), height, round)
    {
      if this.height != height || round < this.round || (this.round == round && PREVOTE_WAIT <= step) {
        return;
      }
      if !AnyAt(Committee(), votes, PrevoteType, round) {
        Panic();
        return;
      }
      ScheduleTimeout(height, round, PREVOTE_WAIT);
      // deferred
      UpdateRoundStep(round, PREVOTE_WAIT);
    }

    method DoPropose(ans: Spec.Answers, height: int, round: int)
      modifies this`proposal, this`journal
      ensures Value() == Spec.DoPropose(env, ans, old(Value()), height, round)
    {
      var newProposal := NewVote(ProposalType, height, round, ans.decide(this.height), lastCommittedData);
      if lockedRound > -1 && lockedProposal.Some? {
        newProposal := newProposal.(proposed := lockedProposal.value.proposed);
      }
      var signed := SignAddVote(newProposal);
      proposal := Some(signed);
    }

    method EnterPropose(ans: Spec.Answers, height: int, round: int)
      modifies this`round, this`step, this`proposal, this`journal
      ensures Value() == Spec.EnterPropose(env, ans, old(Value()), height, round)
    {
      if this.height != height || round < this.round || (this.round == round && PROPOSE <= step) {
        return;
      }
      ScheduleTimeout(height, round, PROPOSE);
      if env.self in Committee().power && ans.proposer(this.height, this.round) == env.self {
        DoPropose(ans, height, round);
      }
      // deferred
      UpdateRoundStep(round, PROPOSE);
      if proposal.Some? || lockedRound >= 0 {
        EnterPrevote(ans, height, this.round);
      }
    }

    method EnterNewRound(ans: Spec.Answers, height: int, round: int)
      modifies this`round, this`step, this`proposal, this`votes, this`journal, this`panicked
      ensures Value() == Spec.EnterNewRound(env, ans, old(Value()), height, round)
    {
      if this.height != height || round < this.round || (this.round == round && step != NEW_HEIGHT) {
        return;
      }
      UpdateRoundStep(round, NEW_ROUND);
      if round != 0 {
        proposal := None;
      }
      if votes.round != 0 && round + 1 < votes.round + 1 {
        Panic();
        return;
      }
      votes := SetRound(votes, round + 1);
      NewRoundProposes(env, ans, old(Value()), Value(), round);
      EnterPropose(ans, height, round);
    }

    method EnterPrecommitFetch(height: int, round: int)
      modifies this`round, this`step, this`journal
      ensures Value() == Spec.EnterPrecommitFetch(old(Value()), height, round)
    {
      UpdateRoundStep(round, PRECOMMIT_FETCH);
      ScheduleTimeout(height, round, PRECOMMIT_FETCH);
    }

    /** The body of `enterPrecommit`; the branch for a polka on nil is not there because a nil
        majority is never reported. */
    method DoPrecommit(height: int, round: int)
      modifies this`lockedRound, this`lockedProposal, this`journal, this`panicked
      ensures Value() == Spec.DoPrecommit(env, old(Value()), height, round)
      ensures old(journal.sent) <= journal.sent && |journal.sent| <= |old(journal.sent)| + 1
      ensures |journal.sent| > |old(journal.sent)| ==> PrecommitBacked(Value(), height, round)
    {
      var polka := MajAt(votes, PrevoteType, round);
      var precommit := NewVote(PrecommitType, height, round, NIL, lastCommittedData);
      if polka == NIL {
        var _ := SignAddVote(precommit);
        return;
      }
      if PolRound(votes, votes.round) != round {
        Panic();
        return;
      }
      if lockedRound >= 0 && lockedProposal.None? {
        Panic();
        return;
      }
      if lockedRound >= 0 && lockedProposal.value.proposed == polka {
        lockedRound := round;
        precommit := precommit.(proposed := polka);
        var _ := SignAddVote(precommit);
        return;
      }
      if proposal.Some? && proposal.value.proposed == polka {
        lockedRound := round;
        lockedProposal := proposal;
        precommit := precommit.(proposed := polka);
        var _ := SignAddVote(precommit);
        return;
      }
      lockedRound := -1;
      lockedProposal := None;
      var _ := SignAddVote(precommit);
    }

    method EnterPrecommit(height: int, round: int)
      modifies this`round, this`step, this`lockedRound, this`lockedProposal, this`journal, this`panicked
      ensures Value() == Spec.EnterPrecommit(env, old(Value()), height, round)
    {
      if this.height != height || round < this.round || (this.round == round && PRECOMMIT <= step) {
        return;
      }
      DoPrecommit(height, round);
      // deferred
      UpdateRoundStep(round, PRECOMMIT);
      EnterPrecommitFetch(this.height, this.round);
    }

    method EnterPrecommitWait(height: int, round: int)
      modifies this`round, this`step, this`journal, this`panicked
      ensures Value() == Spec.EnterPrecommitWait(env, old(Value()), height, round)
    {
      if this.height != height || round < this.round || (this.round == round && PRECOMMIT_WAIT <= step) {
        return;
      }
      if !AnyAt(Committee(), votes, PrecommitType, round) {
        Panic();
        return;
      }
      ScheduleTimeout(height, round, PRECOMMIT_WAIT);
      // deferred
      UpdateRoundStep(round, PRECOMMIT_WAIT);
    }

    method UpdateToAppState(app: Option<AppState>)
      modifies this
      ensures Value() == Spec.UpdateToAppState(old(Value()), app)
    {
      if app.None? {
        return;
      }
      if commitRound > -1 && 0 < height && height > app.value.lastHeight {
        Panic();
        return;
      }
      if commitRound > -1 && MajAt(votes, PrecommitType, commitRound) == NIL {
        Panic();
        return;
      }
      if app.value.lastHeight + 1 == 0 {
        Panic();
        return;
      }
      var lastPrecommits := if commitRound > -1 then TallyAt(votes, PrecommitType, commitRound) else None;
      BeginHeight(app.value, lastPrecommits);
    }

    /** The second half of `updateToAppState`. */
    method BeginHeight(app: AppState, lastPrecommits: Option<Tally>)
      modifies this
      ensures Value() == Spec.BeginHeight(old(Value()), app, lastPrecommits)
    {
      height := app.lastHeight + 1;
      // updateRoundStep
      round := 0;
      step := NEW_HEIGHT;
      proposal := None;
      lockedRound := -1;
      lockedProposal := None;
      commitRound := -1;
      lastCommit := lastPrecommits;
      lastCommittedData := app.lastProposedData;
      votes := NewVotes(height, lastCommittedData);
    }

    method DoCommit(ans: Spec.Answers, data: ProposedData)
      modifies this
      ensures Value() == Spec.DoCommit(ans, old(Value()), data)
    {
      var precommits := TallyAt(votes, PrecommitType, commitRound);
      if precommits.None? || precommits.value.maj23 == NIL {
        Panic();
        return;
      }
      var records := VotesFor(precommits.value, precommits.value.maj23).votes;
      if records == map[] {
        Panic();
        return;
      }
      if data != precommits.value.maj23 {
        Panic();
        return;
      }
      journal := journal.(commits := journal.commits +
        [Spec.CommitRecord(height, commitRound, data, precommits.value.base, records, !hasRecvCommitRecords)]);
      var app := ans.afterCommit(height, data);
      UpdateToAppState(app);
      hasRecvCommitRecords := false;
      ScheduleRound0();
    }

    method EnterCommit(ans: Spec.Answers, height: int, commitRound: int)
      modifies this
      ensures Value() == Spec.EnterCommit(ans, old(Value()), height, commitRound)
      ensures old(Base(env, Value()) && AppContract(ans) && this.height == height && commitRound >= 0
                  && MajAt(votes, PrecommitType, commitRound) != NIL) ==>
        && Moves(env, old(Value()), Value()) && Inv(env, Value())
        && Commits(old(Value()), Value(), commitRound, old(MajAt(votes, PrecommitType, commitRound)))
    {
      if Base(env, Value()) && AppContract(ans) && this.height == height && commitRound >= 0
        && MajAt(votes, PrecommitType, commitRound) != NIL {
        ghost var n := ThenCommit(env, ans, Value(), commitRound, TallyAt(votes, PrecommitType, commitRound).value);
      }
      if this.height != height || COMMIT <= step {
        return;
      }
      var maj23 := MajAt(votes, PrecommitType, commitRound);
      if maj23 == NIL {
        Panic();
        return;
      }
      this.commitRound := commitRound;
      UpdateRoundStep(round, COMMIT);
      DoCommit(ans, maj23);
    }

    method DefaultSetProposal(ans: Spec.Answers, vote: Vote)
      modifies this`round, this`step, this`proposal, this`journal
      ensures Value() == Spec.DefaultSetProposal(env, ans, old(Value()), vote)
      ensures vote.kind == ProposalType && TakesProposal(env, ans, old(Value()), vote) ==>
        proposal == Some(vote) && step >= PREVOTE
      ensures vote.kind == ProposalType && !TakesProposal(env, ans, old(Value()), vote) ==> Value() == old(Value())
    {
      if proposal.Some? {
        return;
      }
      if vote.height != height || vote.round != round {
        return;
      }
      if vote.prev != lastCommittedData {
        return;
      }
      if ans.proposer(height, round) != vote.address {
        return;
      }
      if !(vote.address in Committee().power && Committee().verify(vote)) {
        return;
      }
      if ans.accept(height, vote.proposed) {
        proposal := Some(vote);
        EnterPrevote(ans, height, round);
      }
    }

    method AddStraggler(ans: Spec.Answers, vote: Vote)
      modifies this
      ensures Value() == Spec.AddStraggler(env, ans, old(Value()), vote)
    {
      if !(step == NEW_HEIGHT && vote.kind == PrecommitType) || lastCommit.None? {
        return;
      }
      var verdict := Judge(Committee(), lastCommit.value, vote);
      lastCommit := Some(Tallies.AddVote(Committee(), lastCommit.value, vote));
      if verdict != Added {
        return;
      }
      if env.skipTimeoutCommit && HasAll(Committee(), lastCommit.value) {
        EnterNewRound(ans, height, 0);
      }
    }

    /** The prevote part of `addVote`. */
    method AfterPrevote(ans: Spec.Answers, vote: Vote)
      modifies this
      ensures Value() == Spec.AfterPrevote(env, ans, old(Value()), vote)
    {
      Reconsider(vote);
      FollowPrevotes(ans, vote);
    }

    /** A polka releases an older lock on other data, and in the round of the node discards a proposal for
        other data. */
    method Reconsider(vote: Vote)
      modifies this`lockedRound, this`lockedProposal, this`proposal
      ensures Value() == Reconsidered(old(Value()), vote)
      ensures var polka := MajAt(votes, PrevoteType, vote.round);
        && (Releases(old(Value()), vote.round, polka) ==> lockedRound == -1 && lockedProposal == None)
        && (!Releases(old(Value()), vote.round, polka) ==>
              lockedRound == old(lockedRound) && lockedProposal == old(lockedProposal))
        && proposal == if Discards(old(Value()), vote.round, polka) then None else old(proposal)
    {
      var polka := MajAt(votes, PrevoteType, vote.round);
      if polka != NIL {
        if lockedProposal.Some? && lockedRound < vote.round && lockedProposal.value.proposed != polka {
          lockedRound := -1;
          lockedProposal := None;
        }
        if vote.round == round {
          if proposal.Some? && proposal.value.proposed != polka {
            proposal := None;
          }
        }
      }
    }

    method FollowPrevotes(ans: Spec.Answers, vote: Vote)
      modifies this
      ensures Value() == Spec.FollowPrevotes(env, ans, old(Value()), vote)
    {
      var height := this.height;
      var polka := MajAt(votes, PrevoteType, vote.round);
      var any := AnyAt(Committee(), votes, PrevoteType, vote.round);
      if round < vote.round && any {
        EnterNewRound(ans, height, vote.round);
      } else if round == vote.round && PREVOTE <= step {
        if polka != NIL {
          EnterPrecommit(height, vote.round);
        } else if any {
          EnterPrevoteWait(height, vote.round);
        }
      } else if PREVOTE > step {
        if proposal.Some? {
          EnterPrevote(ans, height, round);
        }
      }
    }

    /** The precommit part of `addVote`. */
    method AfterPrecommit(ans: Spec.Answers, vote: Vote)
      modifies this
      ensures Value() == Spec.AfterPrecommit(env, ans, old(Value()), vote)
      ensures old(ReadyFor(env, Value(), PrecommitType, vote.round) && MajAt(votes, PrecommitType, vote.round) == NIL) ==>
        ActsOnSplit(env, ans, old(Value()), vote.round, Value())
    {
      if ReadyFor(env, Value(), PrecommitType, vote.round) && MajAt(votes, PrecommitType, vote.round) == NIL {
        AfterSplitActs(env, ans, Value(), vote, Spec.AfterPrecommit(env, ans, Value(), vote));
      }
      var height := this.height;
      var precommits := TallyAt(votes, PrecommitType, vote.round);
      if MajAt(votes, PrecommitType, vote.round) != NIL {
        EnterNewRound(ans, height, vote.round);
        EnterPrecommit(height, vote.round);
        EnterCommit(ans, height, vote.round);
        if env.skipTimeoutCommit && precommits.Some? && HasAll(Committee(), precommits.value) {
          EnterNewRound(ans, this.height, 0);
        }
      } else if round <= vote.round && AnyAt(Committee(), votes, PrecommitType, vote.round) {
        EnterNewRound(ans, height, vote.round);
        EnterPrecommitWait(height, vote.round);
      }
    }

    /** `addVote`. */
    method AddVote(ans: Spec.Answers, vote: Vote)
      modifies this
      ensures Value() == Spec.HandleVote(env, ans, old(Value()), vote)
      ensures old(Inv(env, Value()) && AppContract(ans)) ==> VoteHandled(env, old(Value()), vote, Value())
    {
      if Inv(env, Value()) && AppContract(ans) {
        HandleVoteOk(env, ans, Value(), vote);
      }
      if vote.height + 1 == height {
        AddStraggler(ans, vote);
        return;
      }
      if vote.height != height {
        return;
      }
      if vote.kind == ProposalType {
        DefaultSetProposal(ans, vote);
        return;
      }
      if round + Spec.WATERMARK < vote.round || vote.round < 0 {
        return;
      }
      var verdict := JudgeIn(Committee(), votes, vote);
      votes := AddVoteIn(Committee(), votes, vote);
      if verdict != Added {
        return;
      }
      journal := journal.(accepted := journal.accepted + {vote});
      if vote.kind == PrevoteType {
        AfterPrevote(ans, vote);
      } else {
        AfterPrecommit(ans, vote);
      }
    }

    /** `tryAddVote`, which only logs what `addVote` reports. */
    method TryAddVote(ans: Spec.Answers, vote: Vote)
      modifies this
      ensures Value() == Spec.HandleVote(env, ans, old(Value()), vote)
    {
      AddVote(ans, vote);
    }

    /** The loop over the votes of a commit or a fetch response. */
    method AddVotes(rep: Spec.Replies, list: seq<Option<Vote>>)
      modifies this
      ensures Value() == Spec.HandleVotes(env, rep, old(Value()), list)
    {
      ghost var goal := Spec.HandleVotes(env, rep, Value(), list);
      var i := 0;
      while i < |list| && !panicked && list[i].Some?
        invariant 0 <= i <= |list|
        invariant goal == Spec.HandleVotes(env, rep, Value(), list[i..])
      {
        AddNext(rep, list, i);
        i := i + 1;
      }
      VotesEnd(env, rep, Value(), list[i..]);
      if i < |list| && !panicked {
        Panic();
      }
    }

    /** One iteration of the loop over votes. */
    method AddNext(rep: Spec.Replies, list: seq<Option<Vote>>, i: nat)
      requires i < |list| && !panicked && list[i].Some?
      modifies this
      ensures Spec.HandleVotes(env, rep, old(Value()), list[i..]) == Spec.HandleVotes(env, rep, Value(), list[i + 1..])
    {
      ghost var before := Value();
      TryAddVote(rep(|list| - i), list[i].value);
      assert list[i..][1..] == list[i + 1..];
      VotesStep(env, rep, before, list[i..], Value());
    }

    method HandleCommit(rep: Spec.Replies, m: Commit)
      modifies this
      ensures Value() == Spec.HandleCommit(env, rep, old(Value()), m)
      ensures old(Inv(env, Value()) && AppReplies(rep) && !panicked) ==>
        && Handled(env, old(Value()), Present(m.precommits), Value())
        && (panicked <==> Spec.TakesCommit(old(Value()), m) && None in m.precommits)
    {
      if Inv(env, Value()) && AppReplies(rep) && !panicked {
        CommitMsgOk(env, rep, Value(), m, Spec.HandleCommit(env, rep, Value(), m));
      }
      var err := ValidateBasic(m);
      if err.Some? {
        return;
      }
      var first := FirstPrecommit(m);
      var commitHeight := first.value.height;
      if commitHeight == height {
        hasRecvCommitRecords := true;
      }
      if commitHeight >= height {
        AddVotes(rep, m.precommits);
      }
    }

    method HandleFetchRsp(rep: Spec.Replies, m: FetchVotesRsp)
      modifies this
      ensures Value() == Spec.HandleFetchRsp(env, rep, old(Value()), m)
      ensures old(Inv(env, Value()) && AppReplies(rep) && !panicked) ==>
        && Handled(env, old(Value()), Present(m.missingVotes), Value())
        && (panicked <==> Spec.TakesFetchRsp(old(Value()), m) && None in m.missingVotes)
    {
      if Inv(env, Value()) && AppReplies(rep) && !panicked {
        FetchRspOk(env, rep, Value(), m, Spec.HandleFetchRsp(env, rep, Value(), m));
      }
      if height == m.height && round <= m.round {
        if step != PREVOTE_FETCH && step != PRECOMMIT_FETCH {
          return;
        }
        if !WellFormedFetchRsp(m) {
          return;
        }
        AddVotes(rep, m.missingVotes);
      }
    }

    /** `handleFetch`: the request is answered from the history or from a vote set.  Signing an answer
        takes the digest of each of its votes; the vote set may be nil. */
    method HandleFetch(ans: Spec.Answers, m: FetchVotesReq) returns (rsp: Option<FetchVotesRsp>)
      modifies this`panicked
      ensures Value() == Spec.HandleFetch(ans, old(Value()), m)
      ensures old(VotesOk(Committee(), votes)) && !Spec.PanicsOnFetch(ans, old(Value()), m) ==>
        Spec.IsReply(env, ans, old(Value()), m, rsp)
    {
      rsp := None;
      if !WellFormedFetchReq(m) {
        return;
      }
      if m.height < height {
        var commit := ans.history(m.height);
        if commit.None? {
          return;
        }
        if None in commit.value.precommits {
          Panic();
          return;
        }
        rsp := Some(FetchVotesRsp(PrecommitType, m.height, m.round, NO_KEY, commit.value.precommits, NO_SIGNATURE));
      } else if m.height == height && m.round <= round {
        var voteSet := TallyAt(votes, m.kind, m.round);
        if voteSet.None? {
          Panic();
          return;
        }
        var missing := VoteSets.Response(voteSet.value.byData, m.voters);
        rsp := Some(FetchVotesRsp(m.kind, m.height, m.round, NO_KEY, Listed(missing), NO_SIGNATURE));
        if VotesOk(Committee(), votes) {
          ResponseFits(Committee(), votes, m.kind, m.round, voteSet.value, Named(m.voters), missing);
        }
      }
      if rsp.Some? {
        rsp := Some(Spec.SignRsp(env, rsp.value));
      }
    }

    method FetchMissingVotes() returns (req: Option<FetchVotesReq>)
      modifies this`journal, this`panicked
      ensures Value() == Spec.FetchMissingVotes(old(Value()))
      ensures old(round in votes.rounds) ==> Spec.IsRequest(env, old(Value()), req)
    {
      req := None;
      if step != PREVOTE_FETCH && step != PRECOMMIT_FETCH {
        return;
      }
      if round !in votes.rounds {
        Panic();
        return;
      }
      var kind := Spec.FetchedKind(step);
      var voteSet := TallyAt(votes, kind, round).value;
      var voters := VoteSets.VoterList(voteSet.byData);
      assert Named(voters) == VoterSet(voteSet);
      req := Some(Spec.SignReq(env, FetchVotesReq(kind, height, round, NO_KEY, voters, NO_SIGNATURE)));
      ScheduleTimeout(height, round, step);
    }

    method HandleTimeout(ans: Spec.Answers, ti: Timeout) returns (req: Option<FetchVotesReq>)
      modifies this
      ensures Value() == Spec.HandleTimeout(env, ans, old(Value()), ti)
      ensures old(Inv(env, Value()) && ti in journal.ticks) ==>
        Handled(env, old(Value()), {}, Value()) && panicked == old(panicked)
      ensures if Spec.Stale(old(Value()), ti) || !IsFetch(ti.step) then req == None
        else old(round in votes.rounds) ==> Spec.IsRequest(env, old(Value()), req)
    {
      if Inv(env, Value()) && ti in journal.ticks {
        TockOk(env, ans, Value(), ti, Spec.HandleTimeout(env, ans, Value(), ti));
      }
      req := None;
      if ti.height != height || ti.round < round || (ti.round == round && ti.step < step) {
        return;
      }
      if ti.step == NEW_HEIGHT || ti.step == NEW_ROUND || ti.step == PROPOSE {
        BeginStep(ans, ti);
      } else if ti.step == PREVOTE_FETCH || ti.step == PRECOMMIT_FETCH {
        req := FetchMissingVotes();
      } else if ti.step == PREVOTE_WAIT || ti.step == PRECOMMIT_WAIT {
        EndWait(ans, ti);
      } else {
        Panic();
      }
    }

    /** The cases of `handleTimeout` before a node has prevoted. */
    method BeginStep(ans: Spec.Answers, ti: Timeout)
      requires ti.step == NEW_HEIGHT || ti.step == NEW_ROUND || ti.step == PROPOSE
      modifies this
      ensures Value() == Spec.BeginStep(env, ans, old(Value()), ti)
    {
      if ti.step == NEW_HEIGHT {
        EnterNewRound(ans, ti.height, 0);
      } else if ti.step == NEW_ROUND {
        EnterPropose(ans, ti.height, 0);
      } else {
        EnterPrevote(ans, ti.height, ti.round);
      }
    }

    /** The cases of `handleTimeout` for the two waiting steps. */
    method EndWait(ans: Spec.Answers, ti: Timeout)
      requires ti.step == PREVOTE_WAIT || ti.step == PRECOMMIT_WAIT
      modifies this
      ensures Value() == Spec.EndWait(env, ans, old(Value()), ti)
    {
      if ti.step == PREVOTE_WAIT {
        EnterPrecommit(ti.height, ti.round);
      } else {
        LeaveRound(ans, ti.height, ti.round);
      }
    }

    method LeaveRound(ans: Spec.Answers, height: int, round: int)
      modifies this
      ensures Value() ==
        Spec.EnterNewRound(env, ans, Spec.EnterPrecommit(env, old(Value()), height, round), height, round + 1)
    {
      EnterPrecommit(height, round);
      EnterNewRound(ans, height, round + 1);
    }

    /** One iteration of `receiveRoutine`: `handleMsg` or `handleTimeout`. */
    method Receive(rep: Spec.Replies, input: Spec.Input) returns (out: Spec.Outgoing)
      modifies this
      ensures Value() == Spec.Handle(env, rep, old(Value()), input)
      ensures old(Inv(env, Value()) && Admissible(Value(), rep, input) && !panicked) ==>
        && Handled(env, old(Value()), Offered(input), Value())
        && (panicked <==> HitsNil(old(Value()), rep, input))
        && (!panicked ==> Spec.Sends(env, rep, old(Value()), input, out))
    {
      out := Spec.Nothing;
      if Inv(env, Value()) && Admissible(Value(), rep, input) && !panicked {
        HandleOk(env, rep, Value(), input);
      }
      match input
      case VoteMsg(v) =>
        if env.self in Committee().power {
          TryAddVote(rep(0), v);
        }
      case CommitMsg(m) => HandleCommit(rep, m);
      case FetchReqMsg(m) =>
        var rsp := HandleFetch(rep(0), m);
        if rsp.Some? {
          out := Spec.SendsRsp(rsp.value);
        }
      case FetchRspMsg(m) => HandleFetchRsp(rep, m);
      case Tock(ti) =>
        var req := HandleTimeout(rep(0), ti);
        if req.Some? {
          out := Spec.SendsReq(req.value);
        }
    }
  }
}
