/** What holds in every run of one node, from `Start` through any messages and timeouts. */
module CoreRuns {
  import opened Messages
  import opened Committees
  import opened Tallies
  import opened HeightVotes
  import opened CoreSpec
  import opened CoreInvariant
  import opened CoreSteps
  import opened CoreHandlers
  import FetchVotes

  /** One input together with what the application answers while it is handled. */
  datatype Stimulus = Stimulus(input: Input, replies: Replies)

  /** The state of a node after a run; a panic ends the run. */
  ghost function After(e: Env, app: AppState, run: seq<Stimulus>): State
    decreases |run|
  {
    if run == [] then StartState(app)
    else
      var last := |run| - 1;
      var c := After(e, app, run[..last]);
      if c.panicked then c else Handle(e, run[last].replies, c, run[last].input)
  }

  /** Messages are arbitrary; timeouts are the node's own and the application keeps its contract. */
  ghost predicate Legal(e: Env, app: AppState, run: seq<Stimulus>)
    decreases |run|
  {
    if run == [] then app.lastHeight >= 0
    else
      var last := |run| - 1;
      && Legal(e, app, run[..last])
      && Admissible(After(e, app, run[..last]), run[last].replies, run[last].input)
  }

  /** The invariant holds after every run. */
  lemma {:induction false} RunInv(e: Env, app: AppState, run: seq<Stimulus>)
    requires Legal(e, app, run)
    ensures Inv(e, After(e, app, run))
    decreases |run|
  {
    if run == [] {
      StartInv(e, app);
    } else {
      var last := |run| - 1;
      RunInv(e, app, run[..last]);
      var c := After(e, app, run[..last]);
      if !c.panicked {
        HandleOk(e, run[last].replies, c, run[last].input);
      }
    }
  }

  /** The states a node can get into from `Start`, whatever happens to it. */
  ghost predicate Reachable(e: Env, c: State) {
    exists app, run :: Legal(e, app, run) && After(e, app, run) == c
  }

  lemma ReachableInv(e: Env, c: State)
    requires Reachable(e, c)
    ensures Inv(e, c)
  {
    var app, run :| Legal(e, app, run) && After(e, app, run) == c;
    RunInv(e, app, run);
  }

  /** Two votes of the same kind for the same height and round. */
  ghost predicate SameSlot(v: Vote, w: Vote) {
    v.kind == w.kind && v.height == w.height && v.round == w.round
  }

  /** No honest equivocation: over a whole run a node never signs two votes of the same kind for
      the same height and round. */
  lemma NoEquivocation(e: Env, c: State)
    requires Reachable(e, c)
    ensures forall i, j :: 0 <= i < j < |c.journal.sent| ==> !SameSlot(c.journal.sent[i].vote, c.journal.sent[j].vote)
  {
    ReachableInv(e, c);
    IncreasingNoSlotTwice(c.journal.sent);
  }

  lemma IncreasingNoSlotTwice(sent: seq<Sent>)
    requires Increasing(sent)
    ensures forall i, j :: 0 <= i < j < |sent| ==> !SameSlot(sent[i].vote, sent[j].vote)
  {
    forall i, j | 0 <= i < j < |sent| ensures !SameSlot(sent[i].vote, sent[j].vote) {
      assert Before(VotePosition(sent[i].vote), VotePosition(sent[j].vote));
    }
  }

  /** A node takes its own votes: what it signed at its current height fits its vote sets, so when it
      comes back it is added unless the vote set holds it already. */
  lemma OwnVoteTaken(e: Env, c: State, i: nat)
    requires Reachable(e, c) && i < |c.journal.sent|
    requires var v := c.journal.sent[i].vote;
      && v.height == c.height && Collected(v.kind) && Verified(CommitteeOf(e, c), v)
      && !Holds(JudgeTally(c.votes, v), v.proposed, v.address)
    ensures var v := c.journal.sent[i].vote;
      Relevant(c, v) && JudgeIn(CommitteeOf(e, c), c.votes, v) == Added
  {
    ReachableInv(e, c);
    var v := c.journal.sent[i].vote;
    JudgeTallyOk(CommitteeOf(e, c), c.votes, v);
  }

  /** Lock invariant: the lock's two fields agree, its round shows a polka for the locked data, and
      no later round shows one for anything else. */
  lemma LockInvariant(e: Env, c: State, r: int)
    requires Reachable(e, c)
    ensures (c.lockedRound >= 0 <==> c.lockedProposal.Some?)
    ensures (c.lockedRound >= 0 ==>
            && c.lockedRound <= c.round
            && MajAt(c.votes, PrevoteType, c.lockedRound) == c.lockedProposal.value.proposed
            && c.lockedProposal.value.proposed != NIL
            && (r > c.lockedRound ==> MajAt(c.votes, PrevoteType, r) in {NIL, c.lockedProposal.value.proposed}))
  {
    ReachableInv(e, c);
  }

  /** Proposal invariant: the proposal a node holds is of exactly its height, round and base, and its
      own or verified by the committee; the one it is locked on is of this height too. */
  lemma ProposalInvariant(e: Env, c: State)
    requires Reachable(e, c)
    ensures (c.proposal.Some? ==>
            ProposalFits(e, c.proposal.value, c.height, c.lastCommittedData) && c.proposal.value.round == c.round)
    ensures (c.lockedProposal.Some? ==>
            ProposalFits(e, c.lockedProposal.value, c.height, c.lastCommittedData)
            && c.lockedProposal.value.round <= c.round)
  {
    ReachableInv(e, c);
  }

  /** Round-skip invariant: no round above the current one holds more than two thirds of any
      prevotes or precommits, and no precommit majority is left uncommitted. */
  lemma RoundSkip(e: Env, c: State, kind: VoteType, r: int)
    requires Reachable(e, c)
    ensures (r > c.round ==> !AnyAt(CommitteeOf(e, c), c.votes, kind, r) && MajAt(c.votes, kind, r) == NIL)
    ensures (r >= 0 ==> MajAt(c.votes, PrecommitType, r) == NIL)
  {
    ReachableInv(e, c);
    if r > c.round && MajAt(c.votes, kind, r) != NIL {
      MajImpliesAny(CommitteeOf(e, c), c.votes, kind, r);
    }
  }

  lemma {:induction false} SubsetIsSmaller<T>(s: set<T>, t: set<T>)
    requires s <= t
    ensures |s| <= |t|
  {
    if s != {} {
      var x :| x in s;
      SubsetIsSmaller(s - {x}, t - {x});
    }
  }

  lemma {:induction false} CountRounds(lo: int, hi: int)
    requires lo <= hi
    ensures |RoundsBetween(lo, hi)| == hi - lo
    decreases hi - lo
  {
    if lo < hi {
      CountRounds(lo, hi - 1);
    }
  }

  /** Tracked-round bound: whatever votes arrive, every round up to the tracked one is there and
      at most `round` + 301 rounds are stored. */
  lemma TrackedRounds(e: Env, c: State)
    requires Reachable(e, c)
    ensures (forall r :: 0 <= r <= c.votes.round ==> r in c.votes.rounds)
    ensures (forall r :: r in c.votes.rounds ==> 0 <= r <= c.round + WATERMARK)
    ensures |c.votes.rounds| <= c.round + WATERMARK + 1
  {
    ReachableInv(e, c);
    CountRounds(-1, c.round + WATERMARK);
    SubsetIsSmaller(c.votes.rounds.Keys, RoundsBetween(-1, c.round + WATERMARK));
  }

  /** Tallies of a running node are recounts, and the precommits kept from the last height hold a
      majority for the data committed there. */
  lemma TalliesRecount(e: Env, c: State, kind: VoteType, r: int)
    requires Reachable(e, c)
    ensures (TallyAt(c.votes, kind, r).Some? ==> Recounts(CommitteeOf(e, c), TallyAt(c.votes, kind, r).value))
    ensures (c.lastCommit.Some? ==> TwoThirdsMajority(c.lastCommit.value) == Some(c.lastCommittedData))
  {
    ReachableInv(e, c);
  }

  /** Of all panics in the code only dereferences of nil can happen, and exactly for the messages of
      `HitsNil`: all other panics are unreachable. */
  lemma PanicsExactly(e: Env, app: AppState, run: seq<Stimulus>, s: Stimulus)
    requires Legal(e, app, run + [s])
    ensures var c := After(e, app, run);
      After(e, app, run + [s]).panicked <==> c.panicked || HitsNil(c, s.replies, s.input)
  {
    assert (run + [s])[..|run|] == run;
    RunInv(e, app, run);
    var c := After(e, app, run);
    if !c.panicked {
      HandleOk(e, s.replies, c, s.input);
    }
  }

  /** A concrete message that makes a fresh node panic: a commit with a missing entry is well
      formed, and the node dereferences the entry. */
  lemma MissingVotePanics(e: Env, rep: Replies, app: AppState)
    requires app.lastHeight >= 0
    ensures var m := Commit(1, NIL, [None, Some(Vote(PrecommitType, app.lastHeight + 1, 0, 1, NIL, 1, 1))], 1, 1);
      Handle(e, rep, StartState(app), CommitMsg(m)).panicked
  {
    var v := Vote(PrecommitType, app.lastHeight + 1, 0, 1, NIL, 1, 1);
    var m := Commit(1, NIL, [None, Some(v)], 1, 1);
    assert AllFit(m, app.lastHeight + 1, 0);
    assert m.precommits[1..] == [Some(v)];
    assert FirstPresent(m.precommits[1..]) == v;
    assert FirstPresent(m.precommits) == v;
  }

  /** Another one: a well-formed request for the votes of a negative round makes every node at its
      height panic, whatever it has done before. */
  lemma NegativeRoundPanics(e: Env, rep: Replies, c: State)
    requires Reachable(e, c)
    ensures Handle(e, rep, c, FetchReqMsg(FetchVotesReq(PrevoteType, c.height, -1, 1, [], 1))).panicked
  {
    ReachableInv(e, c);
    RequestedSetExists(e, c, FetchVotesReq(PrevoteType, c.height, -1, 1, [], 1));
  }

  /** A node's answer serves the request: for a request made of the voters of a vote set at the node's
      height, base and a round it has been through, the exchange leaves the requester with exactly the
      voters of both sides if and only if it missed none or both lists keep to the limit. */
  lemma ReplyReconciles(e: Env, ans: Answers, c: State, mine: Tally, req: FetchVotesReq, rsp: FetchVotesRsp)
    returns (theirs: Tally, votes: seq<Vote>)
    requires Reachable(e, c) && WellFormedFetchReq(req) && IsReply(e, ans, c, req, Some(rsp))
    requires e.self != NO_KEY && forall m :: e.signRsp(m) != NO_SIGNATURE
    requires Recounts(CommitteeOf(e, c), mine) && FetchVotes.Asks(mine, req)
    requires mine.height == c.height && mine.base == c.lastCommittedData && 0 <= mine.round <= c.round
    ensures TallyAt(c.votes, mine.kind, mine.round) == Some(theirs) && rsp.missingVotes == Listed(votes)
    ensures VoterSet(FetchVotes.Exchange(CommitteeOf(e, c), mine, req, votes, rsp)) == VoterSet(mine) + VoterSet(theirs) <==>
      VoterSet(theirs) <= VoterSet(mine) || |votes| <= VAL_NUM
  {
    ReachableInv(e, c);
    theirs := TallyAt(c.votes, req.kind, req.round).value;
    votes :| IsResponse(theirs, Named(req.voters), votes) &&
      rsp == SignRsp(e, FetchVotesRsp(req.kind, req.height, req.round, NO_KEY, Listed(votes), NO_SIGNATURE));
    var k := CommitteeOf(e, c);
    assert TallyOk(k, c.votes, req.kind, req.round, theirs);
    FetchVotes.ResponseLength(k, theirs, VoterSet(mine), votes);
    FetchVotes.FetchExactly(k, mine, theirs, req, votes, rsp);
  }

  /** Height, round and step never go back, and the journal only grows. */
  lemma {:induction false} NeverBack(e: Env, app: AppState, run: seq<Stimulus>, n: nat)
    requires Legal(e, app, run) && n <= |run|
    ensures !Before(Position(After(e, app, run)), Position(After(e, app, run[..n])))
    ensures Grows(After(e, app, run[..n]).journal, After(e, app, run).journal)
    decreases |run|
  {
    if n == |run| {
      assert run[..n] == run;
    } else {
      var last := |run| - 1;
      assert run[..last][..n] == run[..n];
      NeverBack(e, app, run[..last], n);
      RunInv(e, app, run[..last]);
      var c := After(e, app, run[..last]);
      if !c.panicked {
        HandleOk(e, run[last].replies, c, run[last].input);
        BeforeTrans(Position(After(e, app, run[..n])), Position(c), Position(After(e, app, run)));
      }
    }
  }
}
