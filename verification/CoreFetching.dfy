/** What a node gains from the votes of a message: those of a fetch response and of a commit. */
module CoreFetching {
  import opened Messages
  import opened Committees
  import opened Tallies
  import opened HeightVotes
  import opened CoreSpec
  import opened CoreInvariant
  import opened CoreSteps
  import opened CoreHandlers
  import opened CoreActions
  import opened CatchUp
  import FetchVotes
  import Runs = CoreRuns

  // ---- votes stay held ----------------------------------------------------------------

  ghost predicate KeepsHeld(c: State, n: State) {
    forall v :: HoldsVote(c, v) ==> HoldsVote(n, v)
  }

  lemma SameVotesKeep(c: State, n: State)
    requires n.votes == c.votes
    ensures KeepsHeld(c, n)
  {
  }

  lemma SetRoundKeepsHeld(c: State, n: State, round: int)
    requires n.votes == SetRound(c.votes, round)
    ensures KeepsHeld(c, n)
  {
  }

  lemma AddKeepsHeld(k: Committee, c: State, v: Vote, m: State)
    requires Collected(v.kind) && m.votes == AddVoteIn(k, c.votes, v)
    ensures KeepsHeld(c, m)
  {
    forall w | HoldsVote(c, w) ensures HoldsVote(m, w) {
      if w.kind == v.kind && w.round == v.round {
        AddVoteInKeeps(k, c.votes, v, w.proposed, w.address);
      } else {
        AddVoteInLeaves(k, c.votes, v, w.kind, w.round);
      }
    }
  }

  lemma KeepsTwice(c: State, m: State, n: State)
    requires KeepsHeld(c, m) && KeepsHeld(m, n)
    ensures KeepsHeld(c, n)
  {
  }

  /** What a vote that leads to no commit leaves alone: the height, the votes held and the note that a
      commit was received. */
  ghost predicate Keeps(c: State, n: State) {
    KeepsHeld(c, n) && n.hasRecvCommitRecords == c.hasRecvCommitRecords && n.height == c.height
  }

  lemma BeginsRoundKeeps(e: Env, ans: Answers, c: State, round: int, n: State)
    requires BeginsRound(e, ans, c, round, n)
    ensures Keeps(c, n)
  {
    RoundBegun(e, ans, c, round, n);
    SetRoundKeepsHeld(c, n, round + 1);
  }

  lemma PrevoteKeeps(e: Env, ans: Answers, c: State, v: Vote, n: State)
    requires Inv(e, c) && IsNew(e, c, v) && v.kind == PrevoteType && n == HandleVote(e, ans, c, v)
    ensures Keeps(c, n) && HoldsVote(n, v)
  {
    var m := PrevoteActs(e, ans, c, v, n);
    AddKeepsHeld(CommitteeOf(e, c), c, v, m);
    ActsKeep(e, ans, m, v.round, n);
    KeepsTwice(c, m, n);
  }

  lemma ActsKeep(e: Env, ans: Answers, m: State, round: int, n: State)
    requires ActsOnPrevotes(e, ans, m, round, n)
    ensures Keeps(m, n)
  {
    if AnyAt(CommitteeOf(e, m), m.votes, PrevoteType, round) && round > m.round {
      BeginsRoundKeeps(e, ans, m, round, n);
    } else {
      SameVotesKeep(m, n);
    }
  }

  lemma ReachesKeeps(e: Env, ans: Answers, m: State, round: int, a: State)
    requires Reaches(e, ans, m, round, a)
    ensures Keeps(m, a)
  {
    if StartsRound(m, round) {
      BeginsRoundKeeps(e, ans, m, round, a);
    }
  }

  lemma SplitKeeps(e: Env, ans: Answers, c: State, v: Vote, n: State)
    requires Inv(e, c) && IsNew(e, c, v) && v.kind == PrecommitType && n == HandleVote(e, ans, c, v)
    requires MajAt(AddVoteIn(CommitteeOf(e, c), c.votes, v), PrecommitType, v.round) == NIL
    ensures Keeps(c, n) && HoldsVote(n, v)
  {
    var m := PrecommitSplitActs(e, ans, c, v, n);
    AddKeepsHeld(CommitteeOf(e, c), c, v, m);
    SplitActsKeep(e, ans, m, v.round, n);
    KeepsTwice(c, m, n);
  }

  lemma SplitActsKeep(e: Env, ans: Answers, m: State, round: int, n: State)
    requires ActsOnSplit(e, ans, m, round, n)
    ensures Keeps(m, n)
  {
    if AnyAt(CommitteeOf(e, m), m.votes, PrecommitType, round) && round >= m.round {
      var a :| Reaches(e, ans, m, round, a) && if a.step < PRECOMMIT_WAIT then WaitsAt(a, PRECOMMIT_WAIT, n) else n == a;
      ReachesKeeps(e, ans, m, round, a);
      SameVotesKeep(a, n);
      KeepsTwice(m, a, n);
    }
  }

  lemma StragglerKeepsHeld(e: Env, ans: Answers, c: State, v: Vote, n: State)
    requires Inv(e, c) && v.height + 1 == c.height && n == HandleVote(e, ans, c, v)
    ensures Keeps(c, n)
  {
    StragglerActs(e, ans, c, v, n);
    if n != c {
      var b := c.(lastCommit := Some(AddVote(CommitteeOf(e, c), c.lastCommit.value, v)));
      SameVotesKeep(c, b);
      if n != b {
        BeginsRoundKeeps(e, ans, b, 0, n);
        KeepsTwice(c, b, n);
      }
    }
  }

  lemma RefusedKeeps(e: Env, ans: Answers, c: State, v: Vote, n: State)
    requires Inv(e, c) && Relevant(c, v) && !IsNew(e, c, v) && n == HandleVote(e, ans, c, v)
    ensures Keeps(c, n)
  {
    OtherVoteActs(e, ans, c, v, n);
  }

  lemma ProposalKeeps(e: Env, ans: Answers, c: State, v: Vote, n: State)
    requires Inv(e, c) && v.kind == ProposalType && v.height == c.height && n == HandleVote(e, ans, c, v)
    ensures Keeps(c, n)
  {
    ProposalActs(e, ans, c, v, n);
    SameVotesKeep(c, n);
  }

  /** A vote that completes a majority is committed with its broadcast flag: the certificate is sent out
      unless a commit was received. */
  ghost predicate CommitsWithFlag(c: State, n: State) {
    |n.journal.commits| > |c.journal.commits| && n.height > c.height
    && n.journal.commits[|c.journal.commits|].broadcast == !c.hasRecvCommitRecords
  }

  lemma MajorityFlag(e: Env, ans: Answers, c: State, v: Vote, n: State)
    requires Inv(e, c) && AppContract(ans) && IsNew(e, c, v) && v.kind == PrecommitType && n == HandleVote(e, ans, c, v)
    requires MajAt(AddVoteIn(CommitteeOf(e, c), c.votes, v), PrecommitType, v.round) != NIL
    ensures CommitsWithFlag(c, n)
  {
    var t := TallyAt(AddVoteIn(CommitteeOf(e, c), c.votes, v), PrecommitType, v.round).value;
    var m, a, p, b := PrecommitMajorityActs(e, ans, c, v, t, n);
    FlagOnTheWay(e, ans, m, v.round, t, a, p, b, n);
  }

  lemma FlagOnTheWay(e: Env, ans: Answers, m: State, round: int, t: Tally, a: State, p: State, b: State, n: State)
    requires Reaches(e, ans, m, round, a) && PrecommitsIn(e, a, round, p) && StartsHeight(p, round, t, b)
    requires MaySkip(e, ans, b, t, n)
    ensures CommitsWithFlag(m, n)
  {
    ReachesCommits(e, ans, m, round, a);
    SkipCommits(e, ans, b, t, n);
  }

  lemma ReachesCommits(e: Env, ans: Answers, m: State, round: int, a: State)
    requires Reaches(e, ans, m, round, a)
    ensures a.journal.commits == m.journal.commits && a.height == m.height && a.hasRecvCommitRecords == m.hasRecvCommitRecords
  {
  }

  lemma SkipCommits(e: Env, ans: Answers, b: State, t: Tally, n: State)
    requires MaySkip(e, ans, b, t, n)
    ensures n.journal.commits == b.journal.commits && n.height == b.height
  {
  }

  /** Any vote: it is committed on, or everything held stays held and a fitting one is held too. */
  lemma VoteKeeps(e: Env, ans: Answers, c: State, v: Vote, n: State)
    requires Inv(e, c) && AppContract(ans) && n == HandleVote(e, ans, c, v)
    ensures CommitsWithFlag(c, n) || (Keeps(c, n) && (Fitting(e, c, v) ==> HoldsVote(n, v)))
  {
    if IsNew(e, c, v) && v.kind == PrevoteType {
      PrevoteKeeps(e, ans, c, v, n);
    } else if IsNew(e, c, v) {
      NewPrecommitKeeps(e, ans, c, v, n);
    } else {
      OldVoteKeeps(e, ans, c, v, n);
    }
  }

  lemma NewPrecommitKeeps(e: Env, ans: Answers, c: State, v: Vote, n: State)
    requires Inv(e, c) && AppContract(ans) && IsNew(e, c, v) && v.kind == PrecommitType && n == HandleVote(e, ans, c, v)
    ensures CommitsWithFlag(c, n) || (Keeps(c, n) && HoldsVote(n, v))
  {
    if MajAt(AddVoteIn(CommitteeOf(e, c), c.votes, v), PrecommitType, v.round) == NIL {
      SplitKeeps(e, ans, c, v, n);
    } else {
      MajorityFlag(e, ans, c, v, n);
    }
  }

  lemma OldVoteKeeps(e: Env, ans: Answers, c: State, v: Vote, n: State)
    requires Inv(e, c) && !IsNew(e, c, v) && n == HandleVote(e, ans, c, v)
    ensures Keeps(c, n)
  {
    if v.height + 1 == c.height {
      StragglerKeepsHeld(e, ans, c, v, n);
    } else if v.height == c.height && v.kind == ProposalType {
      ProposalKeeps(e, ans, c, v, n);
    } else if Relevant(c, v) {
      RefusedKeeps(e, ans, c, v, n);
    } else {
      OtherVoteActs(e, ans, c, v, n);
      SameVotesKeep(c, n);
    }
  }

  // ---- lists of votes -----------------------------------------------------------------

  /** A vote the node has or takes: of its height and base, within the watermark, and verified. */
  ghost predicate Fitting(e: Env, c: State, v: Vote) {
    Relevant(c, v) && v.prev == c.lastCommittedData && Verified(CommitteeOf(e, c), v)
  }

  /** Every fitting vote of the list is held. */
  ghost predicate HoldsFitting(e: Env, c: State, votes: seq<Option<Vote>>, n: State) {
    forall i :: 0 <= i < |votes| && votes[i].Some? && Fitting(e, c, votes[i].value) ==> HoldsVote(n, votes[i].value)
  }

  lemma FirstAndRest(e: Env, c: State, m: State, n: State, votes: seq<Option<Vote>>)
    requires votes != [] && votes[0].Some? && m.height == c.height && m.lastCommittedData == c.lastCommittedData
    requires m.round >= c.round && (Fitting(e, c, votes[0].value) ==> HoldsVote(m, votes[0].value))
    requires KeepsHeld(m, n) && HoldsFitting(e, m, votes[1..], n)
    ensures HoldsFitting(e, c, votes, n)
  {
    forall i | 0 <= i < |votes| && votes[i].Some? && Fitting(e, c, votes[i].value) ensures HoldsVote(n, votes[i].value) {
      if i > 0 {
        assert votes[1..][i - 1] == votes[i];
      }
    }
  }

  /** Feeding a list: the node commits on the way, or it ends up holding all it held and every fitting
      vote of the list. */
  lemma {:induction false} VotesKeep(e: Env, rep: Replies, c: State, votes: seq<Option<Vote>>, n: State)
    requires Inv(e, c) && AppReplies(rep) && !c.panicked && None !in votes && n == HandleVotes(e, rep, c, votes)
    ensures CommitsWithFlag(c, n) || (Keeps(c, n) && HoldsFitting(e, c, votes, n))
    decreases |votes|
  {
    if votes != [] {
      var v, m := votes[0].value, HandleVote(e, rep(|votes|), c, votes[0].value);
      HandleVoteOk(e, rep(|votes|), c, v);
      VoteKeeps(e, rep(|votes|), c, v, m);
      PresentSplit(votes);
      VotesKeep(e, rep, m, votes[1..], n);
      HandleVotesOk(e, rep, m, votes[1..], n);
      VotesStepKeeps(e, c, votes, m, n);
    }
  }

  lemma VotesStepKeeps(e: Env, c: State, votes: seq<Option<Vote>>, m: State, n: State)
    requires votes != [] && votes[0].Some?
    requires VoteHandled(e, c, votes[0].value, m) && Grows(m.journal, n.journal) && !Before(Position(n), Position(m))
    requires CommitsWithFlag(c, m) || (Keeps(c, m) && (Fitting(e, c, votes[0].value) ==> HoldsVote(m, votes[0].value)))
    requires CommitsWithFlag(m, n) || (Keeps(m, n) && HoldsFitting(e, m, votes[1..], n))
    ensures CommitsWithFlag(c, n) || (Keeps(c, n) && HoldsFitting(e, c, votes, n))
  {
    if !CommitsWithFlag(c, m) && !CommitsWithFlag(m, n) {
      KeepsTwice(c, m, n);
      FirstAndRest(e, c, m, n, votes);
    }
  }

  lemma ListTurn(e: Env, rep: Replies, c: State, votes: seq<Option<Vote>>, v: Vote, rest: seq<Option<Vote>>, ans: Answers)
    requires !c.panicked && votes == [Some(v)] + rest && ans == rep(|votes|)
    ensures HandleVotes(e, rep, c, votes) == HandleVotes(e, rep, HandleVote(e, ans, c, v), rest)
  {
    VotesStep(e, rep, c, votes, HandleVote(e, ans, c, v));
    assert votes[1..] == rest;
  }

  lemma ListEnds(e: Env, rep: Replies, c: State, votes: seq<Option<Vote>>)
    requires votes == [] || c.panicked || votes[0].None?
    ensures HandleVotes(e, rep, c, votes) == if votes == [] || c.panicked then c else Panic(c)
  {
  }

  /** A list is handled vote by vote: first its beginning, then the rest with what came of it.  `ahead`
      are the same answers, counted from the end of the beginning. */
  lemma {:induction false} VotesInTurn(e: Env, rep: Replies, ahead: Replies, c: State,
                                       first: seq<Option<Vote>>, rest: seq<Option<Vote>>)
    requires forall i: nat :: ahead(i) == rep(i + |rest|)
    ensures HandleVotes(e, rep, c, first + rest) == HandleVotes(e, rep, HandleVotes(e, ahead, c, first), rest)
    decreases |first|
  {
    if first == [] || c.panicked || first[0].None? {
      TurnEnds(e, rep, ahead, c, first, rest);
    } else {
      var ans := rep(|first| + |rest|);
      assert ahead(|first|) == ans;
      assert first == [Some(first[0].value)] + first[1..];
      assert first + rest == [Some(first[0].value)] + (first[1..] + rest);
      ListTurn(e, rep, c, first + rest, first[0].value, first[1..] + rest, ans);
      ListTurn(e, ahead, c, first, first[0].value, first[1..], ans);
      VotesInTurn(e, rep, ahead, HandleVote(e, ans, c, first[0].value), first[1..], rest);
    }
  }

  lemma TurnEnds(e: Env, rep: Replies, ahead: Replies, c: State, first: seq<Option<Vote>>, rest: seq<Option<Vote>>)
    requires first == [] || c.panicked || first[0].None?
    ensures HandleVotes(e, rep, c, first + rest) == HandleVotes(e, rep, HandleVotes(e, ahead, c, first), rest)
  {
    if first == [] {
      assert first + rest == rest;
    } else {
      assert (first + rest)[0] == first[0];
      ListEnds(e, rep, c, first + rest);
      ListEnds(e, rep, HandleVotes(e, ahead, c, first), rest);
    }
    ListEnds(e, ahead, c, first);
  }

  /** A single vote is handled as such, a missing one makes the node panic. */
  lemma OneVote(e: Env, rep: Replies, c: State, o: Option<Vote>)
    requires !c.panicked
    ensures HandleVotes(e, rep, c, [o]) == if o.Some? then HandleVote(e, rep(1), c, o.value) else Panic(c)
  {
    if o.Some? {
      ListTurn(e, rep, c, [o], o.value, [], rep(1));
      ListEnds(e, rep, HandleVote(e, rep(1), c, o.value), []);
    } else {
      ListEnds(e, rep, c, [o]);
    }
  }

  /** A list whose verified precommits complete a quorum, together with those held, takes the node on to
      the next height, whatever else is in the list. */
  lemma QuorumLeaves(e: Env, rep: Replies, c: State, votes: seq<Option<Vote>>, round: int, d: ProposedData,
                     quorum: set<PubKey>, n: State)
    requires Inv(e, c) && AppReplies(rep) && !c.panicked && None !in votes && n == HandleVotes(e, rep, c, votes)
    requires d != NIL && round >= 0 && HasQuorum(CommitteeOf(e, c), quorum)
    requires forall a :: a in quorum ==> HoldsPrecommit(c, round, d, a) || OfferedBy(e, c, votes, round, d, a)
    ensures CommitsWithFlag(c, n)
  {
    VotesKeep(e, rep, c, votes, n);
    HandleVotesOk(e, rep, c, votes, n);
    if !CommitsWithFlag(c, n) {
      forall a | a in quorum ensures HoldsPrecommit(n, round, d, a) {
        QuorumVoteHeld(e, c, votes, round, d, a, n);
      }
      NoQuorumHeld(e, n, round, d, quorum);
    }
  }

  ghost predicate OfferedBy(e: Env, c: State, votes: seq<Option<Vote>>, round: int, d: ProposedData, a: PubKey) {
    exists i :: 0 <= i < |votes| && votes[i].Some? && ProvedBy(e, c, votes[i].value, round, d, a)
  }

  ghost predicate ProvedBy(e: Env, c: State, v: Vote, round: int, d: ProposedData, a: PubKey) {
    Fitting(e, c, v) && v.kind == PrecommitType && v.round == round && v.proposed == d && v.address == a
  }

  lemma QuorumVoteHeld(e: Env, c: State, votes: seq<Option<Vote>>, round: int, d: ProposedData, a: PubKey, n: State)
    requires HoldsPrecommit(c, round, d, a) || OfferedBy(e, c, votes, round, d, a)
    requires KeepsHeld(c, n) && HoldsFitting(e, c, votes, n)
    ensures HoldsPrecommit(n, round, d, a)
  {
    if HoldsPrecommit(c, round, d, a) {
      var w := Vote(PrecommitType, c.height, round, d, NIL, a, NO_SIGNATURE);
      assert HoldsVote(c, w) && HoldsVote(n, w);
    } else {
      var i :| 0 <= i < |votes| && votes[i].Some? && ProvedBy(e, c, votes[i].value, round, d, a);
      assert HoldsVote(n, votes[i].value);
    }
  }

  // ---- fetch responses ------------------------------------------------------------------

  /** A fetch response for the node: of its height, not of an earlier round, while it is fetching, well
      formed and without missing votes. */
  ghost predicate IsForMe(c: State, m: FetchVotesRsp) {
    m.height == c.height && m.round >= c.round && IsFetch(c.step) && WellFormedFetchRsp(m) && None !in m.missingVotes
  }

  /** A node takes every response for it: it handles all its votes, and commits on the way or ends up
      with every fitting one. */
  lemma ResponseGains(e: Env, rep: Replies, c: State, m: FetchVotesRsp, n: State)
    requires Inv(e, c) && AppReplies(rep) && !c.panicked && IsForMe(c, m) && n == Handle(e, rep, c, FetchRspMsg(m))
    ensures n == HandleVotes(e, rep, c, m.missingVotes)
    ensures CommitsWithFlag(c, n) || (Keeps(c, n) && HoldsFitting(e, c, m.missingVotes, n))
  {
    ResponseIsVotes(e, rep, c, m, n);
    VotesKeep(e, rep, c, m.missingVotes, n);
  }

  /** A response whose precommits complete a quorum takes the node to the next height. */
  lemma ResponseLeaves(e: Env, rep: Replies, c: State, m: FetchVotesRsp, round: int, d: ProposedData, quorum: set<PubKey>, n: State)
    requires Inv(e, c) && AppReplies(rep) && !c.panicked && IsForMe(c, m) && n == Handle(e, rep, c, FetchRspMsg(m))
    requires d != NIL && round >= 0 && HasQuorum(CommitteeOf(e, c), quorum)
    requires forall a :: a in quorum ==> HoldsPrecommit(c, round, d, a) || OfferedBy(e, c, m.missingVotes, round, d, a)
    ensures CommitsWithFlag(c, n)
  {
    ResponseIsVotes(e, rep, c, m, n);
    QuorumLeaves(e, rep, c, m.missingVotes, round, d, quorum, n);
  }

  lemma ResponseIsVotes(e: Env, rep: Replies, c: State, m: FetchVotesRsp, n: State)
    requires IsForMe(c, m) && n == Handle(e, rep, c, FetchRspMsg(m))
    ensures n == HandleVotes(e, rep, c, m.missingVotes)
  {
  }

  /** If it is made of precommits for one data, the node commits exactly that data. */
  lemma ResponseCommits(e: Env, rep: Replies, c: State, m: FetchVotesRsp, round: int, d: ProposedData, have: set<PubKey>, n: State)
    requires AppReplies(rep) && IsForMe(c, m) && n == Handle(e, rep, c, FetchRspMsg(m))
    requires Certifies(e, c, m.missingVotes, round, d, have)
    ensures Commits(c, n, round, d)
  {
    ResponseIsVotes(e, rep, c, m, n);
    CertificateCommits(e, rep, c, m.missingVotes, round, d, have);
  }

  /** Any other response without missing votes changes nothing. */
  lemma OtherResponse(e: Env, rep: Replies, c: State, m: FetchVotesRsp, n: State)
    requires !IsForMe(c, m) && None !in m.missingVotes && n == Handle(e, rep, c, FetchRspMsg(m))
    ensures n == c
  {
  }

  // ---- commits ------------------------------------------------------------------------

  /** A commit of the node's height: it is committed on without sending the certificate out again, or
      the node remembers that it came and holds its fitting votes. */
  lemma CommitGains(e: Env, rep: Replies, c: State, m: Commit, n: State)
    requires Inv(e, c) && AppReplies(rep) && !c.panicked && n == Handle(e, rep, c, CommitMsg(m))
    requires WellFormedCommit(m) && CommitHeight(m) == c.height && None !in m.precommits
    ensures n == HandleVotes(e, rep, c.(hasRecvCommitRecords := true), m.precommits)
    ensures if n.height == c.height then n.hasRecvCommitRecords && HoldsFitting(e, c, m.precommits, n)
      else |n.journal.commits| > |c.journal.commits| && !n.journal.commits[|c.journal.commits|].broadcast
  {
    var c1 := c.(hasRecvCommitRecords := true);
    FlagKeeps(e, c, c1);
    VotesKeep(e, rep, c1, m.precommits, n);
    assert forall i :: 0 <= i < |m.precommits| && m.precommits[i].Some? && Fitting(e, c, m.precommits[i].value) ==>
      Fitting(e, c1, m.precommits[i].value);
  }

  lemma {:induction false} AheadVotes(e: Env, rep: Replies, c: State, votes: seq<Option<Vote>>, h: int)
    requires h > c.height && forall i :: 0 <= i < |votes| ==> votes[i].Some? && votes[i].value.height == h
    ensures HandleVotes(e, rep, c, votes) == c
    decreases |votes|
  {
    if votes != [] && !c.panicked {
      assert HandleVote(e, rep(|votes|), c, votes[0].value) == c;
      AheadVotes(e, rep, c, votes[1..], h);
    }
  }

  /** A commit of another height or one that is not well formed changes nothing, unless it is of the
      future and has a missing vote. */
  lemma OtherCommit(e: Env, rep: Replies, c: State, m: Commit, n: State)
    requires n == Handle(e, rep, c, CommitMsg(m)) && None !in m.precommits
    requires !WellFormedCommit(m) || CommitHeight(m) != c.height
    ensures n == c
  {
    if WellFormedCommit(m) && CommitHeight(m) > c.height {
      WellFormedPositions(m);
      forall i | 0 <= i < |m.precommits| ensures m.precommits[i].Some? && m.precommits[i].value.height == CommitHeight(m) {
        assert m.precommits[i] != None;
      }
      AheadVotes(e, rep, c, m.precommits, CommitHeight(m));
    }
  }

  // ---- asking and being answered ----------------------------------------------------------

  /** The node's key is not the empty one and what it signs has a signature. */
  ghost predicate Signs(e: Env) {
    e.self != NO_KEY && (forall m :: e.signReq(m) != NO_SIGNATURE) && (forall m :: e.signRsp(m) != NO_SIGNATURE)
  }

  /** What a node asks for in a fetch step: the voters of the vote set it waits on. */
  lemma RequestAsks(e: Env, c: State, out: Option<FetchVotesReq>) returns (mine: Tally)
    requires Inv(e, c) && IsFetch(c.step) && IsRequest(e, c, out) && Signs(e)
    ensures out.Some? && TallyAt(c.votes, FetchedKind(c.step), c.round) == Some(mine) && FetchVotes.Asks(mine, out.value)
    ensures out.value.kind == FetchedKind(c.step) && out.value.height == c.height && out.value.round == c.round
    ensures c.step == PREVOTE_FETCH ==> out.value.kind == PrevoteType
    ensures c.step == PRECOMMIT_FETCH ==> out.value.kind == PrecommitType
    ensures Recounts(CommitteeOf(e, c), mine) && mine.base == c.lastCommittedData
  {
    mine := TallyAt(c.votes, FetchedKind(c.step), c.round).value;
    assert TallyOk(CommitteeOf(e, c), c.votes, FetchedKind(c.step), c.round, mine);
  }

  /** A signed response to a request. */
  ghost predicate RespondsTo(f: Env, req: FetchVotesReq, kind: VoteType, rsp: FetchVotesRsp) {
    rsp == SignRsp(f, FetchVotesRsp(kind, req.height, req.round, NO_KEY, rsp.missingVotes, NO_SIGNATURE))
  }

  /** What another node of the same height answers with: exactly its votes of the voters that were not
      named. */
  lemma AnswerHas(f: Env, ans: Answers, c: State, req: FetchVotesReq, out: Option<FetchVotesRsp>) returns (theirs: Tally, votes: seq<Vote>)
    requires Inv(f, c) && WellFormedFetchReq(req) && req.height == c.height && req.round <= c.round
    requires IsReply(f, ans, c, req, out)
    ensures TallyAt(c.votes, req.kind, req.round) == Some(theirs)
    ensures out.Some? && RespondsTo(f, req, req.kind, out.value) && out.value.missingVotes == Listed(votes)
    ensures IsResponse(theirs, Named(req.voters), votes) && TallyOk(CommitteeOf(f, c), c.votes, req.kind, req.round, theirs)
    ensures c.votes.height == c.height && c.votes.base == c.lastCommittedData
  {
    theirs := TallyAt(c.votes, req.kind, req.round).value;
    votes :| IsResponse(theirs, Named(req.voters), votes)
      && out == Some(SignRsp(f, FetchVotesRsp(req.kind, req.height, req.round, NO_KEY, Listed(votes), NO_SIGNATURE)));
    assert TallyOk(CommitteeOf(f, c), c.votes, req.kind, req.round, theirs);
  }

  /** What a node answers with for a height it has left: the certificate its application kept, if any. */
  lemma PastAnswer(f: Env, ans: Answers, c: State, req: FetchVotesReq, out: Option<FetchVotesRsp>)
    requires WellFormedFetchReq(req) && c.height > req.height && IsReply(f, ans, c, req, out)
    ensures out.Some? <==> ans.history(req.height).Some?
    ensures out.Some? ==>
      RespondsTo(f, req, PrecommitType, out.value) && out.value.missingVotes == ans.history(req.height).value.precommits
  {
  }

  /** Nobody else is answered. */
  lemma NoAnswer(f: Env, ans: Answers, c: State, req: FetchVotesReq, out: Option<FetchVotesRsp>)
    requires IsReply(f, ans, c, req, out)
    requires !WellFormedFetchReq(req) || req.height > c.height || (req.height == c.height && req.round > c.round)
    ensures out == None
  {
  }

  /** A stored vote of another node with the same height, base and committee fits here. */
  lemma TheirsFits(e: Env, c: State, other: State, kind: VoteType, theirs: Tally, v: Vote)
    requires c.height == other.height && c.lastCommittedData == other.lastCommittedData
    requires other.votes.height == other.height && other.votes.base == other.lastCommittedData
    requires Collected(kind) && TallyOk(CommitteeOf(e, c), other.votes, kind, c.round, theirs) && Stored(theirs, v) && c.round >= 0
    ensures Fitting(e, c, v)
  {
    assert DataOk(CommitteeOf(e, c), theirs, v.proposed);
    assert Fits(CommitteeOf(e, c), theirs, v.proposed, v.address, v);
  }

  lemma GainsTheirs(e: Env, c: State, other: State, kind: VoteType, theirs: Tally, known: set<PubKey>, votes: seq<Vote>, n: State)
    requires c.height == other.height && c.lastCommittedData == other.lastCommittedData && c.round >= 0
    requires other.votes.height == other.height && other.votes.base == other.lastCommittedData
    requires Collected(kind) && TallyOk(CommitteeOf(e, c), other.votes, kind, c.round, theirs)
    requires IsResponse(theirs, known, votes) && HoldsFitting(e, c, Listed(votes), n)
    ensures forall v :: Stored(theirs, v) && v.address !in known ==> HoldsVote(n, v)
  {
    forall v | Stored(theirs, v) && v.address !in known ensures HoldsVote(n, v) {
      assert VotesFor(theirs, v.proposed).votes[v.address] in votes;
      var i :| 0 <= i < |votes| && votes[i] == v;
      TheirsFits(e, c, other, kind, theirs, v);
      assert Listed(votes)[i] == Some(v);
    }
  }

  lemma AnswerIsForMe(c: State, req: FetchVotesReq, f: Env, rsp: FetchVotesRsp, kind: VoteType)
    requires IsFetch(c.step) && req.height == c.height && req.round == c.round && Signs(f)
    requires RespondsTo(f, req, kind, rsp)
    requires Collected(kind) && |rsp.missingVotes| <= VAL_NUM && None !in rsp.missingVotes
    ensures IsForMe(c, rsp)
  {
  }

  /** The requester's side of a round of fetching. */
  lemma TakesAnswer(e: Env, c: State, rsp: FetchVotesRsp, other: State, kind: VoteType, theirs: Tally, known: set<PubKey>,
                    votes: seq<Vote>, rep: Replies, n: State)
    requires Inv(e, c) && !c.panicked && AppReplies(rep) && IsForMe(c, rsp) && rsp.missingVotes == Listed(votes)
    requires c.height == other.height && c.lastCommittedData == other.lastCommittedData
    requires other.votes.height == other.height && other.votes.base == other.lastCommittedData
    requires Collected(kind) && TallyOk(CommitteeOf(e, c), other.votes, kind, c.round, theirs)
    requires IsResponse(theirs, known, votes) && n == Handle(e, rep, c, FetchRspMsg(rsp))
    ensures CommitsWithFlag(c, n) || (Keeps(c, n) && forall v :: Stored(theirs, v) && v.address !in known ==> HoldsVote(n, v))
  {
    ResponseGains(e, rep, c, rsp, n);
    if !CommitsWithFlag(c, n) {
      GainsTheirs(e, c, other, kind, theirs, known, votes, n);
    }
  }

  /** One round of fetching between two nodes of the same height and base: unless it commits on the way,
      the asking node ends up holding everything it held and every vote of the other's vote set whose
      voter it did not know, if request and response keep to the limit. */
  lemma FetchRoundTrip(e: Env, c: State, req: FetchVotesReq, f: Env, ans: Answers, other: State, out: Option<FetchVotesRsp>)
    returns (mine: Tally, theirs: Tally)
    requires Inv(e, c) && IsFetch(c.step) && Signs(e) && IsRequest(e, c, Some(req)) && WellFormedFetchReq(req)
    requires Inv(f, other) && Signs(f) && CommitteeOf(f, other) == CommitteeOf(e, c)
    requires other.height == c.height && other.lastCommittedData == c.lastCommittedData && other.round >= c.round
    requires IsReply(f, ans, other, req, out)
    ensures TallyAt(c.votes, FetchedKind(c.step), c.round) == Some(mine)
    ensures TallyAt(other.votes, FetchedKind(c.step), c.round) == Some(theirs)
    ensures out.Some? && (|out.value.missingVotes| <= VAL_NUM ==> Informs(e, c, mine, theirs, out.value))
  {
    mine := RequestAsks(e, c, Some(req));
    var votes;
    theirs, votes := AnswerHas(f, ans, other, req, out);
    if |out.value.missingVotes| <= VAL_NUM {
      AnswerIsForMe(c, req, f, out.value, req.kind);
      forall rep | AppReplies(rep) && !c.panicked ensures Informed(e, rep, c, mine, theirs, out.value) {
        TakesAnswer(e, c, out.value, other, req.kind, theirs, Named(req.voters), votes, rep,
                    Handle(e, rep, c, FetchRspMsg(out.value)));
      }
    }
  }

  /** The response makes the node commit, or hold everything it held and every vote of `theirs` whose
      voter is not in `mine`. */
  ghost predicate Informed(e: Env, rep: Replies, c: State, mine: Tally, theirs: Tally, rsp: FetchVotesRsp) {
    var n := Handle(e, rep, c, FetchRspMsg(rsp));
    CommitsWithFlag(c, n) || (Keeps(c, n) && forall v :: Stored(theirs, v) && v.address !in VoterSet(mine) ==> HoldsVote(n, v))
  }

  ghost predicate Informs(e: Env, c: State, mine: Tally, theirs: Tally, rsp: FetchVotesRsp) {
    !c.panicked ==> forall rep :: AppReplies(rep) ==> Informed(e, rep, c, mine, theirs, rsp)
  }

  lemma CertificateFits(c: State, m: Commit)
    requires WellFormedCommit(m) && None !in m.precommits && CommitHeight(m) == c.height && m.prev == c.lastCommittedData
    ensures AllFitHere(c, CommitRound(m), m.proposedData, m.precommits)
  {
    WellFormedPositions(m);
    forall i | 0 <= i < |m.precommits|
      ensures m.precommits[i].Some? && FitsHere(c, CommitRound(m), m.proposedData, m.precommits[i].value)
    {
      assert m.precommits[i] != None;
    }
  }

  lemma CertificateCertifies(e: Env, c: State, m: Commit)
    requires Inv(e, c) && !c.panicked
    requires m.proposedData != NIL && AllFitHere(c, CommitRound(m), m.proposedData, m.precommits)
    requires 0 <= CommitRound(m) <= c.round + WATERMARK
    requires HasQuorum(CommitteeOf(e, c), VerifiedSigners(CommitteeOf(e, c), m.precommits))
    ensures Certifies(e, c, m.precommits, CommitRound(m), m.proposedData, {})
  {
    assert {} + VerifiedSigners(CommitteeOf(e, c), m.precommits) == VerifiedSigners(CommitteeOf(e, c), m.precommits);
  }

  /** A node that lags behind catches up by its own request: a node of a later height whose application
      kept a certificate of that height answers with it, and the certificate is committed. */
  lemma FetchCatchesUp(e: Env, c: State, req: FetchVotesReq, f: Env, ans: Answers, other: State, out: Option<FetchVotesRsp>,
                       m: Commit, rep: Replies)
    requires Inv(e, c) && IsFetch(c.step) && !c.panicked && Signs(e) && AppReplies(rep)
    requires IsRequest(e, c, Some(req)) && WellFormedFetchReq(req)
    requires Signs(f) && other.height > c.height && ans.history(c.height) == Some(m) && IsReply(f, ans, other, req, out)
    requires WellFormedCommit(m) && None !in m.precommits && |m.precommits| <= VAL_NUM
    requires CommitHeight(m) == c.height && m.prev == c.lastCommittedData && 0 <= CommitRound(m) <= c.round + WATERMARK
    requires HasQuorum(CommitteeOf(e, c), VerifiedSigners(CommitteeOf(e, c), m.precommits))
    ensures out.Some? && Commits(c, Handle(e, rep, c, FetchRspMsg(out.value)), CommitRound(m), m.proposedData)
  {
    var mine := RequestAsks(e, c, Some(req));
    PastAnswer(f, ans, other, req, out);
    AnswerIsForMe(c, req, f, out.value, PrecommitType);
    CertificateFits(c, m);
    CertificateCertifies(e, c, m);
    ResponseCommits(e, rep, c, out.value, CommitRound(m), m.proposedData, {}, Handle(e, rep, c, FetchRspMsg(out.value)));
  }
}
