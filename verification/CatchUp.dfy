/** Catch-up by certificate: a valid commit message makes a node commit its data. */
module CatchUp {
  import opened Messages
  import opened Committees
  import opened Tallies
  import opened HeightVotes
  import opened CoreSpec
  import opened CoreInvariant
  import opened CoreSteps
  import opened CoreHandlers
  import Runs = CoreRuns

  /** The node holds a precommit of `a` for `d`. */
  ghost predicate HoldsPrecommit(c: State, round: int, d: ProposedData, a: PubKey) {
    var t := TallyAt(c.votes, PrecommitType, round);
    t.Some? && Holds(t.value, d, a)
  }

  /** A verified precommit for `d` that fits the node's height and base. */
  ghost predicate Proves(e: Env, c: State, round: int, d: ProposedData, v: Vote) {
    && v.kind == PrecommitType && v.height == c.height && v.round == round
    && v.proposed == d && v.prev == c.lastCommittedData && Verified(CommitteeOf(e, c), v)
  }

  ghost predicate KeepsRounds(a: Votes, b: Votes) {
    forall r :: r in a.rounds ==> r in b.rounds && b.rounds[r] == a.rounds[r]
  }

  lemma SetRoundKeeps(hv: Votes, round: int)
    ensures KeepsRounds(hv, SetRound(hv, round))
  {
  }

  lemma AnyPrecommitsKeep(e: Env, ans: Answers, c: State, round: int)
    requires Base(e, c) && AtRest(c) && c.round <= round && AnyAt(CommitteeOf(e, c), c.votes, PrecommitType, round)
    ensures KeepsRounds(c.votes, EnterPrecommitWait(e, EnterNewRound(e, ans, c, c.height, round), c.height, round).votes)
  {
    var m := EnterNewRound(e, ans, c, c.height, round);
    if StartsRound(c, round) {
      EnterNewRoundOk(e, ans, c, round);
      SetRoundKeeps(c.votes, round + 1);
      SetRoundAny(CommitteeOf(e, c), c.votes, round + 1);
    }
    WaitKeepsVotes(e, m, c.height, round);
  }

  lemma WaitKeepsVotes(e: Env, c: State, height: int, round: int)
    ensures EnterPrecommitWait(e, c, height, round).votes == c.votes
  {
  }

  /** Unless it commits, a precommit leaves the recorded votes where they are. */
  lemma AfterPrecommitKeeps(e: Env, ans: Answers, c: State, v: Vote)
    requires Base(e, c) && AtRest(c) && MajAt(c.votes, PrecommitType, v.round) == NIL
    ensures KeepsRounds(c.votes, AfterPrecommit(e, ans, c, v).votes)
  {
    if c.round <= v.round && AnyAt(CommitteeOf(e, c), c.votes, PrecommitType, v.round) {
      AnyPrecommitsKeep(e, ans, c, v.round);
    }
  }

  /** What holds of the vote sets once a proving precommit was recorded. */
  lemma RecordedHolds(e: Env, c: State, v: Vote, d: ProposedData, a: PubKey)
    requires Inv(e, c) && Relevant(c, v) && Proves(e, c, v.round, d, v)
    requires HoldsPrecommit(c, v.round, d, a) || a == v.address
    ensures HoldsPrecommit(Record(e, c, v), v.round, d, a)
  {
    AddVoteInHolds(CommitteeOf(e, c), c.votes, v);
    if HoldsPrecommit(c, v.round, d, a) {
      AddVoteInKeeps(CommitteeOf(e, c), c.votes, v, d, a);
    }
  }

  lemma KeepsHold(c: State, n: State, round: int, d: ProposedData, a: PubKey)
    requires KeepsRounds(c.votes, n.votes) && HoldsPrecommit(c, round, d, a)
    ensures HoldsPrecommit(n, round, d, a)
  {
  }

  lemma HandleProving(e: Env, ans: Answers, c: State, v: Vote, n: State)
    requires Inv(e, c) && AppContract(ans) && Relevant(c, v) && v.kind == PrecommitType
    requires n == HandleVote(e, ans, c, v) && Stays(c, n)
    ensures KeepsRounds(Record(e, c, v).votes, n.votes)
  {
    var m := Record(e, c, v);
    if JudgeIn(CommitteeOf(e, c), c.votes, v) == Added {
      RecordBase(e, c, v);
      RecordedAhead(e, c, v);
      ProvingThen(e, ans, m, v, n);
    }
  }

  lemma ProvingThen(e: Env, ans: Answers, m: State, v: Vote, n: State)
    requires Base(e, m) && AtRest(m) && NoneAhead(CommitteeOf(e, m), m.votes, m.round, (PrecommitType, v.round))
    requires AppContract(ans) && v.round >= 0 && v.kind == PrecommitType
    requires NoCommitted(m.votes, v.round) && MajAt(m.votes, PrecommitType, v.round) in {NIL, v.proposed}
    requires n == AfterPrecommit(e, ans, m, v) && n.height == m.height
    ensures KeepsRounds(m.votes, n.votes)
  {
    AfterPrecommitOk(e, ans, m, v);
    AfterPrecommitKeeps(e, ans, m, v);
  }

  /** Handling a proving precommit commits, or leaves the node holding it and all it held. */
  lemma ProvingVoteHeld(e: Env, ans: Answers, c: State, v: Vote, d: ProposedData, a: PubKey)
    requires Inv(e, c) && AppContract(ans) && Relevant(c, v) && Proves(e, c, v.round, d, v)
    requires HoldsPrecommit(c, v.round, d, a) || a == v.address
    requires Stays(c, HandleVote(e, ans, c, v))
    ensures HoldsPrecommit(HandleVote(e, ans, c, v), v.round, d, a)
  {
    var n := HandleVote(e, ans, c, v);
    RecordedHolds(e, c, v, d, a);
    HandleProving(e, ans, c, v, n);
    KeepsHold(Record(e, c, v), n, v.round, d, a);
  }

  /** A node at rest never holds a quorum of precommits for data. */
  lemma NoQuorumHeld(e: Env, c: State, round: int, d: ProposedData, have: set<PubKey>)
    requires Inv(e, c) && d != NIL && round >= 0
    requires forall a :: a in have ==> HoldsPrecommit(c, round, d, a)
    ensures !HasQuorum(CommitteeOf(e, c), have)
  {
    var k := CommitteeOf(e, c);
    if have == {} {
      assert PowerOf(k.power, have) == 0;
    } else {
      var a :| a in have;
      assert HoldsPrecommit(c, round, d, a);
      var t := TallyAt(c.votes, PrecommitType, round).value;
      forall b | b in have ensures b in t.byData[d].votes {
        assert HoldsPrecommit(c, round, d, b);
      }
      PowerMono(k.power, have, t.byData[d].votes.Keys);
      assert TallyOk(k, c.votes, PrecommitType, round, t);
      assert MajAt(c.votes, PrecommitType, round) == NIL;
      assert !SomeMajority(k, t);
    }
  }

  /** After the commit the rest of the certificate changes neither height nor commits. */
  lemma {:induction false} RestIsLate(e: Env, rep: Replies, c: State, votes: seq<Option<Vote>>)
    requires Inv(e, c) && AppReplies(rep)
    requires forall i :: 0 <= i < |votes| ==> votes[i].Some? && votes[i].value.height + 1 == c.height
    ensures Stays(c, HandleVotes(e, rep, c, votes))
    decreases |votes|
  {
    if votes != [] && !c.panicked {
      HandleVoteOk(e, rep(|votes|), c, votes[0].value);
      RestIsLate(e, rep, HandleVote(e, rep(|votes|), c, votes[0].value), votes[1..]);
    }
  }

  /** Addresses of the entries that verify. */
  ghost function VerifiedSigners(k: Committee, votes: seq<Option<Vote>>): set<PubKey> {
    set i | 0 <= i < |votes| && votes[i].Some? && Verified(k, votes[i].value) :: votes[i].value.address
  }

  lemma SignersSplit(k: Committee, votes: seq<Option<Vote>>)
    requires votes != [] && votes[0].Some?
    ensures VerifiedSigners(k, votes) ==
      (if Verified(k, votes[0].value) then {votes[0].value.address} else {}) + VerifiedSigners(k, votes[1..])
  {
    forall a | a in VerifiedSigners(k, votes)
      ensures a in VerifiedSigners(k, votes[1..]) || (Verified(k, votes[0].value) && a == votes[0].value.address)
    {
      var i :| 0 <= i < |votes| && votes[i].Some? && Verified(k, votes[i].value) && votes[i].value.address == a;
      if i > 0 {
        assert votes[1..][i - 1] == votes[i];
      }
    }
    forall a | a in VerifiedSigners(k, votes[1..]) ensures a in VerifiedSigners(k, votes) {
      var i :| 0 <= i < |votes[1..]| && votes[1..][i].Some? && Verified(k, votes[1..][i].value)
        && votes[1..][i].value.address == a;
      assert votes[i + 1] == votes[1..][i];
    }
  }

  /** A precommit for `d` at the node's height and base, whether or not it verifies. */
  ghost predicate FitsHere(c: State, round: int, d: ProposedData, v: Vote) {
    && v.kind == PrecommitType && v.height == c.height && v.round == round
    && v.proposed == d && v.prev == c.lastCommittedData
  }

  ghost predicate AllFitHere(c: State, round: int, d: ProposedData, votes: seq<Option<Vote>>) {
    forall i :: 0 <= i < |votes| ==> votes[i].Some? && FitsHere(c, round, d, votes[i].value)
  }

  ghost predicate AllHeld(c: State, round: int, d: ProposedData, have: set<PubKey>) {
    forall a :: a in have ==> HoldsPrecommit(c, round, d, a)
  }

  lemma AllFitRest(c: State, n: State, round: int, d: ProposedData, votes: seq<Option<Vote>>)
    requires votes != [] && AllFitHere(c, round, d, votes)
    ensures n.height == c.height && n.lastCommittedData == c.lastCommittedData ==> AllFitHere(n, round, d, votes[1..])
    ensures n.height == c.height + 1 ==>
      forall i :: 0 <= i < |votes[1..]| ==> votes[1..][i].Some? && votes[1..][i].value.height + 1 == n.height
  {
    forall i | 0 <= i < |votes[1..]| ensures votes[1..][i].Some? && FitsHere(c, round, d, votes[1..][i].value) {
      assert votes[1..][i] == votes[i + 1];
    }
  }

  lemma MoreHeld(e: Env, ans: Answers, c: State, v: Vote, d: ProposedData, have: set<PubKey>)
    requires Inv(e, c) && AppContract(ans) && Relevant(c, v) && Proves(e, c, v.round, d, v)
    requires AllHeld(c, v.round, d, have) && Stays(c, HandleVote(e, ans, c, v))
    ensures AllHeld(HandleVote(e, ans, c, v), v.round, d, have + {v.address})
  {
    forall a | a in have + {v.address} ensures HoldsPrecommit(HandleVote(e, ans, c, v), v.round, d, a) {
      ProvingVoteHeld(e, ans, c, v, d, a);
    }
  }

  /** A precommit that does not verify is refused, and whatever was held stays held. */
  lemma RefusedHeld(e: Env, ans: Answers, c: State, v: Vote, d: ProposedData, have: set<PubKey>, n: State)
    requires Relevant(c, v) && v.kind == PrecommitType && !Verified(CommitteeOf(e, c), v)
    requires AllHeld(c, v.round, d, have) && n == HandleVote(e, ans, c, v)
    ensures Stays(c, n) && n.round == c.round && AllHeld(n, v.round, d, have)
  {
    assert JudgeIn(CommitteeOf(e, c), c.votes, v) != Added;
    forall a | a in have ensures HoldsPrecommit(n, v.round, d, a) {
      assert HoldsPrecommit(c, v.round, d, a);
      AddVoteInKeeps(CommitteeOf(e, c), c.votes, v, d, a);
    }
  }

  /** The precommits to come that verify, together with those already held, prove `d` to the node. */
  ghost predicate Certifies(e: Env, c: State, votes: seq<Option<Vote>>, round: int, d: ProposedData, have: set<PubKey>) {
    && Inv(e, c) && !c.panicked && d != NIL && 0 <= round <= c.round + WATERMARK
    && AllFitHere(c, round, d, votes) && AllHeld(c, round, d, have)
    && HasQuorum(CommitteeOf(e, c), have + VerifiedSigners(CommitteeOf(e, c), votes))
  }

  ghost function HaveAfter(k: Committee, v: Vote, have: set<PubKey>): set<PubKey> {
    if Verified(k, v) then have + {v.address} else have
  }

  /** One precommit of the certificate leaves the node holding it as well if it verifies, or the node
      commits. */
  lemma HandleOne(e: Env, ans: Answers, c: State, v: Vote, d: ProposedData, have: set<PubKey>, n: State)
    requires Inv(e, c) && AppContract(ans) && Relevant(c, v) && FitsHere(c, v.round, d, v)
    requires AllHeld(c, v.round, d, have) && n == HandleVote(e, ans, c, v)
    ensures Inv(e, n) && n.panicked == c.panicked
    ensures if Stays(c, n) then n.round >= c.round && AllHeld(n, v.round, d, HaveAfter(CommitteeOf(e, c), v, have))
      else Commits(c, n, v.round, d)
  {
    HandleVoteOk(e, ans, c, v);
    if !Verified(CommitteeOf(e, c), v) {
      RefusedHeld(e, ans, c, v, d, have, n);
    } else if Stays(c, n) {
      MoreHeld(e, ans, c, v, d, have);
    }
  }

  lemma CertifiesRest(e: Env, c: State, votes: seq<Option<Vote>>, round: int, d: ProposedData, have: set<PubKey>, n: State)
    requires votes != [] && Certifies(e, c, votes, round, d, have)
    requires Inv(e, n) && !n.panicked && Stays(c, n) && n.round >= c.round
    requires AllHeld(n, round, d, HaveAfter(CommitteeOf(e, c), votes[0].value, have))
    ensures Certifies(e, n, votes[1..], round, d, HaveAfter(CommitteeOf(e, c), votes[0].value, have))
  {
    AllFitRest(c, n, round, d, votes);
    SignersMove(CommitteeOf(e, c), votes, have);
  }

  lemma SignersMove(k: Committee, votes: seq<Option<Vote>>, have: set<PubKey>)
    requires votes != [] && votes[0].Some?
    ensures HaveAfter(k, votes[0].value, have) + VerifiedSigners(k, votes[1..]) == have + VerifiedSigners(k, votes)
  {
    SignersSplit(k, votes);
  }

  lemma CertificateStep(e: Env, rep: Replies, c: State, votes: seq<Option<Vote>>,
                        round: int, d: ProposedData, have: set<PubKey>) returns (n: State)
    requires votes != [] && Certifies(e, c, votes, round, d, have) && AppReplies(rep)
    ensures HandleVotes(e, rep, c, votes) == HandleVotes(e, rep, n, votes[1..])
    ensures if Stays(c, n) then Certifies(e, n, votes[1..], round, d, HaveAfter(CommitteeOf(e, c), votes[0].value, have))
      else Commits(c, n, round, d) && Stays(n, HandleVotes(e, rep, n, votes[1..]))
  {
    var v := votes[0].value;
    assert FitsHere(c, round, d, v);
    n := HandleVote(e, rep(|votes|), c, v);
    HandleOne(e, rep(|votes|), c, v, d, have, n);
    if Stays(c, n) {
      CertifiesRest(e, c, votes, round, d, have, n);
    } else {
      AllFitRest(c, n, round, d, votes);
      RestIsLate(e, rep, n, votes[1..]);
    }
  }

  /** Feeding precommits whose verified signers complete a quorum, together with those already held,
      makes the node commit exactly their data; entries that do not verify do no harm. */
  lemma {:induction false} CertificateCommits(e: Env, rep: Replies, c: State, votes: seq<Option<Vote>>,
                                               round: int, d: ProposedData, have: set<PubKey>)
    requires Certifies(e, c, votes, round, d, have) && AppReplies(rep)
    ensures Commits(c, HandleVotes(e, rep, c, votes), round, d)
    decreases |votes|
  {
    if votes == [] {
      assert have + VerifiedSigners(CommitteeOf(e, c), votes) == have;
      NoQuorumHeld(e, c, round, d, have);
    } else {
      var n := CertificateStep(e, rep, c, votes, round, d, have);
      if Stays(c, n) {
        CertificateCommits(e, rep, n, votes[1..], round, d, HaveAfter(CommitteeOf(e, c), votes[0].value, have));
        CommitsLater(c, n, HandleVotes(e, rep, n, votes[1..]), round, d);
      } else {
        CommitsEarlier(c, n, HandleVotes(e, rep, n, votes[1..]), round, d);
      }
    }
  }

  lemma CommitsLater(c: State, m: State, n: State, round: int, d: ProposedData)
    requires Stays(c, m) && Commits(m, n, round, d)
    ensures Commits(c, n, round, d)
  {
  }

  lemma CommitsEarlier(c: State, m: State, n: State, round: int, d: ProposedData)
    requires Commits(c, m, round, d) && Stays(m, n)
    ensures Commits(c, n, round, d)
  {
  }

  /** Catch-up by certificate: from any state a node can rest in, a well-formed commit for its
      height and base, in a round within the watermark, whose signers that verify carry a quorum,
      makes it commit exactly that data and leave the height, whichever precommits it had. */
  lemma CatchUpByCertificate(e: Env, rep: Replies, c: State, m: Commit)
    requires Inv(e, c) && AppReplies(rep) && !c.panicked
    requires WellFormedCommit(m) && None !in m.precommits
    requires CommitHeight(m) == c.height && m.prev == c.lastCommittedData
    requires 0 <= CommitRound(m) <= c.round + WATERMARK
    requires HasQuorum(CommitteeOf(e, c), VerifiedSigners(CommitteeOf(e, c), m.precommits))
    ensures Commits(c, HandleCommit(e, rep, c, m), CommitRound(m), m.proposedData)
    ensures HandleCommit(e, rep, c, m).height == c.height + 1
  {
    WellFormedPositions(m);
    var c1 := c.(hasRecvCommitRecords := true);
    FlagKeeps(e, c, c1);
    forall i | 0 <= i < |m.precommits|
      ensures m.precommits[i].Some? && FitsHere(c1, CommitRound(m), m.proposedData, m.precommits[i].value)
    {
      assert m.precommits[i] != None;
    }
    assert {} + VerifiedSigners(CommitteeOf(e, c), m.precommits) == VerifiedSigners(CommitteeOf(e, c), m.precommits);
    assert Certifies(e, c1, m.precommits, CommitRound(m), m.proposedData, {});
    CertificateCommits(e, rep, c1, m.precommits, CommitRound(m), m.proposedData, {});
  }

  /** The certificate lists the votes for the majority of a precommit set, and somebody signed it. */
  ghost predicate MadeFrom(k: Committee, t: Tally, m: Commit) {
    && Recounts(k, t) && t.kind == PrecommitType && t.maj23 != NIL
    && m.proposedData == t.maj23 && m.prev == t.base && ListsVotes(t, t.maj23, m.precommits)
    && m.address != NO_KEY && m.signature != NO_SIGNATURE
  }

  lemma MadeCertificateCarries(k: Committee, t: Tally, m: Commit)
    requires MadeFrom(k, t, m)
    ensures WellFormedCommit(m) && None !in m.precommits && HasQuorum(k, VerifiedSigners(k, m.precommits))
    ensures CommitHeight(m) == t.height && CommitRound(m) == t.round
  {
    CertificateIsSound(k, t, m);
    AllVerified(k, m.precommits);
  }

  lemma AllVerified(k: Committee, votes: seq<Option<Vote>>)
    requires forall i :: 0 <= i < |votes| ==> votes[i].Some? && Verified(k, votes[i].value)
    ensures VerifiedSigners(k, votes) == Signers(votes) && None !in votes
  {
  }

  lemma MadeCertificateCommits(e: Env, rep: Replies, c: State, t: Tally, m: Commit)
    requires Inv(e, c) && AppReplies(rep) && !c.panicked && MadeFrom(CommitteeOf(e, c), t, m)
    requires t.height == c.height && t.base == c.lastCommittedData && 0 <= t.round <= c.round + WATERMARK
    ensures Commits(c, HandleCommit(e, rep, c, m), t.round, t.maj23)
  {
    MadeCertificateCarries(CommitteeOf(e, c), t, m);
    CatchUpByCertificate(e, rep, c, m);
  }

  /** Produce, validate, consume: the certificate a vote set makes of its majority, signed by anyone,
      makes every node that can be at that height and base commit the same data. */
  lemma CertificateTravels(e: Env, rep: Replies, c: State, t: Tally, m: Commit)
    requires Runs.Reachable(e, c) && AppReplies(rep) && !c.panicked
    requires t.height == c.height && t.base == c.lastCommittedData && 0 <= t.round <= c.round + WATERMARK
    requires MadeFrom(CommitteeOf(e, c), t, m)
    ensures Commits(c, Handle(e, rep, c, CommitMsg(m)), t.round, t.maj23)
  {
    Runs.ReachableInv(e, c);
    MadeCertificateCommits(e, rep, c, t, m);
  }
}
