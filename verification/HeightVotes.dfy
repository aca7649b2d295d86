/** All vote sets of one height (height_vote_set.go), as a value. */
module HeightVotes {
  import opened Messages
  import opened Committees
  import opened Tallies

  /** `RoundVoteSet`. */
  datatype RoundVotes = RoundVotes(prevotes: Tally, precommits: Tally)

  /** The fields of a `HeightVoteSet`. */
  datatype Votes = Votes(height: int, base: ProposedData, round: int, rounds: map<int, RoundVotes>)

  function NewRound(height: int, base: ProposedData, round: int): RoundVotes {
    RoundVotes(NewTally(height, round, PrevoteType, base), NewTally(height, round, PrecommitType, base))
  }

  /** `NewHeightVoteSet`. */
  function NewVotes(height: int, base: ProposedData): Votes {
    Votes(height, base, 0, map[0 := NewRound(height, base, 0)])
  }

  /** The vote set of a kind in a round; none for a kind that is not collected. */
  function Pick(rv: RoundVotes, kind: VoteType): Option<Tally> {
    if kind == PrevoteType then Some(rv.prevotes)
    else if kind == PrecommitType then Some(rv.precommits)
    else None
  }

  /** `getVoteSet`, none where the code returns nil. */
  function TallyAt(hv: Votes, kind: VoteType, round: int): Option<Tally> {
    if round in hv.rounds then Pick(hv.rounds[round], kind) else None
  }

  /** The reported majority, nil for an untracked round. */
  function MajAt(hv: Votes, kind: VoteType, round: int): ProposedData {
    var t := TallyAt(hv, kind, round);
    if t.Some? then t.value.maj23 else NIL
  }

  predicate AnyAt(k: Committee, hv: Votes, kind: VoteType, round: int) {
    var t := TallyAt(hv, kind, round);
    t.Some? && HasTwoThirdsAny(k, t.value)
  }

  /** `addRound` where the round is not tracked yet. */
  function WithRound(hv: Votes, round: int): Votes {
    if round in hv.rounds then hv
    else hv.(rounds := hv.rounds[round := NewRound(hv.height, hv.base, round)])
  }

  /** The condition under which `SetRound` panics. */
  predicate SetRoundPanics(hv: Votes, round: int) {
    hv.round != 0 && round < hv.round + 1
  }

  /** The rounds above `lo` up to `hi`. */
  function RoundsBetween(lo: int, hi: int): (s: set<int>)
    ensures forall x :: x in s <==> lo < x <= hi
    decreases hi - lo
  {
    if hi <= lo then {} else RoundsBetween(lo, hi - 1) + {hi}
  }

  /** `SetRound`: every round up to `round` is tracked; those tracked already keep their votes. */
  function SetRound(hv: Votes, round: int): Votes {
    hv.(round := round,
        rounds := map r | r in hv.rounds.Keys + RoundsBetween(hv.round, round) ::
          if r in hv.rounds then hv.rounds[r] else NewRound(hv.height, hv.base, r))
  }

  function PutTally(hv: Votes, kind: VoteType, round: int, t: Tally): Votes
    requires round in hv.rounds
  {
    hv.(rounds := hv.rounds[round :=
      if kind == PrevoteType then hv.rounds[round].(prevotes := t) else hv.rounds[round].(precommits := t)])
  }

  /** A kind of vote that is collected in vote sets. */
  predicate Collected(kind: VoteType) {
    kind == PrevoteType || kind == PrecommitType
  }

  /** The vote set that judges a vote: the tracked one, or a new one for an untracked round. */
  function JudgeTally(hv: Votes, v: Vote): Tally {
    var t := TallyAt(WithRound(hv, v.round), v.kind, v.round);
    if t.Some? then t.value else NewTally(hv.height, v.round, v.kind, hv.base)
  }

  function JudgeIn(k: Committee, hv: Votes, v: Vote): Outcome {
    if !Collected(v.kind) then Refused(InvalidType) else Judge(k, JudgeTally(hv, v), v)
  }

  /** `HeightVoteSet.AddVote` for the kinds it does not panic on.  An untracked round is tracked
      from now on whether or not the vote is taken. */
  function AddVoteIn(k: Committee, hv: Votes, v: Vote): Votes {
    if !Collected(v.kind) then hv
    else PutTally(WithRound(hv, v.round), v.kind, v.round, AddVote(k, JudgeTally(hv, v), v))
  }

  /** `POLInfo` from a round downwards: the last round with a reported majority, or -1. */
  function PolRound(hv: Votes, round: int): int
    decreases round + 1
  {
    if round < 0 then -1
    else if MajAt(hv, PrevoteType, round) != NIL then round
    else PolRound(hv, round - 1)
  }

  // ---- invariant ----------------------------------------------------------------------

  ghost predicate TallyOk(k: Committee, hv: Votes, kind: VoteType, round: int, t: Tally) {
    && t.height == hv.height && t.round == round && t.kind == kind && t.base == hv.base
    && Recounts(k, t)
  }

  /** Every vote set sits where it belongs and its counters are recounts. */
  ghost predicate VotesOk(k: Committee, hv: Votes) {
    forall r :: r in hv.rounds ==>
      && TallyOk(k, hv, PrevoteType, r, hv.rounds[r].prevotes)
      && TallyOk(k, hv, PrecommitType, r, hv.rounds[r].precommits)
  }

  ghost predicate TallyStoredIn(t: Tally, accepted: set<Vote>) {
    forall d, a :: Holds(t, d, a) ==> VotesFor(t, d).votes[a] in accepted
  }

  /** Every stored vote is one of `accepted`. */
  ghost predicate StoredIn(hv: Votes, accepted: set<Vote>) {
    forall r :: r in hv.rounds ==>
      TallyStoredIn(hv.rounds[r].prevotes, accepted) && TallyStoredIn(hv.rounds[r].precommits, accepted)
  }

  lemma NewRoundOk(k: Committee, hv: Votes, round: int)
    ensures TallyOk(k, hv, PrevoteType, round, NewRound(hv.height, hv.base, round).prevotes)
    ensures TallyOk(k, hv, PrecommitType, round, NewRound(hv.height, hv.base, round).precommits)
  {
    NewTallyRecounts(k, hv.height, round, PrevoteType, hv.base);
    NewTallyRecounts(k, hv.height, round, PrecommitType, hv.base);
  }

  lemma NewVotesOk(k: Committee, height: int, base: ProposedData)
    ensures VotesOk(k, NewVotes(height, base))
    ensures forall kind, r :: MajAt(NewVotes(height, base), kind, r) == NIL
    ensures forall kind, r :: !AnyAt(k, NewVotes(height, base), kind, r)
  {
    NewRoundOk(k, NewVotes(height, base), 0);
  }

  lemma NewVotesStored(height: int, base: ProposedData, accepted: set<Vote>)
    ensures StoredIn(NewVotes(height, base), accepted)
  {
  }

  lemma WithRoundOk(k: Committee, hv: Votes, round: int)
    requires VotesOk(k, hv)
    ensures VotesOk(k, WithRound(hv, round))
  {
    NewRoundOk(k, hv, round);
  }

  lemma WithRoundStored(hv: Votes, round: int, accepted: set<Vote>)
    requires StoredIn(hv, accepted)
    ensures StoredIn(WithRound(hv, round), accepted)
  {
  }

  /** Tracking one more round changes no answer of any query. */
  lemma WithRoundAt(k: Committee, hv: Votes, round: int, kind: VoteType, r: int)
    ensures MajAt(WithRound(hv, round), kind, r) == MajAt(hv, kind, r)
    ensures AnyAt(k, WithRound(hv, round), kind, r) == AnyAt(k, hv, kind, r)
  {
  }

  lemma SetRoundOk(k: Committee, hv: Votes, round: int)
    requires VotesOk(k, hv)
    ensures VotesOk(k, SetRound(hv, round))
    ensures SetRound(hv, round).rounds.Keys == hv.rounds.Keys + RoundsBetween(hv.round, round)
  {
    forall r | r in SetRound(hv, round).rounds && r !in hv.rounds
      ensures TallyOk(k, hv, PrevoteType, r, NewRound(hv.height, hv.base, r).prevotes)
      ensures TallyOk(k, hv, PrecommitType, r, NewRound(hv.height, hv.base, r).precommits)
    {
      NewRoundOk(k, hv, r);
    }
  }

  lemma SetRoundStored(hv: Votes, round: int, accepted: set<Vote>)
    requires StoredIn(hv, accepted)
    ensures StoredIn(SetRound(hv, round), accepted)
  {
  }

  /** `SetRound` changes no answer of any query. */
  lemma SetRoundMaj(hv: Votes, round: int)
    ensures forall kind, r :: MajAt(SetRound(hv, round), kind, r) == MajAt(hv, kind, r)
  {
  }

  lemma SetRoundAny(k: Committee, hv: Votes, round: int)
    ensures forall kind, r :: AnyAt(k, SetRound(hv, round), kind, r) == AnyAt(k, hv, kind, r)
  {
  }

  /** A majority is also more than two thirds of any. */
  lemma MajImpliesAny(k: Committee, hv: Votes, kind: VoteType, round: int)
    requires VotesOk(k, hv) && MajAt(hv, kind, round) != NIL
    ensures AnyAt(k, hv, kind, round)
  {
    MajorityIsAny(k, TallyAt(hv, kind, round).value);
  }

  /** The vote set that judges a vote is the tracked one, or a new one in its place. */
  lemma JudgeTallyAt(hv: Votes, v: Vote)
    requires Collected(v.kind)
    ensures TallyAt(WithRound(hv, v.round), v.kind, v.round) == Some(JudgeTally(hv, v))
    ensures v.round in hv.rounds ==> TallyAt(hv, v.kind, v.round) == Some(JudgeTally(hv, v))
  {
  }

  lemma JudgeTallyOk(k: Committee, hv: Votes, v: Vote)
    requires VotesOk(k, hv) && Collected(v.kind)
    ensures TallyOk(k, hv, v.kind, v.round, JudgeTally(hv, v))
  {
    WithRoundOk(k, hv, v.round);
    JudgeTallyAt(hv, v);
  }

  lemma JudgeTallyAnswers(k: Committee, hv: Votes, v: Vote)
    requires Collected(v.kind)
    ensures JudgeTally(hv, v).maj23 == MajAt(hv, v.kind, v.round)
    ensures HasTwoThirdsAny(k, JudgeTally(hv, v)) == AnyAt(k, hv, v.kind, v.round)
  {
    WithRoundAt(k, hv, v.round, v.kind, v.round);
    JudgeTallyAt(hv, v);
  }

  lemma PutTallyOk(k: Committee, hv: Votes, kind: VoteType, round: int, t: Tally)
    requires VotesOk(k, hv) && Collected(kind) && round in hv.rounds && TallyOk(k, hv, kind, round, t)
    ensures VotesOk(k, PutTally(hv, kind, round, t))
  {
    var n := PutTally(hv, kind, round, t);
    forall r | r in n.rounds
      ensures TallyOk(k, n, PrevoteType, r, n.rounds[r].prevotes)
      ensures TallyOk(k, n, PrecommitType, r, n.rounds[r].precommits)
    {
      assert TallyOk(k, hv, PrevoteType, r, hv.rounds[r].prevotes);
      assert TallyOk(k, hv, PrecommitType, r, hv.rounds[r].precommits);
    }
  }

  /** Putting a vote set back changes that one only. */
  lemma PutTallyAt(hv: Votes, kind: VoteType, round: int, t: Tally, other: VoteType, r: int)
    requires Collected(kind) && round in hv.rounds
    ensures TallyAt(PutTally(hv, kind, round, t), other, r) ==
      if other == kind && r == round then Some(t) else TallyAt(hv, other, r)
  {
  }

  lemma AddVoteTallyOk(k: Committee, hv: Votes, v: Vote, t: Tally)
    requires TallyOk(k, hv, v.kind, v.round, t)
    ensures TallyOk(k, hv, v.kind, v.round, AddVote(k, t, v))
  {
    AddKeepsRecount(k, t, v);
  }

  /** Adding a vote keeps every vote set in its place with its counters recounted. */
  lemma AddVoteInOk(k: Committee, hv: Votes, v: Vote)
    requires VotesOk(k, hv) && Collected(v.kind)
    ensures VotesOk(k, AddVoteIn(k, hv, v))
  {
    var h, t := WithRound(hv, v.round), JudgeTally(hv, v);
    WithRoundOk(k, hv, v.round);
    JudgeTallyOk(k, hv, v);
    AddVoteTallyOk(k, hv, v, t);
    PutTallyOk(k, h, v.kind, v.round, AddVote(k, t, v));
  }

  lemma AddVoteInShape(k: Committee, hv: Votes, v: Vote)
    requires Collected(v.kind)
    ensures var n := AddVoteIn(k, hv, v);
      && n.height == hv.height && n.base == hv.base && n.round == hv.round
      && n.rounds.Keys == hv.rounds.Keys + {v.round}
  {
  }

  /** The vote set of the vote's kind and round becomes its `AddVote`. */
  lemma AddVoteInTally(k: Committee, hv: Votes, v: Vote)
    requires Collected(v.kind)
    ensures TallyAt(AddVoteIn(k, hv, v), v.kind, v.round) == Some(AddVote(k, JudgeTally(hv, v), v))
  {
    PutTallyAt(WithRound(hv, v.round), v.kind, v.round, AddVote(k, JudgeTally(hv, v), v), v.kind, v.round);
  }

  /** What adding a vote may do to the answers of its own vote set. */
  lemma AddVoteInHere(k: Committee, hv: Votes, v: Vote)
    requires Collected(v.kind)
    ensures var before, after := MajAt(hv, v.kind, v.round), MajAt(AddVoteIn(k, hv, v), v.kind, v.round);
      if before != NIL then after == before else after in {NIL, v.proposed}
    ensures JudgeIn(k, hv, v) != Added ==>
      && MajAt(AddVoteIn(k, hv, v), v.kind, v.round) == MajAt(hv, v.kind, v.round)
      && AnyAt(k, AddVoteIn(k, hv, v), v.kind, v.round) == AnyAt(k, hv, v.kind, v.round)
  {
    var t := JudgeTally(hv, v);
    AddVoteInTally(k, hv, v);
    JudgeTallyAnswers(k, hv, v);
    MajorityIsStable(k, t, v);
  }

  lemma AddVoteInThere(k: Committee, hv: Votes, v: Vote, kind: VoteType, r: int)
    requires Collected(v.kind) && (kind != v.kind || r != v.round)
    ensures MajAt(AddVoteIn(k, hv, v), kind, r) == MajAt(hv, kind, r)
    ensures AnyAt(k, AddVoteIn(k, hv, v), kind, r) == AnyAt(k, hv, kind, r)
  {
    PutTallyAt(WithRound(hv, v.round), v.kind, v.round, AddVote(k, JudgeTally(hv, v), v), kind, r);
    WithRoundAt(k, hv, v.round, kind, r);
  }

  /** The other vote sets are as before. */
  lemma AddVoteInLeaves(k: Committee, hv: Votes, v: Vote, kind: VoteType, r: int)
    requires Collected(v.kind) && (kind != v.kind || r != v.round) && TallyAt(hv, kind, r).Some?
    ensures TallyAt(AddVoteIn(k, hv, v), kind, r) == TallyAt(hv, kind, r)
  {
    PutTallyAt(WithRound(hv, v.round), v.kind, v.round, AddVote(k, JudgeTally(hv, v), v), kind, r);
  }

  /** The other vote sets answer as before. */
  lemma AddVoteInElsewhere(k: Committee, hv: Votes, v: Vote)
    requires Collected(v.kind)
    ensures forall kind, r :: kind != v.kind || r != v.round ==>
      MajAt(AddVoteIn(k, hv, v), kind, r) == MajAt(hv, kind, r)
    ensures forall kind, r :: kind != v.kind || r != v.round ==>
      AnyAt(k, AddVoteIn(k, hv, v), kind, r) == AnyAt(k, hv, kind, r)
  {
    forall kind, r | kind != v.kind || r != v.round
      ensures MajAt(AddVoteIn(k, hv, v), kind, r) == MajAt(hv, kind, r)
      ensures AnyAt(k, AddVoteIn(k, hv, v), kind, r) == AnyAt(k, hv, kind, r)
    {
      AddVoteInThere(k, hv, v, kind, r);
    }
  }

  lemma AddStored(k: Committee, t: Tally, v: Vote, accepted: set<Vote>)
    requires TallyStoredIn(t, accepted)
    ensures TallyStoredIn(AddVote(k, t, v), accepted + {v})
    ensures Judge(k, t, v) != Added ==> TallyStoredIn(AddVote(k, t, v), accepted)
  {
    var u := AddVote(k, t, v);
    forall d, a | Holds(u, d, a) ensures VotesFor(u, d).votes[a] in accepted + {v} {
      if d != v.proposed || a != v.address || Holds(t, d, a) {
        assert Holds(t, d, a) && VotesFor(u, d).votes[a] == VotesFor(t, d).votes[a];
      }
    }
  }

  lemma PutStored(hv: Votes, kind: VoteType, round: int, t: Tally, before: set<Vote>, after: set<Vote>)
    requires round in hv.rounds && StoredIn(hv, before) && before <= after && TallyStoredIn(t, after)
    ensures StoredIn(PutTally(hv, kind, round, t), after)
  {
  }

  lemma AddVoteInStored(k: Committee, hv: Votes, v: Vote, accepted: set<Vote>)
    requires Collected(v.kind) && StoredIn(hv, accepted)
    ensures StoredIn(AddVoteIn(k, hv, v), accepted + {v})
    ensures JudgeIn(k, hv, v) != Added ==> StoredIn(AddVoteIn(k, hv, v), accepted)
  {
    var h, t := WithRound(hv, v.round), JudgeTally(hv, v);
    WithRoundStored(hv, v.round, accepted);
    JudgeTallyAt(hv, v);
    AddStored(k, t, v, accepted);
    PutStored(h, v.kind, v.round, AddVote(k, t, v), accepted, accepted + {v});
    if JudgeIn(k, hv, v) != Added {
      PutStored(h, v.kind, v.round, AddVote(k, t, v), accepted, accepted);
    }
  }

  lemma AddVoteHolds(k: Committee, t: Tally, v: Vote)
    requires v.height == t.height && v.round == t.round && v.kind == t.kind && v.prev == t.base && Verified(k, v)
    ensures Holds(AddVote(k, t, v), v.proposed, v.address)
  {
  }

  lemma AddVoteKeeps(k: Committee, t: Tally, v: Vote, d: ProposedData, a: PubKey)
    requires Holds(t, d, a)
    ensures Holds(AddVote(k, t, v), d, a)
  {
  }

  /** A vote that is taken, or was held already, is held afterwards. */
  lemma AddVoteInHolds(k: Committee, hv: Votes, v: Vote)
    requires VotesOk(k, hv) && Collected(v.kind)
    requires v.height == hv.height && v.prev == hv.base && Verified(k, v)
    ensures var t := TallyAt(AddVoteIn(k, hv, v), v.kind, v.round);
      t.Some? && Holds(t.value, v.proposed, v.address)
  {
    JudgeTallyOk(k, hv, v);
    AddVoteInTally(k, hv, v);
    AddVoteHolds(k, JudgeTally(hv, v), v);
  }

  /** Votes held in the vote set of the vote stay held. */
  lemma AddVoteInKeeps(k: Committee, hv: Votes, v: Vote, d: ProposedData, a: PubKey)
    requires Collected(v.kind)
    requires TallyAt(hv, v.kind, v.round).Some? && Holds(TallyAt(hv, v.kind, v.round).value, d, a)
    ensures var t := TallyAt(AddVoteIn(k, hv, v), v.kind, v.round); t.Some? && Holds(t.value, d, a)
  {
    JudgeTallyAt(hv, v);
    AddVoteInTally(k, hv, v);
    AddVoteKeeps(k, JudgeTally(hv, v), v, d, a);
  }

  /** A reported prevote majority is a polka among the votes accepted so far. */
  lemma MajorityIsPolka(k: Committee, hv: Votes, accepted: set<Vote>, round: int)
    requires VotesOk(k, hv) && StoredIn(hv, accepted) && MajAt(hv, PrevoteType, round) != NIL
    ensures Polka(k, accepted, hv.height, round, MajAt(hv, PrevoteType, round))
  {
    var t := hv.rounds[round].prevotes;
    var d := t.maj23;
    assert TallyOk(k, hv, PrevoteType, round, t);
    assert DataOk(k, t, d);
    forall a | a in t.byData[d].votes ensures a in Voters(accepted, PrevoteType, hv.height, round, d) {
      assert Fits(k, t, d, a, t.byData[d].votes[a]);
      assert Holds(t, d, a);
    }
    QuorumMono(k, t.byData[d].votes.Keys, Voters(accepted, PrevoteType, hv.height, round, d));
  }

  /** `POLInfo` finds a round when no later tracked round has a majority. */
  lemma {:induction false} PolRoundIs(hv: Votes, round: int, top: int)
    requires 0 <= round <= top && MajAt(hv, PrevoteType, round) != NIL
    requires forall r :: round < r <= top ==> MajAt(hv, PrevoteType, r) == NIL
    ensures PolRound(hv, top) == round
    decreases top
  {
    if round < top {
      PolRoundIs(hv, round, top - 1);
    }
  }

  /** `POLInfo` is the greatest round with a reported majority, or -1 when there is none. */
  lemma {:induction false} PolRoundMeaning(hv: Votes, top: int)
    ensures var p := PolRound(hv, top);
      && -1 <= p
      && (p >= 0 ==> p <= top && MajAt(hv, PrevoteType, p) != NIL)
      && (forall r :: p < r <= top && 0 <= r ==> MajAt(hv, PrevoteType, r) == NIL)
    decreases top + 1
  {
    if top >= 0 {
      PolRoundMeaning(hv, top - 1);
    }
  }
}
