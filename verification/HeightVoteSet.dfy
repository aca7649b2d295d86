/** `HeightVoteSet` (height_vote_set.go), updated in place and proved against its value. */
module HeightVoteSets {
  import opened Messages
  import opened Committees
  import opened Tallies
  import opened HeightVotes

  class HeightVoteSet {
    const committee: Committee
    var height: int
    var base: ProposedData
    var round: int
    var roundVoteSets: map<int, RoundVotes>

    ghost function Value(): Votes
      reads this
    {
      Votes(height, base, round, roundVoteSets)
    }

    constructor (height: int, committee: Committee, base: ProposedData)
      requires height != 0
      ensures this.committee == committee && Value() == NewVotes(height, base)
    {
      this.committee := committee;
      this.height, this.base, this.round, this.roundVoteSets := height, base, 0, map[];
      new;
      Reset(height, base);
    }

    method Reset(height: int, base: ProposedData)
      requires height != 0
      modifies this
      ensures Value() == NewVotes(height, base)
    {
      this.height := height;
      this.base := base;
      roundVoteSets := map[];
      AddRound(0);
      round := 0;
    }

    /** Panics for a round that is tracked already. */
    method AddRound(round: int)
      requires round !in roundVoteSets
      modifies this`roundVoteSets
      ensures Value() == WithRound(old(Value()), round)
    {
      roundVoteSets := roundVoteSets[round := NewRound(height, base, round)];
    }

    /** Panics unless it moves the tracked round forward. */
    method SetRound(round: int)
      requires !SetRoundPanics(Value(), round)
      modifies this`round, this`roundVoteSets
      ensures Value() == HeightVotes.SetRound(old(Value()), round)
    {
      ghost var before := Value();
      var r := this.round + 1;
      while r <= round
        invariant this.round == before.round && height == before.height && base == before.base
        invariant before.round + 1 <= r
        invariant if round < before.round + 1 then r == before.round + 1 else r <= round + 1
        invariant roundVoteSets.Keys == before.rounds.Keys + RoundsBetween(before.round, r - 1)
        invariant forall x :: x in roundVoteSets ==>
          roundVoteSets[x] == if x in before.rounds then before.rounds[x] else NewRound(height, base, x)
      {
        if r !in roundVoteSets {
          AddRound(r);
        }
        r := r + 1;
      }
      this.round := round;
      ghost var after := HeightVotes.SetRound(before, round);
      assert forall x :: x in roundVoteSets <==> x in after.rounds;
      assert forall x :: x in roundVoteSets ==> roundVoteSets[x] == after.rounds[x];
      assert roundVoteSets == after.rounds;
    }

    /** Panics for proposals, which are not collected. */
    method AddVote(v: Vote) returns (added: bool, err: Option<VoteError>)
      requires v.kind != ProposalType
      modifies this`roundVoteSets
      ensures Value() == AddVoteIn(committee, old(Value()), v)
      ensures added <==> JudgeIn(committee, old(Value()), v) == Added
      ensures err == match JudgeIn(committee, old(Value()), v) case Added => None case Refused(e) => Some(e)
      ensures old(VotesOk(committee, Value())) ==> VotesOk(committee, Value())
    {
      ghost var before := Value();
      if !Collected(v.kind) {
        return false, Some(InvalidType);
      }
      if VotesOk(committee, before) {
        AddVoteInOk(committee, before, v);
      }
      if v.round !in roundVoteSets {
        AddRound(v.round);
      }
      var rvs := roundVoteSets[v.round];
      var voteSet := if v.kind == PrevoteType then rvs.prevotes else rvs.precommits;
      var verdict := Judge(committee, voteSet, v);
      voteSet := Tallies.AddVote(committee, voteSet, v);
      rvs := if v.kind == PrevoteType then rvs.(prevotes := voteSet) else rvs.(precommits := voteSet);
      roundVoteSets := roundVoteSets[v.round := rvs];
      added := verdict == Added;
      err := if verdict == Added then None else Some(verdict.error);
    }

    /** The downward loop of `POLInfo`. */
    method POLInfo() returns (polRound: int, polData: ProposedData)
      ensures polRound == PolRound(Value(), round)
      ensures polRound == -1 ==> polData == NIL && forall r :: 0 <= r <= round ==> MajAt(Value(), PrevoteType, r) == NIL
      ensures polRound != -1 ==>
        && 0 <= polRound <= round && polData == MajAt(Value(), PrevoteType, polRound) && polData != NIL
        && forall r :: polRound < r <= round ==> MajAt(Value(), PrevoteType, r) == NIL
    {
      var r := round;
      while r >= 0
        invariant r <= round && (round >= 0 ==> -1 <= r)
        invariant PolRound(Value(), r) == PolRound(Value(), round)
        invariant forall x :: r < x <= round ==> MajAt(Value(), PrevoteType, x) == NIL
      {
        if r in roundVoteSets && roundVoteSets[r].prevotes.maj23 != NIL {
          return r, roundVoteSets[r].prevotes.maj23;
        }
        r := r - 1;
      }
      return -1, NIL;
    }
  }
}
