/** `VoteSet` (vote_set.go): the vote set that is updated in place, proved against its value. */
module VoteSets {
  import opened Messages
  import opened Committees
  import opened Tallies

  class VoteSet {
    const committee: Committee
    const height: int
    const round: int
    const kind: VoteType
    const base: ProposedData

    var sum: nat
    var distinctVoter: nat
    var minorQuorum: ProposedData
    var maj23: ProposedData
    var votesByProposedData: map<ProposedData, DataVotes>

    ghost function Value(): Tally
      reads this
    {
      Tally(height, round, kind, base, sum, distinctVoter, minorQuorum, maj23, votesByProposedData)
    }

    /** `NewVoteSet`, which panics for height zero. */
    constructor (height: int, round: int, kind: VoteType, committee: Committee, base: ProposedData)
      requires height != 0
      ensures this.committee == committee && Value() == NewTally(height, round, kind, base)
      ensures Recounts(committee, Value())
    {
      this.height, this.round, this.kind, this.committee, this.base := height, round, kind, committee, base;
      sum, distinctVoter, minorQuorum, maj23, votesByProposedData := 0, 0, NIL, NIL, map[];
      new;
      NewTallyRecounts(committee, height, round, kind, base);
    }

    /** `addVote`.  That the counters stay right needs a total whose double fits in an int64; for other
        totals the new state is that of the wrapped threshold. */
    method AddVote(vote: Option<Vote>) returns (added: bool, err: Option<VoteError>)
      modifies this
      ensures added <==> vote.Some? && Judge(committee, old(Value()), vote.value) == Added
      ensures !added ==> Value() == old(Value())
      ensures added ==> Value() == AddedInt64(committee, old(Value()), vote.value)
      ensures added && committee.total < TWO_62 ==> Value() == Tallies.AddVote(committee, old(Value()), vote.value)
      ensures TWO_62 <= committee.total < MAX_INT64 ==> maj23 == old(maj23)
      ensures vote.None? ==> err == Some(NilVote)
      ensures vote.Some? ==> err == match Judge(committee, old(Value()), vote.value)
                                    case Added => None
                                    case Refused(e) => Some(e)
      ensures committee.total < TWO_62 && old(Recounts(committee, Value())) ==> Recounts(committee, Value())
    {
      if vote.None? {
        return false, Some(NilVote);
      }
      var v := vote.value;
      if old(Recounts(committee, Value())) {
        AddKeepsRecount(committee, Value(), v);
      }
      if v.prev != base {
        return false, Some(MismatchedBase);
      }
      if v.height != height || v.round != round || v.kind != kind {
        return false, Some(UnexpectedStep);
      }
      if v.proposed in votesByProposedData && v.address in votesByProposedData[v.proposed].votes {
        if votesByProposedData[v.proposed].votes[v.address].signature == v.signature {
          return false, Some(DuplicateVote);
        }
        return false, Some(NonDeterministicSignature);
      }
      if !(v.address in committee.power && committee.verify(v)) {
        return false, Some(InvalidSignature);
      }
      AddVerifiedVote(v, committee.power[v.address]);
      return true, None;
    }

    method AddVerifiedVote(vote: Vote, votingPower: nat)
      requires votingPower == PowerAt(committee.power, vote.address)
      requires vote.address !in VotesFor(Value(), vote.proposed).votes
      modifies this
      ensures Value() == AddedInt64(committee, old(Value()), vote)
      ensures committee.total < TWO_62 ==> Value() == AddVerified(committee, old(Value()), vote)
      ensures TWO_62 <= committee.total < MAX_INT64 ==> maj23 == old(maj23)
    {
      AddedExactly(committee, Value(), vote);
      var byProposed := if vote.proposed in votesByProposedData then votesByProposedData[vote.proposed] else NO_VOTES;
      var origSum := byProposed.sum;
      var quorum := QuorumInt64(committee.total);
      byProposed := AddToData(byProposed, vote, votingPower);
      votesByProposedData := votesByProposedData[vote.proposed := byProposed];
      if origSum < quorum <= byProposed.sum && maj23 == NIL {
        maj23 := vote.proposed;
      }
      sum := sum + votingPower;
      if distinctVoter < |byProposed.votes| {
        distinctVoter := |byProposed.votes|;
        if minorQuorum == NIL {
          minorQuorum := vote.proposed;
        }
      }
    }

    /** `HasTwoThirdsAny` in int64: it tells whether the recounted power exceeds two thirds, and holds
        of any power at all for a total that overflows. */
    method HasTwoThirdsAny() returns (any: bool)
      ensures committee.total < TWO_62 ==>
        && (any <==> Tallies.HasTwoThirdsAny(committee, Value()))
        && (any <==> MoreThanTwoThirds(sum, committee.total))
      ensures TWO_62 <= committee.total <= MAX_INT64 && sum > 0 ==> any
    {
      if committee.total < TWO_62 {
        QuorumInt64Exact(committee.total);
        QuorumIsLeast(committee.total, sum);
      } else if committee.total <= MAX_INT64 {
        QuorumInt64Overflow(committee.total);
      }
      any := sum > TwoThirdsInt64(committee.total);
    }

    /** `MakeCommit`, which panics without a majority.  The order of the entries is that of a map
        iteration, so it is arbitrary. */
    method MakeCommit() returns (c: Commit)
      requires Recounts(committee, Value()) && kind == PrecommitType && maj23 != NIL
      ensures c.proposedData == maj23 && c.prev == base && ListsVotes(Value(), maj23, c.precommits)
      ensures forall signer, signature :: signer != NO_KEY && signature != NO_SIGNATURE ==>
        WellFormedCommit(c.(address := signer, signature := signature))
    {
      assert DataOk(committee, Value(), maj23);
      var votes := votesByProposedData[maj23].votes;
      var precommits := GetAllVotes(maj23);
      ghost var i := AllSigned(committee, Value(), Commit(maj23, base, precommits, NO_KEY, NO_SIGNATURE));
      var first := precommits[0].value;
      assert Stored(Value(), first);
      assert Fits(committee, Value(), maj23, first.address, first);
      c := Commit(maj23, first.prev, precommits, NO_KEY, NO_SIGNATURE);
      forall signer, signature | signer != NO_KEY && signature != NO_SIGNATURE
        ensures WellFormedCommit(c.(address := signer, signature := signature))
      {
        CertificateIsSound(committee, Value(), c.(address := signer, signature := signature));
      }
    }

    /** `getAllVotes`. */
    method GetAllVotes(d: ProposedData) returns (ret: seq<Option<Vote>>)
      requires Recounts(committee, Value()) && d in votesByProposedData
      ensures ListsVotes(Value(), d, ret)
    {
      var votes := votesByProposedData[d].votes;
      assert DataOk(committee, Value(), d);
      assert forall a :: a in votes ==> Fits(committee, Value(), d, a, votes[a]);
      ret := VotesInOrder(votes);
      forall i | 0 <= i < |ret| ensures Stored(Value(), ret[i].value) && ret[i].value.proposed == d {
        assert Fits(committee, Value(), d, ret[i].value.address, ret[i].value);
      }
    }

    /** `MakeFetchVotesReq`: the request names exactly the voters this set knows, once for each data
        they voted for.  It is not signed yet. */
    method MakeFetchVotesReq() returns (req: FetchVotesReq)
      ensures req.kind == kind && req.height == height && req.round == round
      ensures req.invoker == NO_KEY && req.signature == NO_SIGNATURE
      ensures Named(req.voters) == VoterSet(Value())
      ensures |req.voters| == CountVotes(votesByProposedData)
    {
      var voters := VoterList(votesByProposedData);
      req := FetchVotesReq(kind, height, round, NO_KEY, voters, NO_SIGNATURE);
    }

    /** `MakeFetchVotesRsp`: each stored vote of a voter the request does not name, once. */
    method MakeFetchVotesRsp(req: FetchVotesReq) returns (votes: seq<Vote>)
      requires Recounts(committee, Value())
      ensures IsResponse(Value(), Named(req.voters), votes)
    {
      KeyedByAddress(committee, Value());
      votes := Response(votesByProposedData, req.voters);
      AnswersWithStored(Value(), Named(req.voters), votes);
    }
  }

  /** Votes for one data, keyed by their voters. */
  ghost predicate Keyed(d: ProposedData, votes: map<PubKey, Vote>) {
    forall a :: a in votes ==> votes[a].address == a && votes[a].proposed == d
  }

  ghost predicate AllKeyed(byData: map<ProposedData, DataVotes>) {
    forall d :: d in byData ==> Keyed(d, byData[d].votes)
  }

  lemma KeyedByAddress(k: Committee, t: Tally)
    requires Recounts(k, t)
    ensures AllKeyed(t.byData)
  {
    forall d | d in t.byData ensures Keyed(d, t.byData[d].votes) {
      assert DataOk(k, t, d);
      forall a | a in t.byData[d].votes ensures Fits(k, t, d, a, t.byData[d].votes[a]) {}
    }
  }

  /** `addVerifiedVote` with the threshold as the machine computes it. */
  ghost function AddedInt64(k: Committee, t: Tally, v: Vote): Tally {
    var quorum := QuorumInt64(k.total);
    var before := VotesFor(t, v.proposed).sum;
    var crossed := before < quorum <= AddToData(VotesFor(t, v.proposed), v, PowerAt(k.power, v.address)).sum;
    AddVerified(k, t, v).(maj23 := if crossed && t.maj23 == NIL then v.proposed else t.maj23)
  }

  /** The machine's threshold is the right one below 2^62; above, it never is, and but for the largest
      total no majority is ever reported. */
  lemma AddedExactly(k: Committee, t: Tally, v: Vote)
    ensures k.total < TWO_62 ==> AddedInt64(k, t, v) == AddVerified(k, t, v)
    ensures TWO_62 <= k.total < MAX_INT64 ==> AddedInt64(k, t, v).maj23 == t.maj23
  {
    if k.total < TWO_62 {
      QuorumInt64Exact(k.total);
    } else if k.total < MAX_INT64 {
      QuorumInt64Overflow(k.total);
    }
  }

  ghost predicate StoredUnder(byData: map<ProposedData, DataVotes>, v: Vote) {
    v.proposed in byData && v.address in byData[v.proposed].votes && byData[v.proposed].votes[v.address] == v
  }

  /** What the response is made of: stored votes of voters outside the cache, without repetition and
      without omission. */
  ghost predicate Collects(byData: map<ProposedData, DataVotes>, cache: set<PubKey>, votes: seq<Vote>) {
    && (forall n :: 0 <= n < |votes| ==> StoredUnder(byData, votes[n]) && votes[n].address !in cache)
    && DistinctVotes(votes)
    && (forall d, a :: d in byData && a in byData[d].votes && a !in cache ==> byData[d].votes[a] in votes)
  }

  lemma AnswersWithStored(t: Tally, cache: set<PubKey>, votes: seq<Vote>)
    requires Collects(t.byData, cache, votes)
    ensures IsResponse(t, cache, votes)
  {
    forall d, a | Holds(t, d, a) && a !in cache ensures VotesFor(t, d).votes[a] in votes {
      assert d in t.byData;
    }
  }

  /** The loops of `MakeFetchVotesReq` over data and voters. */
  method VoterList(byData: map<ProposedData, DataVotes>) returns (voters: seq<PubKey>)
    ensures forall a :: a in voters <==> exists d :: d in byData && a in byData[d].votes
    ensures |voters| == CountVotes(byData)
  {
    voters := [];
    var todo := byData.Keys;
    assert Restrict(byData, todo) == byData;
    while todo != {}
      invariant todo <= byData.Keys
      invariant forall a :: a in voters <==> exists d :: d in byData && d !in todo && a in byData[d].votes
      invariant |voters| + CountVotes(Restrict(byData, todo)) == CountVotes(byData)
      decreases todo
    {
      var d :| d in todo;
      CountTodo(byData, todo, d);
      var list := Listing(byData[d].votes.Keys);
      voters := voters + list;
      todo := todo - {d};
    }
  }

  /** The body of `MakeFetchVotesRsp`; votes are always stored by address. */
  method Response(byData: map<ProposedData, DataVotes>, voters: seq<PubKey>) returns (votes: seq<Vote>)
    ensures AllKeyed(byData) ==> Collects(byData, Named(voters), votes)
  {
    var cache := AddressSet(voters);
    votes := Respond(byData, cache);
  }

  /** The loops of `MakeFetchVotesRsp` over data and voters. */
  method Respond(byData: map<ProposedData, DataVotes>, cache: set<PubKey>) returns (votes: seq<Vote>)
    ensures AllKeyed(byData) ==> Collects(byData, cache, votes)
  {
    votes := [];
    var todo := byData.Keys;
    while todo != {}
      invariant todo <= byData.Keys
      invariant AllKeyed(byData) ==> forall n :: 0 <= n < |votes| ==>
          StoredUnder(byData, votes[n]) && votes[n].address !in cache && votes[n].proposed !in todo
      invariant AllKeyed(byData) ==> DistinctVotes(votes)
      invariant AllKeyed(byData) ==> forall d, a :: d in byData && d !in todo && a in byData[d].votes && a !in cache ==>
          byData[d].votes[a] in votes
      decreases todo
    {
      var d :| d in todo;
      var missing := MissingVotes(byData[d].votes, cache);
      ghost var before := votes;
      votes := votes + missing;
      todo := todo - {d};
      if AllKeyed(byData) {
        assert Keyed(d, byData[d].votes);
        assert forall n :: 0 <= n < |missing| ==> StoredUnder(byData, missing[n]) && missing[n].proposed == d;
        DistinctConcat(before, missing);
        assert forall v :: v in before || v in missing ==> v in votes;
      }
    }
  }

  /** The inner loop of `MakeFetchVotesRsp`: the stored votes of voters outside the cache. */
  method MissingVotes(stored: map<PubKey, Vote>, cache: set<PubKey>) returns (votes: seq<Vote>)
    ensures (forall a :: a in stored ==> stored[a].address == a) ==>
      && (forall n :: 0 <= n < |votes| ==>
            votes[n].address in stored && stored[votes[n].address] == votes[n] && votes[n].address !in cache)
      && (forall i, j :: 0 <= i < j < |votes| ==> votes[i].address != votes[j].address)
    ensures forall a :: a in stored && a !in cache ==> stored[a] in votes
  {
    ghost var keyed := forall a :: a in stored ==> stored[a].address == a;
    votes := [];
    var todo := stored.Keys;
    while todo != {}
      invariant todo <= stored.Keys
      invariant keyed ==> forall n :: 0 <= n < |votes| ==>
          && votes[n].address in stored - todo && stored[votes[n].address] == votes[n]
          && votes[n].address !in cache
      invariant keyed ==> forall i, j :: 0 <= i < j < |votes| ==> votes[i].address != votes[j].address
      invariant forall a :: a in stored - todo && a !in cache ==> stored[a] in votes
      decreases todo
    {
      var a :| a in todo;
      if a !in cache {
        ghost var before := votes;
        votes := votes + [stored[a]];
        assert forall v :: v in before ==> v in votes;
        assert votes[|before|] == stored[a];
      }
      todo := todo - {a};
    }
  }

  /** The values of a map of votes keyed by address, in iteration order. */
  method VotesInOrder(votes: map<PubKey, Vote>) returns (ret: seq<Option<Vote>>)
    requires forall a :: a in votes ==> votes[a].address == a
    ensures forall i :: 0 <= i < |ret| ==>
        ret[i].Some? && ret[i].value.address in votes && votes[ret[i].value.address] == ret[i].value
    ensures forall i, j :: 0 <= i < j < |ret| ==> ret[i].value.address != ret[j].value.address
    ensures forall a :: a in votes ==> Some(votes[a]) in ret
  {
    ret := [];
    var todo := votes.Keys;
    while todo != {}
      invariant todo <= votes.Keys
      invariant forall i :: 0 <= i < |ret| ==>
          && ret[i].Some? && ret[i].value.address in votes - todo
          && votes[ret[i].value.address] == ret[i].value
      invariant forall i, j :: 0 <= i < j < |ret| ==> ret[i].value.address != ret[j].value.address
      invariant forall a :: a in votes - todo ==> Some(votes[a]) in ret
      decreases todo
    {
      var a :| a in todo;
      ghost var before := ret;
      ret := ret + [Some(votes[a])];
      todo := todo - {a};
      assert ret[|before|] == Some(votes[a]);
      assert forall x :: x in before ==> x in ret;
    }
  }

  lemma DistinctConcat(s: seq<Vote>, t: seq<Vote>)
    requires DistinctVotes(s) && DistinctVotes(t)
    requires forall i, j :: 0 <= i < |s| && 0 <= j < |t| ==> s[i].proposed != t[j].proposed
    ensures DistinctVotes(s + t)
  {
  }

  /** The set of addresses in a list, built one by one. */
  method AddressSet(list: seq<PubKey>) returns (cache: set<PubKey>)
    ensures cache == Named(list)
  {
    cache := {};
    var i := 0;
    while i < |list|
      invariant 0 <= i <= |list|
      invariant cache == Named(list[..i])
    {
      assert list[..i + 1] == list[..i] + [list[i]];
      cache := cache + {list[i]};
      i := i + 1;
    }
    assert list[..i] == list;
  }

  /** The keys of a map in iteration order. */
  method Listing(keys: set<PubKey>) returns (list: seq<PubKey>)
    ensures forall a :: a in list <==> a in keys
    ensures |list| == |keys|
  {
    list := [];
    var todo := keys;
    while todo != {}
      invariant todo <= keys
      invariant forall a :: a in list <==> a in keys && a !in todo
      invariant |list| + |todo| == |keys|
      decreases todo
    {
      var a :| a in todo;
      list := list + [a];
      todo := todo - {a};
    }
  }
}
