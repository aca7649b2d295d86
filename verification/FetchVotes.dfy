/** The exchange of a fetch request and its response between two vote sets, with the length checks
    of both messages. */
module FetchVotes {
  import opened Messages
  import opened Committees
  import opened Tallies

  /** A signed request made of the voters of `mine`, each named once for each data. */
  ghost predicate Asks(mine: Tally, req: FetchVotesReq) {
    && req.kind == mine.kind && req.height == mine.height && req.round == mine.round
    && Named(req.voters) == VoterSet(mine) && |req.voters| == CountVotes(mine.byData)
    && req.invoker != NO_KEY && req.signature != NO_SIGNATURE
  }

  /** A signed response made of the votes of `theirs` that a request does not name. */
  ghost predicate Responds(theirs: Tally, req: FetchVotesReq, votes: seq<Vote>, rsp: FetchVotesRsp) {
    && IsResponse(theirs, Named(req.voters), votes)
    && rsp.kind == req.kind && rsp.height == req.height && rsp.round == req.round
    && rsp.missingVotes == Listed(votes) && rsp.responser != NO_KEY && rsp.signature != NO_SIGNATURE
  }

  /** What becomes of the requester's vote set: nothing, when either side refuses the message. */
  ghost function Exchange(k: Committee, mine: Tally, req: FetchVotesReq, votes: seq<Vote>, rsp: FetchVotesRsp): Tally {
    if WellFormedFetchReq(req) && WellFormedFetchRsp(rsp) then AddAll(k, mine, votes) else mine
  }

  /** The voters a vote set could tell about, once for each data. */
  ghost function MissingEntries(theirs: Tally, known: set<PubKey>): set<(ProposedData, PubKey)> {
    set d, a | d in theirs.byData && a in theirs.byData[d].votes && a !in known :: (d, a)
  }

  ghost function Pairs(votes: seq<Vote>): set<(ProposedData, PubKey)> {
    set i | 0 <= i < |votes| :: (votes[i].proposed, votes[i].address)
  }

  lemma {:induction false} DistinctPairs(votes: seq<Vote>)
    requires DistinctVotes(votes)
    ensures |Pairs(votes)| == |votes|
  {
    if votes != [] {
      var last := |votes| - 1;
      var v := votes[last];
      DistinctPairs(votes[..last]);
      forall p | p in Pairs(votes) ensures p in Pairs(votes[..last]) + {(v.proposed, v.address)} {
        var i :| 0 <= i < |votes| && p == (votes[i].proposed, votes[i].address);
        if i < last {
          assert votes[..last][i] == votes[i];
        }
      }
      forall p | p in Pairs(votes[..last]) ensures p in Pairs(votes) {
        var i :| 0 <= i < last && p == (votes[..last][i].proposed, votes[..last][i].address);
        assert votes[i] == votes[..last][i];
      }
      assert Pairs(votes) == Pairs(votes[..last]) + {(v.proposed, v.address)};
    }
  }

  /** The length of a response: the entries that are missing on the other side. */
  lemma ResponseLength(k: Committee, theirs: Tally, known: set<PubKey>, votes: seq<Vote>)
    requires Recounts(k, theirs) && IsResponse(theirs, known, votes)
    ensures |votes| == |MissingEntries(theirs, known)|
  {
    forall d, a | d in theirs.byData && a in theirs.byData[d].votes && a !in known ensures (d, a) in Pairs(votes) {
      assert DataOk(k, theirs, d);
      assert Fits(k, theirs, d, a, theirs.byData[d].votes[a]);
      assert Holds(theirs, d, a);
      var i :| 0 <= i < |votes| && votes[i] == theirs.byData[d].votes[a];
    }
    forall i | 0 <= i < |votes| ensures (votes[i].proposed, votes[i].address) in MissingEntries(theirs, known) {
      assert Stored(theirs, votes[i]);
    }
    assert Pairs(votes) == MissingEntries(theirs, known);
    DistinctPairs(votes);
  }

  lemma NothingMissing(theirs: Tally, known: set<PubKey>)
    ensures MissingEntries(theirs, known) == {} <==> VoterSet(theirs) <= known
  {
    if MissingEntries(theirs, known) == {} {
      forall a | a in VoterSet(theirs) ensures a in known {
        var d :| d in theirs.byData && a in theirs.byData[d].votes;
        assert (d, a) !in MissingEntries(theirs, known);
      }
    } else {
      var p :| p in MissingEntries(theirs, known);
      assert p.1 in VoterSet(theirs);
    }
  }

  /** Fetch reconciliation with the checks of both messages: the requester ends up with exactly the
      voters of both sides if and only if it missed none, or both lists keep to the limit: its own
      entries, and the entries it misses. */
  lemma FetchExactly(k: Committee, mine: Tally, theirs: Tally, req: FetchVotesReq, votes: seq<Vote>, rsp: FetchVotesRsp)
    requires Recounts(k, mine) && Recounts(k, theirs) && (mine.kind == PrevoteType || mine.kind == PrecommitType)
    requires mine.height == theirs.height && mine.round == theirs.round
    requires mine.kind == theirs.kind && mine.base == theirs.base
    requires Asks(mine, req) && Responds(theirs, req, votes, rsp)
    ensures VoterSet(Exchange(k, mine, req, votes, rsp)) == VoterSet(mine) + VoterSet(theirs) <==>
      || VoterSet(theirs) <= VoterSet(mine)
      || (CountVotes(mine.byData) <= VAL_NUM && |MissingEntries(theirs, VoterSet(mine))| <= VAL_NUM)
  {
    ResponseLength(k, theirs, VoterSet(mine), votes);
    FetchReconciles(k, mine, theirs, votes);
    if VoterSet(theirs) <= VoterSet(mine) {
      NothingMissing(theirs, VoterSet(mine));
      assert votes == [];
    } else if !(WellFormedFetchReq(req) && WellFormedFetchRsp(rsp)) {
      var a :| a in VoterSet(theirs) && a !in VoterSet(mine);
      assert a in VoterSet(mine) + VoterSet(theirs);
    }
  }

  // ---- an overlong request ----------------------------------------------------------

  lemma {:induction false} CountAll(k: Committee, t: Tally, votes: seq<Vote>)
    requires AllTaken(k, t, votes)
    ensures CountVotes(AddAll(k, t, votes).byData) == CountVotes(t.byData) + |votes|
    decreases |votes|
  {
    if votes != [] {
      CountAdded(k, t, votes[0]);
      CountAll(k, AddVote(k, t, votes[0]), votes[1..]);
    }
  }

  /** A vote that fits a vote set. */
  function VoteBy(t: Tally, a: PubKey, d: ProposedData): Vote {
    Vote(t.kind, t.height, t.round, d, t.base, a, 1)
  }

  /** One validator votes for each of the data 1 to `n`. */
  function Equivocation(t: Tally, a: PubKey, n: nat): (votes: seq<Vote>)
    ensures |votes| == n && forall i :: 0 <= i < n ==> votes[i] == VoteBy(t, a, i + 1)
  {
    seq(n, i requires 0 <= i < n => VoteBy(t, a, i + 1))
  }

  lemma OnlyFromList(k: Committee, t: Tally, votes: seq<Vote>, a: PubKey)
    requires t.byData == map[] && forall v :: v in votes ==> v.address != a
    ensures a !in VoterSet(AddAll(k, t, votes))
  {
    var u := AddAll(k, t, votes);
    forall d | d in u.byData ensures a !in u.byData[d].votes {
      HeldAfter(k, t, votes, d, a);
    }
  }

  lemma TakenVoter(k: Committee, t: Tally, votes: seq<Vote>, i: nat)
    requires i < |votes| && Acceptable(k, t, votes[i])
    ensures votes[i].address in VoterSet(AddAll(k, t, votes))
  {
    var v := votes[i];
    HeldAfter(k, t, votes, v.proposed, v.address);
    assert v in votes && Offers(k, t, votes, v.proposed, v.address);
    assert v.proposed in AddAll(k, t, votes).byData;
  }

  lemma {:induction false} SamePlace(k: Committee, t: Tally, votes: seq<Vote>)
    ensures var u := AddAll(k, t, votes); u.kind == t.kind && u.height == t.height && u.round == t.round
    decreases |votes|
  {
    if votes != [] {
      SamePlace(k, AddVote(k, t, votes[0]), votes[1..]);
    }
  }

  /** The requester's vote set after the equivocation: one voter, `n` entries. */
  lemma Flooded(k: Committee, t: Tally, a: PubKey, n: nat, mine: Tally)
    requires t.byData == map[] && n > 0 && a in k.power && (forall v :: k.verify(v))
    requires mine == AddAll(k, t, Equivocation(t, a, n))
    ensures VoterSet(mine) == {a} && CountVotes(mine.byData) == n
    ensures mine.kind == t.kind && mine.height == t.height && mine.round == t.round
  {
    var votes := Equivocation(t, a, n);
    DistinctVotesAllTaken(k, t, votes);
    CountAll(k, t, votes);
    SamePlace(k, t, votes);
    TakenVoter(k, t, votes, 0);
    forall b | b in VoterSet(mine) ensures b == a {
      if b != a {
        OnlyFromList(k, t, votes, b);
      }
    }
  }

  lemma FirstVote(k: Committee, t: Tally, v: Vote, known: set<PubKey>)
    requires t.byData == map[] && Judge(k, t, v) == Added && v.address !in known
    ensures IsResponse(AddVote(k, t, v), known, [v]) && VoterSet(AddVote(k, t, v)) == {v.address}
  {
    var u := AddVote(k, t, v);
    assert u.byData.Keys == {v.proposed};
    assert u.byData[v.proposed].votes == map[v.address := v];
  }

  /** A single equivocator makes the request overlong: with 22 votes or more of one validator on the
      requester's side the request is refused, and the requester does not learn of the other
      validator's vote, although it is the only one it misses. */
  lemma OverlongRequest(k: Committee, t: Tally, a: PubKey, b: PubKey, n: nat)
    returns (mine: Tally, theirs: Tally, req: FetchVotesReq, votes: seq<Vote>, rsp: FetchVotesRsp)
    requires t.byData == map[] && a in k.power && b in k.power && a != b && (forall v :: k.verify(v)) && n > VAL_NUM
    ensures mine == AddAll(k, t, Equivocation(t, a, n)) && theirs == AddVote(k, t, VoteBy(t, b, 1))
    ensures Asks(mine, req) && Responds(theirs, req, votes, rsp)
    ensures |req.voters| == n && votes == [VoteBy(t, b, 1)]
    ensures VoterSet(Exchange(k, mine, req, votes, rsp)) == VoterSet(mine) == {a} && VoterSet(theirs) == {b}
  {
    mine, theirs := AddAll(k, t, Equivocation(t, a, n)), AddVote(k, t, VoteBy(t, b, 1));
    Flooded(k, t, a, n, mine);
    req := FetchVotesReq(t.kind, t.height, t.round, 1, seq(n, _ => a), 1);
    assert req.voters[0] == a;
    assert Named(req.voters) == {a};
    votes := [VoteBy(t, b, 1)];
    FirstVote(k, t, VoteBy(t, b, 1), {a});
    rsp := FetchVotesRsp(t.kind, t.height, t.round, 1, Listed(votes), 1);
  }
}
