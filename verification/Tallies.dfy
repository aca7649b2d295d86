/** The value of a vote set (vote_set.go) and what its incremental counters mean. */
module Tallies {
  import opened Messages
  import opened Committees

  /** `proposedDataVotes`. */
  datatype DataVotes = DataVotes(votes: map<PubKey, Vote>, sum: nat)

  /** The fields of a `VoteSet`. */
  datatype Tally = Tally(
    height: int,
    round: int,
    kind: VoteType,
    base: ProposedData,
    sum: nat,
    distinctVoter: nat,
    minorQuorum: ProposedData,
    maj23: ProposedData,
    byData: map<ProposedData, DataVotes>)

  datatype VoteError =
    | NilVote | MismatchedBase | UnexpectedStep | DuplicateVote | NonDeterministicSignature | InvalidSignature
    | InvalidType

  datatype Outcome = Added | Refused(error: VoteError)

  function NewTally(height: int, round: int, kind: VoteType, base: ProposedData): Tally {
    Tally(height, round, kind, base, 0, 0, NIL, NIL, map[])
  }

  const NO_VOTES := DataVotes(map[], 0)

  function VotesFor(t: Tally, d: ProposedData): DataVotes {
    if d in t.byData then t.byData[d] else NO_VOTES
  }

  /** The vote set holds a vote of `a` for `d`. */
  predicate Holds(t: Tally, d: ProposedData, a: PubKey) {
    a in VotesFor(t, d).votes
  }

  /** `VoteSet.addVote` up to the decision whether to add. */
  function Judge(k: Committee, t: Tally, v: Vote): Outcome {
    if v.prev != t.base then Refused(MismatchedBase)
    else if v.height != t.height || v.round != t.round || v.kind != t.kind then Refused(UnexpectedStep)
    else if Holds(t, v.proposed, v.address) then
      Refused(if VotesFor(t, v.proposed).votes[v.address].signature == v.signature
              then DuplicateVote else NonDeterministicSignature)
    else if !Verified(k, v) then Refused(InvalidSignature)
    else Added
  }

  /** `proposedDataVotes.addVote`. */
  function AddToData(pd: DataVotes, v: Vote, power: nat): DataVotes {
    if v.address in pd.votes then pd else DataVotes(pd.votes[v.address := v], pd.sum + power)
  }

  /** `addVerifiedVote`. */
  function AddVerified(k: Committee, t: Tally, v: Vote): Tally {
    var before := VotesFor(t, v.proposed);
    var power := PowerAt(k.power, v.address);
    var quorum := Quorum(k.total);
    var after := AddToData(before, v, power);
    var crossed := before.sum < quorum && quorum <= after.sum;
    var raised := t.distinctVoter < |after.votes|;
    t.(byData := t.byData[v.proposed := after],
       maj23 := if crossed && t.maj23 == NIL then v.proposed else t.maj23,
       sum := t.sum + power,
       distinctVoter := if raised then |after.votes| else t.distinctVoter,
       minorQuorum := if raised && t.minorQuorum == NIL then v.proposed else t.minorQuorum)
  }

  /** The vote set after `AddVote`. */
  function AddVote(k: Committee, t: Tally, v: Vote): Tally {
    if Judge(k, t, v) == Added then AddVerified(k, t, v) else t
  }

  /** `TwoThirdsMajority`: nil doubles as "none", so a nil majority is never reported. */
  function TwoThirdsMajority(t: Tally): Option<ProposedData> {
    if t.maj23 != NIL then Some(t.maj23) else None
  }

  /** `HasTwoThirdsAny`. */
  predicate HasTwoThirdsAny(k: Committee, t: Tally) {
    t.sum > k.total * 2 / 3
  }

  /** `HasAll`. */
  predicate HasAll(k: Committee, t: Tally) {
    t.sum == k.total
  }

  // ---- what the counters mean ---------------------------------------------------------

  /** The stored vote belongs where it is stored and its signature verifies. */
  predicate Fits(k: Committee, t: Tally, d: ProposedData, a: PubKey, v: Vote) {
    && v.kind == t.kind && v.height == t.height && v.round == t.round && v.prev == t.base
    && v.proposed == d && v.address == a && Verified(k, v)
  }

  /** The votes for one data: not empty, all fitting, and the sum is the power of the voters. */
  ghost predicate DataOk(k: Committee, t: Tally, d: ProposedData)
    requires d in t.byData
  {
    && t.byData[d].votes != map[]
    && (forall a :: a in t.byData[d].votes ==> Fits(k, t, d, a, t.byData[d].votes[a]))
    && t.byData[d].sum == PowerOf(k.power, t.byData[d].votes.Keys)
  }

  /** The total of the per-data sums. */
  ghost function SumData(m: map<ProposedData, DataVotes>): nat {
    if m == map[] then 0
    else
      var d :| d in m;
      m[d].sum + SumData(m - {d})
  }

  /** Some data other than nil has the power of a quorum behind it. */
  ghost predicate SomeMajority(k: Committee, t: Tally) {
    exists d :: d in t.byData && d != NIL && HasQuorum(k, t.byData[d].votes.Keys)
  }

  /** `distinctVoter` is the largest number of voters any one data has. */
  ghost predicate IsLargestCount(t: Tally) {
    && (forall d :: d in t.byData ==> |t.byData[d].votes| <= t.distinctVoter)
    && (t.distinctVoter > 0 ==> exists d :: d in t.byData && |t.byData[d].votes| == t.distinctVoter)
  }

  /** Every counter equals a recount of the stored votes. */
  ghost predicate Recounts(k: Committee, t: Tally) {
    && (forall d :: d in t.byData ==> DataOk(k, t, d))
    && t.sum == SumData(t.byData)
    && IsLargestCount(t)
    && MajorityOk(k, t)
  }

  lemma {:induction false} SumRemove(m: map<ProposedData, DataVotes>, d: ProposedData)
    requires d in m
    ensures SumData(m) == m[d].sum + SumData(m - {d})
  {
    var b :| b in m && SumData(m) == m[b].sum + SumData(m - {b});
    if b != d {
      SumRemove(m - {b}, d);
      SumRemove(m - {d}, b);
      assert m - {b} - {d} == m - {d} - {b};
    }
  }

  lemma SumPut(m: map<ProposedData, DataVotes>, d: ProposedData, x: DataVotes)
    ensures SumData(m[d := x]) == SumData(m) - (if d in m then m[d].sum else 0) + x.sum
  {
    var n := m[d := x];
    SumRemove(n, d);
    assert n - {d} == m - {d};
    if d in m {
      SumRemove(m, d);
    } else {
      assert m - {d} == m;
    }
  }

  lemma NewTallyRecounts(k: Committee, height: int, round: int, kind: VoteType, base: ProposedData)
    ensures Recounts(k, NewTally(height, round, kind, base))
    ensures !HasTwoThirdsAny(k, NewTally(height, round, kind, base))
  {
  }

  lemma BeforeSum(k: Committee, t: Tally, d: ProposedData)
    requires forall x :: x in t.byData ==> DataOk(k, t, x)
    ensures VotesFor(t, d).sum == PowerOf(k.power, VotesFor(t, d).votes.Keys)
  {
  }

  lemma AddedFits(k: Committee, t: Tally, v: Vote)
    requires (forall x :: x in t.byData ==> DataOk(k, t, x)) && Judge(k, t, v) == Added
    ensures var u := AddVerified(k, t, v);
      forall a :: a in u.byData[v.proposed].votes ==> Fits(k, u, v.proposed, a, u.byData[v.proposed].votes[a])
  {
    var u := AddVerified(k, t, v);
    forall a | a in u.byData[v.proposed].votes ensures Fits(k, u, v.proposed, a, u.byData[v.proposed].votes[a]) {
      if a != v.address {
        assert v.proposed in t.byData && Fits(k, t, v.proposed, a, t.byData[v.proposed].votes[a]);
      }
    }
  }

  /** What adding one vote does to the votes behind its data. */
  lemma AddedData(k: Committee, t: Tally, v: Vote)
    requires (forall x :: x in t.byData ==> DataOk(k, t, x)) && Judge(k, t, v) == Added
    ensures var u := AddVerified(k, t, v);
      && v.proposed in u.byData
      && DataOk(k, u, v.proposed)
      && u.byData[v.proposed].votes.Keys == VotesFor(t, v.proposed).votes.Keys + {v.address}
      && u.byData[v.proposed].sum == VotesFor(t, v.proposed).sum + PowerAt(k.power, v.address)
  {
    var before, after := VotesFor(t, v.proposed), AddVerified(k, t, v).byData[v.proposed];
    assert after.votes.Keys == before.votes.Keys + {v.address};
    PowerAdd(k.power, before.votes.Keys, v.address);
    BeforeSum(k, t, v.proposed);
    AddedFits(k, t, v);
    assert after.votes[v.address] == v;
  }

  /** `maj23` is set exactly when some data other than nil has a quorum, and then to such data. */
  ghost predicate MajorityOk(k: Committee, t: Tally) {
    && (t.maj23 != NIL <==> SomeMajority(k, t))
    && (t.maj23 != NIL ==> t.maj23 in t.byData && HasQuorum(k, t.byData[t.maj23].votes.Keys))
  }

  /** A majority that was reported before keeps its quorum. */
  lemma MajorityStays(k: Committee, t: Tally, v: Vote, u: Tally)
    requires MajorityOk(k, t) && t.maj23 != NIL && u == AddVerified(k, t, v)
    ensures MajorityOk(k, u)
  {
    PowerMono(k.power, t.byData[t.maj23].votes.Keys, u.byData[t.maj23].votes.Keys);
    assert SomeMajority(k, u);
  }

  /** A first majority can only be for the data of the vote just added. */
  lemma MajorityAppears(k: Committee, t: Tally, v: Vote, u: Tally)
    requires MajorityOk(k, t) && t.maj23 == NIL && u == AddVerified(k, t, v)
    requires VotesFor(t, v.proposed).sum == PowerOf(k.power, VotesFor(t, v.proposed).votes.Keys)
    requires u.byData[v.proposed].sum == PowerOf(k.power, u.byData[v.proposed].votes.Keys)
    ensures MajorityOk(k, u)
  {
    assert forall d :: d in u.byData && d != v.proposed ==> u.byData[d] == t.byData[d];
    if v.proposed != NIL {
      assert !HasQuorum(k, VotesFor(t, v.proposed).votes.Keys) by {
        if v.proposed !in t.byData {
          assert VotesFor(t, v.proposed).votes.Keys == {};
        }
      }
      if HasQuorum(k, u.byData[v.proposed].votes.Keys) {
        assert SomeMajority(k, u);
      }
    }
  }

  lemma AddedMajority(k: Committee, t: Tally, v: Vote)
    requires (forall x :: x in t.byData ==> DataOk(k, t, x)) && MajorityOk(k, t) && Judge(k, t, v) == Added
    ensures MajorityOk(k, AddVerified(k, t, v))
  {
    var u := AddVerified(k, t, v);
    if t.maj23 != NIL {
      MajorityStays(k, t, v, u);
    } else {
      AddedData(k, t, v);
      BeforeSum(k, t, v.proposed);
      MajorityAppears(k, t, v, u);
    }
  }

  lemma AddedCount(k: Committee, t: Tally, v: Vote)
    requires IsLargestCount(t)
    ensures IsLargestCount(AddVerified(k, t, v))
  {
    var u := AddVerified(k, t, v);
    var after := u.byData[v.proposed].votes;
    if v.proposed in t.byData {
      var before := t.byData[v.proposed].votes;
      assert v.address !in before ==> after.Keys == before.Keys + {v.address};
      assert |before| <= |after|;
    }
    if u.distinctVoter == |after| {
      assert v.proposed in u.byData;
    } else {
      var d :| d in t.byData && |t.byData[d].votes| == t.distinctVoter;
      assert d != v.proposed;
      assert d in u.byData;
    }
  }

  lemma AddedElsewhere(k: Committee, t: Tally, v: Vote, d: ProposedData)
    requires d in t.byData && DataOk(k, t, d) && d != v.proposed
    ensures d in AddVerified(k, t, v).byData && DataOk(k, AddVerified(k, t, v), d)
  {
    var u := AddVerified(k, t, v);
    assert u.byData[d] == t.byData[d];
    forall a | a in u.byData[d].votes ensures Fits(k, u, d, a, u.byData[d].votes[a]) {
      assert Fits(k, t, d, a, t.byData[d].votes[a]);
    }
  }

  lemma AddedSum(k: Committee, t: Tally, v: Vote)
    requires Judge(k, t, v) == Added && t.sum == SumData(t.byData)
    requires AddVerified(k, t, v).byData[v.proposed].sum == VotesFor(t, v.proposed).sum + PowerAt(k.power, v.address)
    ensures AddVerified(k, t, v).sum == SumData(AddVerified(k, t, v).byData)
  {
    SumPut(t.byData, v.proposed, AddVerified(k, t, v).byData[v.proposed]);
  }

  /** One `AddVote` keeps every counter equal to a recount. */
  lemma AddKeepsRecount(k: Committee, t: Tally, v: Vote)
    requires Recounts(k, t)
    ensures Recounts(k, AddVote(k, t, v))
  {
    if Judge(k, t, v) == Added {
      var u := AddVerified(k, t, v);
      AddedData(k, t, v);
      AddedMajority(k, t, v);
      AddedCount(k, t, v);
      AddedSum(k, t, v);
      forall d | d in u.byData ensures DataOk(k, u, d) {
        if d != v.proposed {
          AddedElsewhere(k, t, v, d);
        }
      }
    }
  }

  /** The first majority is never replaced, and a new one is for the vote just added. */
  lemma MajorityIsStable(k: Committee, t: Tally, v: Vote)
    ensures t.maj23 != NIL ==> AddVote(k, t, v).maj23 == t.maj23
    ensures t.maj23 == NIL ==> AddVote(k, t, v).maj23 in {NIL, v.proposed}
  {
  }

  /** A majority for one data is more than two thirds of any. */
  lemma MajorityIsAny(k: Committee, t: Tally)
    requires Recounts(k, t) && t.maj23 != NIL
    ensures HasTwoThirdsAny(k, t)
  {
    assert DataOk(k, t, t.maj23);
    SumRemove(t.byData, t.maj23);
    QuorumIsLeast(k.total, t.sum);
  }

  // ---- verdicts -----------------------------------------------------------------------

  /** Which votes are added and how each other one is refused: the first thing wrong decides, in the
      order base, position, repetition, signature. */
  lemma VerdictExactly(k: Committee, t: Tally, v: Vote)
    ensures var here := v.height == t.height && v.round == t.round && v.kind == t.kind;
      && (Judge(k, t, v) == Refused(MismatchedBase) <==> v.prev != t.base)
      && (Judge(k, t, v) == Refused(UnexpectedStep) <==> v.prev == t.base && !here)
      && (Judge(k, t, v) == Refused(InvalidSignature) <==>
            v.prev == t.base && here && !Holds(t, v.proposed, v.address) && !Verified(k, v))
      && (Judge(k, t, v) == Added <==> Acceptable(k, t, v) && !Holds(t, v.proposed, v.address))
  {
  }

  /** Once added a vote is a duplicate, and with another signature a non-deterministic one. */
  lemma AddedThenRepeated(k: Committee, t: Tally, v: Vote, w: Vote)
    requires Judge(k, t, v) == Added && w == v.(signature := w.signature)
    ensures Judge(k, AddVote(k, t, v), w) ==
      Refused(if w.signature == v.signature then DuplicateVote else NonDeterministicSignature)
  {
  }

  // ---- runs of AddVote --------------------------------------------------------------

  function AddAll(k: Committee, t: Tally, votes: seq<Vote>): Tally
    decreases |votes|
  {
    if votes == [] then t else AddAll(k, AddVote(k, t, votes[0]), votes[1..])
  }

  /** Tally refinement: after any sequence of `AddVote` calls every counter is a recount, and a
      majority seen once is reported forever. */
  lemma {:induction false} TallyRefinement(k: Committee, t: Tally, votes: seq<Vote>)
    requires Recounts(k, t)
    ensures Recounts(k, AddAll(k, t, votes))
    ensures t.maj23 != NIL ==> AddAll(k, t, votes).maj23 == t.maj23
    decreases |votes|
  {
    if votes != [] {
      AddKeepsRecount(k, t, votes[0]);
      MajorityIsStable(k, t, votes[0]);
      TallyRefinement(k, AddVote(k, t, votes[0]), votes[1..]);
    }
  }

  /** A vote this vote set would take if it did not hold one like it yet. */
  predicate Acceptable(k: Committee, t: Tally, v: Vote) {
    Fits(k, t, v.proposed, v.address, v)
  }

  /** Some acceptable vote of the list is by `a` for `d`. */
  ghost predicate Offers(k: Committee, t: Tally, votes: seq<Vote>, d: ProposedData, a: PubKey) {
    exists v :: v in votes && Acceptable(k, t, v) && v.proposed == d && v.address == a
  }

  /** What is held afterwards is what was held before plus what the list offers. */
  lemma {:induction false} HeldAfter(k: Committee, t: Tally, votes: seq<Vote>, d: ProposedData, a: PubKey)
    ensures Holds(AddAll(k, t, votes), d, a) <==> Holds(t, d, a) || Offers(k, t, votes, d, a)
    decreases |votes|
  {
    if votes != [] {
      var u := AddVote(k, t, votes[0]);
      HeldAfter(k, u, votes[1..], d, a);
      assert votes == [votes[0]] + votes[1..];
      assert forall v :: Acceptable(k, u, v) <==> Acceptable(k, t, v);
    }
  }

  /** Per-data sums only depend on who is held for what. */
  lemma {:induction false} SameVotersSameSum(m: map<ProposedData, DataVotes>, n: map<ProposedData, DataVotes>)
    requires m.Keys == n.Keys
    requires forall d :: d in m ==> m[d].sum == n[d].sum
    ensures SumData(m) == SumData(n)
  {
    if m == map[] {
      assert n == map[];
    } else {
      var d :| d in m;
      SumRemove(m, d);
      SumRemove(n, d);
      SameVotersSameSum(m - {d}, n - {d});
    }
  }

  /** Validators that the list shows voting for two different data. */
  ghost predicate Equivocates(k: Committee, t: Tally, votes: seq<Vote>, a: PubKey) {
    exists d, other :: d != other && Offers(k, t, votes, d, a) && Offers(k, t, votes, other, a)
  }

  ghost function Equivocators(k: Committee, t: Tally, votes: seq<Vote>): set<PubKey> {
    set a | a in k.power && Equivocates(k, t, votes, a)
  }

  lemma HeldVoters(k: Committee, t: Tally, votes: seq<Vote>, u: Tally, d: ProposedData)
    requires t.byData == map[] && u == AddAll(k, t, votes) && Recounts(k, u)
    ensures d in u.byData <==> exists a :: Offers(k, t, votes, d, a)
    ensures forall a :: a in VotesFor(u, d).votes <==> Offers(k, t, votes, d, a)
  {
    forall a ensures a in VotesFor(u, d).votes <==> Offers(k, t, votes, d, a) {
      HeldAfter(k, t, votes, d, a);
    }
    if d in u.byData {
      assert DataOk(k, u, d);
      var a :| a in u.byData[d].votes;
      assert Offers(k, t, votes, d, a);
    }
  }

  /** Two data with a quorum need more than a third of the power to equivocate. */
  lemma TwoMajoritiesEquivocate(k: Committee, t: Tally, votes: seq<Vote>, u: Tally, d: ProposedData, other: ProposedData)
    requires ValidCommittee(k) && t.byData == map[] && u == AddAll(k, t, votes) && Recounts(k, u)
    requires d in u.byData && other in u.byData && d != other
    requires HasQuorum(k, u.byData[d].votes.Keys) && HasQuorum(k, u.byData[other].votes.Keys)
    ensures 3 * PowerOf(k.power, Equivocators(k, t, votes)) > k.total
  {
    var both := u.byData[d].votes.Keys * u.byData[other].votes.Keys;
    QuorumIntersection(k, u.byData[d].votes.Keys, u.byData[other].votes.Keys);
    HeldVoters(k, t, votes, u, d);
    HeldVoters(k, t, votes, u, other);
    assert DataOk(k, u, d);
    assert both <= Equivocators(k, t, votes);
    PowerMono(k.power, both, Equivocators(k, t, votes));
  }

  lemma SameOffers(k: Committee, t: Tally, votes: seq<Vote>, others: seq<Vote>, d: ProposedData, a: PubKey)
    requires forall v :: v in votes <==> v in others
    ensures Offers(k, t, votes, d, a) <==> Offers(k, t, others, d, a)
  {
  }

  /** The same votes in any order and with any repetition hold the same voters. */
  lemma SameHeld(k: Committee, t: Tally, votes: seq<Vote>, others: seq<Vote>, d: ProposedData, a: PubKey)
    requires forall v :: v in votes <==> v in others
    ensures Holds(AddAll(k, t, votes), d, a) <==> Holds(AddAll(k, t, others), d, a)
  {
    HeldAfter(k, t, votes, d, a);
    HeldAfter(k, t, others, d, a);
    SameOffers(k, t, votes, others, d, a);
  }

  /** Recounted tallies that hold the same voters agree on each per-data sum. */
  lemma SameData(k: Committee, u: Tally, w: Tally, d: ProposedData)
    requires Recounts(k, u) && Recounts(k, w) && d in u.byData
    requires forall a :: Holds(u, d, a) <==> Holds(w, d, a)
    ensures d in w.byData
    ensures u.byData[d].votes.Keys == w.byData[d].votes.Keys && u.byData[d].sum == w.byData[d].sum
  {
    assert DataOk(k, u, d);
    var a :| a in u.byData[d].votes;
    assert Holds(u, d, a);
    assert DataOk(k, w, d);
    assert forall b :: b in u.byData[d].votes.Keys <==> Holds(u, d, b);
    assert forall b :: b in w.byData[d].votes.Keys <==> Holds(w, d, b);
    assert u.byData[d].votes.Keys == w.byData[d].votes.Keys;
  }

  lemma SameSum(k: Committee, u: Tally, w: Tally)
    requires Recounts(k, u) && Recounts(k, w)
    requires forall d, a :: Holds(u, d, a) <==> Holds(w, d, a)
    ensures u.sum == w.sum
  {
    forall d | d in u.byData ensures d in w.byData && u.byData[d].sum == w.byData[d].sum {
      SameData(k, u, w, d);
    }
    forall d | d in w.byData ensures d in u.byData {
      SameData(k, w, u, d);
    }
    assert u.byData.Keys == w.byData.Keys;
    SameVotersSameSum(u.byData, w.byData);
  }

  lemma SameMajority(k: Committee, u: Tally, w: Tally, d: ProposedData)
    requires Recounts(k, u) && Recounts(k, w) && d in u.byData && HasQuorum(k, u.byData[d].votes.Keys)
    requires forall a :: Holds(u, d, a) <==> Holds(w, d, a)
    ensures d in w.byData && HasQuorum(k, w.byData[d].votes.Keys)
  {
    SameData(k, u, w, d);
  }

  /** Order independence: delivery order and duplicates do not change what the queries answer.
      `HasTwoThirdsAny` needs no assumption; the reported majority needs that the power seen
      equivocating is at most a third. */
  lemma OrderIndependence(k: Committee, t: Tally, votes: seq<Vote>, others: seq<Vote>)
    requires ValidCommittee(k) && t.byData == map[] && Recounts(k, t)
    requires forall v :: v in votes <==> v in others
    ensures HasTwoThirdsAny(k, AddAll(k, t, votes)) <==> HasTwoThirdsAny(k, AddAll(k, t, others))
    ensures 3 * PowerOf(k.power, Equivocators(k, t, votes)) <= k.total ==>
      TwoThirdsMajority(AddAll(k, t, votes)) == TwoThirdsMajority(AddAll(k, t, others))
  {
    var u, w := AddAll(k, t, votes), AddAll(k, t, others);
    TallyRefinement(k, t, votes);
    TallyRefinement(k, t, others);
    forall d, a ensures Holds(u, d, a) <==> Holds(w, d, a) {
      SameHeld(k, t, votes, others, d, a);
    }
    SameSum(k, u, w);
    if 3 * PowerOf(k.power, Equivocators(k, t, votes)) <= k.total {
      if u.maj23 != NIL {
        SameMajority(k, u, w, u.maj23);
        assert SomeMajority(k, w);
        SameMajority(k, w, u, w.maj23);
        if u.maj23 != w.maj23 {
          TwoMajoritiesEquivocate(k, t, votes, u, u.maj23, w.maj23);
        }
      } else if w.maj23 != NIL {
        SameMajority(k, w, u, w.maj23);
      }
    }
  }

  // ---- counting entries ---------------------------------------------------------------

  /** How many votes are stored, an equivocator counted once for each data. */
  ghost function CountVotes(m: map<ProposedData, DataVotes>): nat {
    if m == map[] then 0
    else
      var d :| d in m;
      |m[d].votes| + CountVotes(m - {d})
  }

  lemma {:induction false} CountRemove(m: map<ProposedData, DataVotes>, d: ProposedData)
    requires d in m
    ensures CountVotes(m) == |m[d].votes| + CountVotes(m - {d})
  {
    var b :| b in m && CountVotes(m) == |m[b].votes| + CountVotes(m - {b});
    if b != d {
      CountRemove(m - {b}, d);
      CountRemove(m - {d}, b);
      assert m - {b} - {d} == m - {d} - {b};
    }
  }

  ghost function Restrict(m: map<ProposedData, DataVotes>, s: set<ProposedData>): map<ProposedData, DataVotes> {
    map d | d in m && d in s :: m[d]
  }

  lemma CountTodo(m: map<ProposedData, DataVotes>, todo: set<ProposedData>, d: ProposedData)
    requires d in todo && d in m
    ensures CountVotes(Restrict(m, todo)) == |m[d].votes| + CountVotes(Restrict(m, todo - {d}))
  {
    CountRemove(Restrict(m, todo), d);
    assert Restrict(m, todo) - {d} == Restrict(m, todo - {d});
  }

  lemma CountPut(m: map<ProposedData, DataVotes>, d: ProposedData, x: DataVotes)
    ensures CountVotes(m[d := x]) == CountVotes(m) - (if d in m then |m[d].votes| else 0) + |x.votes|
  {
    var n, rest := m[d := x], m - {d};
    assert n - {d} == rest;
    CountRemove(n, d);
    CountWithout(m, d, rest);
  }

  lemma CountWithout(m: map<ProposedData, DataVotes>, d: ProposedData, rest: map<ProposedData, DataVotes>)
    requires rest == m - {d}
    ensures CountVotes(m) == CountVotes(rest) + if d in m then |m[d].votes| else 0
  {
    if d in m {
      CountRemove(m, d);
    } else {
      assert rest == m;
    }
  }

  lemma OneMore(votes: map<PubKey, Vote>, v: Vote)
    requires v.address !in votes
    ensures |votes[v.address := v]| == |votes| + 1
  {
    assert votes[v.address := v].Keys == votes.Keys + {v.address};
  }

  /** An added vote is one more entry. */
  lemma CountAdded(k: Committee, t: Tally, v: Vote)
    requires Judge(k, t, v) == Added
    ensures CountVotes(AddVote(k, t, v).byData) == CountVotes(t.byData) + 1
  {
    var before := VotesFor(t, v.proposed);
    CountPut(t.byData, v.proposed, AddToData(before, v, PowerAt(k.power, v.address)));
    OneMore(before.votes, v);
  }

  // ---- fetching missing votes -------------------------------------------------------

  /** Everyone with a vote in the set. */
  ghost function VoterSet(t: Tally): set<PubKey> {
    set d, a | d in t.byData && a in t.byData[d].votes :: a
  }

  ghost predicate Stored(t: Tally, v: Vote) {
    Holds(t, v.proposed, v.address) && VotesFor(t, v.proposed).votes[v.address] == v
  }

  /** No voter appears twice for the same data. */
  ghost predicate DistinctVotes(votes: seq<Vote>) {
    forall i, j :: 0 <= i < j < |votes| ==>
      votes[i].proposed != votes[j].proposed || votes[i].address != votes[j].address
  }

  /** The votes a vote set answers with to someone who listed `known` voters: each stored vote of
      an unknown voter exactly once, and nothing else. */
  ghost predicate IsResponse(t: Tally, known: set<PubKey>, votes: seq<Vote>) {
    && (forall i :: 0 <= i < |votes| ==> Stored(t, votes[i]) && votes[i].address !in known)
    && DistinctVotes(votes)
    && (forall d, a :: Holds(t, d, a) && a !in known ==> VotesFor(t, d).votes[a] in votes)
  }

  /** Every vote of the list is taken when the list is fed to `AddVote` in order. */
  ghost predicate AllTaken(k: Committee, t: Tally, votes: seq<Vote>)
    decreases |votes|
  {
    votes == [] || (Judge(k, t, votes[0]) == Added && AllTaken(k, AddVote(k, t, votes[0]), votes[1..]))
  }

  lemma {:induction false} DistinctVotesAllTaken(k: Committee, t: Tally, votes: seq<Vote>)
    requires forall i :: 0 <= i < |votes| ==>
      Acceptable(k, t, votes[i]) && !Holds(t, votes[i].proposed, votes[i].address)
    requires DistinctVotes(votes)
    ensures AllTaken(k, t, votes)
    decreases |votes|
  {
    if votes != [] {
      var u := AddVote(k, t, votes[0]);
      forall i | 0 <= i < |votes[1..]|
        ensures Acceptable(k, u, votes[1..][i]) && !Holds(u, votes[1..][i].proposed, votes[1..][i].address)
      {
        assert votes[1..][i] == votes[i + 1];
      }
      DistinctVotesAllTaken(k, u, votes[1..]);
    }
  }

  /** Fetch reconciliation: the requester takes every vote of the answer, and then knows exactly
      the voters either side knew, equivocators included. */
  lemma FetchReconciles(k: Committee, mine: Tally, theirs: Tally, votes: seq<Vote>)
    requires Recounts(k, mine) && Recounts(k, theirs)
    requires mine.height == theirs.height && mine.round == theirs.round
    requires mine.kind == theirs.kind && mine.base == theirs.base
    requires IsResponse(theirs, VoterSet(mine), votes)
    ensures AllTaken(k, mine, votes)
    ensures VoterSet(AddAll(k, mine, votes)) == VoterSet(mine) + VoterSet(theirs)
  {
    forall i | 0 <= i < |votes|
      ensures Acceptable(k, mine, votes[i]) && !Holds(mine, votes[i].proposed, votes[i].address)
    {
      assert Stored(theirs, votes[i]);
      assert DataOk(k, theirs, votes[i].proposed);
    }
    DistinctVotesAllTaken(k, mine, votes);
    var after := AddAll(k, mine, votes);
    forall a ensures a in VoterSet(after) <==> a in VoterSet(mine) || a in VoterSet(theirs) {
      VoterReconciled(k, mine, theirs, votes, a);
    }
  }

  lemma VoterGained(k: Committee, mine: Tally, theirs: Tally, votes: seq<Vote>, d: ProposedData, a: PubKey)
    requires IsResponse(theirs, VoterSet(mine), votes)
    requires Holds(AddAll(k, mine, votes), d, a) && !Holds(mine, d, a)
    ensures a in VoterSet(theirs)
  {
    HeldAfter(k, mine, votes, d, a);
    var v :| v in votes && Acceptable(k, mine, v) && v.proposed == d && v.address == a;
    assert Stored(theirs, v);
    assert d in theirs.byData;
  }

  lemma VoterOffered(k: Committee, mine: Tally, theirs: Tally, votes: seq<Vote>, d: ProposedData, a: PubKey)
    requires Recounts(k, theirs)
    requires mine.height == theirs.height && mine.round == theirs.round
    requires mine.kind == theirs.kind && mine.base == theirs.base
    requires IsResponse(theirs, VoterSet(mine), votes)
    requires d in theirs.byData && a in theirs.byData[d].votes && a !in VoterSet(mine)
    ensures Offers(k, mine, votes, d, a)
  {
    assert DataOk(k, theirs, d);
    var v := theirs.byData[d].votes[a];
    assert Holds(theirs, d, a) && v == VotesFor(theirs, d).votes[a];
    assert v in votes;
    assert Fits(k, theirs, d, a, v);
    assert Acceptable(k, mine, v);
  }

  lemma VoterReconciled(k: Committee, mine: Tally, theirs: Tally, votes: seq<Vote>, a: PubKey)
    requires Recounts(k, theirs)
    requires mine.height == theirs.height && mine.round == theirs.round
    requires mine.kind == theirs.kind && mine.base == theirs.base
    requires IsResponse(theirs, VoterSet(mine), votes)
    ensures a in VoterSet(AddAll(k, mine, votes)) <==> a in VoterSet(mine) || a in VoterSet(theirs)
  {
    var after := AddAll(k, mine, votes);
    if a in VoterSet(after) {
      var d :| d in after.byData && a in after.byData[d].votes;
      if !Holds(mine, d, a) {
        VoterGained(k, mine, theirs, votes, d, a);
      } else {
        assert d in mine.byData;
      }
    }
    if a in VoterSet(mine) {
      var d :| d in mine.byData && a in mine.byData[d].votes;
      HeldAfter(k, mine, votes, d, a);
      assert d in after.byData;
    } else if a in VoterSet(theirs) {
      var d :| d in theirs.byData && a in theirs.byData[d].votes;
      VoterOffered(k, mine, theirs, votes, d, a);
      HeldAfter(k, mine, votes, d, a);
      assert d in after.byData;
    }
  }

  // ---- what the total counts ------------------------------------------------------------

  ghost function VotersIn(m: map<ProposedData, DataVotes>): set<PubKey> {
    set d, a | d in m && a in m[d].votes :: a
  }

  /** Per-data sums are the power of the voters for that data. */
  ghost predicate SumsOk(k: Committee, m: map<ProposedData, DataVotes>) {
    forall d :: d in m ==> m[d].sum == PowerOf(k.power, m[d].votes.Keys)
  }

  ghost predicate VotesOnce(m: map<ProposedData, DataVotes>) {
    forall d, other, a :: d in m && other in m && d != other && a in m[d].votes ==> a !in m[other].votes
  }

  lemma VotersSplit(m: map<ProposedData, DataVotes>, d: ProposedData)
    requires d in m
    ensures VotersIn(m) == m[d].votes.Keys + VotersIn(m - {d})
    ensures VotesOnce(m) ==> m[d].votes.Keys * VotersIn(m - {d}) == {} && VotesOnce(m - {d})
  {
    forall a | a in VotersIn(m) ensures a in m[d].votes || a in VotersIn(m - {d}) {
      var other :| other in m && a in m[other].votes;
      if other != d {
        assert other in m - {d} && (m - {d})[other] == m[other];
      }
    }
    forall a | a in VotersIn(m - {d}) ensures a in VotersIn(m) {
      var other :| other in m - {d} && a in (m - {d})[other].votes;
      assert m[other] == (m - {d})[other];
    }
  }

  lemma {:induction false} SumIsPowerIn(k: Committee, m: map<ProposedData, DataVotes>)
    requires SumsOk(k, m)
    ensures SumData(m) >= PowerOf(k.power, VotersIn(m))
    ensures VotesOnce(m) ==> SumData(m) == PowerOf(k.power, VotersIn(m))
    decreases m
  {
    if m == map[] {
      assert VotersIn(m) == {};
    } else {
      var d :| d in m;
      SumRemove(m, d);
      assert forall x :: x in m - {d} ==> (m - {d})[x] == m[x];
      SumIsPowerIn(k, m - {d});
      VotersSplit(m, d);
      PowerUnion(k.power, m[d].votes.Keys, VotersIn(m - {d}));
    }
  }

  lemma TwiceInMap(t: Tally)
    ensures VotesOnce(t.byData) || exists a :: HeldTwice(t, a)
  {
    if !VotesOnce(t.byData) {
      var d, other, a :| d in t.byData && other in t.byData && d != other && a in t.byData[d].votes && a in t.byData[other].votes;
      assert Holds(t, d, a) && Holds(t, other, a);
      assert HeldTwice(t, a);
    }
  }

  /** The total counts the power of everybody who voted, and more only if somebody voted twice; so
      without double votes everybody has voted exactly if the total is that of the committee. */
  lemma TotalIsPower(k: Committee, t: Tally)
    requires Recounts(k, t)
    ensures t.sum >= PowerOf(k.power, VoterSet(t))
    ensures (forall a :: !HeldTwice(t, a)) ==> t.sum == PowerOf(k.power, VoterSet(t))
    ensures (forall a :: !HeldTwice(t, a)) ==> (HasAll(k, t) <==> PowerOf(k.power, VoterSet(t)) == k.total)
  {
    assert SumsOk(k, t.byData) by {
      forall d | d in t.byData ensures t.byData[d].sum == PowerOf(k.power, t.byData[d].votes.Keys) {
        assert DataOk(k, t, d);
      }
    }
    SumIsPowerIn(k, t.byData);
    assert VotersIn(t.byData) == VoterSet(t);
    TwiceInMap(t);
  }

  // ---- a majority for nil -------------------------------------------------------------

  /** Validators the set holds votes of for two different data. */
  ghost predicate HeldTwice(t: Tally, a: PubKey) {
    exists d, other :: d != other && Holds(t, d, a) && Holds(t, other, a)
  }

  ghost function DoubleVoters(k: Committee, t: Tally): set<PubKey> {
    set a | a in k.power && HeldTwice(t, a)
  }

  /** Two data with a quorum take more than a third of the power to vote twice. */
  lemma TwoQuorumsVoteTwice(k: Committee, t: Tally, d: ProposedData, other: ProposedData)
    requires ValidCommittee(k) && Recounts(k, t) && d in t.byData && other in t.byData && d != other
    requires HasQuorum(k, t.byData[d].votes.Keys) && HasQuorum(k, t.byData[other].votes.Keys)
    ensures 3 * PowerOf(k.power, DoubleVoters(k, t)) > k.total
  {
    var both := t.byData[d].votes.Keys * t.byData[other].votes.Keys;
    QuorumIntersection(k, t.byData[d].votes.Keys, t.byData[other].votes.Keys);
    assert DataOk(k, t, d);
    forall a | a in both ensures a in DoubleVoters(k, t) {
      assert Fits(k, t, d, a, t.byData[d].votes[a]);
      assert Holds(t, d, a) && Holds(t, other, a);
    }
    PowerMono(k.power, both, DoubleVoters(k, t));
  }

  /** A quorum for nil is more than two thirds of any, yet no majority is reported unless more than a
      third of the power votes twice. */
  lemma NilQuorumIsSilent(k: Committee, t: Tally)
    requires ValidCommittee(k) && Recounts(k, t) && NIL in t.byData && HasQuorum(k, t.byData[NIL].votes.Keys)
    requires 3 * PowerOf(k.power, DoubleVoters(k, t)) <= k.total
    ensures TwoThirdsMajority(t) == None && HasTwoThirdsAny(k, t)
  {
    assert DataOk(k, t, NIL);
    SumRemove(t.byData, NIL);
    QuorumIsLeast(k.total, t.sum);
    if t.maj23 != NIL {
      TwoQuorumsVoteTwice(k, t, NIL, t.maj23);
    }
  }

  // ---- certificates -----------------------------------------------------------------

  /** `precommits` lists the stored votes for `d`, each voter once, in any order. */
  ghost predicate ListsVotes(t: Tally, d: ProposedData, precommits: seq<Option<Vote>>) {
    && (forall i :: 0 <= i < |precommits| ==>
          precommits[i].Some? && Stored(t, precommits[i].value) && precommits[i].value.proposed == d)
    && (forall i, j :: 0 <= i < j < |precommits| ==> precommits[i].value.address != precommits[j].value.address)
    && (forall a :: a in VotesFor(t, d).votes ==> Some(VotesFor(t, d).votes[a]) in precommits)
  }

  /** Addresses of the entries that are present. */
  ghost function Signers(precommits: seq<Option<Vote>>): set<PubKey> {
    set i | 0 <= i < |precommits| && precommits[i].Some? :: precommits[i].value.address
  }

  lemma ListedSigner(precommits: seq<Option<Vote>>, v: Vote) returns (i: nat)
    requires Some(v) in precommits
    ensures v.address in Signers(precommits)
    ensures i < |precommits| && precommits[i].Some?
  {
    i :| 0 <= i < |precommits| && precommits[i] == Some(v);
  }

  /** A listed certificate is not empty and is signed by every voter for the majority. */
  lemma AllSigned(k: Committee, t: Tally, c: Commit) returns (i: nat)
    requires Recounts(k, t) && t.maj23 != NIL && ListsVotes(t, t.maj23, c.precommits)
    ensures i < |c.precommits| && c.precommits[i].Some?
    ensures t.byData[t.maj23].votes.Keys <= Signers(c.precommits)
  {
    var votes := t.byData[t.maj23].votes;
    assert votes == VotesFor(t, t.maj23).votes;
    assert DataOk(k, t, t.maj23);
    forall b | b in votes ensures b in Signers(c.precommits) {
      var _ := ListedSigner(c.precommits, votes[b]);
      assert Fits(k, t, t.maj23, b, votes[b]);
    }
    var a :| a in votes;
    i := ListedSigner(c.precommits, votes[a]);
  }

  /** Certificate soundness: a certificate listing the votes for the reported majority of a
      precommit set carries a quorum and, once signed, passes `Commit.ValidateBasic`. */
  lemma CertificateIsSound(k: Committee, t: Tally, c: Commit)
    requires Recounts(k, t) && t.kind == PrecommitType && t.maj23 != NIL
    requires c.proposedData == t.maj23 && c.prev == t.base && ListsVotes(t, t.maj23, c.precommits)
    requires c.address != NO_KEY && c.signature != NO_SIGNATURE
    ensures WellFormedCommit(c)
    ensures CommitHeight(c) == t.height && CommitRound(c) == t.round
    ensures forall i :: 0 <= i < |c.precommits| ==> c.precommits[i].Some? && Verified(k, c.precommits[i].value)
    ensures HasQuorum(k, Signers(c.precommits))
  {
    var d := t.maj23;
    var pd := t.byData[d];
    assert DataOk(k, t, d);
    forall i | 0 <= i < |c.precommits|
      ensures FitsCommit(c, t.height, t.round, c.precommits[i].value) && Verified(k, c.precommits[i].value)
    {
      assert Fits(k, t, d, c.precommits[i].value.address, c.precommits[i].value);
    }
    assert AllFit(c, t.height, t.round);
    var i := AllSigned(k, t, c);
    var j := FirstPresentIsEntry(c.precommits, i);
    assert FitsCommit(c, t.height, t.round, c.precommits[j].value);
    QuorumMono(k, pd.votes.Keys, Signers(c.precommits));
  }
}
