/** Voting power, quorums and the quorum arithmetic of vote_set.go in Go's int64. */
module Committees {
  import opened Messages

  /** A committee: the power of each validator, the total it reports and its signature oracle. */
  datatype Committee = Committee(power: map<PubKey, nat>, total: nat, verify: Vote -> bool)

  const MAX_INT64: int := 0x7FFF_FFFF_FFFF_FFFF
  const TWO_62: int := 0x4000_0000_0000_0000
  const TWO_64: int := 0x1_0000_0000_0000_0000

  // ---- int64 arithmetic -------------------------------------------------------------

  /** Two's complement wrap-around to 64 bits. */
  function WrapInt64(x: int): (r: int)
    ensures -MAX_INT64 - 1 <= r <= MAX_INT64
    ensures (x - r) % TWO_64 == 0
  {
    var m := x % TWO_64;
    if m <= MAX_INT64 then m else m - TWO_64
  }

  /** Go's division by three, which truncates toward zero. */
  function DivThree(x: int): int {
    if x >= 0 then x / 3 else -((-x) / 3)
  }

  /** `GetTotalVotingPower()*2/3` as the machine computes it. */
  function TwoThirdsInt64(total: int): int {
    DivThree(WrapInt64(total * 2))
  }

  /** `GetTotalVotingPower()*2/3 + 1` as the machine computes it. */
  function QuorumInt64(total: int): int {
    WrapInt64(TwoThirdsInt64(total) + 1)
  }

  /** The quorum in unbounded arithmetic. */
  function Quorum(total: nat): nat {
    total * 2 / 3 + 1
  }

  /** A power is a strict two-thirds majority. */
  predicate MoreThanTwoThirds(power: int, total: int) {
    3 * power > 2 * total
  }

  /** `q` is the least power with more than two thirds of `total`. */
  ghost predicate IsLeastMajority(q: int, total: int) {
    MoreThanTwoThirds(q, total) && !MoreThanTwoThirds(q - 1, total)
  }

  /** The unbounded quorum is the least two-thirds majority, and reaching it is the same as the
      strict test of `HasTwoThirdsAny`. */
  lemma QuorumIsLeast(total: nat, power: int)
    ensures IsLeastMajority(Quorum(total), total)
    ensures power >= Quorum(total) <==> MoreThanTwoThirds(power, total)
    ensures power >= Quorum(total) <==> power > total * 2 / 3
  {
  }

  lemma WrapSmall(x: int)
    requires -MAX_INT64 - 1 <= x <= MAX_INT64
    ensures WrapInt64(x) == x
  {
    if x >= 0 {
      assert x % TWO_64 == x;
    } else {
      assert x % TWO_64 == x + TWO_64;
    }
  }

  /** The machine quorum is the least two-thirds majority exactly when the doubled total still
      fits in an int64.  The comment of the type promises more than this. */
  lemma QuorumInt64Exact(total: int)
    requires 0 <= total <= MAX_INT64
    ensures IsLeastMajority(QuorumInt64(total), total) <==> total < TWO_62
    ensures total < TWO_62 ==> QuorumInt64(total) == Quorum(total) && TwoThirdsInt64(total) == total * 2 / 3
  {
    if total < TWO_62 {
      WrapSmall(total * 2);
      WrapSmall(total * 2 / 3 + 1);
    } else {
      assert (total * 2) % TWO_64 == total * 2;
      assert WrapInt64(total * 2) == total * 2 - TWO_64;
      var q := DivThree(total * 2 - TWO_64) + 1;
      assert q <= 1;
      WrapSmall(q);
    }
  }

  /** From the smallest total that overflows to the last but one, the threshold is not positive:
      no sum ever crosses it, so no majority is ever reported, while `HasTwoThirdsAny` holds for
      any sum that is not zero.  For the largest total the first vote with power is a majority. */
  lemma QuorumInt64Overflow(total: int)
    requires TWO_62 <= total <= MAX_INT64
    ensures TwoThirdsInt64(total) <= 0
    ensures total < MAX_INT64 ==> QuorumInt64(total) <= 0
    ensures total == MAX_INT64 ==> QuorumInt64(total) == 1
  {
    assert (total * 2) % TWO_64 == total * 2;
    assert WrapInt64(total * 2) == total * 2 - TWO_64;
    WrapSmall(DivThree(total * 2 - TWO_64) + 1);
  }

  // ---- power of a set of validators -------------------------------------------------

  /** `GetVotingPower`: zero for an address outside the committee. */
  function PowerAt(power: map<PubKey, nat>, a: PubKey): nat {
    if a in power then power[a] else 0
  }

  ghost function PowerOf(power: map<PubKey, nat>, s: set<PubKey>): nat {
    if s == {} then 0
    else
      var a :| a in s;
      PowerAt(power, a) + PowerOf(power, s - {a})
  }

  lemma {:induction false} PowerRemove(power: map<PubKey, nat>, s: set<PubKey>, a: PubKey)
    requires a in s
    ensures PowerOf(power, s) == PowerAt(power, a) + PowerOf(power, s - {a})
  {
    var b :| b in s && PowerOf(power, s) == PowerAt(power, b) + PowerOf(power, s - {b});
    if a != b {
      PowerRemove(power, s - {b}, a);
      PowerRemove(power, s - {a}, b);
      assert s - {b} - {a} == s - {a} - {b};
    }
  }

  lemma PowerAdd(power: map<PubKey, nat>, s: set<PubKey>, a: PubKey)
    requires a !in s
    ensures PowerOf(power, s + {a}) == PowerOf(power, s) + PowerAt(power, a)
  {
    PowerRemove(power, s + {a}, a);
    assert s + {a} - {a} == s;
  }

  lemma {:induction false} PowerMono(power: map<PubKey, nat>, s: set<PubKey>, t: set<PubKey>)
    requires s <= t
    ensures PowerOf(power, s) <= PowerOf(power, t)
  {
    if s != {} {
      var a :| a in s;
      PowerRemove(power, s, a);
      PowerRemove(power, t, a);
      PowerMono(power, s - {a}, t - {a});
    }
  }

  lemma {:induction false} PowerUnion(power: map<PubKey, nat>, s: set<PubKey>, t: set<PubKey>)
    ensures PowerOf(power, s) + PowerOf(power, t) == PowerOf(power, s + t) + PowerOf(power, s * t)
  {
    if s == {} {
      assert s + t == t;
      assert s * t == {};
    } else {
      var a :| a in s;
      PowerRemove(power, s, a);
      PowerUnion(power, s - {a}, t);
      if a in t {
        assert s - {a} + t == s + t;
        assert (s - {a}) * t == s * t - {a};
        PowerRemove(power, s * t, a);
      } else {
        assert s + t - {a} == s - {a} + t;
        PowerRemove(power, s + t, a);
        assert (s - {a}) * t == s * t;
      }
    }
  }

  /** Addresses outside the committee carry no power. */
  lemma {:induction false} PowerOutside(power: map<PubKey, nat>, s: set<PubKey>)
    ensures PowerOf(power, s) == PowerOf(power, s * power.Keys)
  {
    if s == {} {
      assert s * power.Keys == {};
    } else {
      var a :| a in s;
      PowerRemove(power, s, a);
      PowerOutside(power, s - {a});
      if a in power {
        PowerRemove(power, s * power.Keys, a);
        assert s * power.Keys - {a} == (s - {a}) * power.Keys;
      } else {
        assert (s - {a}) * power.Keys == s * power.Keys;
      }
    }
  }

  /** The reported total is the sum of the powers and its double fits in an int64. */
  ghost predicate ValidCommittee(k: Committee) {
    k.total == PowerOf(k.power, k.power.Keys) && k.total < TWO_62
  }

  ghost predicate HasQuorum(k: Committee, s: set<PubKey>) {
    PowerOf(k.power, s) >= Quorum(k.total)
  }

  lemma QuorumMono(k: Committee, s: set<PubKey>, t: set<PubKey>)
    requires s <= t && HasQuorum(k, s)
    ensures HasQuorum(k, t)
  {
    PowerMono(k.power, s, t);
  }

  /** Two quorums share more than a third of the power. */
  lemma QuorumIntersection(k: Committee, s: set<PubKey>, t: set<PubKey>)
    requires ValidCommittee(k) && HasQuorum(k, s) && HasQuorum(k, t)
    ensures 3 * PowerOf(k.power, s * t) > k.total
  {
    PowerUnion(k.power, s, t);
    PowerOutside(k.power, s + t);
    PowerMono(k.power, (s + t) * k.power.Keys, k.power.Keys);
  }

  /** At most a third of the power is outside the honest set. */
  ghost predicate FewByzantine(k: Committee, honest: set<PubKey>) {
    3 * PowerOf(k.power, k.power.Keys - honest) <= k.total
  }

  /** A set with more than a third of the power has an honest member. */
  lemma HasHonestMember(k: Committee, honest: set<PubKey>, s: set<PubKey>) returns (p: PubKey)
    requires FewByzantine(k, honest) && 3 * PowerOf(k.power, s) > k.total
    ensures p in s && p in honest
  {
    PowerOutside(k.power, s);
    if s * k.power.Keys <= k.power.Keys - honest {
      PowerMono(k.power, s * k.power.Keys, k.power.Keys - honest);
    }
    p :| p in s * k.power.Keys && p !in k.power.Keys - honest;
  }

  // ---- votes ------------------------------------------------------------------------

  /** `VerifySignature`: the signer is a validator and the oracle accepts the signature. */
  predicate Verified(k: Committee, v: Vote) {
    v.address in k.power && k.verify(v)
  }

  /** Who cast a vote of this kind for `d` at a height and round, among a set of votes. */
  ghost function Voters(votes: set<Vote>, kind: VoteType, height: int, round: int, d: ProposedData): set<PubKey> {
    set v | v in votes && v.kind == kind && v.height == height && v.round == round && v.proposed == d :: v.address
  }

  lemma VotersMono(s: set<Vote>, t: set<Vote>, kind: VoteType, height: int, round: int, d: ProposedData)
    requires s <= t
    ensures Voters(s, kind, height, round, d) <= Voters(t, kind, height, round, d)
  {
  }

  /** More than two thirds of the power of the committee prevoted `d`. */
  ghost predicate Polka(k: Committee, votes: set<Vote>, height: int, round: int, d: ProposedData) {
    HasQuorum(k, Voters(votes, PrevoteType, height, round, d))
  }

  lemma PolkaMono(k: Committee, s: set<Vote>, t: set<Vote>, height: int, round: int, d: ProposedData)
    requires s <= t && Polka(k, s, height, round, d)
    ensures Polka(k, t, height, round, d)
  {
    VotersMono(s, t, PrevoteType, height, round, d);
    QuorumMono(k, Voters(s, PrevoteType, height, round, d), Voters(t, PrevoteType, height, round, d));
  }

  /** A polka above `round` for something other than nil and other than `d`. */
  ghost predicate PolkaAgainst(k: Committee, votes: set<Vote>, height: int, round: int, d: ProposedData) {
    exists r, other :: r > round && other != d && other != NIL && Polka(k, votes, height, r, other)
  }

  lemma PolkaAgainstMono(k: Committee, s: set<Vote>, t: set<Vote>, height: int, round: int, d: ProposedData)
    requires s <= t && PolkaAgainst(k, s, height, round, d)
    ensures PolkaAgainst(k, t, height, round, d)
  {
    var r, other :| r > round && other != d && other != NIL && Polka(k, s, height, r, other);
    PolkaMono(k, s, t, height, r, other);
  }
}
