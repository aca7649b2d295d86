/** Votes, commit certificates and vote-fetch messages (message/message.go), and the
    numeric step order of the round state machine (state.go).

    Public keys and 32-byte proposed data are only ever compared for equality and against
    their zero value, so both are numbers here with 0 as the zero value.  Timestamps are
    left out; a signature is a number with 0 for the empty byte string. */
module Messages {

  type PubKey = nat
  type ProposedData = nat

  /** The empty public key string. */
  const NO_KEY: PubKey := 0
  /** `NilData`, the all-zero proposed data. */
  const NIL: ProposedData := 0
  /** The empty signature. */
  const NO_SIGNATURE: nat := 0
  /** `common.ValNum`. */
  const VAL_NUM := 21

  datatype Option<+T> = None | Some(value: T)

  datatype VoteType = PrevoteType | PrecommitType | ProposalType | OtherType(code: nat)

  datatype Vote = Vote(
    kind: VoteType,
    height: int,
    round: int,
    proposed: ProposedData,
    prev: ProposedData,
    address: PubKey,
    signature: nat)

  /** A vote that has not been signed yet. */
  function NewVote(kind: VoteType, height: int, round: int, proposed: ProposedData, prev: ProposedData): Vote {
    Vote(kind, height, round, proposed, prev, NO_KEY, NO_SIGNATURE)
  }

  // Steps of a round, in their numeric order.
  const NEW_HEIGHT := 1
  const NEW_ROUND := 2
  const PROPOSE := 3
  const PREVOTE := 4
  const PREVOTE_FETCH := 5
  const PREVOTE_WAIT := 6
  const PRECOMMIT := 7
  const PRECOMMIT_FETCH := 8
  const PRECOMMIT_WAIT := 9
  const COMMIT := 10

  /** `timeoutInfo` without its duration. */
  datatype Timeout = Timeout(height: int, round: int, step: int)

  /** Lexicographic order on height, round and step. */
  predicate Before(a: Timeout, b: Timeout) {
    a.height < b.height
    || (a.height == b.height && (a.round < b.round || (a.round == b.round && a.step < b.step)))
  }

  /** What the application reports about its last committed height. */
  datatype AppState = AppState(lastHeight: int, lastProposedData: ProposedData)

  /** A commit certificate.  An entry of `precommits` may be missing. */
  datatype Commit = Commit(
    proposedData: ProposedData,
    prev: ProposedData,
    precommits: seq<Option<Vote>>,
    address: PubKey,
    signature: nat)

  datatype FetchVotesReq = FetchVotesReq(
    kind: VoteType,
    height: int,
    round: int,
    invoker: PubKey,
    voters: seq<PubKey>,
    signature: nat)

  datatype FetchVotesRsp = FetchVotesRsp(
    kind: VoteType,
    height: int,
    round: int,
    responser: PubKey,
    missingVotes: seq<Option<Vote>>,
    signature: nat)

  /** `FetchVotesReq.ValidateBasic` finds nothing wrong; it does not look at the round. */
  predicate WellFormedFetchReq(m: FetchVotesReq) {
    && (m.kind == PrevoteType || m.kind == PrecommitType)
    && m.invoker != NO_KEY
    && |m.voters| <= VAL_NUM
    && m.signature != NO_SIGNATURE
  }

  /** The voters a request names. */
  ghost function Named(voters: seq<PubKey>): set<PubKey> {
    set a | a in voters
  }

  /** A list of votes as it travels, with no entry missing. */
  function Listed(votes: seq<Vote>): (r: seq<Option<Vote>>)
    ensures |r| == |votes|
    ensures forall i :: 0 <= i < |votes| ==> r[i] == Some(votes[i])
  {
    seq(|votes|, i requires 0 <= i < |votes| => Some(votes[i]))
  }

  /** `FetchVotesRsp.ValidateBasic` finds nothing wrong. */
  predicate WellFormedFetchRsp(m: FetchVotesRsp) {
    && (m.kind == PrevoteType || m.kind == PrecommitType)
    && m.responser != NO_KEY
    && |m.missingVotes| <= VAL_NUM
    && m.signature != NO_SIGNATURE
  }

  /** The vote the code invents when every entry of a commit is missing. */
  const EMPTY_PRECOMMIT := Vote(PrecommitType, 0, 0, NIL, NIL, NO_KEY, NO_SIGNATURE)

  /** The first entry that is present, if any. */
  ghost function FirstPresent(votes: seq<Option<Vote>>): Vote {
    if votes == [] then EMPTY_PRECOMMIT
    else if votes[0].Some? then votes[0].value
    else FirstPresent(votes[1..])
  }

  /** `Commit.FirstPrecommit`: the search loop stops at the first present entry. */
  method FirstPrecommit(c: Commit) returns (r: Option<Vote>)
    ensures r.None? <==> |c.precommits| == 0
    ensures r.Some? ==> r.value == FirstPresent(c.precommits)
  {
    if |c.precommits| == 0 {
      return None;
    }
    var i := 0;
    while i < |c.precommits|
      invariant 0 <= i <= |c.precommits|
      invariant FirstPresent(c.precommits) == FirstPresent(c.precommits[i..])
    {
      if c.precommits[i].Some? {
        return Some(c.precommits[i].value);
      }
      assert c.precommits[i..][1..] == c.precommits[i + 1..];
      i := i + 1;
    }
    return Some(EMPTY_PRECOMMIT);
  }

  /** `Commit.Height`. */
  ghost function CommitHeight(c: Commit): int {
    if |c.precommits| == 0 then 0 else FirstPresent(c.precommits).height
  }

  /** `Commit.Round`. */
  ghost function CommitRound(c: Commit): int {
    if |c.precommits| == 0 then 0 else FirstPresent(c.precommits).round
  }

  /** A present entry is a precommit for this commit's data and base at the given position. */
  predicate FitsCommit(c: Commit, height: int, round: int, v: Vote) {
    && v.kind == PrecommitType
    && v.height == height
    && v.round == round
    && v.prev == c.prev
    && v.proposed == c.proposedData
  }

  /** All present entries fit one position. */
  ghost predicate AllFit(c: Commit, height: int, round: int) {
    forall i :: 0 <= i < |c.precommits| && c.precommits[i].Some? ==>
      FitsCommit(c, height, round, c.precommits[i].value)
  }

  /** What a valid commit is, independently of how it is checked: present entries are
      precommits for one height, round, base and data, from pairwise distinct addresses. */
  ghost predicate WellFormedCommit(c: Commit) {
    && c.proposedData != NIL
    && |c.precommits| > 0
    && (exists height, round :: AllFit(c, height, round))
    && (forall i, j :: 0 <= i < j < |c.precommits| && c.precommits[i].Some? && c.precommits[j].Some? ==>
          c.precommits[i].value.address != c.precommits[j].value.address)
    && c.address != NO_KEY
    && c.signature != NO_SIGNATURE
  }

  datatype CommitError =
    | NilBlock | NoPrecommits | NotAPrecommit | WrongHeight | WrongRound | WrongPrev | WrongProposed
    | DuplicatedPrecommit | MissingAddress | MissingSignature

  /** The first present entry really is an entry. */
  lemma {:induction false} FirstPresentIsEntry(votes: seq<Option<Vote>>, i: nat) returns (j: nat)
    requires i < |votes| && votes[i].Some?
    ensures j < |votes| && votes[j] == Some(FirstPresent(votes))
  {
    if votes[0].Some? {
      j := 0;
    } else {
      j := FirstPresentIsEntry(votes[1..], i - 1);
      j := j + 1;
    }
  }

  /** `Commit.ValidateBasic`: one pass over the entries with a set of addresses seen so far
      decides exactly whether the commit is well formed. */
  method ValidateBasic(c: Commit) returns (err: Option<CommitError>)
    ensures err.None? <==> WellFormedCommit(c)
    ensures err == None ==> AllFit(c, CommitHeight(c), CommitRound(c))
    ensures err == Some(NilBlock) <==> c.proposedData == NIL
  {
    if c.proposedData == NIL {
      return Some(NilBlock);
    }
    if |c.precommits| == 0 {
      return Some(NoPrecommits);
    }
    var first := FirstPrecommit(c);
    var height, round := first.value.height, first.value.round;
    var cache: set<PubKey> := {};
    var i := 0;
    while i < |c.precommits|
      invariant 0 <= i <= |c.precommits|
      invariant forall j :: 0 <= j < i && c.precommits[j].Some? ==>
          FitsCommit(c, height, round, c.precommits[j].value) && c.precommits[j].value.address in cache
      invariant forall a :: a in cache ==>
          exists j :: 0 <= j < i && c.precommits[j].Some? && c.precommits[j].value.address == a
      invariant forall j, k :: 0 <= j < k < i && c.precommits[j].Some? && c.precommits[k].Some? ==>
          c.precommits[j].value.address != c.precommits[k].value.address
    {
      if c.precommits[i].Some? {
        var v := c.precommits[i].value;
        if !FitsCommit(c, height, round, v) {
          ghost var f := FirstPresentIsEntry(c.precommits, i);
          assert !WellFormedCommit(c);
          err := if v.kind != PrecommitType then Some(NotAPrecommit)
          else if v.height != height then Some(WrongHeight)
          else if v.round != round then Some(WrongRound)
          else if v.prev != c.prev then Some(WrongPrev)
          else Some(WrongProposed);
          return;
        }
        if v.address in cache {
          return Some(DuplicatedPrecommit);
        }
        cache := cache + {v.address};
      }
      i := i + 1;
    }
    if c.address == NO_KEY {
      return Some(MissingAddress);
    }
    if c.signature == NO_SIGNATURE {
      return Some(MissingSignature);
    }
    assert AllFit(c, height, round);
    return None;
  }

  /** A well-formed commit speaks about its own `CommitHeight` and `CommitRound`. */
  lemma WellFormedPositions(c: Commit)
    requires WellFormedCommit(c)
    ensures AllFit(c, CommitHeight(c), CommitRound(c))
  {
    forall i | 0 <= i < |c.precommits| && c.precommits[i].Some?
      ensures FitsCommit(c, CommitHeight(c), CommitRound(c), c.precommits[i].value)
    {
      var j := FirstPresentIsEntry(c.precommits, i);
      var height, round :| AllFit(c, height, round);
      assert FitsCommit(c, height, round, c.precommits[j].value);
    }
  }
}
