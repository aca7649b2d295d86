/** The invariant of one node: what its journal and its state promise between any two handlers. */
module CoreInvariant {
  import opened Messages
  import opened Committees
  import opened Tallies
  import opened HeightVotes
  import opened CoreSpec

  // ---- the journal --------------------------------------------------------------------

  /** Where in the order of steps a vote is cast. */
  ghost function VotePosition(v: Vote): Timeout {
    Timeout(v.height, v.round,
      match v.kind case ProposalType => PROPOSE case PrevoteType => PREVOTE case _ => PRECOMMIT)
  }

  ghost predicate OwnVote(e: Env, v: Vote) {
    v.address == e.self && v.kind in {ProposalType, PrevoteType, PrecommitType}
  }

  /** Votes are signed at strictly increasing height, round and step; so never two of one kind
      for one round. */
  ghost predicate Increasing(sent: seq<Sent>) {
    forall i, j {:trigger Before(VotePosition(sent[i].vote), VotePosition(sent[j].vote))} ::
      0 <= i < j < |sent| ==> Before(VotePosition(sent[i].vote), VotePosition(sent[j].vote))
  }

  /** A precommit for data is signed after a polka for it in the same round was seen. */
  ghost predicate Backed(e: Env, s: Sent) {
    s.vote.kind == PrecommitType && s.vote.proposed != NIL ==>
      Polka(e.committee(s.vote.height), s.seen, s.vote.height, s.vote.round, s.vote.proposed)
  }

  /** Who precommitted data only prevotes other data in a later round after a later polka
      against the precommitted data was seen. */
  ghost predicate Respects(e: Env, precommit: Vote, s: Sent) {
    && precommit.kind == PrecommitType && s.vote.kind == PrevoteType
    && precommit.height == s.vote.height && precommit.round < s.vote.round
    && precommit.proposed != NIL && s.vote.proposed != NIL && precommit.proposed != s.vote.proposed
    ==> PolkaAgainst(e.committee(s.vote.height), s.seen, s.vote.height, precommit.round, precommit.proposed)
  }

  ghost predicate SeenPolka(k: Committee, seen: set<Vote>, height: int, d: ProposedData) {
    exists r :: Polka(k, seen, height, r, d)
  }

  /** A prevote for data was approved by the application, or a polka for it was seen before. */
  ghost predicate Grounded(e: Env, approved: set<(int, ProposedData)>, s: Sent) {
    s.vote.kind == PrevoteType && s.vote.proposed != NIL ==>
      || (s.vote.height, s.vote.proposed) in approved
      || SeenPolka(e.committee(s.vote.height), s.seen, s.vote.height, s.vote.proposed)
  }

  /** The voting discipline a journal keeps. */
  ghost predicate Disciplined(e: Env, j: Journal) {
    && (forall i :: 0 <= i < |j.sent| ==>
          && OwnVote(e, j.sent[i].vote) && j.sent[i].seen <= j.accepted
          && Backed(e, j.sent[i]) && Grounded(e, j.approved, j.sent[i]))
    && Increasing(j.sent)
    && (forall i, n {:trigger Respects(e, j.sent[i].vote, j.sent[n])} ::
          0 <= i < |j.sent| && 0 <= n < |j.sent| ==> Respects(e, j.sent[i].vote, j.sent[n]))
  }

  ghost predicate SentBehind(sent: seq<Sent>, pos: Timeout) {
    forall i :: 0 <= i < |sent| ==> !Before(pos, VotePosition(sent[i].vote))
  }

  /** Votes signed at this height are built on its base. */
  ghost predicate SentBased(sent: seq<Sent>, height: int, base: ProposedData) {
    forall i :: 0 <= i < |sent| ==>
      && sent[i].vote.height <= height && sent[i].vote.round >= 0
      && (sent[i].vote.height == height ==> sent[i].vote.prev == base)
  }

  ghost predicate LockedOn(lockedRound: int, lockedProposal: Option<Vote>, v: Vote) {
    lockedRound >= v.round && lockedProposal.Some? && lockedProposal.value.proposed == v.proposed
  }

  /** After precommitting data at this height the node is still locked on it, or has accepted a
      later polka against it. */
  ghost predicate LockRemembered(e: Env, j: Journal, height: int, lockedRound: int, lockedProposal: Option<Vote>) {
    forall i :: 0 <= i < |j.sent| ==>
      var v := j.sent[i].vote;
      v.kind == PrecommitType && v.height == height && v.proposed != NIL ==>
        || LockedOn(lockedRound, lockedProposal, v)
        || PolkaAgainst(e.committee(height), j.accepted, height, v.round, v.proposed)
  }

  /** What the journal says about the votes signed up to a position. */
  ghost predicate VotingPart(e: Env, j: Journal, height: int, base: ProposedData,
                             lockedRound: int, lockedProposal: Option<Vote>, pos: Timeout) {
    && Disciplined(e, j) && SentBehind(j.sent, pos) && SentBased(j.sent, height, base)
    && LockRemembered(e, j, height, lockedRound, lockedProposal)
  }

  /** The record carries a quorum of accepted precommits for its data. */
  ghost predicate CommitBacked(e: Env, rec: CommitRecord, accepted: set<Vote>) {
    && rec.data != NIL
    && HasQuorum(e.committee(rec.height), rec.precommits.Keys)
    && forall a :: a in rec.precommits ==>
      var v := rec.precommits[a];
      && v.kind == PrecommitType && v.height == rec.height && v.round == rec.round
      && v.proposed == rec.data && v.prev == rec.prev && v.address == a && v in accepted
  }

  ghost predicate CommitsPart(e: Env, commits: seq<CommitRecord>, accepted: set<Vote>) {
    forall i :: 0 <= i < |commits| ==> CommitBacked(e, commits[i], accepted)
  }

  /** The data committed before the `i`-th commit of a node. */
  ghost function DataBefore(start: AppState, commits: seq<CommitRecord>, i: nat): ProposedData
    requires i <= |commits|
  {
    if i == 0 then start.lastProposedData else commits[i - 1].data
  }

  ghost predicate Linked(start: AppState, commits: seq<CommitRecord>, i: nat)
    requires i < |commits|
  {
    commits[i].height == start.lastHeight + 1 + i && commits[i].prev == DataBefore(start, commits, i)
  }

  /** The commits since the start are of consecutive heights, each built on the data before it, and
      the node is at the next height with the last data as its base. */
  ghost predicate ChainPart(start: AppState, commits: seq<CommitRecord>, height: int, last: ProposedData) {
    && (forall i :: 0 <= i < |commits| ==> Linked(start, commits, i))
    && height == start.lastHeight + 1 + |commits| && last == DataBefore(start, commits, |commits|)
  }

  // ---- timeouts -----------------------------------------------------------------------

  predicate IsFetch(step: int) {
    step == PREVOTE_FETCH || step == PRECOMMIT_FETCH
  }

  /** The steps a node can rest in, which are the steps it schedules timeouts for. */
  predicate IsResting(step: int) {
    step in {NEW_HEIGHT, PROPOSE, PREVOTE_FETCH, PREVOTE_WAIT, PRECOMMIT_FETCH, PRECOMMIT_WAIT}
  }

  /** The second timeout is later, or repeats a fetch step. */
  ghost predicate Follows(a: Timeout, b: Timeout) {
    Before(a, b) || (a == b && IsFetch(b.step))
  }

  ghost predicate InOrder(ticks: seq<Timeout>, i: nat)
    requires 0 < i < |ticks|
  {
    Follows(ticks[i - 1], ticks[i])
  }

  ghost predicate TicksPart(ticks: seq<Timeout>, pos: Timeout) {
    && |ticks| > 0
    && (forall i :: 0 <= i < |ticks| ==> IsResting(ticks[i].step) && !Before(pos, ticks[i]))
    && (forall i :: 0 < i < |ticks| ==> InOrder(ticks, i))
  }

  // ---- the state ----------------------------------------------------------------------

  ghost predicate VotesPart(k: Committee, hv: Votes, height: int, base: ProposedData, accepted: set<Vote>) {
    VotesOk(k, hv) && hv.height == height && hv.base == base && StoredIn(hv, accepted)
  }

  /** Tracked rounds: everything up to `top`, and nothing beyond the watermark. */
  ghost predicate RoundsPart(top: int, tracked: set<int>, round: int, step: int) {
    && (top == round + 1 || (top == 0 && round == 0))
    && (forall r :: 0 <= r <= top ==> r in tracked)
    && (forall r :: r in tracked ==> 0 <= r <= round + WATERMARK)
    && (step == NEW_HEIGHT ==> round == 0 && top == 0)
  }

  /** The lock: its round has a polka for the locked data, and no later round one for other data. */
  ghost predicate LockPart(hv: Votes, round: int, step: int, lockedRound: int, lockedProposal: Option<Vote>) {
    && -1 <= lockedRound <= round
    && (lockedRound >= 0 <==> lockedProposal.Some?)
    && (lockedRound == round ==> step >= PRECOMMIT)
    && (lockedRound >= 0 ==>
          && lockedProposal.value.proposed != NIL
          && MajAt(hv, PrevoteType, lockedRound) == lockedProposal.value.proposed
          && forall r :: r > lockedRound ==> MajAt(hv, PrevoteType, r) in {NIL, lockedProposal.value.proposed})
  }

  /** The precommits kept from the previous height hold a majority for the committed data. */
  ghost predicate LastCommitPart(e: Env, lastCommit: Option<Tally>, height: int, data: ProposedData) {
    lastCommit.Some? ==>
      var t := lastCommit.value;
      && t.kind == PrecommitType && t.height == height - 1
      && data != NIL && t.maj23 == data && data in t.byData
      && HasQuorum(e.committee(height - 1), t.byData[data].votes.Keys)
  }

  /** A proposal the node holds: for its height and base, and its own or verified. */
  ghost predicate ProposalFits(e: Env, p: Vote, height: int, base: ProposedData) {
    p.height == height && p.prev == base && (p.address == e.self || Verified(e.committee(height), p))
  }

  /** The proposal is one of the current round; the locked one may be older. */
  ghost predicate ProposalPart(e: Env, proposal: Option<Vote>, locked: Option<Vote>, height: int, round: int, base: ProposedData) {
    && (proposal.Some? ==> ProposalFits(e, proposal.value, height, base) && proposal.value.round == round)
    && (locked.Some? ==> ProposalFits(e, locked.value, height, base) && locked.value.round <= round)
  }

  /** What also holds inside a handler, between its nested calls. */
  ghost predicate Base(e: Env, c: State) {
    && c.height >= 1 && c.round >= 0 && NEW_HEIGHT <= c.step < COMMIT && c.commitRound == -1
    && VotesPart(CommitteeOf(e, c), c.votes, c.height, c.lastCommittedData, c.journal.accepted)
    && RoundsPart(c.votes.round, c.votes.rounds.Keys, c.round, c.step)
    && LockPart(c.votes, c.round, c.step, c.lockedRound, c.lockedProposal)
    && ProposalPart(e, c.proposal, c.lockedProposal, c.height, c.round, c.lastCommittedData)
    && VotingPart(e, c.journal, c.height, c.lastCommittedData, c.lockedRound, c.lockedProposal, Position(c))
    && CommitsPart(e, c.journal.commits, c.journal.accepted)
    && ChainPart(c.journal.start, c.journal.commits, c.height, c.lastCommittedData)
    && LastCommitPart(e, c.lastCommit, c.height, c.lastCommittedData)
    && TicksPart(c.journal.ticks, Position(c))
  }

  /** A kind of vote and a round; this one is tracked by nobody. */
  const NOWHERE: (VoteType, int) := (PrevoteType, -1)

  /** No vote set of a round above `round`, other than possibly `except`, has more than two
      thirds of any votes. */
  ghost predicate NoneAhead(k: Committee, hv: Votes, round: int, except: (VoteType, int)) {
    forall kind, r :: r > round && (kind, r) != except ==> !AnyAt(k, hv, kind, r)
  }

  ghost predicate NoCommitted(hv: Votes, except: int) {
    forall r :: r != except ==> MajAt(hv, PrecommitType, r) == NIL
  }

  ghost predicate LastTickIs(ticks: seq<Timeout>, pos: Timeout) {
    |ticks| > 0 && ticks[|ticks| - 1] == pos
  }

  /** The node rests in a step it has scheduled a timeout for. */
  ghost predicate AtRest(c: State) {
    IsResting(c.step) && LastTickIs(c.journal.ticks, Position(c))
  }

  /** The invariant between handlers, and between the votes of one message. */
  ghost predicate Inv(e: Env, c: State) {
    && Base(e, c)
    && AtRest(c)
    && NoneAhead(CommitteeOf(e, c), c.votes, c.round, NOWHERE)
    && NoCommitted(c.votes, -1)
  }

  /** The journal only grows. */
  ghost predicate Grows(a: Journal, b: Journal) {
    a.sent <= b.sent && a.accepted <= b.accepted && a.approved <= b.approved && a.ticks <= b.ticks
    && a.commits <= b.commits && a.start == b.start
  }

  // ---- start --------------------------------------------------------------------------

  lemma StartInv(e: Env, app: AppState)
    requires app.lastHeight >= 0
    ensures Inv(e, StartState(app)) && !StartState(app).panicked
  {
    NewVotesOk(e.committee(app.lastHeight + 1), app.lastHeight + 1, app.lastProposedData);
    NewVotesStored(app.lastHeight + 1, app.lastProposedData, {});
  }

  // ---- building blocks ----------------------------------------------------------------

  lemma BeforeTrans(a: Timeout, b: Timeout, c: Timeout)
    ensures !Before(b, a) && Before(b, c) ==> Before(a, c)
    ensures !Before(b, a) && !Before(c, b) ==> !Before(c, a)
  {
  }

  lemma OrderKeeps(ticks: seq<Timeout>, t: Timeout)
    requires |ticks| > 0 && Follows(ticks[|ticks| - 1], t)
    requires forall i :: 0 < i < |ticks| ==> InOrder(ticks, i)
    ensures forall i :: 0 < i < |ticks + [t]| ==> InOrder(ticks + [t], i)
  {
    forall i | 0 < i < |ticks + [t]| ensures InOrder(ticks + [t], i) {
      assert i < |ticks| ==> InOrder(ticks, i);
    }
  }

  /** Scheduling a timeout later than the position keeps the order of timeouts. */
  lemma ScheduleKeeps(ticks: seq<Timeout>, pos: Timeout, t: Timeout)
    requires TicksPart(ticks, pos) && Before(pos, t) && IsResting(t.step)
    ensures TicksPart(ticks + [t], t)
  {
    forall i | 0 <= i < |ticks| ensures !Before(t, ticks[i]) && Before(ticks[i], t) {
      BeforeTrans(ticks[i], pos, t);
    }
    OrderKeeps(ticks, t);
  }

  /** Repeating the last timeout of a fetch step keeps the order too. */
  lemma RescheduleKeeps(ticks: seq<Timeout>, pos: Timeout)
    requires TicksPart(ticks, pos) && LastTickIs(ticks, pos) && IsFetch(pos.step)
    ensures TicksPart(ticks + [pos], pos)
  {
    OrderKeeps(ticks, pos);
  }

  lemma MoveTicks(ticks: seq<Timeout>, pos: Timeout, later: Timeout)
    requires TicksPart(ticks, pos) && !Before(later, pos)
    ensures TicksPart(ticks, later)
  {
    forall i | 0 <= i < |ticks| ensures !Before(later, ticks[i]) {
      BeforeTrans(ticks[i], pos, later);
    }
  }

  lemma MoveSent(sent: seq<Sent>, pos: Timeout, later: Timeout)
    requires SentBehind(sent, pos) && !Before(later, pos)
    ensures SentBehind(sent, later)
  {
    forall i | 0 <= i < |sent| ensures !Before(later, VotePosition(sent[i].vote)) {
      BeforeTrans(VotePosition(sent[i].vote), pos, later);
    }
  }

  /** What makes a vote safe to sign now. */
  ghost predicate SafeToSend(e: Env, j: Journal, v: Vote) {
    && OwnVote(e, v)
    && Backed(e, Sent(v, j.accepted))
    && Grounded(e, j.approved, Sent(v, j.accepted))
    && forall i :: 0 <= i < |j.sent| ==> Respects(e, j.sent[i].vote, Sent(v, j.accepted))
  }

  ghost function WithSent(j: Journal, v: Vote): Journal {
    j.(sent := j.sent + [Sent(v, j.accepted)])
  }

  /** Signing a safe vote beyond the position keeps the discipline. */
  lemma SendKeeps(e: Env, j: Journal, v: Vote, pos: Timeout)
    requires Disciplined(e, j) && SentBehind(j.sent, pos) && Before(pos, VotePosition(v)) && SafeToSend(e, j, v)
    ensures Disciplined(e, WithSent(j, v))
    ensures SentBehind(WithSent(j, v).sent, VotePosition(v))
  {
    var n := WithSent(j, v);
    forall i | 0 <= i < |j.sent|
      ensures Before(VotePosition(j.sent[i].vote), VotePosition(v))
      ensures Respects(e, v, j.sent[i])
    {
      BeforeTrans(VotePosition(j.sent[i].vote), pos, VotePosition(v));
    }
    forall i, m | 0 <= i < |n.sent| && 0 <= m < |n.sent| ensures Respects(e, n.sent[i].vote, n.sent[m]) {
      if i < |j.sent| && m < |j.sent| {
        assert n.sent[i] == j.sent[i] && n.sent[m] == j.sent[m];
      }
    }
  }

  lemma SendRemembers(e: Env, j: Journal, v: Vote, height: int, lockedRound: int, lockedProposal: Option<Vote>)
    requires LockRemembered(e, j, height, lockedRound, lockedProposal)
    requires v.kind == PrecommitType && v.height == height && v.proposed != NIL ==> LockedOn(lockedRound, lockedProposal, v)
    ensures LockRemembered(e, WithSent(j, v), height, lockedRound, lockedProposal)
  {
    var n := WithSent(j, v);
    forall i | 0 <= i < |n.sent|
      ensures var w := n.sent[i].vote;
        w.kind == PrecommitType && w.height == height && w.proposed != NIL ==>
          || LockedOn(lockedRound, lockedProposal, w)
          || PolkaAgainst(e.committee(height), j.accepted, height, w.round, w.proposed)
    {
      if i < |j.sent| {
        assert n.sent[i] == j.sent[i];
      }
    }
  }

  /** A safe vote at this height beyond the position keeps what the journal says about votes. */
  lemma VotingSends(e: Env, j: Journal, v: Vote, height: int, base: ProposedData,
                    lockedRound: int, lockedProposal: Option<Vote>, pos: Timeout)
    requires VotingPart(e, j, height, base, lockedRound, lockedProposal, pos)
    requires SafeToSend(e, j, v) && Before(pos, VotePosition(v))
    requires v.height == height && v.prev == base && v.round >= 0
    requires v.kind == PrecommitType && v.proposed != NIL ==> LockedOn(lockedRound, lockedProposal, v)
    ensures VotingPart(e, WithSent(j, v), height, base, lockedRound, lockedProposal, VotePosition(v))
  {
    SendKeeps(e, j, v, pos);
    SendRemembers(e, j, v, height, lockedRound, lockedProposal);
  }

  /** Accepting or approving more and moving on keeps it too. */
  lemma VotingMoves(e: Env, j: Journal, n: Journal, height: int, base: ProposedData,
                    lockedRound: int, lockedProposal: Option<Vote>, pos: Timeout, later: Timeout)
    requires VotingPart(e, j, height, base, lockedRound, lockedProposal, pos) && !Before(later, pos)
    requires n.sent == j.sent && j.accepted <= n.accepted && j.approved <= n.approved
    ensures VotingPart(e, n, height, base, lockedRound, lockedProposal, later)
  {
    DisciplineMono(e, j, n);
    RememberMono(e, j, n, height, lockedRound, lockedProposal);
    MoveSent(j.sent, pos, later);
  }

  /** Accepting more votes or approving more data keeps the discipline. */
  lemma DisciplineMono(e: Env, j: Journal, n: Journal)
    requires Disciplined(e, j) && n.sent == j.sent && j.accepted <= n.accepted && j.approved <= n.approved
    ensures Disciplined(e, n)
  {
  }

  lemma RememberMono(e: Env, j: Journal, n: Journal, height: int, lockedRound: int, lockedProposal: Option<Vote>)
    requires LockRemembered(e, j, height, lockedRound, lockedProposal)
    requires n.sent == j.sent && j.accepted <= n.accepted
    ensures LockRemembered(e, n, height, lockedRound, lockedProposal)
  {
    forall i | 0 <= i < |j.sent| && PolkaAgainst(e.committee(height), j.accepted, height, j.sent[i].vote.round, j.sent[i].vote.proposed)
      ensures PolkaAgainst(e.committee(height), n.accepted, height, j.sent[i].vote.round, j.sent[i].vote.proposed)
    {
      PolkaAgainstMono(e.committee(height), j.accepted, n.accepted, height, j.sent[i].vote.round, j.sent[i].vote.proposed);
    }
  }

  /** Replacing or releasing the lock is remembered through the polka that caused it. */
  lemma RelockRemembers(e: Env, j: Journal, height: int, lockedRound: int, lockedProposal: Option<Vote>,
                        newRound: int, newProposal: Option<Vote>, polkaRound: int, polka: ProposedData)
    requires LockRemembered(e, j, height, lockedRound, lockedProposal)
    requires Polka(e.committee(height), j.accepted, height, polkaRound, polka) && polka != NIL
    requires lockedRound < polkaRound
    requires lockedProposal.Some? && lockedProposal.value.proposed == polka ==>
      newProposal.Some? && newProposal.value.proposed == polka && newRound >= lockedRound
    ensures LockRemembered(e, j, height, newRound, newProposal)
  {
    forall i | 0 <= i < |j.sent| && LockedOn(lockedRound, lockedProposal, j.sent[i].vote)
      ensures LockedOn(newRound, newProposal, j.sent[i].vote)
        || PolkaAgainst(e.committee(height), j.accepted, height, j.sent[i].vote.round, j.sent[i].vote.proposed)
    {
    }
  }
}
