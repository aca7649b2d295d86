/** Agreement and validity of the whole network, for every run and any Byzantine third. */
module Safety {
  import opened Messages
  import opened Committees
  import opened Tallies
  import opened HeightVotes
  import opened CoreSpec
  import opened CoreInvariant
  import opened Network

  // ---- from a trace to the journals of honest nodes ---------------------------------------

  /** The journal entry behind an honest voter of the trace. */
  lemma HonestEntry(w: World, k: nat, p: PubKey, kind: VoteType, h: int, r: int, d: ProposedData)
    returns (at: nat, i: nat)
    requires TraceAccounted(w) && k <= |w.trace| && p in w.nodes
    requires p in Voters(Upto(w.trace, k), kind, h, r, d)
    ensures at < k && p in w.nodes && i < |w.nodes[p].journal.sent|
    ensures Accounts(w.nodes[p].journal.sent[i], w.trace, at)
    ensures var v := w.nodes[p].journal.sent[i].vote;
      v.kind == kind && v.height == h && v.round == r && v.proposed == d
  {
    var v :| v in Upto(w.trace, k) && v.kind == kind && v.height == h && v.round == r && v.proposed == d && v.address == p;
    at :| 0 <= at < k && w.trace[..k][at] == v;
    assert Accounted(w.nodes[p].journal.sent, w.trace, at);
    i :| 0 <= i < |w.nodes[p].journal.sent| && Accounts(w.nodes[p].journal.sent[i], w.trace, at);
  }

  lemma NodeDisciplined(cfg: Config, w: World, p: PubKey)
    requires WorldInv(cfg, w) && p in w.nodes
    ensures Disciplined(EnvOf(cfg, p), w.nodes[p].journal)
  {
    assert NodeOk(cfg, w, p);
  }

  /** Two quorums have an honest voter in common. */
  lemma CommonHonest(cfg: Config, h: int, s: set<PubKey>, t: set<PubKey>) returns (p: PubKey)
    requires ValidConfig(cfg) && FewByzantine(cfg.committee(h), cfg.honest)
    requires HasQuorum(cfg.committee(h), s) && HasQuorum(cfg.committee(h), t)
    ensures p in s && p in t && p in cfg.honest
  {
    QuorumIntersection(cfg.committee(h), s, t);
    p := HasHonestMember(cfg.committee(h), cfg.honest, s * t);
  }

  ghost predicate Quorate(cfg: Config, w: World, kind: VoteType, h: int, r: int, d: ProposedData) {
    HasQuorum(cfg.committee(h), Voters(Upto(w.trace, |w.trace|), kind, h, r, d))
  }

  // ---- lock persistence ---------------------------------------------------------------

  /** A polka against locked data within a prefix of the trace needs an earlier one: the voter it
      shares with the precommit quorum had seen one when it prevoted. */
  lemma EarlierPolka(cfg: Config, w: World, h: int, r: int, d: ProposedData, k: nat) returns (at: nat)
    requires ValidConfig(cfg) && WorldInv(cfg, w) && FewByzantine(cfg.committee(h), cfg.honest)
    requires d != NIL && Quorate(cfg, w, PrecommitType, h, r, d)
    requires k <= |w.trace| && PolkaAgainst(cfg.committee(h), Upto(w.trace, k), h, r, d)
    ensures at < k && PolkaAgainst(cfg.committee(h), Upto(w.trace, at), h, r, d)
  {
    var r', d' :| r' > r && d' != d && d' != NIL && Polka(cfg.committee(h), Upto(w.trace, k), h, r', d');
    var p := CommonHonest(cfg, h, Voters(Upto(w.trace, |w.trace|), PrecommitType, h, r, d),
                          Voters(Upto(w.trace, k), PrevoteType, h, r', d'));
    var _, i := HonestEntry(w, |w.trace|, p, PrecommitType, h, r, d);
    var n;
    at, n := HonestEntry(w, k, p, PrevoteType, h, r', d');
    NodeDisciplined(cfg, w, p);
    var sent := w.nodes[p].journal.sent;
    assert Respects(EnvOf(cfg, p), sent[i].vote, sent[n]);
    PolkaAgainstMono(cfg.committee(h), sent[n].seen, Upto(w.trace, at), h, r, d);
  }

  /** Descent on the trace: the earliest polka against locked data cannot exist. */
  lemma {:induction false} NoPolkaAgainst(cfg: Config, w: World, h: int, r: int, d: ProposedData, k: nat)
    requires ValidConfig(cfg) && WorldInv(cfg, w) && FewByzantine(cfg.committee(h), cfg.honest)
    requires d != NIL && Quorate(cfg, w, PrecommitType, h, r, d) && k <= |w.trace|
    ensures !PolkaAgainst(cfg.committee(h), Upto(w.trace, k), h, r, d)
    decreases k
  {
    if PolkaAgainst(cfg.committee(h), Upto(w.trace, k), h, r, d) {
      var at := EarlierPolka(cfg, w, h, r, d, k);
      NoPolkaAgainst(cfg, w, h, r, d, at);
    }
  }

  /** Lock persistence: once a quorum has precommitted `d` in round `r`, no later round ever has a
      polka for any other data. */
  lemma LockPersistence(cfg: Config, w: World, h: int, r: int, d: ProposedData, later: int, other: ProposedData)
    requires Reachable(cfg, w) && FewByzantine(cfg.committee(h), cfg.honest)
    requires d != NIL && Quorate(cfg, w, PrecommitType, h, r, d)
    requires later > r && other != d && other != NIL
    ensures !Quorate(cfg, w, PrevoteType, h, later, other)
  {
    ReachableInv(cfg, w);
    NoPolkaAgainst(cfg, w, h, r, d, |w.trace|);
    assert !Polka(cfg.committee(h), Upto(w.trace, |w.trace|), h, later, other);
  }

  // ---- agreement ----------------------------------------------------------------------

  /** An honest node has handed this commit to its application. */
  ghost predicate Committed(w: World, n: PubKey, rec: CommitRecord) {
    n in w.nodes && rec in w.nodes[n].journal.commits
  }

  /** The precommits of a commit record are a quorum of the trace. */
  lemma CommitIsQuorate(cfg: Config, w: World, n: PubKey, rec: CommitRecord)
    requires WorldInv(cfg, w) && Committed(w, n, rec)
    ensures rec.data != NIL && Quorate(cfg, w, PrecommitType, rec.height, rec.round, rec.data)
  {
    assert NodeOk(cfg, w, n);
    var i :| 0 <= i < |w.nodes[n].journal.commits| && w.nodes[n].journal.commits[i] == rec;
    assert CommitBacked(EnvOf(cfg, n), rec, w.nodes[n].journal.accepted);
    var voters := Voters(Upto(w.trace, |w.trace|), PrecommitType, rec.height, rec.round, rec.data);
    forall a | a in rec.precommits ensures a in voters {
      var v := rec.precommits[a];
      assert v in Upto(w.trace, |w.trace|);
    }
    QuorumMono(cfg.committee(rec.height), rec.precommits.Keys, voters);
  }

  /** Behind a precommit quorum there is a polka for the same data in the same round. */
  lemma QuorumHasPolka(cfg: Config, w: World, h: int, r: int, d: ProposedData)
    requires ValidConfig(cfg) && WorldInv(cfg, w) && FewByzantine(cfg.committee(h), cfg.honest)
    requires d != NIL && Quorate(cfg, w, PrecommitType, h, r, d)
    ensures Quorate(cfg, w, PrevoteType, h, r, d)
  {
    var voters := Voters(Upto(w.trace, |w.trace|), PrecommitType, h, r, d);
    var p := CommonHonest(cfg, h, voters, voters);
    var at, i := HonestEntry(w, |w.trace|, p, PrecommitType, h, r, d);
    NodeDisciplined(cfg, w, p);
    var s := w.nodes[p].journal.sent[i];
    assert Backed(EnvOf(cfg, p), s);
    assert Upto(w.trace, at) <= Upto(w.trace, |w.trace|);
    PolkaMono(cfg.committee(h), s.seen, Upto(w.trace, |w.trace|), h, r, d);
  }

  /** Two precommit quorums of one round are for the same data. */
  lemma OneQuorumPerRound(cfg: Config, w: World, h: int, r: int, d: ProposedData, other: ProposedData)
    requires ValidConfig(cfg) && WorldInv(cfg, w) && FewByzantine(cfg.committee(h), cfg.honest)
    requires Quorate(cfg, w, PrecommitType, h, r, d) && Quorate(cfg, w, PrecommitType, h, r, other)
    ensures d == other
  {
    var all := Upto(w.trace, |w.trace|);
    var p := CommonHonest(cfg, h, Voters(all, PrecommitType, h, r, d), Voters(all, PrecommitType, h, r, other));
    NodeDisciplined(cfg, w, p);
    OneVoteEach(w, p, PrecommitType, h, r, d, other);
  }

  /** An honest node votes once: a voter for two data voted for the same. */
  lemma OneVoteEach(w: World, p: PubKey, kind: VoteType, h: int, r: int, d: ProposedData, other: ProposedData)
    requires TraceAccounted(w) && p in w.nodes && Increasing(w.nodes[p].journal.sent)
    requires p in Voters(Upto(w.trace, |w.trace|), kind, h, r, d) * Voters(Upto(w.trace, |w.trace|), kind, h, r, other)
    ensures d == other
  {
    var _, i := HonestEntry(w, |w.trace|, p, kind, h, r, d);
    var _, j := HonestEntry(w, |w.trace|, p, kind, h, r, other);
    OneVotePerPosition(w.nodes[p].journal.sent, i, j);
  }

  lemma OneVotePerPosition(sent: seq<Sent>, i: nat, j: nat)
    requires Increasing(sent) && i < |sent| && j < |sent|
    ensures VotePosition(sent[i].vote) == VotePosition(sent[j].vote) ==> sent[i] == sent[j]
  {
    assert i < j ==> Before(VotePosition(sent[i].vote), VotePosition(sent[j].vote));
    assert j < i ==> Before(VotePosition(sent[j].vote), VotePosition(sent[i].vote));
  }

  lemma QuorumsAgree(cfg: Config, w: World, h: int, r: int, d: ProposedData, later: int, other: ProposedData)
    requires ValidConfig(cfg) && WorldInv(cfg, w) && FewByzantine(cfg.committee(h), cfg.honest)
    requires d != NIL && other != NIL && r <= later
    requires Quorate(cfg, w, PrecommitType, h, r, d) && Quorate(cfg, w, PrecommitType, h, later, other)
    ensures d == other
  {
    if r == later {
      OneQuorumPerRound(cfg, w, h, r, d, other);
    } else if d != other {
      NoPolkaAgainst(cfg, w, h, r, d, |w.trace|);
      assert !Polka(cfg.committee(h), Upto(w.trace, |w.trace|), h, later, other);
      QuorumHasPolka(cfg, w, h, later, other);
    }
  }

  lemma CommitsAgree(cfg: Config, w: World, a: PubKey, x: CommitRecord, b: PubKey, y: CommitRecord)
    requires ValidConfig(cfg) && WorldInv(cfg, w) && Committed(w, a, x) && Committed(w, b, y)
    requires x.height == y.height && FewByzantine(cfg.committee(x.height), cfg.honest)
    ensures x.data == y.data
  {
    CommitIsQuorate(cfg, w, a, x);
    CommitIsQuorate(cfg, w, b, y);
    if x.round <= y.round {
      QuorumsAgree(cfg, w, x.height, x.round, x.data, y.round, y.data);
    } else {
      QuorumsAgree(cfg, w, x.height, y.round, y.data, x.round, x.data);
    }
  }

  /** Agreement: in every run, no two honest nodes commit different data at the same height, in
      whatever rounds they commit, if at most a third of that height's power is Byzantine. */
  lemma Agreement(cfg: Config, w: World)
    requires Reachable(cfg, w)
    ensures forall a, x, b, y ::
      (Committed(w, a, x) && Committed(w, b, y) && x.height == y.height
       && FewByzantine(cfg.committee(x.height), cfg.honest)) ==> x.data == y.data
  {
    ReachableInv(cfg, w);
    forall a, x, b, y | Committed(w, a, x) && Committed(w, b, y) && x.height == y.height
      && FewByzantine(cfg.committee(x.height), cfg.honest)
      ensures x.data == y.data
    {
      CommitsAgree(cfg, w, a, x, b, y);
    }
  }

  // ---- the chain of commits -----------------------------------------------------------

  /** One commit as the application sees it: its height, the data it builds on and its data. */
  datatype Block = Block(height: int, prev: ProposedData, data: ProposedData)

  ghost function Log(commits: seq<CommitRecord>): (log: seq<Block>)
    ensures |log| == |commits|
    ensures forall i :: 0 <= i < |log| ==> log[i] == Block(commits[i].height, commits[i].prev, commits[i].data)
  {
    seq(|commits|, i requires 0 <= i < |commits| => Block(commits[i].height, commits[i].prev, commits[i].data))
  }

  ghost predicate IsChain(start: AppState, log: seq<Block>) {
    forall i :: 0 <= i < |log| ==> IsNext(start, log, i)
  }

  ghost predicate IsNext(start: AppState, log: seq<Block>, i: nat)
    requires i < |log|
  {
    log[i].height == start.lastHeight + 1 + i && log[i].prev == if i == 0 then start.lastProposedData else log[i - 1].data
  }

  /** The commits of an honest node are of consecutive heights from its start, each built on the data
      of the one before. */
  lemma LogIsChain(cfg: Config, w: World, a: PubKey)
    requires Reachable(cfg, w) && a in w.nodes
    ensures IsChain(cfg.genesis(a), Log(w.nodes[a].journal.commits))
  {
    ReachableInv(cfg, w);
    assert NodeOk(cfg, w, a);
    var commits := w.nodes[a].journal.commits;
    forall i | 0 <= i < |commits| ensures IsNext(cfg.genesis(a), Log(commits), i) {
      assert Linked(cfg.genesis(a), commits, i);
    }
  }

  lemma SameBlock(start: AppState, x: seq<Block>, y: seq<Block>, i: nat)
    requires IsChain(start, x) && IsChain(start, y) && i < |x| && i < |y|
    requires forall k :: 0 <= k <= i ==> x[k].data == y[k].data
    ensures x[i] == y[i]
  {
    assert IsNext(start, x, i) && IsNext(start, y, i);
    if i > 0 {
      assert x[i - 1].data == y[i - 1].data;
    }
  }

  lemma SameData(cfg: Config, w: World, a: PubKey, b: PubKey, i: nat)
    requires Reachable(cfg, w) && a in w.nodes && b in w.nodes && cfg.genesis(a) == cfg.genesis(b)
    requires forall h :: FewByzantine(cfg.committee(h), cfg.honest)
    requires i < |w.nodes[a].journal.commits| && i < |w.nodes[b].journal.commits|
    ensures w.nodes[a].journal.commits[i].data == w.nodes[b].journal.commits[i].data
  {
    LogIsChain(cfg, w, a);
    LogIsChain(cfg, w, b);
    var x, y := w.nodes[a].journal.commits[i], w.nodes[b].journal.commits[i];
    assert IsNext(cfg.genesis(a), Log(w.nodes[a].journal.commits), i);
    assert IsNext(cfg.genesis(a), Log(w.nodes[b].journal.commits), i);
    assert Committed(w, a, x) && Committed(w, b, y);
    Agreement(cfg, w);
  }

  /** One chain: the logs of two honest nodes that started from the same application state are
      prefixes of one another, if at most a third of the power of each height is Byzantine. */
  lemma LogsArePrefixes(cfg: Config, w: World, a: PubKey, b: PubKey)
    requires Reachable(cfg, w) && a in w.nodes && b in w.nodes && cfg.genesis(a) == cfg.genesis(b)
    requires forall h :: FewByzantine(cfg.committee(h), cfg.honest)
    requires |w.nodes[a].journal.commits| <= |w.nodes[b].journal.commits|
    ensures Log(w.nodes[a].journal.commits) <= Log(w.nodes[b].journal.commits)
  {
    var x, y := Log(w.nodes[a].journal.commits), Log(w.nodes[b].journal.commits);
    LogIsChain(cfg, w, a);
    LogIsChain(cfg, w, b);
    forall i | 0 <= i < |x| ensures x[i].data == y[i].data {
      SameData(cfg, w, a, b, i);
    }
    forall i | 0 <= i < |x| ensures x[i] == y[i] {
      SameBlock(cfg.genesis(a), x, y, i);
    }
  }

  // ---- validity -----------------------------------------------------------------------

  /** During the run the application of honest `p` approved `d` for the height, and `p` signed a prevote
      for it. */
  ghost predicate ApprovedBy(run: seq<Event>, w: World, p: PubKey, h: int, d: ProposedData) {
    && ValidatedIn(run, p, h, d) && p in w.nodes
    && exists i :: 0 <= i < |w.nodes[p].journal.sent| && PrevoteFor(w.nodes[p].journal.sent[i].vote, h, d)
  }

  ghost predicate PrevoteFor(v: Vote, h: int, d: ProposedData) {
    v.kind == PrevoteType && v.height == h && v.proposed == d
  }

  /** The earliest honest prevote for data was approved: a lock would need an earlier polka, and a
      polka an earlier honest prevote. */
  lemma {:induction false} EarliestApproved(cfg: Config, run: seq<Event>, w: World, h: int, r: int, d: ProposedData, k: nat)
    returns (p: PubKey)
    requires ValidConfig(cfg) && WorldInv(cfg, w) && Answered(run, w) && FewByzantine(cfg.committee(h), cfg.honest)
    requires d != NIL && k <= |w.trace| && Polka(cfg.committee(h), Upto(w.trace, k), h, r, d)
    ensures p in cfg.honest && ApprovedBy(run, w, p, h, d)
    decreases k
  {
    var voters := Voters(Upto(w.trace, k), PrevoteType, h, r, d);
    p := CommonHonest(cfg, h, voters, voters);
    var at, i := HonestEntry(w, k, p, PrevoteType, h, r, d);
    NodeDisciplined(cfg, w, p);
    var s := w.nodes[p].journal.sent[i];
    assert Grounded(EnvOf(cfg, p), w.nodes[p].journal.approved, s);
    if (h, d) in w.nodes[p].journal.approved {
      assert PrevoteFor(w.nodes[p].journal.sent[i].vote, h, d);
    } else {
      var r' :| Polka(cfg.committee(h), s.seen, h, r', d);
      PolkaMono(cfg.committee(h), s.seen, Upto(w.trace, at), h, r', d);
      p := EarliestApproved(cfg, run, w, h, r', d, at);
    }
  }

  /** External validity: whatever an honest node commits was approved, during the run, by the
      application of some honest validator that prevoted it. */
  lemma ExternalValidity(cfg: Config, run: seq<Event>, w: World, a: PubKey, rec: CommitRecord) returns (p: PubKey)
    requires LeadsTo(cfg, run, w) && Committed(w, a, rec) && FewByzantine(cfg.committee(rec.height), cfg.honest)
    ensures p in cfg.honest && ApprovedBy(run, w, p, rec.height, rec.data)
  {
    LeadsToInv(cfg, run, w);
    CommitIsQuorate(cfg, w, a, rec);
    QuorumHasPolka(cfg, w, rec.height, rec.round, rec.data);
    p := EarliestApproved(cfg, run, w, rec.height, rec.round, rec.data, |w.trace|);
  }
}
