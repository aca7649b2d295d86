/** Many nodes over an unreliable network.  The trace lists every vote ever signed, in the order
    of signing; honest nodes are driven by the handlers of the core, everyone else signs at will. */
module Network {
  import opened Messages
  import opened Committees
  import opened Tallies
  import opened HeightVotes
  import opened CoreSpec
  import opened CoreInvariant
  import opened CoreSteps
  import opened CoreHandlers
  import opened CoreApprovals

  datatype Config = Config(
    committee: int -> Committee,
    honest: set<PubKey>,
    sign: Vote -> nat,
    signReq: FetchVotesReq -> nat,
    signRsp: FetchVotesRsp -> nat,
    skipTimeoutCommit: PubKey -> bool,
    genesis: PubKey -> AppState)

  datatype World = World(nodes: map<PubKey, State>, trace: seq<Vote>)

  datatype Event =
    | ByzantineVote(vote: Vote)
    | Deliver(node: PubKey, input: Input, replies: Replies)

  ghost function EnvOf(cfg: Config, n: PubKey): Env {
    Env(cfg.committee, n, cfg.sign, cfg.signReq, cfg.signRsp, cfg.skipTimeoutCommit(n))
  }

  ghost predicate ValidConfig(cfg: Config) {
    && (forall h :: ValidCommittee(cfg.committee(h)))
    && (forall n :: n in cfg.honest ==> cfg.genesis(n).lastHeight >= 0)
  }

  ghost function InitWorld(cfg: Config): World {
    World(map n | n in cfg.honest :: StartState(cfg.genesis(n)), [])
  }

  /** The votes among the first `k` of the trace. */
  ghost function Upto(trace: seq<Vote>, k: nat): set<Vote>
    requires k <= |trace|
  {
    set v | v in trace[..k]
  }

  /** The signature oracle: a vote that verifies was signed by its address before.  Messages may be
      delayed, lost, repeated, reordered or made up otherwise. */
  ghost predicate Signed(cfg: Config, trace: seq<Vote>, offered: set<Vote>) {
    forall v :: v in offered && Verified(cfg.committee(v.height), v) ==> v in trace
  }

  ghost predicate Enabled(cfg: Config, w: World, ev: Event) {
    match ev
    case ByzantineVote(v) => v.address !in cfg.honest
    case Deliver(n, input, rep) =>
      && n in cfg.honest && n in w.nodes && !w.nodes[n].panicked
      && Admissible(w.nodes[n], rep, input)
      && Signed(cfg, w.trace, Offered(input))
  }

  /** The votes signed from position `k` of a journal on. */
  ghost function SignedSince(sent: seq<Sent>, k: nat): seq<Vote>
    requires k <= |sent|
  {
    seq(|sent| - k, i requires 0 <= i < |sent| - k => sent[k + i].vote)
  }

  ghost function Next(cfg: Config, w: World, ev: Event): World
    requires Enabled(cfg, w, ev)
  {
    match ev
    case ByzantineVote(v) => World(w.nodes, w.trace + [v])
    case Deliver(n, input, rep) =>
      var c := w.nodes[n];
      var m := Handle(EnvOf(cfg, n), rep, c, input);
      if |c.journal.sent| <= |m.journal.sent|
      then World(w.nodes[n := m], w.trace + SignedSince(m.journal.sent, |c.journal.sent|))
      else World(w.nodes[n := m], w.trace)
  }

  /** A run of the network. */
  ghost predicate Legal(cfg: Config, run: seq<Event>)
    decreases |run|, 0
  {
    run == [] || (Legal(cfg, run[..|run| - 1]) && Enabled(cfg, After(cfg, run[..|run| - 1]), run[|run| - 1]))
  }

  ghost function After(cfg: Config, run: seq<Event>): World
    requires Legal(cfg, run)
    decreases |run|, 1
  {
    if run == [] then InitWorld(cfg)
    else Next(cfg, After(cfg, run[..|run| - 1]), run[|run| - 1])
  }

  // ---- invariant ----------------------------------------------------------------------

  /** An entry of a journal accounts for the vote at position `k` of the trace, and everything the
      signer had accepted by then is earlier in the trace. */
  ghost predicate Accounts(s: Sent, trace: seq<Vote>, k: nat)
    requires k < |trace|
  {
    s.vote == trace[k] && s.seen <= Upto(trace, k)
  }

  ghost predicate Accounted(sent: seq<Sent>, trace: seq<Vote>, k: nat)
    requires k < |trace|
  {
    exists i :: 0 <= i < |sent| && Accounts(sent[i], trace, k)
  }

  ghost predicate NodeOk(cfg: Config, w: World, n: PubKey)
    requires n in w.nodes
  {
    && Inv(EnvOf(cfg, n), w.nodes[n])
    && w.nodes[n].journal.accepted <= Upto(w.trace, |w.trace|)
    && w.nodes[n].journal.start == cfg.genesis(n)
  }

  ghost predicate WorldInv(cfg: Config, w: World) {
    && w.nodes.Keys == cfg.honest
    && (forall n :: n in w.nodes ==> NodeOk(cfg, w, n))
    && TraceAccounted(w)
  }

  /** Every vote in the trace under the name of a node is in that node's journal. */
  ghost predicate TraceAccounted(w: World) {
    forall k :: 0 <= k < |w.trace| && w.trace[k].address in w.nodes ==>
      Accounted(w.nodes[w.trace[k].address].journal.sent, w.trace, k)
  }

  lemma UptoGrows(trace: seq<Vote>, more: seq<Vote>, k: nat)
    requires k <= |trace|
    ensures Upto(trace, k) == Upto(trace + more, k)
    ensures Upto(trace, k) <= Upto(trace + more, |trace + more|)
  {
    assert (trace + more)[..k] == trace[..k];
    assert (trace + more)[..|trace + more|] == trace + more;
  }

  /** What was accounted for stays accounted for when journal and trace grow. */
  lemma AccountedGrows(sent: seq<Sent>, later: seq<Sent>, trace: seq<Vote>, more: seq<Vote>, k: nat)
    requires k < |trace| && Accounted(sent, trace, k) && sent <= later
    ensures Accounted(later, trace + more, k)
  {
    var i :| 0 <= i < |sent| && Accounts(sent[i], trace, k);
    UptoGrows(trace, more, k);
    assert later[i] == sent[i] && Accounts(later[i], trace + more, k);
  }

  /** A newly signed vote is accounted for by its own entry. */
  lemma NewAccounted(sent: seq<Sent>, from: nat, trace: seq<Vote>, k: nat)
    requires from <= |sent| && |trace| <= k < |trace| + (|sent| - from)
    requires sent[from + (k - |trace|)].seen <= Upto(trace, |trace|)
    ensures Accounted(sent, trace + SignedSince(sent, from), k)
  {
    var all := trace + SignedSince(sent, from);
    var i := from + (k - |trace|);
    assert all[..|trace|] == trace[..|trace|];
    forall v | v in Upto(trace, |trace|) ensures v in Upto(all, k) {
      var j :| 0 <= j < |trace| && trace[j] == v;
      assert all[..k][j] == v;
    }
    assert Accounts(sent[i], all, k);
  }

  lemma InitInv(cfg: Config)
    requires ValidConfig(cfg)
    ensures WorldInv(cfg, InitWorld(cfg))
  {
    forall n | n in cfg.honest ensures Inv(EnvOf(cfg, n), StartState(cfg.genesis(n))) {
      StartInv(EnvOf(cfg, n), cfg.genesis(n));
    }
  }

  lemma ByzantineKeeps(cfg: Config, w: World, v: Vote)
    requires WorldInv(cfg, w) && v.address !in cfg.honest
    ensures WorldInv(cfg, World(w.nodes, w.trace + [v]))
  {
    var u := World(w.nodes, w.trace + [v]);
    forall n | n in u.nodes ensures NodeOk(cfg, u, n) {
      assert NodeOk(cfg, w, n);
      UptoGrows(w.trace, [v], |w.trace|);
    }
    forall k | 0 <= k < |u.trace| && u.trace[k].address in u.nodes
      ensures Accounted(u.nodes[u.trace[k].address].journal.sent, u.trace, k)
    {
      assert u.trace[k] == w.trace[k];
      var sent := w.nodes[w.trace[k].address].journal.sent;
      AccountedGrows(sent, sent, w.trace, [v], k);
    }
  }

  /** Everything accepted after a delivery was signed before it. */
  lemma AcceptedSigned(cfg: Config, w: World, n: PubKey, input: Input, m: State)
    requires n in w.nodes && NodeOk(cfg, w, n) && Signed(cfg, w.trace, Offered(input))
    requires Handled(EnvOf(cfg, n), w.nodes[n], Offered(input), m)
    ensures m.journal.accepted <= Upto(w.trace, |w.trace|)
  {
    assert w.trace[..|w.trace|] == w.trace;
  }

  lemma DeliveryAccounted(w: World, n: PubKey, m: State, k: nat)
    requires TraceAccounted(w) && n in w.nodes && w.nodes[n].journal.sent <= m.journal.sent
    requires forall i :: 0 <= i < |m.journal.sent| ==>
      m.journal.sent[i].vote.address == n && m.journal.sent[i].seen <= Upto(w.trace, |w.trace|)
    requires var trace := w.trace + SignedSince(m.journal.sent, |w.nodes[n].journal.sent|);
      k < |trace| && trace[k].address in w.nodes
    ensures var trace := w.trace + SignedSince(m.journal.sent, |w.nodes[n].journal.sent|);
      Accounted(w.nodes[n := m][trace[k].address].journal.sent, trace, k)
  {
    var from := |w.nodes[n].journal.sent|;
    var more := SignedSince(m.journal.sent, from);
    var trace := w.trace + more;
    if k < |w.trace| {
      var a := w.trace[k].address;
      assert trace[k] == w.trace[k];
      AccountedGrows(w.nodes[a].journal.sent, if a == n then m.journal.sent else w.nodes[a].journal.sent, w.trace, more, k);
    } else {
      var i := from + (k - |w.trace|);
      assert trace[k] == m.journal.sent[i].vote;
      NewAccounted(m.journal.sent, from, w.trace, k);
    }
  }

  lemma OwnEntries(e: Env, j: Journal, signed: set<Vote>)
    requires Disciplined(e, j) && j.accepted <= signed
    ensures forall i :: 0 <= i < |j.sent| ==> j.sent[i].vote.address == e.self && j.sent[i].seen <= signed
  {
  }

  lemma DeliveryKeeps(cfg: Config, w: World, n: PubKey, input: Input, rep: Replies)
    requires WorldInv(cfg, w) && Enabled(cfg, w, Deliver(n, input, rep))
    ensures WorldInv(cfg, Next(cfg, w, Deliver(n, input, rep)))
  {
    var c := w.nodes[n];
    var e := EnvOf(cfg, n);
    assert NodeOk(cfg, w, n);
    HandleOk(e, rep, c, input);
    DeliveredKeeps(cfg, w, n, input, Handle(e, rep, c, input));
  }

  lemma DeliveredKeeps(cfg: Config, w: World, n: PubKey, input: Input, m: State)
    requires WorldInv(cfg, w) && n in w.nodes && Signed(cfg, w.trace, Offered(input))
    requires Handled(EnvOf(cfg, n), w.nodes[n], Offered(input), m)
    ensures |w.nodes[n].journal.sent| <= |m.journal.sent|
    ensures WorldInv(cfg, World(w.nodes[n := m], w.trace + SignedSince(m.journal.sent, |w.nodes[n].journal.sent|)))
  {
    var from := |w.nodes[n].journal.sent|;
    var more := SignedSince(m.journal.sent, from);
    var u := World(w.nodes[n := m], w.trace + more);
    assert NodeOk(cfg, w, n);
    AcceptedSigned(cfg, w, n, input, m);
    OwnEntries(EnvOf(cfg, n), m.journal, Upto(w.trace, |w.trace|));
    UptoGrows(w.trace, more, |w.trace|);
    forall a | a in u.nodes ensures NodeOk(cfg, u, a) {
      assert a in w.nodes && NodeOk(cfg, w, a);
    }
    forall k | 0 <= k < |u.trace| && u.trace[k].address in u.nodes
      ensures Accounted(u.nodes[u.trace[k].address].journal.sent, u.trace, k)
    {
      DeliveryAccounted(w, n, m, k);
    }
    assert u.nodes.Keys == w.nodes.Keys;
  }

  /** The invariant holds after every run of the network. */
  lemma {:induction false} RunInv(cfg: Config, run: seq<Event>)
    requires ValidConfig(cfg) && Legal(cfg, run)
    ensures WorldInv(cfg, After(cfg, run))
    decreases |run|
  {
    if run == [] {
      InitInv(cfg);
    } else {
      var before, ev := After(cfg, run[..|run| - 1]), run[|run| - 1];
      RunInv(cfg, run[..|run| - 1]);
      match ev
      case ByzantineVote(v) => ByzantineKeeps(cfg, before, v);
      case Deliver(n, input, rep) => DeliveryKeeps(cfg, before, n, input, rep);
    }
  }

  /** The worlds some run of the network leads to. */
  ghost predicate Reachable(cfg: Config, w: World) {
    ValidConfig(cfg) && exists run :: Legal(cfg, run) && After(cfg, run) == w
  }

  lemma ReachableInv(cfg: Config, w: World)
    requires Reachable(cfg, w)
    ensures WorldInv(cfg, w)
  {
    var run :| Legal(cfg, run) && After(cfg, run) == w;
    RunInv(cfg, run);
  }

  // ---- what the applications approved ---------------------------------------------------

  /** While some input of the run was handled at `n`, its application approved `d` for height `h`. */
  ghost predicate ValidatedIn(run: seq<Event>, n: PubKey, h: int, d: ProposedData) {
    exists k :: 0 <= k < |run| && run[k].Deliver? && run[k].node == n && Validates(run[k].replies, h, d)
  }

  /** Whatever the nodes note as approved, their applications approved during the run. */
  ghost predicate Answered(run: seq<Event>, w: World) {
    forall n, h, d :: n in w.nodes && (h, d) in w.nodes[n].journal.approved ==> ValidatedIn(run, n, h, d)
  }

  lemma ValidatedLater(run: seq<Event>, n: PubKey, h: int, d: ProposedData)
    requires run != [] && ValidatedIn(run[..|run| - 1], n, h, d)
    ensures ValidatedIn(run, n, h, d)
  {
    var before := run[..|run| - 1];
    var k :| 0 <= k < |before| && before[k].Deliver? && before[k].node == n && Validates(before[k].replies, h, d);
    assert run[k] == before[k];
  }

  lemma AnswersDelivered(cfg: Config, run: seq<Event>, w: World)
    requires run != [] && Answered(run[..|run| - 1], w) && Enabled(cfg, w, run[|run| - 1])
    ensures Answered(run, Next(cfg, w, run[|run| - 1]))
  {
    var ev := run[|run| - 1];
    var u := Next(cfg, w, ev);
    forall n, h, d | n in u.nodes && (h, d) in u.nodes[n].journal.approved ensures ValidatedIn(run, n, h, d) {
      if n in w.nodes && (h, d) in w.nodes[n].journal.approved {
        ValidatedLater(run, n, h, d);
      } else {
        NewlyAnswered(cfg, w, ev, n, h, d);
      }
    }
  }

  lemma NewlyAnswered(cfg: Config, w: World, ev: Event, n: PubKey, h: int, d: ProposedData)
    requires Enabled(cfg, w, ev) && n in Next(cfg, w, ev).nodes && (h, d) in Next(cfg, w, ev).nodes[n].journal.approved
    requires n in w.nodes ==> (h, d) !in w.nodes[n].journal.approved
    ensures ev.Deliver? && ev.node == n && Validates(ev.replies, h, d)
  {
    if ev.Deliver? {
      HandleApproves(EnvOf(cfg, ev.node), ev.replies, w.nodes[ev.node], ev.input,
                     Handle(EnvOf(cfg, ev.node), ev.replies, w.nodes[ev.node], ev.input));
    }
  }

  lemma {:induction false} RunAnswered(cfg: Config, run: seq<Event>)
    requires Legal(cfg, run)
    ensures Answered(run, After(cfg, run))
    decreases |run|
  {
    if run != [] {
      RunAnswered(cfg, run[..|run| - 1]);
      AnswersDelivered(cfg, run, After(cfg, run[..|run| - 1]));
    }
  }

  /** The run leads to this world. */
  ghost predicate LeadsTo(cfg: Config, run: seq<Event>, w: World) {
    ValidConfig(cfg) && Legal(cfg, run) && After(cfg, run) == w
  }

  lemma LeadsToInv(cfg: Config, run: seq<Event>, w: World)
    requires LeadsTo(cfg, run, w)
    ensures WorldInv(cfg, w) && Answered(run, w)
  {
    RunInv(cfg, run);
    RunAnswered(cfg, run);
  }
}
