/** The timeout ticker (ticker.go) and a node together with its ticker: no scheduled timeout is
    ever dropped, and one for the node's current step is always on its way. */
module Ticker {
  import opened Messages
  import opened CoreSpec
  import opened CoreInvariant
  import opened CoreSteps
  import opened CoreHandlers

  /** The last accepted timeout and whether the timer is running. */
  datatype TickerState = TickerState(ti: Timeout, armed: bool)

  const IDLE := TickerState(Timeout(0, 0, 0), false)

  /** The acceptance filter of `timeoutRoutine`. */
  predicate Drops(ti: Timeout, newti: Timeout) {
    newti.height < ti.height
    || (newti.height == ti.height &&
        (newti.round < ti.round
         || (newti.round == ti.round && ti.step > 0 &&
             (newti.step < ti.step
              || (newti.step == ti.step && newti.step != PRECOMMIT_FETCH && newti.step != PREVOTE_FETCH)))))
  }

  /** The tick branch of `timeoutRoutine`. */
  function Receive(s: TickerState, newti: Timeout): TickerState {
    if Drops(s.ti, newti) then s else TickerState(newti, true)
  }

  /** The ticker after reading any ticks. */
  function ReceiveAll(ticks: seq<Timeout>): TickerState
    decreases |ticks|
  {
    if ticks == [] then IDLE else Receive(ReceiveAll(ticks[..|ticks| - 1]), ticks[|ticks| - 1])
  }

  /** Whatever ticks arrive, in whatever order, the ticker holds the latest of those it has read, and
      it drops the next one exactly if that is earlier, or the same and not for a fetch step. */
  lemma {:induction false} LatestTickHeld(ticks: seq<Timeout>, next: Timeout)
    requires forall i :: 0 <= i < |ticks| ==> ticks[i].height >= 1 && ticks[i].round >= 0 && ticks[i].step >= 1
    requires next.height >= 1 && next.round >= 0
    ensures forall i :: 0 <= i < |ticks| ==> !Before(ReceiveAll(ticks).ti, ticks[i])
    ensures ticks != [] ==> ReceiveAll(ticks).armed && ReceiveAll(ticks).ti in ticks
    ensures Drops(ReceiveAll(ticks).ti, next) <==> ticks != [] && !Follows(ReceiveAll(ticks).ti, next)
    decreases |ticks|
  {
    if ticks != [] {
      var last := |ticks| - 1;
      var before := ReceiveAll(ticks[..last]);
      LatestTickHeld(ticks[..last], ticks[last]);
      forall i | 0 <= i < last ensures !Before(ReceiveAll(ticks).ti, ticks[i]) {
        assert ticks[..last][i] == ticks[i];
        BeforeTrans(ticks[i], before.ti, ReceiveAll(ticks).ti);
      }
    }
  }

  /** `timeoutTicker`: each method is one branch of the endless `select` loop. */
  class TimeoutTicker {
    var ti: Timeout
    var armed: bool
    var tocks: multiset<Timeout>

    ghost function Value(): TickerState
      reads this
    {
      TickerState(ti, armed)
    }

    constructor ()
      ensures Value() == IDLE && tocks == multiset{}
    {
      ti, armed, tocks := Timeout(0, 0, 0), false, multiset{};
    }

    method OnTick(newti: Timeout)
      modifies this`ti, this`armed
      ensures Value() == Receive(old(Value()), newti)
    {
      if newti.height < ti.height {
        return;
      } else if newti.height == ti.height {
        if newti.round < ti.round {
          return;
        } else if newti.round == ti.round {
          if ti.step > 0 && (newti.step < ti.step ||
              (newti.step == ti.step && newti.step != PRECOMMIT_FETCH && newti.step != PREVOTE_FETCH)) {
            return;
          }
        }
      }
      // stop the old timer, then start the new one
      armed := false;
      ti := newti;
      armed := true;
    }

    /** The running timer expires; the tock is delivered by a goroutine of its own. */
    method OnTimer()
      requires armed
      modifies this`armed, this`tocks
      ensures Value() == old(Value()).(armed := false) && tocks == old(tocks) + multiset{ti}
    {
      armed := false;
      tocks := tocks + multiset{ti};
    }
  }

  // ---- a node with its ticker -----------------------------------------------------------

  /** `taken` ticks of the node's schedule have been read by the ticker; `tocks` are in flight. */
  datatype TimedNode = TimedNode(core: State, taken: nat, ticker: TickerState, tocks: multiset<Timeout>)

  datatype TimedEvent =
    | TakeTick
    | TimerFires
    | TockArrives(timeout: Timeout, replies: Replies)
    | Message(input: Input, replies: Replies)

  ghost predicate Enabled(s: TimedNode, ev: TimedEvent) {
    match ev
    case TakeTick => s.taken < |s.core.journal.ticks|
    case TimerFires => s.ticker.armed
    case TockArrives(ti, rep) => ti in s.tocks && AppReplies(rep) && !s.core.panicked
    case Message(input, rep) => !input.Tock? && AppReplies(rep) && !s.core.panicked
  }

  ghost function Step(e: Env, s: TimedNode, ev: TimedEvent): TimedNode
    requires Enabled(s, ev)
  {
    match ev
    case TakeTick => s.(taken := s.taken + 1, ticker := Receive(s.ticker, s.core.journal.ticks[s.taken]))
    case TimerFires => s.(ticker := s.ticker.(armed := false), tocks := s.tocks + multiset{s.ticker.ti})
    case TockArrives(ti, rep) => s.(core := Handle(e, rep, s.core, Tock(ti)), tocks := s.tocks - multiset{ti})
    case Message(input, rep) => s.(core := Handle(e, rep, s.core, input))
  }

  ghost predicate Legal(e: Env, app: AppState, run: seq<TimedEvent>)
    decreases |run|, 0
  {
    if run == [] then app.lastHeight >= 0
    else Legal(e, app, run[..|run| - 1]) && Enabled(After(e, app, run[..|run| - 1]), run[|run| - 1])
  }

  ghost function After(e: Env, app: AppState, run: seq<TimedEvent>): TimedNode
    requires Legal(e, app, run)
    decreases |run|, 1
  {
    if run == [] then TimedNode(StartState(app), 0, IDLE, multiset{})
    else Step(e, After(e, app, run[..|run| - 1]), run[|run| - 1])
  }

  /** A timeout for exactly the current step is queued, running or in flight. */
  ghost predicate Outstanding(ticks: seq<Timeout>, pos: Timeout, taken: nat, ticker: TickerState, tocks: multiset<Timeout>) {
    || (taken < |ticks| && ticks[|ticks| - 1] == pos)
    || (ticker.armed && ticker.ti == pos)
    || pos in tocks
  }

  /** The ticker holds the last tick it has read, and every tock in flight was a tick. */
  ghost predicate TimerPart(ticks: seq<Timeout>, pos: Timeout, taken: nat, ticker: TickerState, tocks: multiset<Timeout>) {
    && |ticks| > 0 && ticks[0].height >= 1
    && taken <= |ticks|
    && (if taken == 0 then ticker == IDLE else ticker.ti == ticks[taken - 1])
    && (forall t :: t in tocks ==> t in ticks)
    && Outstanding(ticks, pos, taken, ticker, tocks)
  }

  ghost predicate TimedInv(e: Env, s: TimedNode) {
    Inv(e, s.core) && TimerPart(s.core.journal.ticks, Position(s.core), s.taken, s.ticker, s.tocks)
  }

  /** The next tick in the queue passes the filter. */
  lemma NextTickAccepted(ticks: seq<Timeout>, pos: Timeout, taken: nat, ticker: TickerState, tocks: multiset<Timeout>)
    requires TicksPart(ticks, pos) && TimerPart(ticks, pos, taken, ticker, tocks) && taken < |ticks|
    ensures !Drops(ticker.ti, ticks[taken])
  {
    if taken > 0 {
      assert InOrder(ticks, taken);
    }
  }

  lemma TakeTickKeeps(ticks: seq<Timeout>, pos: Timeout, taken: nat, ticker: TickerState, tocks: multiset<Timeout>)
    requires TicksPart(ticks, pos) && LastTickIs(ticks, pos) && TimerPart(ticks, pos, taken, ticker, tocks) && taken < |ticks|
    ensures TimerPart(ticks, pos, taken + 1, Receive(ticker, ticks[taken]), tocks)
  {
    NextTickAccepted(ticks, pos, taken, ticker, tocks);
  }

  lemma TimerKeeps(ticks: seq<Timeout>, pos: Timeout, taken: nat, ticker: TickerState, tocks: multiset<Timeout>)
    requires TimerPart(ticks, pos, taken, ticker, tocks) && ticker.armed
    ensures TimerPart(ticks, pos, taken, ticker.(armed := false), tocks + multiset{ticker.ti})
  {
  }

  /** When the schedule of the node grew, the timeout for its new step is queued. */
  lemma ScheduleGrows(ticks: seq<Timeout>, pos: Timeout, after: seq<Timeout>, later: Timeout,
                      taken: nat, ticker: TickerState, tocks: multiset<Timeout>, fewer: multiset<Timeout>)
    requires TimerPart(ticks, pos, taken, ticker, tocks) && ticks <= after && LastTickIs(after, later) && fewer <= tocks
    requires |after| > |ticks| || Outstanding(after, later, taken, ticker, fewer)
    ensures TimerPart(after, later, taken, ticker, fewer)
  {
    forall t | t in fewer ensures t in after {
      assert t in tocks;
      var i :| 0 <= i < |ticks| && ticks[i] == t;
      assert after[i] == t;
    }
  }

  lemma TockKeeps(e: Env, s: TimedNode, ti: Timeout, ans: Answers, n: State)
    requires TimedInv(e, s) && ti in s.tocks && n == HandleTimeout(e, ans, s.core, ti)
    ensures TimedInv(e, s.(core := n, tocks := s.tocks - multiset{ti}))
  {
    var ticks, pos := s.core.journal.ticks, Position(s.core);
    TimeoutExact(e, s.core, ti);
    if Stale(s.core, ti) {
      ScheduleGrows(ticks, pos, ticks, pos, s.taken, s.ticker, s.tocks, s.tocks - multiset{ti});
    } else {
      CurrentTimeoutOk(e, ans, s.core);
      TimedOutGrows(e, s.core, n);
      ScheduleGrows(ticks, pos, n.journal.ticks, Position(n), s.taken, s.ticker, s.tocks, s.tocks - multiset{ti});
    }
  }

  lemma TimedOutGrows(e: Env, c: State, n: State)
    requires AtRest(c) && TimesOut(e, c, n)
    ensures |n.journal.ticks| > |c.journal.ticks|
  {
    SameTicksSamePosition(c, n);
  }

  lemma SameTicksSamePosition(c: State, n: State)
    requires AtRest(c) && AtRest(n) && Grows(c.journal, n.journal)
    ensures |n.journal.ticks| > |c.journal.ticks| || (Position(n) == Position(c) && n.journal.ticks == c.journal.ticks)
  {
  }

  lemma MessageKeeps(e: Env, s: TimedNode, offered: set<Vote>, n: State)
    requires TimedInv(e, s) && Handled(e, s.core, offered, n)
    ensures TimedInv(e, s.(core := n))
  {
    SameTicksSamePosition(s.core, n);
    ScheduleGrows(s.core.journal.ticks, Position(s.core), n.journal.ticks, Position(n), s.taken, s.ticker, s.tocks, s.tocks);
  }

  lemma StepKeeps(e: Env, s: TimedNode, ev: TimedEvent)
    requires TimedInv(e, s) && Enabled(s, ev)
    ensures TimedInv(e, Step(e, s, ev))
  {
    match ev
    case TakeTick => TakeTickKeeps(s.core.journal.ticks, Position(s.core), s.taken, s.ticker, s.tocks);
    case TimerFires => TimerKeeps(s.core.journal.ticks, Position(s.core), s.taken, s.ticker, s.tocks);
    case TockArrives(ti, rep) => TockKeeps(e, s, ti, rep(0), Handle(e, rep, s.core, Tock(ti)));
    case Message(input, rep) =>
      HandleOk(e, rep, s.core, input);
      MessageKeeps(e, s, Offered(input), Handle(e, rep, s.core, input));
  }

  lemma {:induction false} RunTimedInv(e: Env, app: AppState, run: seq<TimedEvent>)
    requires Legal(e, app, run)
    ensures TimedInv(e, After(e, app, run))
    decreases |run|
  {
    if run == [] {
      StartInv(e, app);
    } else {
      RunTimedInv(e, app, run[..|run| - 1]);
      StepKeeps(e, After(e, app, run[..|run| - 1]), run[|run| - 1]);
    }
  }

  /** No lost timer: in every run of a node with its ticker the ticker never discards a tick, and a
      timeout for exactly the current height, round and step is queued, running or in flight. */
  lemma NoLostTimer(e: Env, app: AppState, run: seq<TimedEvent>)
    requires Legal(e, app, run)
    ensures var s := After(e, app, run);
      && (s.taken < |s.core.journal.ticks| ==> !Drops(s.ticker.ti, s.core.journal.ticks[s.taken]))
      && Outstanding(s.core.journal.ticks, Position(s.core), s.taken, s.ticker, s.tocks)
  {
    RunTimedInv(e, app, run);
    var s := After(e, app, run);
    if s.taken < |s.core.journal.ticks| {
      NextTickAccepted(s.core.journal.ticks, Position(s.core), s.taken, s.ticker, s.tocks);
    }
  }

  /** Every tock in flight is stale or for exactly the current step, and one for the current step
      moves the node on or schedules the same fetch step again. */
  lemma TockIsExact(e: Env, app: AppState, run: seq<TimedEvent>, ti: Timeout, ans: Answers)
    requires Legal(e, app, run) && ti in After(e, app, run).tocks
    ensures var c := After(e, app, run).core;
      if Stale(c, ti) then HandleTimeout(e, ans, c, ti) == c
      else
        var n := HandleTimeout(e, ans, c, ti);
        && ti == Position(c)
        && (Before(Position(c), Position(n)) || (IsFetch(c.step) && n.journal.ticks == c.journal.ticks + [ti]))
  {
    RunTimedInv(e, app, run);
    var c := After(e, app, run).core;
    TimeoutExact(e, c, ti);
    CurrentTimeoutOk(e, ans, c);
  }
}
