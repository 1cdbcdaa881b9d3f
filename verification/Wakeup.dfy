/**
  The machine together with its ticker.  The ticker silently drops ticks that are not newer and the
  timeouts that ring may overtake each other, yet the machine is never left waiting for a clock that
  will not ring.
*/
module Wakeup {
  import opened Votes
  import opened Executor
  import opened Machine
  import opened NodeInvariant
  import opened NodeSteps
  import opened Transitions
  import opened Commits
  import opened Events
  import opened Ticker

  /** `read`: how many of the ticks the machine scheduled the ticker has taken up. */
  datatype Process = Process(node: Node, read: nat, ticker: TickerState)

  datatype Input =
    | Deliver(event: Event)      // a message, a vote or a block
    | ReadTick                   // the ticker takes the next scheduled tick
    | TimerExpires
    | DeliverTock(tock: Timeout)

  predicate CanTake(p: Process, i: Input) {
    match i
    case Deliver(ev) => !ev.TimedOut?
    case ReadTick => p.read < |p.node.ticks|
    case TimerExpires => p.ticker.armed
    case DeliverTock(t) => t in p.ticker.tocks
  }

  function Take(c: Config, e: Env, p: Process, i: Input): Process
    requires CanTake(p, i)
  {
    match i
    case Deliver(ev) => p.(node := Step(c, e, p.node, ev))
    case ReadTick => p.(read := p.read + 1, ticker := TakeTick(p.ticker, p.node.ticks[p.read]))
    case TimerExpires => p.(ticker := Ring(p.ticker))
    case DeliverTock(t) =>
      Process(Step(c, e, p.node, TimedOut(t)), p.read, p.ticker.(tocks := p.ticker.tocks - {t}))
  }

  /** The process as NewConsensusState and OnStart leave it. */
  function Launch(st: ChainState, store: seq<Stored>, heard: set<Vote>): Process {
    Process(StartNode(st, store, heard), 0, IDLE)
  }

  predicate Behind(t: Timeout, s: Node) {
    Less(At(t), Position(s))
  }

  ghost predicate Wound(g: ChainState, c: Config, p: Process) {
    && Ready(g, c, p.node)
    && p.read <= |p.node.ticks|
    && (forall i :: 0 <= i < p.read ==> AtMost(At(p.node.ticks[i]), At(p.ticker.ti)))
    && (p.ticker.ti.step == 0 ==> p.ticker == IDLE && p.read == 0)
    && (p.ticker.ti.step != 0 ==> p.ticker.ti in p.node.ticks)
    && (forall t :: t in p.ticker.tocks ==> t in p.node.ticks)
    && (p.ticker.ti.step == 0 || p.ticker.armed || p.ticker.ti in p.ticker.tocks || p.node.failed
       || Behind(p.ticker.ti, p.node))
  }

  /** Scheduled but not yet read, armed, or on its way to the machine. */
  predicate Pending(p: Process, t: Timeout)
    requires p.read <= |p.node.ticks|
  {
    t in p.node.ticks[p.read..] || (p.ticker.armed && t == p.ticker.ti) || t in p.ticker.tocks
  }

  /** The timeout the machine needs to get on, if it needs one. */
  predicate WaitsFor(s: Node, step: int) {
    || (step == s.step && step in {NEW_HEIGHT, PROPOSE, PREVOTE_WAIT})
    || (step == PRECOMMIT_WAIT && s.triggeredTimeoutPrecommit && s.step < COMMIT)
  }

  lemma StepKeepsWound(g: ChainState, c: Config, e: Env, p: Process, ev: Event, ticker: TickerState)
    requires Wound(g, c, p) && (ev.TimedOut? ==> ev.timeout in p.node.ticks)
    requires ticker == p.ticker || (ev.TimedOut? && ev.timeout in p.ticker.tocks
                                    && ticker == p.ticker.(tocks := p.ticker.tocks - {ev.timeout}))
    ensures Wound(g, c, Process(Step(c, e, p.node, ev), p.read, ticker))
  {
    hide Inv, Fresh, Rung, Step, Trusts, Carried, Judged;
    StepOk(g, c, e, p.node, ev);
    var t := Step(c, e, p.node, ev);
    assert p.node.ticks <= t.ticks;
    forall x | x in p.node.ticks ensures x in t.ticks {
      var i :| 0 <= i < |p.node.ticks| && p.node.ticks[i] == x;
      assert t.ticks[i] == x;
    }
    assert forall i :: 0 <= i < p.read ==> t.ticks[i] == p.node.ticks[i];
    if p.node.failed {
      FailedStays(c, e, p.node, ev);
    } else if ev.TimedOut? {
      TimeoutPasses(g, c, e, p.node, ev.timeout);
    }
  }

  lemma FailedStays(c: Config, e: Env, s: Node, ev: Event)
    requires s.failed
    ensures Step(c, e, s, ev) == s
  {
  }

  /** Handling a timeout the machine scheduled leaves the machine past it, unless a majority is for an invalid block. */
  lemma TimeoutPasses(g: ChainState, c: Config, e: Env, s: Node, t: Timeout)
    requires Ready(g, c, s) && t in s.ticks
    ensures var u := Step(c, e, s, TimedOut(t));
      && (s.failed || u.failed || Behind(t, u))
      && (!s.failed && Trusts(s) ==> !u.failed && Behind(t, u))
  {
    hide Inv, Trusts, EnterNewRound, EnterPropose, EnterPrecommit, EnterPrevote;
    Facts(g, c, s);
    HandleTimeoutOk(g, c, e, s, t);
    if !s.failed && TimeoutApplies(s, t) {
      hide Moves;
      assert t.height == s.height && t.round == s.round;
      if t.step == NEW_HEIGHT {
        EnterNewRoundOk(g, c, e, s, t.height, 0);
      } else if t.step == PROPOSE {
        PrevoteEntered(c, e, s, t.height, t.round);
      } else if t.step == PREVOTE_WAIT {
        EnterPrecommitOk(g, c, e, s, t.height, t.round);
        PrecommitEntered(c, e, s, t.height, t.round);
      } else {
        PrecommitPasses(g, c, e, s, t.height, t.round);
      }
    }
  }

  lemma PrecommitPasses(g: ChainState, c: Config, e: Env, s: Node, height: nat, round: int)
    requires Ready(g, c, s) && s.height == height && s.round == round
    ensures var u := EnterNewRound(c, e, EnterPrecommit(c, e, s, height, round), height, round + 1);
      u.failed || (u.height == height && u.round == round + 1)
  {
    hide Inv, Moves, EnterNewRound, EnterPrecommit;
    var s1 := EnterPrecommit(c, e, s, height, round);
    EnterPrecommitOk(g, c, e, s, height, round);
    KeepsInv(g, c, s, s1);
    EnterNewRoundOk(g, c, e, s1, height, round + 1);
  }

  lemma PrecommitEntered(c: Config, e: Env, s: Node, height: nat, round: int)
    requires !s.failed && s.height == height && s.round == round && s.step < PRECOMMIT
    ensures var t := EnterPrecommit(c, e, s, height, round); t.failed || t.step == PRECOMMIT
  {
  }

  /** Every input of machine and ticker keeps the two in step. */
  lemma TakeKeepsWound(g: ChainState, c: Config, e: Env, p: Process, i: Input)
    requires Wound(g, c, p) && CanTake(p, i)
    ensures Wound(g, c, Take(c, e, p, i))
  {
    hide Inv, Fresh, Rung, Step;
    match i
    case Deliver(ev) => StepKeepsWound(g, c, e, p, ev, p.ticker);
    case DeliverTock(t) => StepKeepsWound(g, c, e, p, TimedOut(t), p.ticker.(tocks := p.ticker.tocks - {t}));
    case TimerExpires =>
    case ReadTick =>
      TicksAreReal(g, c, p.node);
  }

  lemma TicksAreReal(g: ChainState, c: Config, s: Node)
    requires Ready(g, c, s)
    ensures forall t :: t in s.ticks ==> t.step > 0 && t.round >= 0
  {
    hide ChainOk, LogOk, LockOk, BallotsHeard, RoundOk;
  }

  /** No lost wakeup: whatever the machine waits for, a timeout of its height and round that will do is pending. */
  lemma NoLostWakeup(g: ChainState, c: Config, p: Process, step: int)
    requires Wound(g, c, p) && !p.node.failed && WaitsFor(p.node, step)
    ensures exists t :: Pending(p, t) && t.height == p.node.height && t.round == p.node.round && t.step >= step
  {
    hide Inv, TicksBehind;
    Facts(g, c, p.node);
    var need := Timeout(p.node.height, p.node.round, step);
    assert need in p.node.ticks;
    var i :| 0 <= i < |p.node.ticks| && p.node.ticks[i] == need;
    if i >= p.read {
      assert p.node.ticks[p.read..][i - p.read] == need;
      assert Pending(p, need);
    } else {
      var ti := p.ticker.ti;
      assert AtMost(At(need), At(ti));
      assert ti in p.node.ticks;
      NothingAhead(g, c, p.node, ti);
      assert Pending(p, ti);
    }
  }

  lemma NothingAhead(g: ChainState, c: Config, s: Node, t: Timeout)
    requires Ready(g, c, s) && t in s.ticks
    ensures t.height < s.height || (t.height == s.height && t.round <= s.round)
  {
    hide ChainOk, LogOk, LockOk, BallotsHeard, RoundOk;
  }

  /** A timeout that is acted on is for exactly the height and round the machine is at. */
  lemma ActsOnOwnRound(g: ChainState, c: Config, p: Process, t: Timeout)
    requires Wound(g, c, p) && t in p.ticker.tocks && TimeoutApplies(p.node, t)
    ensures t.height == p.node.height && t.round == p.node.round && t.step >= p.node.step
  {
    NothingAhead(g, c, p.node, t);
  }

  /** Handling any pending timeout that would do takes the machine forward. */
  lemma HandlingAdvances(g: ChainState, c: Config, e: Env, p: Process, t: Timeout, step: int)
    requires Wound(g, c, p) && !p.node.failed && WaitsFor(p.node, step)
    requires t in p.ticker.tocks && t.height == p.node.height && t.round == p.node.round && t.step >= step
    ensures var u := Step(c, e, p.node, TimedOut(t));
      && (u.failed || Less(Position(p.node), Position(u)))
      && (Trusts(p.node) ==> !u.failed && Less(Position(p.node), Position(u)))
  {
    hide Inv, Fresh, Rung, Step;
    TimeoutPasses(g, c, e, p.node, t);
  }
}
