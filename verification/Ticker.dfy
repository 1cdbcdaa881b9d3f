/** The timeout ticker: one timer, armed only for a later (height, round, step) than the last one. */
module Ticker {
  import opened Machine
  import opened NodeInvariant

  function At(t: Timeout): Pos {
    Pos(t.height, t.round, t.step)
  }

  /** `ti` starts as the zero value; `armed` also covers an expired timer whose channel is unread;
      `tocks` are the timeouts on their way to the machine, in no particular order. */
  datatype TickerState = TickerState(ti: Timeout, armed: bool, tocks: set<Timeout>)

  const IDLE := TickerState(Timeout(0, 0, 0), false, {})

  /** Ticks for an old height, round or step are ignored. */
  predicate Newer(t: Timeout, ti: Timeout) {
    if t.height < ti.height then false
    else if t.height == ti.height && t.round < ti.round then false
    else if t.height == ti.height && t.round == ti.round && ti.step > 0 && t.step <= ti.step then false
    else true
  }

  function TakeTick(k: TickerState, t: Timeout): TickerState {
    if Newer(t, k.ti) then k.(ti := t, armed := true) else k
  }

  function Ring(k: TickerState): TickerState {
    if k.armed then k.(armed := false, tocks := k.tocks + {k.ti}) else k
  }

  /** The routine and its channels as the code has them; `tickChan` is the queue of scheduled ticks. */
  class TimeoutTicker {
    var tickChan: seq<Timeout>
    var ti: Timeout
    var armed: bool
    var tocks: set<Timeout>

    ghost function State(): TickerState
      reads this
    {
      TickerState(ti, armed, tocks)
    }

    constructor ()
      ensures State() == IDLE && tickChan == []
    {
      tickChan := [];
      ti := Timeout(0, 0, 0);
      armed := false;
      tocks := {};
    }

    method ScheduleTimeout(t: Timeout)
      modifies this`tickChan
      ensures tickChan == old(tickChan) + [t]
    {
      tickChan := tickChan + [t];
    }

    method StopTimer()
      modifies this`armed
      ensures !armed
    {
      armed := false;
    }

    /** The routine's first case: a tick arrives. */
    method ReceiveTick()
      requires tickChan != []
      modifies this
      ensures State() == TakeTick(old(State()), old(tickChan[0]))
      ensures tickChan == old(tickChan)[1..]
    {
      var newti := tickChan[0];
      tickChan := tickChan[1..];
      if newti.height < ti.height {
        return;
      } else if newti.height == ti.height {
        if newti.round < ti.round {
          return;
        } else if newti.round == ti.round {
          if ti.step > 0 && newti.step <= ti.step {
            return;
          }
        }
      }
      StopTimer();
      ti := newti;
      armed := true;
    }

    /** The routine's second case: the timer fires, and a goroutine carries the timeout to the machine. */
    method TimerFires()
      requires armed
      modifies this`armed, this`tocks
      ensures State() == Ring(old(State())) && tickChan == old(tickChan)
    {
      armed := false;
      tocks := tocks + {ti};
    }

    /** The machine receives any one of the timeouts on their way. */
    method ReceiveTock() returns (t: Timeout)
      requires tocks != {}
      modifies this`tocks
      ensures t in old(tocks) && tocks == old(tocks) - {t}
    {
      t :| t in tocks;
      tocks := tocks - {t};
    }
  }

  // ---- The ticker on its own: accepted ticks strictly increase and each rings at most once ----

  datatype TickerEvent = Tick(t: Timeout) | Expire

  datatype Trace = Trace(state: TickerState, accepted: seq<Timeout>, rung: seq<Timeout>)

  function Advance(x: Trace, ev: TickerEvent): Trace {
    match ev
    case Tick(t) => Trace(TakeTick(x.state, t), if Newer(t, x.state.ti) then x.accepted + [t] else x.accepted, x.rung)
    case Expire => Trace(Ring(x.state), x.accepted, if x.state.armed then x.rung + [x.state.ti] else x.rung)
  }

  function TickerRun(events: seq<TickerEvent>): Trace {
    if events == [] then Trace(IDLE, [], [])
    else Advance(TickerRun(events[..|events| - 1]), events[|events| - 1])
  }

  predicate Increasing(s: seq<Timeout>) {
    forall i, j :: 0 <= i < j < |s| ==> Less(At(s[i]), At(s[j]))
  }

  /** Real ticks are for a real step of a round. */
  predicate RealTicks(events: seq<TickerEvent>) {
    forall i :: 0 <= i < |events| && events[i].Tick? ==> events[i].t.step > 0
  }

  lemma {:induction false} EachRingsOnce(events: seq<TickerEvent>)
    requires RealTicks(events)
    ensures var x := TickerRun(events);
      && Increasing(x.accepted) && Increasing(x.rung)
      && (forall t :: t in x.rung ==> t in x.accepted)
      && (x.accepted == [] ==> x.state == IDLE && x.rung == [])
      && (x.accepted != [] ==> x.state.ti == x.accepted[|x.accepted| - 1] && x.state.ti.step > 0)
      && (forall t :: t in x.rung ==>
            if x.state.armed then Less(At(t), At(x.state.ti)) else AtMost(At(t), At(x.state.ti)))
  {
    if events != [] {
      var before := events[..|events| - 1];
      EachRingsOnce(before);
      var x, y := TickerRun(before), TickerRun(events);
      forall i | 0 <= i < |x.accepted| ensures AtMost(At(x.accepted[i]), At(x.state.ti)) {
        if i < |x.accepted| - 1 { assert Less(At(x.accepted[i]), At(x.accepted[|x.accepted| - 1])); }
      }
    }
  }
}
