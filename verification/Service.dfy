/**
  Starting and stopping a service: two atomic flags, any number of threads, every interleaving of the
  atomic steps of Start and Stop.  Both flags can be rolled back, and OnStart may fail and be retried.
*/
module Services {
  import opened Quorums

  type Tid = nat

  datatype Result = Nil | AlreadyStarted | AlreadyStopped | NotStarted | StartFailed

  /** Where a thread is: between two atomic steps of a call, or back from one. */
  datatype Pc =
    | Returned(result: Result)
    | StartChecks    // started swapped from 0 to 1
    | StartRejects   // saw stopped, is about to put started back
    | StartReady     // about to call OnStart
    | InOnStart
    | StartReverts   // OnStart failed, is about to put started back
    | StopChecks     // stopped swapped from 0 to 1
    | StopRejects    // saw that nothing is started, is about to put stopped back
    | StopReady      // about to call OnStop
    | InOnStop
    | Closes         // about to close quit

  /** The flags, where every thread is, and how often things happened; closing quit twice would panic. */
  datatype State = State(
    started: bool,
    stopped: bool,
    onStarts: nat,
    failures: nat,
    successes: nat,
    onStops: nat,
    closes: nat,
    threads: map<Tid, Pc>)

  const INITIAL := State(false, false, 0, 0, 0, 0, 0, map[])

  /** `ok` is what OnStart returns, where that is the step. */
  datatype Action = CallStart(t: Tid) | CallStop(t: Tid) | Go(t: Tid, ok: bool)

  function At(s: State, t: Tid): Pc {
    if t in s.threads then s.threads[t] else Returned(Nil)
  }

  predicate InStart(pc: Pc) {
    pc in {StartChecks, StartRejects, StartReady, InOnStart, StartReverts}
  }

  predicate InStop(pc: Pc) {
    pc in {StopChecks, StopRejects, StopReady, InOnStop, Closes}
  }

  /** Where an atomic step leaves its thread; a call is entered only by a thread that is back from its last one. */
  function NextPc(s: State, a: Action): Pc {
    var pc := At(s, a.t);
    match a
    case CallStart(_) => if !pc.Returned? then pc else if s.started then Returned(AlreadyStarted) else StartChecks
    case CallStop(_) => if !pc.Returned? then pc else if s.stopped then Returned(AlreadyStopped) else StopChecks
    case Go(_, ok) =>
      match pc
      case Returned(_) => pc
      case StartChecks => if s.stopped then StartRejects else StartReady
      case StartRejects => Returned(AlreadyStopped)
      case StartReady => InOnStart
      case InOnStart => if ok then Returned(Nil) else StartReverts
      case StartReverts => Returned(StartFailed)
      case StopChecks => if s.started then StopReady else StopRejects
      case StopRejects => Returned(NotStarted)
      case StopReady => InOnStop
      case InOnStop => Closes
      case Closes => Returned(Nil)
  }

  /** What an atomic step does to the flags, and what happens in it. */
  function Effect(s: State, a: Action): State {
    match a
    case CallStart(t) => if At(s, t).Returned? then s.(started := true) else s
    case CallStop(t) => if At(s, t).Returned? then s.(stopped := true) else s
    case Go(t, ok) =>
      match At(s, t)
      case StartRejects => s.(started := false)
      case StartReady => s.(onStarts := s.onStarts + 1)
      case InOnStart => if ok then s.(successes := s.successes + 1) else s.(failures := s.failures + 1)
      case StartReverts => s.(started := false)
      case StopRejects => s.(stopped := false)
      case StopReady => s.(onStops := s.onStops + 1)
      case Closes => s.(closes := s.closes + 1)
      case _ => s
  }

  function Next(s: State, a: Action): State {
    Effect(s, a).(threads := s.threads[a.t := NextPc(s, a)])
  }

  function Run(actions: seq<Action>): State {
    if actions == [] then INITIAL else Next(Run(actions[..|actions| - 1]), actions[|actions| - 1])
  }

  /** The service as the code has it: every method is one atomic step of one thread. */
  class BaseService {
    var started: bool
    var stopped: bool
    var quitCloses: nat
    var threads: map<Tid, Pc>
    ghost var onStarts: nat
    ghost var failures: nat
    ghost var successes: nat
    ghost var onStops: nat

    ghost function Abstract(): State
      reads this
    {
      State(started, stopped, onStarts, failures, successes, onStops, quitCloses, threads)
    }

    constructor ()
      ensures Abstract() == INITIAL
    {
      started, stopped, quitCloses, threads := false, false, 0, map[];
      onStarts, failures, successes, onStops := 0, 0, 0, 0;
    }

    method CompareAndSwapStarted() returns (swapped: bool)
      modifies this`started
      ensures swapped == !old(started) && started
    {
      swapped := !started;
      started := true;
    }

    method CompareAndSwapStopped() returns (swapped: bool)
      modifies this`stopped
      ensures swapped == !old(stopped) && stopped
    {
      swapped := !stopped;
      stopped := true;
    }

    method Start(t: Tid)
      modifies this
      ensures Abstract() == Next(old(Abstract()), CallStart(t))
    {
      var pc := if t in threads then threads[t] else Returned(Nil);
      if pc.Returned? {
        var swapped := CompareAndSwapStarted();
        pc := if swapped then StartChecks else Returned(AlreadyStarted);
      }
      threads := threads[t := pc];
    }

    method Stop(t: Tid)
      modifies this
      ensures Abstract() == Next(old(Abstract()), CallStop(t))
    {
      var pc := if t in threads then threads[t] else Returned(Nil);
      if pc.Returned? {
        var swapped := CompareAndSwapStopped();
        pc := if swapped then StopChecks else Returned(AlreadyStopped);
      }
      threads := threads[t := pc];
    }

    method Proceed(t: Tid, ok: bool)
      modifies this
      ensures Abstract() == Next(old(Abstract()), Go(t, ok))
    {
      var pc := if t in threads then threads[t] else Returned(Nil);
      match pc {
        case Returned(_) =>
        case StartChecks => pc := if stopped then StartRejects else StartReady;
        case StartRejects => started, pc := false, Returned(AlreadyStopped);
        case StartReady => onStarts, pc := onStarts + 1, InOnStart;
        case InOnStart =>
          if ok {
            successes, pc := successes + 1, Returned(Nil);
          } else {
            failures, pc := failures + 1, StartReverts;
          }
        case StartReverts => started, pc := false, Returned(StartFailed);
        case StopChecks => pc := if started then StopReady else StopRejects;
        case StopRejects => stopped, pc := false, Returned(NotStarted);
        case StopReady => onStops, pc := onStops + 1, InOnStop;
        case InOnStop => pc := Closes;
        case Closes => quitCloses, pc := quitCloses + 1, Returned(Nil);
      }
      threads := threads[t := pc];
    }

    method IsRunning() returns (running: bool)
      ensures running == (started && !stopped)
    {
      return started && !stopped;
    }
  }

  // ---- The invariant ----

  /** `p` is the one thread inside Start, `q` the one inside Stop. */
  ghost predicate Inside(s: State, p: Option<Tid>, q: Option<Tid>) {
    && (forall t: Tid :: InStart(At(s, t)) <==> p == Some(t))
    && (forall t: Tid :: InStop(At(s, t)) <==> q == Some(t))
  }

  /** `started` is up while a Start is under way, and after one has succeeded. */
  predicate StartCounted(s: State, p: Option<Tid>) {
    && (s.started <==> s.successes == 1 || p.Some?)
    && s.successes <= 1 && (s.successes == 1 ==> p.None?)
    && s.onStarts == s.failures + s.successes + (if p.Some? && At(s, p.value) == InOnStart then 1 else 0)
  }

  /** `stopped` is up while a Stop is under way, and after one has succeeded. */
  predicate StopCounted(s: State, q: Option<Tid>) {
    && (s.stopped <==> s.closes == 1 || q.Some?)
    && s.closes <= s.onStops <= 1 && (s.closes == 1 ==> q.None?)
    && (s.onStops == 1 <==> s.closes == 1 || (q.Some? && At(s, q.value) in {InOnStop, Closes}))
  }

  ghost predicate Holds(s: State, p: Option<Tid>, q: Option<Tid>) {
    Inside(s, p, q) && StartCounted(s, p) && StopCounted(s, q)
  }

  function NextInside(inside: Option<Tid>, t: Tid, isInside: bool): Option<Tid> {
    if isInside then Some(t) else if inside == Some(t) then None else inside
  }

  lemma OthersStay(s: State, a: Action, t: Tid)
    requires t != a.t
    ensures At(Next(s, a), t) == At(s, t)
  {
  }

  lemma NextHolds(s: State, a: Action, p: Option<Tid>, q: Option<Tid>)
    requires Holds(s, p, q)
    ensures var n := Next(s, a);
      Holds(n, NextInside(p, a.t, InStart(At(n, a.t))), NextInside(q, a.t, InStop(At(n, a.t))))
  {
    var n := Next(s, a);
    assert (InStart(At(s, a.t)) <==> p == Some(a.t)) && (InStop(At(s, a.t)) <==> q == Some(a.t));
    if p.Some? && p.value != a.t { OthersStay(s, a, p.value); }
    if q.Some? && q.value != a.t { OthersStay(s, a, q.value); }
    NextStartCounted(s, a, p);
    NextStopCounted(s, a, q);
    NextIsInside(s, a, p, q);
  }

  lemma NextIsInside(s: State, a: Action, p: Option<Tid>, q: Option<Tid>)
    requires Inside(s, p, q)
    requires InStart(At(Next(s, a), a.t)) ==> p.None? || p == Some(a.t)
    requires InStop(At(Next(s, a), a.t)) ==> q.None? || q == Some(a.t)
    ensures var n := Next(s, a);
      Inside(n, NextInside(p, a.t, InStart(At(n, a.t))), NextInside(q, a.t, InStop(At(n, a.t))))
  {
    hide InStart, InStop, NextPc, Effect;
    var n := Next(s, a);
    forall t: Tid | t != a.t ensures At(n, t) == At(s, t) { OthersStay(s, a, t); }
  }

  lemma NextStartCounted(s: State, a: Action, p: Option<Tid>)
    requires StartCounted(s, p) && (InStart(At(s, a.t)) <==> p == Some(a.t))
    requires p.Some? && p.value != a.t ==> At(Next(s, a), p.value) == At(s, p.value)
    ensures var n := Next(s, a);
      && StartCounted(n, NextInside(p, a.t, InStart(At(n, a.t))))
      && (InStart(At(n, a.t)) ==> p.None? || p == Some(a.t))
  {
  }

  lemma NextStopCounted(s: State, a: Action, q: Option<Tid>)
    requires StopCounted(s, q) && (InStop(At(s, a.t)) <==> q == Some(a.t))
    requires q.Some? && q.value != a.t ==> At(Next(s, a), q.value) == At(s, q.value)
    ensures var n := Next(s, a);
      && StopCounted(n, NextInside(q, a.t, InStop(At(n, a.t))))
      && (InStop(At(n, a.t)) ==> q.None? || q == Some(a.t))
  {
  }

  lemma {:induction false} RunHolds(actions: seq<Action>) returns (p: Option<Tid>, q: Option<Tid>)
    ensures Holds(Run(actions), p, q)
  {
    if actions == [] {
      p, q := None, None;
    } else {
      hide Next, Holds;
      var before, a := actions[..|actions| - 1], actions[|actions| - 1];
      p, q := RunHolds(before);
      NextHolds(Run(before), a, p, q);
      var n := Next(Run(before), a);
      p, q := NextInside(p, a.t, InStart(At(n, a.t))), NextInside(q, a.t, InStop(At(n, a.t)));
    }
  }

  // ---- What the flags guarantee ----

  /**
    In every interleaving OnStop runs and quit is closed at most once, OnStart succeeds at most once, one call
    at a time.
  */
  lemma AtMostOnce(actions: seq<Action>)
    ensures var s := Run(actions);
      && s.closes <= s.onStops <= 1 && s.successes <= 1
      && s.failures + s.successes <= s.onStarts <= s.failures + s.successes + 1
    ensures forall t, u :: At(Run(actions), t) == At(Run(actions), u) == InOnStart ==> t == u
    ensures forall t, u :: InStop(At(Run(actions), t)) && InStop(At(Run(actions), u)) ==> t == u
  {
    var p, q := RunHolds(actions);
  }

  lemma NextKeeps(s: State, a: Action, p: Option<Tid>, q: Option<Tid>)
    requires Holds(s, p, q)
    ensures var n := Next(s, a);
      && (s.successes == 1 ==> n.successes == 1 && n.onStarts == s.onStarts)
      && (s.onStops == 1 ==> n.onStops == 1)
      && (s.closes == 1 ==> n.closes == 1 && n.stopped)
  {
    assert (InStart(At(s, a.t)) <==> p == Some(a.t)) && (InStop(At(s, a.t)) <==> q == Some(a.t));
  }

  /**
    Once OnStart has returned no error it is never called again, whatever any thread does; nor is OnStop, once
    called.
  */
  lemma {:induction false} NeverAgain(actions: seq<Action>, more: seq<Action>)
    ensures var s, u := Run(actions), Run(actions + more);
      && (s.successes == 1 ==> u.successes == 1 && u.onStarts == s.onStarts)
      && (s.onStops == 1 ==> u.onStops == 1)
      && (s.closes == 1 ==> u.closes == 1 && u.stopped)
  {
    hide Next, Inside;
    if more == [] {
      assert actions + more == actions;
      var p, q := RunHolds(actions);
    } else {
      var shorter := more[..|more| - 1];
      NeverAgain(actions, shorter);
      assert (actions + more)[..|actions + more| - 1] == actions + shorter;
      var p, q := RunHolds(actions + shorter);
      NextKeeps(Run(actions + shorter), more[|more| - 1], p, q);
    }
  }

  /** A service found running by itself, with no call to Start or Stop under way, has been started and not stopped. */
  lemma QuietMeansRunning(actions: seq<Action>)
    requires forall t :: At(Run(actions), t).Returned?
    ensures var s := Run(actions);
      && (s.started <==> s.successes == 1) && (s.stopped <==> s.closes == 1)
      && s.onStops == s.closes && s.onStarts == s.failures + s.successes
  {
    var p, q := RunHolds(actions);
  }

  // ---- Stop finds a started service exactly when no Start is under way ----

  /** A Stop that gets past its check stops a service that did start, if and only if nobody is inside Start then. */
  lemma StopFindsStarted(actions: seq<Action>, t: Tid)
    requires At(Run(actions), t) == StopChecks && Run(actions).started
    ensures Run(actions).successes == 1 <==> forall u :: !InStart(At(Run(actions), u))
  {
    var p, q := RunHolds(actions);
  }

  /** Start and Stop are never under way at the same time. */
  ghost predicate Apart(s: State) {
    forall t, u :: !(InStart(At(s, t)) && InStop(At(s, u)))
  }

  /** Under the documented discipline a stopped service has been started, and OnStart is not called after OnStop. */
  lemma {:induction false} StoppedWasStarted(actions: seq<Action>)
    requires forall i :: 0 <= i <= |actions| ==> Apart(Run(actions[..i]))
    ensures var s := Run(actions);
      && (s.onStops == 1 ==> s.successes == 1)
      && (forall t :: At(s, t) == StopReady ==> s.successes == 1)
  {
    if actions != [] {
      var before := actions[..|actions| - 1];
      assert forall i :: 0 <= i <= |before| ==> before[..i] == actions[..i];
      assert actions[..|actions|] == actions;
      StoppedWasStarted(before);
      var p, q := RunHolds(before);
      assert Apart(Run(before));
      assert forall t :: t != actions[|before|].t ==> At(Run(actions), t) == At(Run(before), t);
    }
  }

  /** Without it, OnStop can run and quit be closed although OnStart never ran. */
  lemma StoppedNeverStarted()
    ensures exists actions ::
      var s := Run(actions);
      s.onStops == 1 && s.closes == 1 && s.onStarts == 0 && At(s, 0) == Returned(AlreadyStopped)
        && At(s, 1) == Returned(Nil)
  {
    var s2 := State(true, true, 0, 0, 0, 0, 0, map[0 := StartChecks, 1 := StopChecks]);
    var s4 := State(true, true, 0, 0, 0, 0, 0, map[0 := StartRejects, 1 := StopReady]);
    var s6 := State(false, true, 0, 0, 0, 1, 0, map[0 := Returned(AlreadyStopped), 1 := InOnStop]);
    var s8 := State(false, true, 0, 0, 0, 1, 1, map[0 := Returned(AlreadyStopped), 1 := Returned(Nil)]);
    RunTwo([], INITIAL, CallStart(0), CallStop(1), s2);
    RunTwo([] + [CallStart(0)] + [CallStop(1)], s2, Go(1, true), Go(0, true), s4);
    RunTwo([] + [CallStart(0)] + [CallStop(1)] + [Go(1, true)] + [Go(0, true)], s4, Go(0, true), Go(1, true), s6);
    RunTwo([] + [CallStart(0)] + [CallStop(1)] + [Go(1, true)] + [Go(0, true)] + [Go(0, true)] + [Go(1, true)],
           s6, Go(1, true), Go(1, true), s8);
  }

  lemma RunTwo(before: seq<Action>, s: State, a: Action, b: Action, u: State)
    requires Run(before) == s && u == Next(Next(s, a), b)
    ensures Run(before + [a] + [b]) == u
  {
    hide Next;
    RunMore(before, a);
    RunMore(before + [a], b);
  }

  lemma RunMore(before: seq<Action>, a: Action)
    ensures Run(before + [a]) == Next(Run(before), a)
  {
    assert (before + [a])[..|before|] == before;
  }

  // ---- What a call answers ----

  /** A call, and the thread's next `steps` atomic steps, nobody else moving. */
  function Alone(s: State, call: Action, ok: bool, steps: nat): State {
    if steps == 0 then Next(s, call) else Next(Alone(s, call, ok, steps - 1), Go(call.t, ok))
  }

  predicate SameFlags(s: State, u: State) {
    u.started == s.started && u.stopped == s.stopped
  }

  /**
    Start, nobody else moving meanwhile: it runs OnStart exactly if the service is neither started nor stopped,
    and says why if it did not; a refused or failed call leaves both flags as they were.
  */
  lemma StartAnswers(s: State, t: Tid, ok: bool)
    requires At(s, t).Returned?
    ensures s.started ==>
      var u := Alone(s, CallStart(t), ok, 0);
      At(u, t) == Returned(AlreadyStarted) && SameFlags(s, u) && u.onStarts == s.onStarts
    ensures !s.started && s.stopped ==>
      var u := Alone(s, CallStart(t), ok, 2);
      At(u, t) == Returned(AlreadyStopped) && SameFlags(s, u) && u.onStarts == s.onStarts
    ensures !s.started && !s.stopped && ok ==>
      var u := Alone(s, CallStart(t), ok, 3);
      && At(u, t) == Returned(Nil) && u.started && !u.stopped
      && u.onStarts == s.onStarts + 1 && u.successes == s.successes + 1
    ensures !s.started && !s.stopped && !ok ==>
      var u := Alone(s, CallStart(t), ok, 4);
      && At(u, t) == Returned(StartFailed) && SameFlags(s, u)
      && u.onStarts == s.onStarts + 1 && u.failures == s.failures + 1
  {
    AloneUnrolled(s, CallStart(t), ok);
  }

  /**
    Stop, nobody else moving meanwhile: it runs OnStop and closes quit exactly if the service is started and not
    stopped, and says why if it did not.
  */
  lemma StopAnswers(s: State, t: Tid, ok: bool)
    requires At(s, t).Returned?
    ensures s.stopped ==>
      var u := Alone(s, CallStop(t), ok, 0);
      At(u, t) == Returned(AlreadyStopped) && SameFlags(s, u) && u.onStops == s.onStops
    ensures !s.stopped && !s.started ==>
      var u := Alone(s, CallStop(t), ok, 2);
      At(u, t) == Returned(NotStarted) && SameFlags(s, u) && u.onStops == s.onStops
    ensures !s.stopped && s.started ==>
      var u := Alone(s, CallStop(t), ok, 4);
      && At(u, t) == Returned(Nil) && u.started && u.stopped
      && u.onStops == s.onStops + 1 && u.closes == s.closes + 1
  {
    AloneUnrolled(s, CallStop(t), ok);
  }

  lemma AloneUnrolled(s: State, call: Action, ok: bool)
    ensures Alone(s, call, ok, 0) == Next(s, call)
    ensures Alone(s, call, ok, 1) == Next(Alone(s, call, ok, 0), Go(call.t, ok))
    ensures Alone(s, call, ok, 2) == Next(Alone(s, call, ok, 1), Go(call.t, ok))
    ensures Alone(s, call, ok, 3) == Next(Alone(s, call, ok, 2), Go(call.t, ok))
    ensures Alone(s, call, ok, 4) == Next(Alone(s, call, ok, 3), Go(call.t, ok))
  {
    hide Next;
  }
}
