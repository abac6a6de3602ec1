/** The connection supervisor of amqp.go as interleaved steps.

    Threads: the goroutine of `start` (`main`), the handler streamer of each connection,
    one goroutine per dispatched handler (`runners`), any number of `handle` callers and
    whoever cancels the global context. Memory is sequentially consistent. */
module Supervisor {
  import opened Channels

  /** Where the goroutine of `start` stands. `Ranging`, `GotHandler` and `Joining` are inside
      `onConnectionEstablished`; `Stopping` is before the deferred `close(brk.done)`. */
  datatype MainPc =
    | Dialing
    | Ranging
    | GotHandler(h: nat)
    | Joining
    | Idle
    | Stopping
    | Stopped

  /** Where a streamer stands; `Leaving` is before its deferred `close(out)`. */
  datatype StreamPc =
    | Snapshot(num: nat)
    | Handing(i: nat, target: nat)
    | Parked(num: nat)
    | Leaving

  /** Where a handler goroutine stands: opening its channel, inside `ChannelReady`, before the
      deferred `closer()`, before the deferred `wg.Done()`. */
  datatype RunnerPc = Opening | Serving | Cancelling | Releasing

  datatype Runner = Runner(handler: nat, epoch: nat, pc: RunnerPc)

  /** Handlers are named by their index in `brk.handlers`, so only the length is kept. Everything
      a connection owns is keyed by its epoch: nothing in the state forbids two at once. */
  datatype State = State(
    handlers: nat,
    token: bool,
    registering: set<nat>,
    globalDone: bool,
    main: MainPc,
    epoch: nat,
    cancelled: set<nat>,
    streamers: map<nat, StreamPc>,
    outClosed: set<nat>,
    runners: map<nat, Runner>,
    nextRunner: nat,
    wg: int,
    dispatched: seq<nat>,
    doneCloses: nat)

  datatype Step =
    | Append
    | Offer(h: nat)
    | CancelGlobal
    | Propagate(k: nat)
    | Dial(ok: bool)
    | Hand
    | Spawn
    | RangeEnd
    | Join
    | Retry
    | Abort
    | CloseDone
    | TakeSnapshot(k: nat)
    | StreamCancelled(k: nat)
    | TakeRefresh(k: nat)
    | CloseOut(k: nat)
    | Open(g: nat, ok: bool)
    | Return(g: nat)
    | Cancel(g: nat)
    | Release(g: nat)

  const INIT := State(0, false, {}, false, Dialing, 0, {}, map[], {}, map[], 0, 0, [], 0)

  predicate Streaming(s: State, k: nat) {
    k in s.streamers
  }

  predicate RunnerAt(s: State, g: nat, pc: RunnerPc) {
    g in s.runners && s.runners[g].pc == pc
  }

  predicate Enabled(s: State, step: Step) {
    match step
    case Append => true
    case Offer(h) => h in s.registering
    case CancelGlobal => true
    case Propagate(k) => s.globalDone
    case Dial(ok) => s.main == Dialing
    case Hand => s.main == Ranging && Streaming(s, s.epoch) && s.streamers[s.epoch].Handing?
    case Spawn => s.main.GotHandler?
    case RangeEnd => s.main == Ranging && s.epoch in s.outClosed
    case Join => s.main == Joining && s.wg == 0
    case Retry => s.main == Idle
    case Abort => s.main == Idle && s.globalDone
    case CloseDone => s.main == Stopping
    case TakeSnapshot(k) => Streaming(s, k) && s.streamers[k].Snapshot?
    case StreamCancelled(k) =>
      Streaming(s, k) && (s.streamers[k].Handing? || s.streamers[k].Parked?) && k in s.cancelled
    case TakeRefresh(k) => Streaming(s, k) && s.streamers[k].Parked? && s.token
    case CloseOut(k) => Streaming(s, k) && s.streamers[k].Leaving?
    case Open(g, ok) => RunnerAt(s, g, Opening)
    case Return(g) => RunnerAt(s, g, Serving)
    case Cancel(g) => RunnerAt(s, g, Cancelling)
    case Release(g) => RunnerAt(s, g, Releasing)
  }

  /** The streamer after `num` handlers were handed out of a snapshot of `target`. */
  function Continue(num: nat, target: nat): StreamPc {
    if num < target then Handing(num, target) else Parked(target)
  }

  function SetRunner(s: State, g: nat, pc: RunnerPc): State
    requires g in s.runners
  {
    s.(runners := s.runners[g := s.runners[g].(pc := pc)])
  }

  function Apply(s: State, step: Step): State
    requires Enabled(s, step)
  {
    match step
    case Append => s.(handlers := s.handlers + 1, registering := s.registering + {s.handlers})
    case Offer(h) => s.(token := true, registering := s.registering - {h})
    case CancelGlobal => s.(globalDone := true)
    case Propagate(k) => s.(cancelled := s.cancelled + {k})
    case Dial(ok) =>
      if !ok then s.(main := Idle)
      else
        var k := s.epoch + 1;
        s.(main := Ranging, epoch := k, dispatched := [],
           cancelled := if s.globalDone then s.cancelled + {k} else s.cancelled,
           streamers := s.streamers[k := Snapshot(0)])
    case Hand =>
      var pc := s.streamers[s.epoch];
      s.(main := GotHandler(pc.i), dispatched := s.dispatched + [pc.i],
         streamers := s.streamers[s.epoch := Continue(pc.i + 1, pc.target)])
    case Spawn =>
      s.(main := Ranging, wg := s.wg + 1, nextRunner := s.nextRunner + 1,
         runners := s.runners[s.nextRunner := Runner(s.main.h, s.epoch, Opening)])
    case RangeEnd => s.(main := Joining)
    case Join => s.(main := Idle, cancelled := s.cancelled + {s.epoch})
    case Retry => s.(main := Dialing)
    case Abort => s.(main := Stopping)
    case CloseDone => s.(main := Stopped, doneCloses := s.doneCloses + 1)
    case TakeSnapshot(k) => s.(streamers := s.streamers[k := Continue(s.streamers[k].num, s.handlers)])
    case StreamCancelled(k) => s.(streamers := s.streamers[k := Leaving])
    case TakeRefresh(k) => s.(token := false, streamers := s.streamers[k := Snapshot(s.streamers[k].num)])
    case CloseOut(k) => s.(streamers := s.streamers - {k}, outClosed := s.outClosed + {k})
    case Open(g, ok) => SetRunner(s, g, if ok then Serving else Cancelling)
    case Return(g) => SetRunner(s, g, Cancelling)
    case Cancel(g) => SetRunner(s, g, Releasing).(cancelled := s.cancelled + {s.runners[g].epoch})
    case Release(g) => s.(wg := s.wg - 1, runners := s.runners - {g})
  }

  /** The state after a whole run, if every step of it could be taken. */
  function Exec(s: State, steps: seq<Step>): Option<State>
    decreases |steps|
  {
    if steps == [] then Some(s)
    else
      match Exec(s, steps[..|steps| - 1])
      case None => None
      case Some(t) =>
        var step := steps[|steps| - 1];
        if Enabled(t, step) then Some(Apply(t, step)) else None
  }

  // ---- Invariants ----

  predicate Established(s: State) {
    s.main == Ranging || s.main.GotHandler? || s.main == Joining
  }

  /** Everything that runs belongs to the connection `main` is serving. */
  predicate OneEpoch(s: State) {
    && (forall k :: k in s.streamers ==> k == s.epoch)
    && (forall g :: g in s.runners ==> s.runners[g].epoch == s.epoch && g < s.nextRunner)
    && (s.streamers != map[] ==> s.main == Ranging || s.main.GotHandler?)
    && (s.runners != map[] ==> Established(s))
    && (s.epoch in s.outClosed ==> s.streamers == map[])
    && (s.main == Ranging || s.main.GotHandler? ==> s.epoch in s.streamers || s.epoch in s.outClosed)
    && (forall k :: k in s.outClosed ==> k <= s.epoch)
    && s.wg == |s.runners|
  }

  /** The streamer hands out 0, 1, 2, ... */
  predicate InOrder(s: State) {
    && (forall j :: 0 <= j < |s.dispatched| ==> s.dispatched[j] == j)
    && |s.dispatched| <= s.handlers
    && (s.main.GotHandler? ==> 0 < |s.dispatched| && s.main.h == |s.dispatched| - 1)
    && (forall k :: k in s.streamers ==> StreamerCounts(s, s.streamers[k]))
  }

  /** How many handlers of this connection have got their goroutine. */
  function Spawned(s: State): int {
    if s.main.GotHandler? then s.main.h else |s.dispatched|
  }

  /** Every goroutine serves a different handler, one that was handed out. */
  predicate Different(s: State) {
    && (forall g :: g in s.runners ==> s.runners[g].handler < Spawned(s))
    && (forall f, g :: f in s.runners && g in s.runners && f != g ==> s.runners[f].handler != s.runners[g].handler)
  }

  predicate StreamerCounts(s: State, pc: StreamPc) {
    match pc
    case Snapshot(num) => num == |s.dispatched|
    case Handing(i, target) => i == |s.dispatched| && i < target <= s.handlers
    case Parked(num) => num == |s.dispatched|
    case Leaving => true
  }

  /** A streamer that has not seen all handlers will be woken. */
  predicate NoLostRefresh(s: State) {
    forall k :: k in s.streamers && Behind(s, s.streamers[k]) ==> s.token || s.registering != {}
  }

  predicate Behind(s: State, pc: StreamPc) {
    match pc
    case Handing(_, target) => target < s.handlers
    case Parked(num) => num < s.handlers
    case _ => false
  }

  predicate DoneOnce(s: State) {
    s.doneCloses == if s.main == Stopped then 1 else 0
  }

  predicate Inv(s: State) {
    OneEpoch(s) && InOrder(s) && Different(s) && NoLostRefresh(s) && DoneOnce(s)
  }

  predicate RunnerStep(step: Step) {
    step.Open? || step.Return? || step.Cancel? || step.Release?
  }

  predicate StreamStep(step: Step) {
    step.Hand? || step.TakeSnapshot? || step.StreamCancelled? || step.TakeRefresh? || step.CloseOut?
  }

  lemma RunnerStepKeepsOneEpoch(s: State, step: Step)
    requires OneEpoch(s) && Enabled(s, step) && RunnerStep(step)
    ensures OneEpoch(Apply(s, step))
  {
    var t := Apply(s, step);
    if step.Release? {
      assert t.runners.Keys == s.runners.Keys - {step.g};
      assert |t.runners.Keys| == |t.runners|;
    } else {
      assert t.runners.Keys == s.runners.Keys;
      assert |t.runners.Keys| == |t.runners|;
    }
  }

  lemma StreamStepKeepsOneEpoch(s: State, step: Step)
    requires OneEpoch(s) && Enabled(s, step) && StreamStep(step)
    ensures OneEpoch(Apply(s, step))
  {
    var t := Apply(s, step);
    assert t.runners == s.runners;
    if step.CloseOut? {
      assert t.streamers == map[];
    }
  }

  lemma SpawnKeepsOneEpoch(s: State)
    requires OneEpoch(s) && Enabled(s, Spawn)
    ensures OneEpoch(Apply(s, Spawn))
  {
    var t := Apply(s, Spawn);
    assert t.runners.Keys == s.runners.Keys + {s.nextRunner};
    assert |t.runners.Keys| == |t.runners|;
  }

  lemma DialKeepsOneEpoch(s: State, ok: bool)
    requires OneEpoch(s) && Enabled(s, Dial(ok))
    ensures OneEpoch(Apply(s, Dial(ok)))
  {
    assert s.streamers == map[] && s.runners == map[];
  }

  lemma MainStepKeepsOneEpoch(s: State, step: Step)
    requires OneEpoch(s) && Enabled(s, step) && !RunnerStep(step) && !StreamStep(step)
    requires !step.Spawn? && !step.Dial?
    ensures OneEpoch(Apply(s, step))
  {
    if step.Join? {
      assert |s.runners| == 0;
    }
  }

  lemma StepKeepsOneEpoch(s: State, step: Step)
    requires OneEpoch(s) && Enabled(s, step)
    ensures OneEpoch(Apply(s, step))
  {
    if RunnerStep(step) {
      RunnerStepKeepsOneEpoch(s, step);
    } else if StreamStep(step) {
      StreamStepKeepsOneEpoch(s, step);
    } else if step.Spawn? {
      SpawnKeepsOneEpoch(s);
    } else if step.Dial? {
      DialKeepsOneEpoch(s, step.ok);
    } else {
      MainStepKeepsOneEpoch(s, step);
    }
  }

  lemma StreamStepKeepsInOrder(s: State, step: Step)
    requires OneEpoch(s) && InOrder(s) && Enabled(s, step) && StreamStep(step)
    ensures InOrder(Apply(s, step))
  {
  }

  lemma OtherStepKeepsInOrder(s: State, step: Step)
    requires OneEpoch(s) && InOrder(s) && Enabled(s, step) && !StreamStep(step)
    ensures InOrder(Apply(s, step))
  {
    var t := Apply(s, step);
    if !step.Dial? {
      assert t.streamers == s.streamers && t.dispatched == s.dispatched && s.handlers <= t.handlers;
    } else {
      assert s.streamers == map[];
    }
  }

  lemma SpawnKeepsDifferent(s: State)
    requires OneEpoch(s) && InOrder(s) && Different(s) && Enabled(s, Spawn)
    ensures Different(Apply(s, Spawn))
  {
  }

  lemma RunnerStepKeepsDifferent(s: State, step: Step)
    requires Different(s) && Enabled(s, step) && RunnerStep(step)
    ensures Different(Apply(s, step))
  {
    var t := Apply(s, step);
    forall g | g in t.runners ensures g in s.runners && t.runners[g].handler == s.runners[g].handler {}
  }

  lemma OtherStepKeepsDifferent(s: State, step: Step)
    requires OneEpoch(s) && InOrder(s) && Different(s) && Enabled(s, step) && !RunnerStep(step) && !step.Spawn?
    ensures Different(Apply(s, step))
  {
    var t := Apply(s, step);
    assert t.runners == s.runners;
    assert step.Dial? ==> s.runners == map[];
  }

  lemma StepKeepsOrder(s: State, step: Step)
    requires OneEpoch(s) && InOrder(s) && Different(s) && Enabled(s, step)
    ensures InOrder(Apply(s, step)) && Different(Apply(s, step))
  {
    if StreamStep(step) {
      StreamStepKeepsInOrder(s, step);
    } else {
      OtherStepKeepsInOrder(s, step);
    }
    if step.Spawn? {
      SpawnKeepsDifferent(s);
    } else if RunnerStep(step) {
      RunnerStepKeepsDifferent(s, step);
    } else {
      OtherStepKeepsDifferent(s, step);
    }
  }

  lemma StepKeepsNoLostRefresh(s: State, step: Step)
    requires InOrder(s) && OneEpoch(s) && NoLostRefresh(s) && Enabled(s, step)
    ensures NoLostRefresh(Apply(s, step))
  {
    var t := Apply(s, step);
    if step.Append? {
      assert s.handlers in t.registering;
    }
  }

  lemma StepKeepsInv(s: State, step: Step)
    requires Inv(s) && Enabled(s, step)
    ensures Inv(Apply(s, step))
  {
    StepKeepsOneEpoch(s, step);
    StepKeepsOrder(s, step);
    StepKeepsNoLostRefresh(s, step);
  }

  lemma InitHolds()
    ensures Inv(INIT)
  {
  }

  // ---- What holds of every run ----

  lemma {:induction false} RunKeepsInv(s: State, steps: seq<Step>)
    requires Inv(s) && Exec(s, steps).Some?
    ensures Inv(Exec(s, steps).value)
    decreases |steps|
  {
    if steps != [] {
      RunKeepsInv(s, steps[..|steps| - 1]);
      StepKeepsInv(Exec(s, steps[..|steps| - 1]).value, steps[|steps| - 1]);
    }
  }

  /** At any time all goroutines serve the current connection, and no two the same handler. */
  lemma {:induction false} EpochExclusion(steps: seq<Step>, f: nat, g: nat)
    requires Exec(INIT, steps).Some?
    ensures var s := Exec(INIT, steps).value;
            f in s.runners && g in s.runners ==>
              && Established(s)
              && s.runners[f].epoch == s.runners[g].epoch == s.epoch
              && (s.runners[f].handler == s.runners[g].handler ==> f == g)
  {
    RunKeepsInv(INIT, steps);
  }

  predicate SameRunner(s: State, t: State, g: nat)
    requires g in s.runners
  {
    && s.nextRunner <= t.nextRunner
    && (g in t.runners ==> t.runners[g].(pc := s.runners[g].pc) == s.runners[g])
  }

  lemma StepMovesNoRunner(s: State, step: Step, g: nat)
    requires Enabled(s, step) && g < s.nextRunner
    ensures s.nextRunner <= Apply(s, step).nextRunner
    ensures g in Apply(s, step).runners ==>
              g in s.runners && SameRunner(s, Apply(s, step), g)
  {
  }

  /** A goroutine keeps its connection and its handler for as long as it lives. */
  lemma {:induction false} RunnersDoNotMove(s: State, steps: seq<Step>, g: nat)
    requires Exec(s, steps).Some? && g in s.runners && g < s.nextRunner
    ensures SameRunner(s, Exec(s, steps).value, g)
    decreases |steps|
  {
    if steps != [] {
      var front := steps[..|steps| - 1];
      RunnersDoNotMove(s, front, g);
      StepMovesNoRunner(Exec(s, front).value, steps[|steps| - 1], g);
    }
  }

  /** Every `ChannelReady` and every streamer of one connection is over before the next connection
      is dialled, and none of its goroutines is alive in a later one. */
  lemma {:induction false} ConnectionsDoNotOverlap(steps: seq<Step>, more: seq<Step>, g: nat)
    requires Exec(INIT, steps).Some? && Exec(Exec(INIT, steps).value, more).Some?
    ensures var s := Exec(INIT, steps).value;
            && (s.main == Dialing ==> s.runners == map[] && s.streamers == map[])
            && (g in s.runners && Exec(s, more).value.epoch != s.epoch ==> g !in Exec(s, more).value.runners)
  {
    RunKeepsInv(INIT, steps);
    var s := Exec(INIT, steps).value;
    RunKeepsInv(s, more);
    if g in s.runners {
      RunnersDoNotMove(s, more, g);
    }
  }

  lemma StoppedTakesNoPart(s: State, step: Step)
    requires Inv(s) && s.main == Stopped && Enabled(s, step)
    ensures Apply(s, step).main == Stopped
  {
  }

  lemma {:induction false} StaysStopped(s: State, more: seq<Step>)
    requires Inv(s) && s.main == Stopped && Exec(s, more).Some?
    ensures Exec(s, more).value.main == Stopped
    decreases |more|
  {
    if more != [] {
      var front := more[..|more| - 1];
      StaysStopped(s, front);
      RunKeepsInv(s, front);
      StoppedTakesNoPart(Exec(s, front).value, more[|more| - 1]);
    }
  }

  /** `done` is closed at most once; when it is, nothing runs and nothing ever will. */
  lemma {:induction false} DoneIsFinal(steps: seq<Step>, more: seq<Step>)
    requires Exec(INIT, steps).Some? && Exec(Exec(INIT, steps).value, more).Some?
    ensures Exec(INIT, steps).value.doneCloses <= 1
    ensures Exec(INIT, steps).value.doneCloses == 1 ==>
              var t := Exec(Exec(INIT, steps).value, more).value;
              t.doneCloses == 1 && t.runners == map[] && t.streamers == map[]
  {
    RunKeepsInv(INIT, steps);
    var s := Exec(INIT, steps).value;
    RunKeepsInv(s, more);
    if s.main == Stopped {
      StaysStopped(s, more);
    }
  }

  /** Within one connection handlers come in registration order, each at most once; a streamer that
      waits although a handler is still due has a refresh token waiting for it, or a `handle` call
      that has appended and not yet offered. */
  lemma {:induction false} DispatchIsAnOrderedPrefix(steps: seq<Step>, k: nat)
    requires Exec(INIT, steps).Some?
    ensures var s := Exec(INIT, steps).value;
            && |s.dispatched| <= s.handlers
            && (forall j :: 0 <= j < |s.dispatched| ==> s.dispatched[j] == j)
            && (k in s.streamers && s.streamers[k].Parked? && |s.dispatched| < s.handlers ==>
                  s.token || s.registering != {})
  {
    RunKeepsInv(INIT, steps);
  }
}
