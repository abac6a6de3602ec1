/** The whole client: the connection supervisor, the outbox of one publisher and the table of one RPC
    client, composed. The two handlers are any two of the server's: `pub` and `rpcSink` are their
    positions in `brk.handlers`, so what is proved holds of every publisher and every RPC client.

    A handler's `ChannelReady` runs exactly while the supervisor has its goroutine in `Serving`. What
    the other modules assume of their environment is proved here of the supervisor. */
module System {
  import opened Channels
  import SendLog
  import Outbox
  import Rpc
  import Supervisor

  datatype Config = Config(pub: nat, rpcSink: nat)

  datatype State = State(sup: Supervisor.State, box: Outbox.State, rpc: Rpc.State)

  /** `c` says which of the outbox's consumers returns, when a publisher's goroutine does. */
  datatype Step =
    | Sup(step: Supervisor.Step, c: nat)
    | Box(boxStep: Outbox.Step)
    | Call(rpcStep: Rpc.Step)

  const INIT := State(Supervisor.INIT, Outbox.INIT, Rpc.INIT)

  predicate Serving(sup: Supervisor.State, g: nat, h: nat) {
    g in sup.runners && sup.runners[g].pc == Supervisor.Serving && sup.runners[g].handler == h
  }

  predicate OpensAs(s: State, step: Supervisor.Step, h: nat) {
    step.Open? && step.ok && step.g in s.sup.runners && s.sup.runners[step.g].handler == h
  }

  predicate ReturnsAs(s: State, step: Supervisor.Step, h: nat) {
    step.Return? && step.g in s.sup.runners && s.sup.runners[step.g].handler == h
  }

  /** A supervisor step takes its handlers along. */
  predicate SupEnabled(cfg: Config, s: State, step: Supervisor.Step, c: nat) {
    && Supervisor.Enabled(s.sup, step)
    && (ReturnsAs(s, step, cfg.pub) ==> Outbox.Enabled(s.box, Outbox.Stop(c)))
    && (ReturnsAs(s, step, cfg.rpcSink) ==> Rpc.Enabled(s.rpc, Rpc.Stop(step.g)))
    && (OpensAs(s, step, cfg.rpcSink) ==> Rpc.Enabled(s.rpc, Rpc.Start(step.g)))
    && (step.CloseDone? ==> Rpc.Enabled(s.rpc, Rpc.BrokerDone))
  }

  predicate Enabled(cfg: Config, s: State, step: Step) {
    && !s.box.panicked && !s.rpc.panicked
    && match step
       case Sup(st, c) => SupEnabled(cfg, s, st, c)
       case Box(st) =>
         && !st.Start? && !st.Stop? && !st.CancelGlobal? && Outbox.Enabled(s.box, st)
         && (st.Cancelled? ==> s.sup.epoch in s.sup.cancelled)
       case Call(st) => !st.Start? && !st.Stop? && !st.BrokerDone? && Rpc.Enabled(s.rpc, st)
  }

  function BoxAfter(cfg: Config, s: State, step: Supervisor.Step, c: nat): Outbox.State
    requires !s.box.panicked && SupEnabled(cfg, s, step, c)
  {
    if OpensAs(s, step, cfg.pub) then Outbox.Apply(s.box, Outbox.Start)
    else if ReturnsAs(s, step, cfg.pub) then Outbox.Apply(s.box, Outbox.Stop(c))
    else if step.CancelGlobal? then Outbox.Apply(s.box, Outbox.CancelGlobal)
    else s.box
  }

  function RpcAfter(cfg: Config, s: State, step: Supervisor.Step, c: nat): Rpc.State
    requires SupEnabled(cfg, s, step, c)
  {
    if OpensAs(s, step, cfg.rpcSink) then Rpc.Apply(s.rpc, Rpc.Start(step.g))
    else if ReturnsAs(s, step, cfg.rpcSink) then Rpc.Apply(s.rpc, Rpc.Stop(step.g))
    else if step.CloseDone? then Rpc.Apply(s.rpc, Rpc.BrokerDone)
    else s.rpc
  }

  function Apply(cfg: Config, s: State, step: Step): State
    requires Enabled(cfg, s, step)
  {
    match step
    case Sup(st, c) => State(Supervisor.Apply(s.sup, st), BoxAfter(cfg, s, st, c), RpcAfter(cfg, s, st, c))
    case Box(st) => s.(box := Outbox.Apply(s.box, st))
    case Call(st) => s.(rpc := Rpc.Apply(s.rpc, st))
  }

  function Exec(cfg: Config, s: State, steps: seq<Step>): Option<State>
    decreases |steps|
  {
    if steps == [] then Some(s)
    else
      match Exec(cfg, s, steps[..|steps| - 1])
      case None => None
      case Some(t) =>
        var step := steps[|steps| - 1];
        if Enabled(cfg, t, step) then Some(Apply(cfg, t, step)) else None
  }

  // ---- The composed invariant ----

  /** The consumers and message handlers there are, are those the supervisor runs. */
  ghost predicate Coupled(cfg: Config, s: State) {
    && (s.box.consumers == [] <==> forall g :: !Serving(s.sup, g, cfg.pub))
    && (forall g :: g in s.rpc.handlers <==> Serving(s.sup, g, cfg.rpcSink))
    && s.rpc.done == (s.sup.main == Supervisor.Stopped)
  }

  ghost predicate Inv(cfg: Config, s: State) {
    Supervisor.Inv(s.sup) && Outbox.Inv(s.box) && Rpc.Inv(s.rpc) && Coupled(cfg, s)
  }

  /** When the supervisor lets a publisher start, no other consumer of its outbox runs. */
  lemma PublisherStartsAlone(cfg: Config, s: State, g: nat, c: nat)
    requires Inv(cfg, s) && Enabled(cfg, s, Sup(Supervisor.Open(g, true), c))
    requires s.sup.runners[g].handler == cfg.pub
    ensures s.box.consumers == []
  {
    forall f ensures !Serving(s.sup, f, cfg.pub) {}
  }

  /** The supervisor keeps the promises module Rpc relies on. */
  lemma SupervisorIsOrderly(cfg: Config, s: State, step: Supervisor.Step, c: nat)
    requires Inv(cfg, s) && Enabled(cfg, s, Sup(step, c))
    ensures OpensAs(s, step, cfg.rpcSink) ==> Rpc.Orderly(s.rpc, Rpc.Start(step.g))
    ensures step.CloseDone? ==> Rpc.Orderly(s.rpc, Rpc.BrokerDone)
  {
    if step.CloseDone? {
      assert s.sup.runners == map[];
      assert forall g :: g !in s.rpc.handlers;
    }
  }

  lemma BoxAfterKeepsInv(cfg: Config, s: State, step: Supervisor.Step, c: nat)
    requires Inv(cfg, s) && Enabled(cfg, s, Sup(step, c))
    ensures Outbox.Inv(BoxAfter(cfg, s, step, c))
  {
    if OpensAs(s, step, cfg.pub) {
      PublisherStartsAlone(cfg, s, step.g, c);
      Outbox.StepKeepsInv(s.box, Outbox.Start);
    } else if ReturnsAs(s, step, cfg.pub) {
      Outbox.StepKeepsInv(s.box, Outbox.Stop(c));
    } else if step.CancelGlobal? {
      Outbox.StepKeepsInv(s.box, Outbox.CancelGlobal);
    }
  }

  lemma RpcAfterKeepsInv(cfg: Config, s: State, step: Supervisor.Step, c: nat)
    requires Inv(cfg, s) && Enabled(cfg, s, Sup(step, c))
    ensures Rpc.Inv(RpcAfter(cfg, s, step, c))
  {
    SupervisorIsOrderly(cfg, s, step, c);
    if OpensAs(s, step, cfg.rpcSink) {
      Rpc.StepKeepsInv(s.rpc, Rpc.Start(step.g));
    } else if ReturnsAs(s, step, cfg.rpcSink) {
      Rpc.StepKeepsInv(s.rpc, Rpc.Stop(step.g));
    } else if step.CloseDone? {
      Rpc.StepKeepsInv(s.rpc, Rpc.BrokerDone);
    }
  }

  /** Which goroutines serve which handler changes only by opening and returning. */
  lemma ServingChanges(sup: Supervisor.State, step: Supervisor.Step, g: nat, h: nat)
    requires Supervisor.Inv(sup) && Supervisor.Enabled(sup, step)
    ensures var t := Supervisor.Apply(sup, step);
            Serving(t, g, h) ==
            if step.Open? && step.g == g then step.ok && sup.runners[g].handler == h
            else if step.Return? && step.g == g then false
            else Serving(sup, g, h)
    ensures Supervisor.Apply(sup, step).main == Supervisor.Stopped <==>
              sup.main == Supervisor.Stopped || step.CloseDone?
  {
  }

  /** The outbox gains its consumer and loses it with the publisher's goroutine. */
  lemma ConsumersAfter(cfg: Config, s: State, step: Supervisor.Step, c: nat)
    requires Inv(cfg, s) && Enabled(cfg, s, Sup(step, c))
    ensures BoxAfter(cfg, s, step, c).consumers == [] <==>
              if OpensAs(s, step, cfg.pub) then false
              else ReturnsAs(s, step, cfg.pub) || s.box.consumers == []
  {
    hide Rpc.Inv, Supervisor.Inv, Supervisor.Apply;
  }

  lemma ServedByOne(cfg: Config, s: State, f: nat, g: nat)
    requires Inv(cfg, s) && Serving(s.sup, f, cfg.pub) && Serving(s.sup, g, cfg.pub)
    ensures f == g
  {
  }

  lemma SupKeepsBoxCoupled(cfg: Config, s: State, step: Supervisor.Step, c: nat)
    requires Inv(cfg, s) && Enabled(cfg, s, Sup(step, c))
    ensures var t := Apply(cfg, s, Sup(step, c));
            t.box.consumers == [] <==> forall g :: !Serving(t.sup, g, cfg.pub)
  {
    hide Rpc.Inv, Outbox.Inv, Supervisor.Apply, BoxAfter, RpcAfter;
    var t := Apply(cfg, s, Sup(step, c));
    ConsumersAfter(cfg, s, step, c);
    forall g ensures Serving(t.sup, g, cfg.pub) ==
                     if step.Open? && step.g == g then step.ok && s.sup.runners[g].handler == cfg.pub
                     else if step.Return? && step.g == g then false
                     else Serving(s.sup, g, cfg.pub) {
      ServingChanges(s.sup, step, g, cfg.pub);
    }
    if OpensAs(s, step, cfg.pub) {
      assert Serving(t.sup, step.g, cfg.pub);
    } else if ReturnsAs(s, step, cfg.pub) {
      forall g ensures !Serving(t.sup, g, cfg.pub) {
        if Serving(s.sup, g, cfg.pub) {
          ServedByOne(cfg, s, g, step.g);
        }
      }
    } else {
      forall g ensures Serving(t.sup, g, cfg.pub) == Serving(s.sup, g, cfg.pub) {}
    }
  }

  lemma SupKeepsRpcCoupled(cfg: Config, s: State, step: Supervisor.Step, c: nat)
    requires Inv(cfg, s) && Enabled(cfg, s, Sup(step, c))
    ensures var t := Apply(cfg, s, Sup(step, c));
            && (forall g :: g in t.rpc.handlers <==> Serving(t.sup, g, cfg.rpcSink))
            && t.rpc.done == (t.sup.main == Supervisor.Stopped)
  {
    hide Rpc.Inv, Outbox.Inv, Supervisor.Inv;
    var t := Apply(cfg, s, Sup(step, c));
    forall g ensures g in t.rpc.handlers <==> Serving(t.sup, g, cfg.rpcSink) {
      ServingChanges(s.sup, step, g, cfg.rpcSink);
    }
    ServingChanges(s.sup, step, 0, cfg.rpcSink);
  }

  lemma SupKeepsInv(cfg: Config, s: State, step: Supervisor.Step, c: nat)
    requires Inv(cfg, s) && Enabled(cfg, s, Sup(step, c))
    ensures Inv(cfg, Apply(cfg, s, Sup(step, c)))
  {
    Supervisor.StepKeepsInv(s.sup, step);
    BoxAfterKeepsInv(cfg, s, step, c);
    RpcAfterKeepsInv(cfg, s, step, c);
    SupKeepsBoxCoupled(cfg, s, step, c);
    SupKeepsRpcCoupled(cfg, s, step, c);
  }

  lemma StepKeepsInv(cfg: Config, s: State, step: Step)
    requires Inv(cfg, s) && Enabled(cfg, s, step)
    ensures Inv(cfg, Apply(cfg, s, step))
  {
    match step
    case Sup(st, c) => SupKeepsInv(cfg, s, st, c);
    case Box(st) =>
      Outbox.StepKeepsInv(s.box, st);
      Outbox.InnerStepsKeepConsumers(s.box, st);
    case Call(st) =>
      Rpc.StepKeepsInv(s.rpc, st);
      Rpc.InnerStepsKeepHandlers(s.rpc, st);
      assert forall g :: g in Rpc.Apply(s.rpc, st).handlers.Keys <==> g in s.rpc.handlers.Keys;
  }

  lemma InitHolds(cfg: Config)
    ensures Inv(cfg, INIT)
  {
    Outbox.InitHolds();
    Rpc.InitHolds();
    Supervisor.InitHolds();
  }

  lemma {:induction false} RunKeepsInv(cfg: Config, steps: seq<Step>)
    requires Exec(cfg, INIT, steps).Some?
    ensures Inv(cfg, Exec(cfg, INIT, steps).value)
    decreases |steps|
  {
    if steps == [] {
      InitHolds(cfg);
    } else {
      RunKeepsInv(cfg, steps[..|steps| - 1]);
      StepKeepsInv(cfg, Exec(cfg, INIT, steps[..|steps| - 1]).value, steps[|steps| - 1]);
    }
  }

  // ---- What holds of every run ----

  /** The outbox delivers its log: over any run, through any number of connections and with any
      number of producers, nothing panics, at most one consumer runs, every message put is settled or
      pending in put order, the attempts are those of a sequential sender of the log, and the broker's
      log is the settled messages without the failed `Try` ones, plus at most the front. */
  lemma {:induction false} OutboxDeliversItsLog(cfg: Config, steps: seq<Step>)
    requires Exec(cfg, INIT, steps).Some?
    ensures var box := Exec(cfg, INIT, steps).value.box;
            && !box.panicked && |box.consumers| <= 1
            && box.puts == SendLog.Msgs(box.settled) + box.pending
            && SendLog.Cursor(box.puts, box.wire).Some?
            && |box.settled| <= SendLog.Cursor(box.puts, box.wire).value <= |box.settled| + 1
            && (|| SendLog.Accepted(box.wire) == SendLog.Accepted(box.settled)
                || (box.pending != []
                    && SendLog.Accepted(box.wire) == SendLog.Accepted(box.settled) + [box.pending[0]]))
  {
    RunKeepsInv(cfg, steps);
    Outbox.OutboxIsASequentialSender(Exec(cfg, INIT, steps).value.box);
  }

  /** The log is one log: whatever was put, settled or sent stays as it is in every continuation. */
  lemma {:induction false} HistoriesOnlyGrow(cfg: Config, steps: seq<Step>, more: seq<Step>)
    requires Exec(cfg, INIT, steps).Some? && Exec(cfg, INIT, steps + more).Some?
    ensures var a := Exec(cfg, INIT, steps).value.box;
            var b := Exec(cfg, INIT, steps + more).value.box;
            a.puts <= b.puts && a.settled <= b.settled && a.wire <= b.wire
    decreases |more|
  {
    if more == [] {
      assert steps + more == steps;
    } else {
      var front, last := more[..|more| - 1], more[|more| - 1];
      assert (steps + more)[..|steps + more| - 1] == steps + front;
      assert (steps + more)[|steps + more| - 1] == last;
      HistoriesOnlyGrow(cfg, steps, front);
      RunKeepsInv(cfg, steps + front);
      StepKeepsHistories(cfg, Exec(cfg, INIT, steps + front).value, last);
    }
  }

  lemma StepKeepsHistories(cfg: Config, s: State, step: Step)
    requires Inv(cfg, s) && Enabled(cfg, s, step)
    ensures Outbox.Extends(s.box, Apply(cfg, s, step).box)
  {
    hide Rpc.Inv, Outbox.Inv, Supervisor.Inv, Rpc.Enabled, Supervisor.Enabled;
    match step
    case Sup(_, _) =>
    case Box(st) => Outbox.StepExtends(s.box, st);
    case Call(_) =>
  }

  /** Every settled `Done` message was accepted exactly once, every settled `Try` message attempted
      exactly once, and no message is sent before its turn. */
  lemma {:induction false} SettledExactlyOnce(cfg: Config, steps: seq<Step>, i: nat)
    requires Exec(cfg, INIT, steps).Some? && i < |Exec(cfg, INIT, steps).value.box.puts|
    ensures var box := Exec(cfg, INIT, steps).value.box;
            var m := box.puts[i];
            && (i < |box.settled| && m.kind.DoneKind? ==> SendLog.TimesAccepted(box.wire, m) == 1)
            && (i < |box.settled| && m.kind.TryKind? ==>
                  SendLog.Times(box.wire, m) == 1
                  && SendLog.TimesAccepted(box.wire, m) == if box.settled[i].ok then 1 else 0)
            && (i > |box.settled| ==> SendLog.Times(box.wire, m) == 0)
  {
    RunKeepsInv(cfg, steps);
    Outbox.FateOfSlot(Exec(cfg, INIT, steps).value.box, i);
  }

  /** An answer given to a caller is true, in every run. */
  lemma {:induction false} AnswersAreTrue(cfg: Config, steps: seq<Step>, p: nat)
    requires Exec(cfg, INIT, steps).Some? && p in Exec(cfg, INIT, steps).value.box.calls
    ensures var box := Exec(cfg, INIT, steps).value.box;
            var m := SendLog.Msg(p, box.calls[p].kind);
            && (box.calls[p].pc == Outbox.Returned(Outbox.Completed) ==> SendLog.TimesAccepted(box.wire, m) == 1)
            && (box.calls[p].pc == Outbox.Returned(Outbox.PublishFailed) ==>
                  m.kind.TryKind? && SendLog.Times(box.wire, m) == 1 && SendLog.TimesAccepted(box.wire, m) == 0)
            && (m.kind.TryKind? && box.calls[p].pc != Outbox.Returned(Outbox.Rejected) ==>
                  SendLog.Times(box.wire, m) <= 1)
            && (m.kind.DoneKind? && box.calls[p].pc != Outbox.Returned(Outbox.Rejected) ==>
                  p in box.dones ==> box.dones[p].closed ==> SendLog.TimesAccepted(box.wire, m) == 1)
  {
    RunKeepsInv(cfg, steps);
    Outbox.CallersLearnTheTruth(Exec(cfg, INIT, steps).value.box, p);
  }

  /** No lost wake-up, and few idle ones: a waiting consumer with work has a notification buffered or
      a producer about to offer one, and notifications that found the queue empty are no more than
      the messages settled, so `Peek` cannot spin. */
  lemma {:induction false} ConsumerIsWoken(cfg: Config, steps: seq<Step>)
    requires Exec(cfg, INIT, steps).Some?
    ensures var box := Exec(cfg, INIT, steps).value.box;
            && (box.consumers == [Outbox.Waiting] && box.pending != [] ==>
                  box.token || exists p :: Outbox.CallAt(box, p, Outbox.Offering))
            && box.spins <= |box.settled| <= |box.puts|
  {
    RunKeepsInv(cfg, steps);
  }

  /** Sweep and handlers never meet: over any run no reply channel is sent to or closed after it was
      closed, and once the sweep is over a call is resolved if and only if it was registered before. */
  lemma {:induction false} RpcIsSafe(cfg: Config, steps: seq<Step>, ch: nat)
    requires Exec(cfg, INIT, steps).Some?
    ensures var rpc := Exec(cfg, INIT, steps).value.rpc;
            && !rpc.panicked
            && (rpc.sweep != Rpc.NotYet ==> rpc.handlers == map[])
            && (ch < |rpc.chans| && rpc.sweep == Rpc.Swept ==> (rpc.chans[ch].closed <==> ch < rpc.sweptFrom))
  {
    RunKeepsInv(cfg, steps);
    var rpc := Exec(cfg, INIT, steps).value.rpc;
    if ch < |rpc.chans| && rpc.sweep == Rpc.Swept {
      Rpc.ResolvedIffRegisteredBeforeSweep(rpc, ch);
    }
  }

  /** What has become of a call stays: an answer is never replaced and a swept call never answered. */
  ghost predicate StaysResolved(a: Rpc.Fate, b: Rpc.Fate) {
    match a
    case Open => true
    case Claimed(_, d) => (b.Claimed? || b.Delivered? || b.Answered?) && b.d == d
    case Delivered(_, d) => (b.Delivered? || b.Answered?) && b.d == d
    case Answered(d) => b == a
    case SweptAway => b == a
  }

  lemma StepKeepsResolved(cfg: Config, s: State, step: Step, ch: nat)
    requires Inv(cfg, s) && Enabled(cfg, s, step) && ch < |s.rpc.fates|
    ensures ch < |Apply(cfg, s, step).rpc.fates|
    ensures StaysResolved(s.rpc.fates[ch], Apply(cfg, s, step).rpc.fates[ch])
  {
    hide Rpc.Inv, Outbox.Inv, Supervisor.Inv, Outbox.Apply, Outbox.Enabled, Rpc.Enabled, Supervisor.Enabled;
    match step
    case Sup(st, c) => SupervisorIsOrderly(cfg, s, st, c);
    case Box(_) =>
    case Call(st) => Rpc.FirstReplyWins(s.rpc, st, ch);
  }

  lemma {:induction false} CallsStayResolved(cfg: Config, steps: seq<Step>, more: seq<Step>, ch: nat)
    requires Exec(cfg, INIT, steps).Some? && ch < |Exec(cfg, INIT, steps).value.rpc.fates|
    requires Exec(cfg, INIT, steps + more).Some?
    ensures var a := Exec(cfg, INIT, steps).value.rpc.fates;
            var b := Exec(cfg, INIT, steps + more).value.rpc.fates;
            ch < |b| && StaysResolved(a[ch], b[ch])
    decreases |more|
  {
    if more == [] {
      assert steps + more == steps;
    } else {
      var front, last := more[..|more| - 1], more[|more| - 1];
      assert (steps + more)[..|steps + more| - 1] == steps + front;
      assert (steps + more)[|steps + more| - 1] == last;
      CallsStayResolved(cfg, steps, front, ch);
      RunKeepsInv(cfg, steps + front);
      StepKeepsResolved(cfg, Exec(cfg, INIT, steps + front).value, last, ch);
    }
  }
}
