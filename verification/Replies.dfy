/** What the callers of an RPC client see (rpc.go), over every run of the whole client, and what becomes
    of calls made when the client has stopped. */
module Replies {
  import opened Channels
  import opened SendLog
  import Supervisor
  import Outbox
  import Rpc
  import opened System

  /** In every run, until the sweep, the table is exactly the registered calls whose reply was not taken
      out by `onMessage`. */
  lemma {:induction false} TableInEveryRun(cfg: Config, steps: seq<Step>, id: nat)
    requires Exec(cfg, INIT, steps).Some?
    ensures var rpc := Exec(cfg, INIT, steps).value.rpc;
            && |rpc.owners| == |rpc.fates|
            && (rpc.sweep == Rpc.NotYet ==>
                  (id in rpc.correlation <==>
                     exists ch :: 0 <= ch < |rpc.owners| && rpc.owners[ch] == id && rpc.fates[ch] == Rpc.Open))
  {
    RunKeepsInv(cfg, steps);
    var rpc := Exec(cfg, INIT, steps).value.rpc;
    Rpc.TableIsRegisteredMinusDelivered(rpc, id);
    if id in rpc.correlation {
      assert Rpc.Listed(rpc, rpc.correlation[id]);
    }
  }

  /** In every run, whatever a caller reads was sent for its own id, and all its reads agree. */
  lemma {:induction false} ReadsInEveryRun(cfg: Config, steps: seq<Step>, r: Rpc.Read, q: Rpc.Read)
    requires Exec(cfg, INIT, steps).Some?
    ensures var rpc := Exec(cfg, INIT, steps).value.rpc;
            r in rpc.seen && q in rpc.seen && r.ch == q.ch && r.reply.Some? ==>
              && r.ch < |rpc.owners| && r.reply.value.correlation == rpc.owners[r.ch]
              && (q.reply.Some? ==> q.reply == r.reply)
  {
    RunKeepsInv(cfg, steps);
    var rpc := Exec(cfg, INIT, steps).value.rpc;
    if r in rpc.seen && q in rpc.seen && r.ch == q.ch && r.reply.Some? {
      Rpc.ReadersGetTheirOwnReply(rpc, r, q);
    }
  }

  /** In every run, a running `onMessage` finds room for its send and an open channel for its close, and
      one with an unknown or served id changes nothing but its own position. */
  lemma {:induction false} HandlersInEveryRun(cfg: Config, steps: seq<Step>, k: nat)
    requires Exec(cfg, INIT, steps).Some?
    ensures var rpc := Exec(cfg, INIT, steps).value.rpc;
            k in rpc.handlers ==>
              && (rpc.handlers[k].Sending? ==>
                    Rpc.Enabled(rpc, Rpc.Send(k)) && !Rpc.Apply(rpc, Rpc.Send(k)).panicked)
              && (rpc.handlers[k].Closing? ==>
                    Rpc.Enabled(rpc, Rpc.Close(k)) && !Rpc.Apply(rpc, Rpc.Close(k)).panicked)
              && (rpc.handlers[k].Looking? && NobodyWaits(rpc, rpc.handlers[k].d.correlation) ==>
                    && Rpc.Enabled(rpc, Rpc.Look(k))
                    && Rpc.Apply(rpc, Rpc.Look(k)) == rpc.(handlers := rpc.handlers[k := Rpc.Idle]))
  {
    RunKeepsInv(cfg, steps);
    var rpc := Exec(cfg, INIT, steps).value.rpc;
    if k in rpc.handlers {
      Rpc.RepliesGoThrough(rpc, k);
      if rpc.handlers[k].Looking? && NobodyWaits(rpc, rpc.handlers[k].d.correlation) {
        assert Rpc.LockFree(rpc);
        Rpc.LateRepliesChangeNothing(rpc, k);
      }
    }
  }

  predicate NobodyWaits(rpc: Rpc.State, id: nat) {
    && |rpc.owners| == |rpc.fates|
    && forall ch :: 0 <= ch < |rpc.owners| && rpc.owners[ch] == id ==> rpc.fates[ch] != Rpc.Open
  }

  // ---- After the end ----

  lemma StaysSwept(cfg: Config, s: State, step: Step)
    requires Inv(cfg, s) && Enabled(cfg, s, step) && s.rpc.sweep == Rpc.Swept
    ensures var t := Apply(cfg, s, step);
            t.rpc.sweep == Rpc.Swept && t.rpc.sweptFrom == s.rpc.sweptFrom && |s.rpc.chans| <= |t.rpc.chans|
  {
    hide Outbox.Inv, Supervisor.Inv, Outbox.Apply, Outbox.Enabled;
  }

  lemma {:induction false} RunStaysSwept(cfg: Config, steps: seq<Step>, more: seq<Step>)
    requires Exec(cfg, INIT, steps).Some? && Exec(cfg, INIT, steps + more).Some?
    requires Exec(cfg, INIT, steps).value.rpc.sweep == Rpc.Swept
    ensures var a, b := Exec(cfg, INIT, steps).value.rpc, Exec(cfg, INIT, steps + more).value.rpc;
            b.sweep == Rpc.Swept && b.sweptFrom == a.sweptFrom && |a.chans| <= |b.chans|
    decreases |more|
  {
    hide Inv, Enabled, Apply;
    if more == [] {
      assert steps + more == steps;
    } else {
      var front, last := more[..|more| - 1], more[|more| - 1];
      assert (steps + more)[..|steps + more| - 1] == steps + front;
      assert (steps + more)[|steps + more| - 1] == last;
      RunStaysSwept(cfg, steps, front);
      RunKeepsInv(cfg, steps + front);
      StaysSwept(cfg, Exec(cfg, INIT, steps + front).value, last);
    }
  }

  /** A call registered after the sweep is never resolved: in every continuation its channel is open and
      empty, and a receive from it blocks. */
  lemma LateCallStaysOpen(cfg: Config, steps: seq<Step>, more: seq<Step>, ch: nat)
    requires Exec(cfg, INIT, steps).Some? && Exec(cfg, INIT, steps + more).Some?
    requires var rpc := Exec(cfg, INIT, steps).value.rpc;
             rpc.sweep == Rpc.Swept && rpc.sweptFrom <= ch < |rpc.chans|
    ensures var rpc := Exec(cfg, INIT, steps + more).value.rpc;
            ch < |rpc.chans| && !rpc.chans[ch].closed && Receive(rpc.chans[ch]).ReceiveBlocks?
  {
    RunStaysSwept(cfg, steps, more);
    RunKeepsInv(cfg, steps + more);
    Rpc.ResolvedIffRegisteredBeforeSweep(Exec(cfg, INIT, steps + more).value.rpc, ch);
  }

  /** Once `done` is closed the publisher's queue has no consumer any more. */
  predicate AtEnd(s: State) {
    s.sup.main == Supervisor.Stopped && s.box.consumers == []
  }

  lemma StoppedIsTheEnd(cfg: Config, s: State)
    requires Inv(cfg, s) && s.sup.main == Supervisor.Stopped
    ensures AtEnd(s)
  {
    assert forall g :: !Serving(s.sup, g, cfg.pub);
  }

  lemma EndStays(cfg: Config, s: State, step: Step)
    requires Inv(cfg, s) && Enabled(cfg, s, step) && AtEnd(s)
    ensures var t := Apply(cfg, s, step);
            AtEnd(t) && t.box.wire == s.box.wire && t.box.settled == s.box.settled
  {
    hide Rpc.Inv, Rpc.Apply, Rpc.Enabled, Outbox.Inv;
    if step.Sup? {
      Supervisor.StoppedTakesNoPart(s.sup, step.step);
    } else if step.Box? && step.boxStep.Take? {
      hide Supervisor.Inv;
      Outbox.TakeTouchesNoHistory(s.box, step.boxStep.p);
      Outbox.TakeIsOnlyCalls(s.box, step.boxStep.p);
    }
  }

  /** From the moment `done` is closed nothing is sent, in any continuation. */
  lemma {:induction false} NothingIsSentAfterTheEnd(cfg: Config, steps: seq<Step>, more: seq<Step>)
    requires Exec(cfg, INIT, steps).Some? && Exec(cfg, INIT, steps + more).Some?
    requires Exec(cfg, INIT, steps).value.sup.main == Supervisor.Stopped
    ensures var a, b := Exec(cfg, INIT, steps).value, Exec(cfg, INIT, steps + more).value;
            AtEnd(b) && b.box.wire == a.box.wire && b.box.settled == a.box.settled
    decreases |more|
  {
    hide Inv, AtEnd, Enabled, Apply;
    RunKeepsInv(cfg, steps);
    StoppedIsTheEnd(cfg, Exec(cfg, INIT, steps).value);
    if more == [] {
      assert steps + more == steps;
    } else {
      var front, last := more[..|more| - 1], more[|more| - 1];
      assert (steps + more)[..|steps + more| - 1] == steps + front;
      assert (steps + more)[|steps + more| - 1] == last;
      NothingIsSentAfterTheEnd(cfg, steps, front);
      RunKeepsInv(cfg, steps + front);
      EndStays(cfg, Exec(cfg, INIT, steps + front).value, last);
    }
  }

  /** So a `Done` not settled by then is never closed, nor is one put later: `Raw`, which waits for the
      `Done` of its request before it returns, never returns. */
  lemma RawWaitsForEver(cfg: Config, steps: seq<Step>, more: seq<Step>, i: nat)
    requires Exec(cfg, INIT, steps).Some? && Exec(cfg, INIT, steps + more).Some?
    requires Exec(cfg, INIT, steps).value.sup.main == Supervisor.Stopped
    ensures var a, b := Exec(cfg, INIT, steps).value.box, Exec(cfg, INIT, steps + more).value.box;
            |a.settled| <= i < |b.puts| && b.puts[i].kind.DoneKind? ==>
              var p := b.puts[i].id;
              && p in b.dones && !b.dones[p].closed && Receive(b.dones[p]).ReceiveBlocks?
              && p in b.calls && b.calls[p].pc != Outbox.Returned(Outbox.Completed)
  {
    NothingIsSentAfterTheEnd(cfg, steps, more);
    RunKeepsInv(cfg, steps + more);
    var a, b := Exec(cfg, INIT, steps).value.box, Exec(cfg, INIT, steps + more).value.box;
    if |a.settled| <= i < |b.puts| && b.puts[i].kind.DoneKind? {
      Outbox.DoneIsClosedExactly(b, i);
      assert Outbox.CallServed(b, i);
    }
  }

  ghost predicate Reachable(cfg: Config, s: State) {
    exists steps :: Exec(cfg, INIT, steps) == Some(s)
  }

  lemma Reach(cfg: Config, s: State, step: Step)
    requires Reachable(cfg, s) && Enabled(cfg, s, step)
    ensures Reachable(cfg, Apply(cfg, s, step))
  {
    var steps :| Exec(cfg, INIT, steps) == Some(s);
    assert (steps + [step])[..|steps|] == steps;
    assert Exec(cfg, INIT, steps + [step]) == Some(Apply(cfg, s, step));
  }

  /** No broker is reached, and the context ends. */
  lemma FailToConnect(cfg: Config) returns (s: State)
    ensures Reachable(cfg, s)
    ensures s == State(Supervisor.INIT.(main := Supervisor.Idle, globalDone := true),
                       Outbox.INIT.(globalDone := true), Rpc.INIT)
  {
    assert Exec(cfg, INIT, []) == Some(INIT);
    assert Reachable(cfg, INIT);
    hide Reachable;
    Reach(cfg, INIT, Sup(Supervisor.Dial(false), 0));
    s := INIT.(sup := Supervisor.INIT.(main := Supervisor.Idle));
    assert Apply(cfg, INIT, Sup(Supervisor.Dial(false), 0)) == s;
    Reach(cfg, s, Sup(Supervisor.CancelGlobal, 0));
    s := Apply(cfg, s, Sup(Supervisor.CancelGlobal, 0));
  }

  lemma GiveUpConnecting(cfg: Config, s: State) returns (t: State)
    requires Reachable(cfg, s) && !s.box.panicked && !s.rpc.panicked && !s.rpc.done
    requires s.sup.main == Supervisor.Idle && s.sup.globalDone
    ensures Reachable(cfg, t) && t.sup.main == Supervisor.Stopped
    ensures t.box == s.box && t.rpc == s.rpc.(done := true)
  {
    hide Reachable;
    Reach(cfg, s, Sup(Supervisor.Abort, 0));
    t := s.(sup := s.sup.(main := Supervisor.Stopping));
    assert Apply(cfg, s, Sup(Supervisor.Abort, 0)) == t;
    Reach(cfg, t, Sup(Supervisor.CloseDone, 0));
    t := Apply(cfg, t, Sup(Supervisor.CloseDone, 0));
  }

  /** The table, empty, is swept. */
  lemma SweepNothing(cfg: Config, s: State) returns (t: State)
    requires Reachable(cfg, s) && !s.box.panicked && s.rpc == Rpc.INIT.(done := true)
    ensures Reachable(cfg, t) && t == s.(rpc := s.rpc.(sweep := Rpc.Swept))
  {
    hide Reachable;
    Reach(cfg, s, Call(Rpc.SweepBegin));
    t := Apply(cfg, s, Call(Rpc.SweepBegin));
    assert t.rpc.sweep == Rpc.Sweeping({});
    Reach(cfg, t, Call(Rpc.SweepEnd));
    t := Apply(cfg, t, Call(Rpc.SweepEnd));
  }

  /** Such a call exists: registered after the sweep, with its request put and its caller waiting. */
  lemma CallAfterTheSweep(cfg: Config)
    ensures exists s :: Reachable(cfg, s) && s.sup.main == Supervisor.Stopped && s.rpc.sweep == Rpc.Swept
                        && |s.rpc.chans| == 1 && s.rpc.sweptFrom == 0 && !s.rpc.chans[0].closed
                        && s.box.puts == [Msg(0, DoneKind)] && s.box.settled == []
                        && Outbox.CallAt(s.box, 0, Outbox.Blocked)
  {
    hide Reachable;
    var s := FailToConnect(cfg);
    s := GiveUpConnecting(cfg, s);
    s := SweepNothing(cfg, s);
    Reach(cfg, s, Call(Rpc.Register(0)));
    s := Apply(cfg, s, Call(Rpc.Register(0)));
    Reach(cfg, s, Box(Outbox.Push(0, DoneKind)));
    s := Apply(cfg, s, Box(Outbox.Push(0, DoneKind)));
    Reach(cfg, s, Box(Outbox.Offer(0)));
    s := Apply(cfg, s, Box(Outbox.Offer(0)));
    assert s.box.puts == [Msg(0, DoneKind)];
  }
}
