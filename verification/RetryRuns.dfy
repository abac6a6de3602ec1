/** Runs of the delivery machine, built piece by piece: what module RetryLimit shows to be possible.

    Between two pieces the machine is at rest: every delivery is settled and the one responder of the
    requeue queue is in its select. */
module RetryRuns {
  import opened Channels
  import opened Headers
  import opened Delivery
  import Conservation
  import Handshake

  /** Nothing goes wrong in the step: no connection is lost, no publish to the requeue queue is refused,
      the context does not end, and no delivery meets the sink before its requeue is set. */
  predicate HealthyStep(step: Step) {
    match step
    case Lose(_) => false
    case Run(_, _, _, requeueSet) => requeueSet
    case Requeuer(st) => !st.CancelGlobal? && (st.Publish? ==> st.ok)
    case _ => true
  }

  predicate Healthy(steps: seq<Step>) {
    forall i :: 0 <= i < |steps| ==> HealthyStep(steps[i])
  }

  ghost predicate Reachable(cfg: Config, s: State, healthy: bool) {
    exists steps :: Exec(cfg, INIT, steps) == Some(s) && (healthy ==> Healthy(steps))
  }

  lemma InitReachable(cfg: Config, healthy: bool)
    ensures Reachable(cfg, INIT, healthy)
  {
    assert Exec(cfg, INIT, []) == Some(INIT);
  }

  lemma Reach(cfg: Config, s: State, step: Step, healthy: bool)
    requires Reachable(cfg, s, healthy) && Enabled(cfg, s, step) && (healthy ==> HealthyStep(step))
    ensures Reachable(cfg, Apply(cfg, s, step), healthy)
  {
    var steps :| Exec(cfg, INIT, steps) == Some(s) && (healthy ==> Healthy(steps));
    assert (steps + [step])[..|steps|] == steps;
    assert Exec(cfg, INIT, steps + [step]) == Some(Apply(cfg, s, step));
  }

  lemma ReachableIsSound(cfg: Config, s: State, healthy: bool)
    requires Reachable(cfg, s, healthy)
    ensures Sound(cfg, s)
  {
    var steps :| Exec(cfg, INIT, steps) == Some(s) && (healthy ==> Healthy(steps));
    Conservation.RunKeepsInv(cfg, steps);
  }

  ghost predicate Rest(s: State) {
    && !s.hs.panicked && s.hs.queue == Chan(1, [], false)
    && s.hs.responders == map[0 := Handshake.Selecting]
    && (forall r :: r in s.hs.callers ==> r < |s.procs|)
    && (forall r :: r in s.copyOf ==> r < |s.procs|)
    && (forall d :: 0 <= d < |s.procs| ==> s.procs[d].pc == Settled && !s.procs[d].live)
  }

  /** Policy with willing handlers lets copy `c` through. */
  predicate Admissible(cfg: Config, s: State, c: nat) {
    && cfg.limit >= 0 && c < |s.copies| && s.copies[c].loc == InTarget
    && (Redelivery(s.copies[c].headers) <= cfg.limit || cfg.expired == Decides)
  }

  // ---- Pieces of one delivery ----

  lemma DeliverAndPass(cfg: Config, s: State, c: nat, healthy: bool) returns (t: State)
    requires Reachable(cfg, s, healthy) && !s.hs.panicked && Admissible(cfg, s, c)
    ensures Reachable(cfg, t, healthy)
    ensures t == s.(copies := s.copies[c := s.copies[c].(loc := Unacked(|s.procs|))],
                    procs := s.procs + [Proc(c, true, Handling, 0)])
  {
    hide Reachable;
    var d := |s.procs|;
    Reach(cfg, s, Deliver(c, 0), healthy);
    var s1 := ApplyDeliver(s, c, 0);
    Reach(cfg, s1, Judge(d, true, true), healthy);
    var s2 := SetPc(s1, d, Filtering);
    assert Apply(cfg, s1, Judge(d, true, true)) == s2;
    Reach(cfg, s2, Filter(d, true), healthy);
    t := SetPc(s2, d, Handling);
    assert t.procs == s.procs + [Proc(c, true, Handling, 0)];
  }

  /** A new delivery of copy `c` fails. */
  lemma FailOnce(cfg: Config, s: State, c: nat, requeueSet: bool, healthy: bool) returns (t: State)
    requires Reachable(cfg, s, healthy) && !s.hs.panicked && Admissible(cfg, s, c)
    requires |s.procs| !in s.hs.callers && (healthy ==> requeueSet)
    ensures Reachable(cfg, t, healthy)
    ensures var d, asks := |s.procs|, cfg.requeue && requeueSet;
            && t.copies == s.copies[c := s.copies[c].(loc := Unacked(d))]
            && t.procs == s.procs + [Proc(c, true, if asks then Requesting else Delivery.Returning, 0)]
            && t.copyOf == s.copyOf
            && t.events == s.events + multiset{Ran(s.copies[c].orig, false)}
            && t.bodies == (if asks then s.bodies[d := s.copies[c].headers[LAST_ERROR := Text("")]] else s.bodies)
            && t.hs == if asks then Handshake.Apply(s.hs, Handshake.Call(d)) else s.hs
  {
    hide Reachable;
    var d := |s.procs|;
    var s1 := DeliverAndPass(cfg, s, c, healthy);
    Reach(cfg, s1, Run(d, false, "", requeueSet), healthy);
    t := ApplyRun(cfg, s1, d, false, "", requeueSet);
  }

  lemma ReachInHandshake(cfg: Config, s: State, st: Handshake.Step, healthy: bool)
    requires Reachable(cfg, s, healthy) && Handshake.Enabled(s.hs, st) && !st.Call? && !st.Publish?
    requires healthy ==> !st.CancelGlobal?
    ensures Reachable(cfg, s.(hs := Handshake.Apply(s.hs, st)), healthy)
  {
    hide Reachable;
    assert Enabled(cfg, s, Requeuer(st));
    Reach(cfg, s, Requeuer(st), healthy);
  }

  /** A request is handed over and accepted. */
  lemma SubmitRequest(cfg: Config, s: State, d: nat, healthy: bool) returns (hs: Handshake.State)
    requires Reachable(cfg, s, healthy) && s.hs.queue == Chan(1, [], false) && !s.hs.panicked
    requires s.hs.responders == map[0 := Handshake.Selecting]
    requires d in s.hs.callers && s.hs.callers[d] == Handshake.Offering
    ensures Reachable(cfg, s.(hs := hs), healthy)
    ensures hs == s.hs.(callers := s.hs.callers[d := Handshake.Awaiting],
                        responders := map[0 := Handshake.Publishing(d)], places := hs.places)
  {
    hide Reachable;
    ReachInHandshake(cfg, s, Handshake.Hand(d), healthy);
    var hs1 := Handshake.Apply(s.hs, Handshake.Hand(d));
    assert hs1.queue.buf == [d];
    ReachInHandshake(cfg, s.(hs := hs1), Handshake.Accept(0), healthy);
    hs := Handshake.Apply(hs1, Handshake.Accept(0));
    assert hs.responders == map[0 := Handshake.Publishing(d)];
  }

  lemma SendAnswer(cfg: Config, s: State, d: nat, healthy: bool) returns (hs: Handshake.State)
    requires Reachable(cfg, s, healthy) && !s.hs.panicked
    requires s.hs.responders == map[0 := Handshake.Replying(d, true)]
    requires d in s.hs.replies && s.hs.replies[d] == Make(1)
    ensures Reachable(cfg, s.(hs := hs), healthy)
    ensures hs == s.hs.(responders := map[0 := Handshake.Shutting(d, true)], places := hs.places,
                        replies := s.hs.replies[d := Chan(1, [true], false)])
  {
    hide Reachable;
    ReachInHandshake(cfg, s, Handshake.Reply(0), healthy);
    hs := Handshake.ApplyReply(s.hs, 0, d, true);
    assert hs.responders == map[0 := Handshake.Shutting(d, true)];
    assert hs.replies[d] == Chan(1, [true], false);
  }

  lemma CloseAnswer(cfg: Config, s: State, d: nat, healthy: bool) returns (hs: Handshake.State)
    requires Reachable(cfg, s, healthy) && !s.hs.panicked
    requires s.hs.responders == map[0 := Handshake.Shutting(d, true)]
    requires d in s.hs.replies && s.hs.replies[d] == Chan(1, [true], false)
    ensures Reachable(cfg, s.(hs := hs), healthy)
    ensures hs == s.hs.(responders := map[0 := Handshake.Selecting], places := hs.places,
                        replies := s.hs.replies[d := Chan(1, [true], true)])
  {
    hide Reachable;
    ReachInHandshake(cfg, s, Handshake.Shut(0), healthy);
    hs := Handshake.ApplyShut(s.hs, 0, d, true);
    assert hs.responders == map[0 := Handshake.Selecting];
  }

  /** A published request is answered. */
  lemma AnswerRequest(cfg: Config, s: State, d: nat, healthy: bool) returns (hs: Handshake.State)
    requires Reachable(cfg, s, healthy) && !s.hs.panicked
    requires s.hs.responders == map[0 := Handshake.Replying(d, true)]
    requires d in s.hs.replies && s.hs.replies[d] == Make(1)
    ensures Reachable(cfg, s.(hs := hs), healthy)
    ensures hs == s.hs.(responders := map[0 := Handshake.Selecting], places := hs.places,
                        replies := s.hs.replies[d := Chan(1, [true], true)])
  {
    hide Reachable;
    var hs1 := SendAnswer(cfg, s, d, healthy);
    hs := CloseAnswer(cfg, s.(hs := hs1), d, healthy);
    assert hs.replies == s.hs.replies[d := Chan(1, [true], true)];
  }

  lemma TakeAnswer(cfg: Config, s: State, d: nat, healthy: bool) returns (hs: Handshake.State)
    requires Reachable(cfg, s, healthy) && !s.hs.panicked
    requires d in s.hs.callers && s.hs.callers[d] == Handshake.Awaiting
    requires d in s.hs.replies && s.hs.replies[d] == Chan(1, [true], true)
    ensures Reachable(cfg, s.(hs := hs), healthy)
    ensures hs == s.hs.(callers := s.hs.callers[d := Handshake.Back(Handshake.Published)], replies := hs.replies)
  {
    hide Reachable;
    ReachInHandshake(cfg, s, Handshake.TakeReply(d), healthy);
    hs := Handshake.ApplyTakeReply(s.hs, d);
  }

  /** The responder publishes the request of process `d`; without a connection that is a fork. */
  lemma PublishRequest(cfg: Config, s: State, d: nat, healthy: bool) returns (t: State)
    requires Reachable(cfg, s, healthy) && !s.hs.panicked
    requires s.hs.responders == map[0 := Handshake.Publishing(d)]
    requires d < |s.procs| && s.procs[d].copy < |s.copies| && d in s.bodies
    ensures Reachable(cfg, t, healthy)
    ensures t == s.(copies := s.copies + [Copy(OrigOf(s, d), s.bodies[d], InRequeue)],
                    copyOf := s.copyOf[d := |s.copies|],
                    events := s.events + if s.procs[d].live then multiset{} else multiset{Forked(OrigOf(s, d))},
                    hs := s.hs.(responders := map[0 := Handshake.Replying(d, true)],
                                attempts := t.hs.attempts, places := t.hs.places))
  {
    hide Reachable;
    Reach(cfg, s, Requeuer(Handshake.Publish(0, true)), healthy);
    t := ApplyRequeuer(s, Handshake.Publish(0, true));
    assert t.hs.responders == map[0 := Handshake.Replying(d, true)];
  }

  // ---- Whole deliveries, from rest to rest ----

  /** A copy made by a requeue. */
  function Requeued(s: State, c: nat): Copy
    requires c < |s.copies|
  {
    Copy(s.copies[c].orig, s.copies[c].headers[LAST_ERROR := Text("")], InRequeue)
  }

  /** A whole cycle: `fn` fails, the copy is requeued and acked. */
  lemma RequeueOnce(cfg: Config, s: State, c: nat, healthy: bool) returns (t: State)
    requires Reachable(cfg, s, healthy) && Rest(s) && cfg.requeue && Admissible(cfg, s, c)
    ensures Reachable(cfg, t, healthy) && Rest(t)
    ensures t.copies == s.copies[c := s.copies[c].(loc := Superseded)] + [Requeued(s, c)]
    ensures t.events == s.events + multiset{Ran(s.copies[c].orig, false)}
  {
    hide Reachable;
    var d := |s.procs|;
    t := FailOnce(cfg, s, c, true, healthy);
    var hs := SubmitRequest(cfg, t, d, healthy);
    t := PublishRequest(cfg, t.(hs := hs), d, healthy);
    hs := AnswerRequest(cfg, t, d, healthy);
    t := t.(hs := hs);
    hs := TakeAnswer(cfg, t, d, healthy);
    t := t.(hs := hs);
    t := AckRequeued(cfg, t, d, c, healthy);
  }

  /** The Ack after the requeue; it reaches nobody if the connection is gone. */
  lemma AckRequeued(cfg: Config, s: State, d: nat, c: nat, healthy: bool) returns (t: State)
    requires Reachable(cfg, s, healthy) && !s.hs.panicked && d < |s.procs| && c < |s.copies|
    requires s.procs[d].copy == c && s.procs[d].pc == Requesting
    requires d in s.hs.callers && s.hs.callers[d] == Handshake.Back(Handshake.Published)
    ensures Reachable(cfg, t, healthy)
    ensures t == s.(procs := s.procs[d := s.procs[d].(pc := Settled, live := false)], copies := t.copies)
    ensures t.copies == if s.procs[d].live then s.copies[c := s.copies[c].(loc := Superseded)] else s.copies
  {
    hide Reachable;
    Reach(cfg, s, Resume(d), healthy);
    t := SetPc(s, d, Acking(false));
    assert Apply(cfg, s, Resume(d)) == t;
    Reach(cfg, t, Settle(d), healthy);
    t := ApplySettle(cfg, t, d);
  }

  /** Cutting the connection of process `d`, which has no requeued copy or has one. */
  lemma LoseConnection(cfg: Config, s: State, d: nat) returns (t: State)
    requires Reachable(cfg, s, false) && !s.hs.panicked
    requires d < |s.procs| && s.procs[d].live && s.procs[d].copy < |s.copies|
    ensures Reachable(cfg, t, false)
    ensures var c, o := s.procs[d].copy, OrigOf(s, d);
            && t == s.(copies := s.copies[c := s.copies[c].(loc := InTarget)],
                       procs := s.procs[d := s.procs[d].(live := false)], events := t.events)
            && t.events == s.events + multiset{Lost(o)} + if d in s.copyOf then multiset{Forked(o)} else multiset{}
  {
    hide Reachable;
    Reach(cfg, s, Lose(d), false);
    t := ApplyLose(s, d);
  }

  /** `fn` succeeds, but the connection is lost before the Ack. */
  lemma LoseOnce(cfg: Config, s: State, c: nat) returns (t: State)
    requires Reachable(cfg, s, false) && Rest(s) && Admissible(cfg, s, c)
    ensures Reachable(cfg, t, false) && Rest(t) && t.copies == s.copies && t.hs == s.hs
    ensures var o := s.copies[c].orig; t.events == s.events + multiset{Ran(o, true)} + multiset{Lost(o)}
  {
    hide Reachable;
    var d := |s.procs|;
    t := DeliverAndPass(cfg, s, c, false);
    Reach(cfg, t, Run(d, true, "", true), false);
    t := ApplyRun(cfg, t, d, true, "", true);
    assert d !in t.copyOf;
    t := LoseConnection(cfg, t, d);
    Reach(cfg, t, Settle(d), false);
    t := ApplySettle(cfg, t, d);
    assert t.copies == s.copies;
  }

  /** `fn` fails before the sink's requeue is set, or without one: the broker gets the copy back. */
  lemma ReturnOnce(cfg: Config, s: State, c: nat, healthy: bool) returns (t: State)
    requires Reachable(cfg, s, healthy) && !s.hs.panicked && Admissible(cfg, s, c) && |s.procs| !in s.copyOf
    requires |s.procs| !in s.hs.callers && (healthy ==> !cfg.requeue)
    ensures Reachable(cfg, t, healthy)
    ensures t.copies == s.copies && t.hs == s.hs && t.copyOf == s.copyOf
    ensures t.procs == s.procs + [Proc(c, false, Settled, 0)]
    ensures var o := s.copies[c].orig; t.events == s.events + multiset{Ran(o, false)} + multiset{Event.Returned(o)}
  {
    hide Reachable;
    var d := |s.procs|;
    t := FailOnce(cfg, s, c, healthy, healthy);
    Reach(cfg, t, Settle(d), healthy);
    t := ApplySettle(cfg, t, d);
    assert t.copies == s.copies;
    assert t.procs == s.procs + [Proc(c, false, Settled, 0)];
  }

  /** `fn` fails, the requeue is accepted, and the connection is lost before the Ack: two copies. */
  lemma ForkByLoss(cfg: Config, s: State, c: nat) returns (t: State)
    requires Reachable(cfg, s, false) && Rest(s) && cfg.requeue && Admissible(cfg, s, c)
    ensures Reachable(cfg, t, false) && Rest(t) && t.copies == s.copies + [Requeued(s, c)]
    ensures t.hs.globalDone == s.hs.globalDone
    ensures var o := s.copies[c].orig;
            t.events == s.events + multiset{Ran(o, false)} + multiset{Lost(o)} + multiset{Forked(o)}
  {
    hide Reachable;
    var d := |s.procs|;
    t := FailOnce(cfg, s, c, true, false);
    var hs := SubmitRequest(cfg, t, d, false);
    t := PublishRequest(cfg, t.(hs := hs), d, false);
    t := LoseConnection(cfg, t, d);
    hs := AnswerRequest(cfg, t, d, false);
    t := t.(hs := hs);
    hs := TakeAnswer(cfg, t, d, false);
    t := t.(hs := hs);
    t := AckRequeued(cfg, t, d, c, false);
    assert t.copies == s.copies + [Requeued(s, c)];
  }

  /** The caller leaves at the end of the context and its delivery is returned; its request, already
      accepted by the responder, is published all the same. */
  lemma ReturnRequest(cfg: Config, s: State, d: nat) returns (t: State)
    requires Reachable(cfg, s, false) && !s.hs.panicked && s.hs.globalDone
    requires d < |s.procs| && s.procs[d].live && s.procs[d].pc == Requesting && s.procs[d].copy < |s.copies|
    requires d in s.hs.callers && s.hs.callers[d] == Handshake.Awaiting && d !in s.copyOf
    ensures Reachable(cfg, t, false)
    ensures var c, o := s.procs[d].copy, OrigOf(s, d);
            && t == s.(copies := s.copies[c := s.copies[c].(loc := InTarget)],
                       procs := s.procs[d := s.procs[d].(live := false, pc := Settled)],
                       hs := s.hs.(callers := s.hs.callers[d := Handshake.Back(Handshake.ContextDone)]),
                       events := s.events + multiset{Event.Returned(o)})
  {
    hide Reachable;
    ReachInHandshake(cfg, s, Handshake.GiveUp(d), false);
    t := s.(hs := Handshake.Apply(s.hs, Handshake.GiveUp(d)));
    Reach(cfg, t, Resume(d), false);
    t := SetPc(t, d, Delivery.Returning);
    Reach(cfg, t, Settle(d), false);
    t := ApplySettle(cfg, t, d);
  }

  lemma ForkByReturn(cfg: Config, s: State, c: nat) returns (t: State)
    requires Reachable(cfg, s, false) && Rest(s) && s.hs.globalDone && cfg.requeue && Admissible(cfg, s, c)
    ensures Reachable(cfg, t, false) && Rest(t) && t.copies == s.copies + [Requeued(s, c)] && t.hs.globalDone
    ensures var o := s.copies[c].orig;
            t.events == s.events + multiset{Ran(o, false)} + multiset{Event.Returned(o)} + multiset{Forked(o)}
  {
    hide Reachable;
    var d := |s.procs|;
    t := FailOnce(cfg, s, c, true, false);
    var hs := SubmitRequest(cfg, t, d, false);
    t := ReturnRequest(cfg, t.(hs := hs), d);
    t := PublishRequest(cfg, t, d, false);
    hs := AnswerRequest(cfg, t, d, false);
    t := t.(hs := hs);
    assert t.copies == s.copies + [Requeued(s, c)];
  }

  /** A responder is at hand, and one message has arrived. */
  lemma FirstArrival(cfg: Config, healthy: bool) returns (t: State)
    ensures Reachable(cfg, t, healthy) && Rest(t) && t.copies == [Copy(0, map[], InTarget)] && t.events == multiset{}
  {
    hide Reachable;
    InitReachable(cfg, healthy);
    ReachInHandshake(cfg, INIT, Handshake.Start(0), healthy);
    var s1 := INIT.(hs := Handshake.Apply(INIT.hs, Handshake.Start(0)));
    ReachInHandshake(cfg, s1, Handshake.Declare(0, true), healthy);
    var s2 := s1.(hs := Handshake.Apply(s1.hs, Handshake.Declare(0, true)));
    assert s2.hs.responders == map[0 := Handshake.Selecting];
    Reach(cfg, s2, Arrive(map[]), healthy);
    t := Apply(cfg, s2, Arrive(map[]));
  }

  /** The end of the global context. */
  lemma EndContext(cfg: Config, s: State) returns (t: State)
    requires Reachable(cfg, s, false) && Rest(s)
    ensures Reachable(cfg, t, false) && Rest(t) && t.hs.globalDone && t.copies == s.copies && t.events == s.events
  {
    hide Reachable;
    ReachInHandshake(cfg, s, Handshake.CancelGlobal, false);
    t := s.(hs := Handshake.Apply(s.hs, Handshake.CancelGlobal));
  }

  /** The broker moves an expired copy to the target queue. */
  lemma ExpireOnce(cfg: Config, s: State, c: nat, healthy: bool) returns (t: State)
    requires Reachable(cfg, s, healthy) && Rest(s) && c < |s.copies| && s.copies[c].loc == InRequeue
    ensures Reachable(cfg, t, healthy) && Rest(t) && t.events == s.events && t.hs == s.hs
    ensures var headers := Expire(s.copies[c].headers, cfg.requeueName);
            t.copies == s.copies[c := s.copies[c].(loc := InTarget, headers := headers)]
  {
    hide Reachable;
    Reach(cfg, s, Expiry(c), healthy);
    t := Apply(cfg, s, Expiry(c));
  }
}
