/** When nothing can disturb the retries: in a healthy run of a sink with a requeue queue no Nack with
    requeue is sent, no connection lost and no copy forked, so the limit of `Retries` holds. */
module RetryHealth {
  import opened Delivery
  import opened RetryBound
  import opened RetryRuns
  import Conservation
  import Handshake

  /** A process never comes to its Nack with requeue, has its connection until it settles, and stays at
      its requeue until it is answered. */
  ghost predicate Served(s: State, d: nat)
    requires d < |s.procs|
  {
    && s.procs[d].pc != Delivery.Returning
    && (s.procs[d].pc != Settled ==> s.procs[d].live)
    && (d in s.hs.callers && !s.hs.callers[d].Back? ==> s.procs[d].pc == Requesting)
  }

  predicate Harmless(e: Event) {
    e.Ran? || e.Refused?
  }

  ghost predicate Undisturbed(s: State) {
    && !s.hs.globalDone
    && (forall a :: a in s.hs.attempts ==> a.ok)
    && (forall d :: 0 <= d < |s.procs| ==> Served(s, d))
    && (forall e :: e in s.events ==> Harmless(e))
  }

  lemma BrokerStepStaysServed(cfg: Config, s: State, step: Step)
    requires Sound(cfg, s) && Undisturbed(s) && Enabled(cfg, s, step)
    requires step.Arrive? || step.Deliver? || step.Expiry?
    ensures Undisturbed(Apply(cfg, s, step))
  {
    var t := Apply(cfg, s, step);
    forall d | 0 <= d < |t.procs| ensures Served(t, d) {
      assert d < |s.procs| ==> Served(s, d);
    }
  }

  lemma PolicyStaysServed(cfg: Config, s: State, step: Step)
    requires Sound(cfg, s) && Undisturbed(s) && Enabled(cfg, s, step) && (step.Judge? || step.Filter?)
    ensures Undisturbed(Apply(cfg, s, step))
  {
    var t := Apply(cfg, s, step);
    assert RequestHolds(cfg, s, step.d);
    forall d | 0 <= d < |t.procs| ensures Served(t, d) {
      assert Served(s, d);
    }
  }

  lemma RunStaysServed(cfg: Config, s: State, d: nat, ok: bool, err: string)
    requires Sound(cfg, s) && Undisturbed(s) && cfg.requeue && Enabled(cfg, s, Run(d, ok, err, true))
    ensures Undisturbed(Apply(cfg, s, Run(d, ok, err, true)))
  {
    var t := Apply(cfg, s, Run(d, ok, err, true));
    forall e | 0 <= e < |t.procs| ensures Served(t, e) {
      assert Served(s, e);
    }
  }

  /** The answer to a requeue is that it was published. */
  lemma AnswersAreYes(s: State, d: nat)
    requires Handshake.Inv(s.hs) && Undisturbed(s) && d in s.hs.callers && s.hs.callers[d].Back?
    ensures s.hs.callers[d].result == Handshake.Published
  {
    assert Handshake.PlaceHolds(s.hs, d);
    assert s.hs.callers[d].result == Handshake.Refused ==> Handshake.Attempt(d, false) in s.hs.attempts;
  }

  lemma EndStaysServed(cfg: Config, s: State, step: Step)
    requires Sound(cfg, s) && Undisturbed(s) && Enabled(cfg, s, step) && (step.Resume? || step.Settle?)
    ensures Undisturbed(Apply(cfg, s, step))
  {
    var t := Apply(cfg, s, step);
    assert Served(s, step.d);
    if step.Resume? {
      AnswersAreYes(s, step.d);
    }
    forall d | 0 <= d < |t.procs| ensures Served(t, d) {
      assert Served(s, d);
    }
  }

  /** A request that is being published is that of a process with a connection. */
  lemma PublishIsOfALiveProcess(cfg: Config, s: State, k: nat)
    requires Sound(cfg, s) && Undisturbed(s) && k in s.hs.responders && s.hs.responders[k].Publishing?
    ensures var r := s.hs.responders[k].r; r < |s.procs| && s.procs[r].live
  {
    var r := s.hs.responders[k].r;
    assert Handshake.ResponderFits(s.hs, k, s.hs.responders[k]);
    assert Handshake.PlaceHolds(s.hs, r);
    assert Served(s, r);
  }

  lemma RequeuerStaysServed(cfg: Config, s: State, st: Handshake.Step)
    requires Sound(cfg, s) && Undisturbed(s) && Enabled(cfg, s, Requeuer(st)) && HealthyStep(Requeuer(st))
    ensures Undisturbed(Apply(cfg, s, Requeuer(st)))
  {
    var t := Apply(cfg, s, Requeuer(st));
    HandshakeStepFrame(s.hs, st);
    if st.Publish? {
      PublishIsOfALiveProcess(cfg, s, st.k);
    }
    forall d | 0 <= d < |t.procs| ensures Served(t, d) {
      assert Served(s, d);
      if d in t.hs.callers && !t.hs.callers[d].Back? {
        CallersOnlyAdvance(s.hs, st, d);
      }
    }
    assert t.hs.globalDone == s.hs.globalDone;
  }

  lemma CallersOnlyAdvance(hs: Handshake.State, st: Handshake.Step, d: nat)
    requires Handshake.Enabled(hs, st) && !st.Call? && d in Handshake.Apply(hs, st).callers
    requires !Handshake.Apply(hs, st).callers[d].Back?
    ensures d in hs.callers && !hs.callers[d].Back?
  {
  }

  lemma StepStaysUndisturbed(cfg: Config, s: State, step: Step)
    requires Sound(cfg, s) && Undisturbed(s) && cfg.requeue && Enabled(cfg, s, step) && HealthyStep(step)
    ensures Undisturbed(Apply(cfg, s, step))
  {
    hide Undisturbed, Sound, Apply;
    match step
    case Arrive(_) => BrokerStepStaysServed(cfg, s, step);
    case Deliver(_, _) => BrokerStepStaysServed(cfg, s, step);
    case Expiry(_) => BrokerStepStaysServed(cfg, s, step);
    case Judge(_, _, _) => PolicyStaysServed(cfg, s, step);
    case Filter(_, _) => PolicyStaysServed(cfg, s, step);
    case Run(d, ok, err, _) => RunStaysServed(cfg, s, d, ok, err);
    case Resume(_) => EndStaysServed(cfg, s, step);
    case Settle(_) => EndStaysServed(cfg, s, step);
    case Requeuer(st) => RequeuerStaysServed(cfg, s, st);
  }

  lemma {:induction false} HealthyRunIsUndisturbed(cfg: Config, steps: seq<Step>)
    requires cfg.requeue && Healthy(steps) && Exec(cfg, INIT, steps).Some?
    ensures Undisturbed(Exec(cfg, INIT, steps).value)
    decreases |steps|
  {
    if steps != [] {
      var front := steps[..|steps| - 1];
      HealthyRunIsUndisturbed(cfg, front);
      Conservation.RunKeepsInv(cfg, front);
      assert HealthyStep(steps[|steps| - 1]);
      StepStaysUndisturbed(cfg, Exec(cfg, INIT, front).value, steps[|steps| - 1]);
    }
  }

  /** With a requeue queue, and as long as nothing goes wrong, `fn` is called at most limit + 1 times for a
      message: the first time and for as many retries as the limit says. */
  lemma {:induction false} HealthyAttempts(cfg: Config, steps: seq<Step>, o: nat)
    requires Limited(cfg) && cfg.requeue && Healthy(steps) && Exec(cfg, INIT, steps).Some?
    ensures Attempts(Exec(cfg, INIT, steps).value, o) <= cfg.limit + 1
  {
    HealthyRunIsUndisturbed(cfg, steps);
    var e := Exec(cfg, INIT, steps).value.events;
    assert !Harmless(Forked(o)) && !Harmless(Event.Returned(o)) && !Harmless(Lost(o));
    UndisturbedAttempts(cfg, steps, o);
  }
}
