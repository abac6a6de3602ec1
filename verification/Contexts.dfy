/** When the context of a connection ends (amqp.go), over every run of the supervisor: with the first
    handler that returns or fails to get its channel, or with the global context, and not before. */
module Contexts {
  import opened Channels
  import opened Supervisor

  /** Handler `h` got its goroutine in this connection, and the goroutine is past its `closer()`. */
  ghost predicate HandlerOver(s: State, h: nat) {
    h < Spawned(s) && forall g :: g in s.runners && s.runners[g].handler == h ==> s.runners[g].pc == Releasing
  }

  ghost predicate EndsWithAHandler(s: State) {
    forall h :: HandlerOver(s, h) && Established(s) ==> s.epoch in s.cancelled
  }

  ghost predicate EndsForAReason(s: State) {
    && (forall k :: k in s.cancelled && k > s.epoch ==> s.globalDone)
    && (Established(s) && s.epoch in s.cancelled && !s.globalDone ==> exists h :: HandlerOver(s, h))
  }

  ghost predicate StreamEndsWithIt(s: State) {
    && (forall k :: k in s.streamers && s.streamers[k] == Leaving ==> k in s.cancelled)
    && (forall k :: k in s.outClosed ==> k in s.cancelled)
  }

  /** No handler is over after a step that was not before, unless its `closer()` was the step. */
  lemma OverBefore(s: State, step: Step, h: nat)
    requires Inv(s) && Enabled(s, step) && Established(Apply(s, step))
    requires HandlerOver(Apply(s, step), h)
    ensures Established(s)
    ensures HandlerOver(s, h) || (step.Cancel? && s.runners[step.g].handler == h)
  {
    if RunnerStep(step) {
      OverBeforeRunner(s, step, h);
    } else if step.Spawn? {
      OverBeforeSpawn(s, h);
    }
  }

  lemma OverBeforeSpawn(s: State, h: nat)
    requires Inv(s) && Enabled(s, Spawn) && HandlerOver(Apply(s, Spawn), h)
    ensures HandlerOver(s, h)
  {
    var t := Apply(s, Spawn);
    assert s.nextRunner in t.runners && t.runners[s.nextRunner] == Runner(s.main.h, s.epoch, Opening);
    forall g | g in s.runners && s.runners[g].handler == h ensures s.runners[g].pc == Releasing {
      assert g in t.runners && t.runners[g] == s.runners[g];
    }
  }

  lemma OverBeforeRunner(s: State, step: Step, h: nat)
    requires Inv(s) && Enabled(s, step) && RunnerStep(step) && HandlerOver(Apply(s, step), h)
    ensures HandlerOver(s, h) || (step.Cancel? && s.runners[step.g].handler == h)
  {
    var t := Apply(s, step);
    if !step.Cancel? || s.runners[step.g].handler != h {
      forall g | g in s.runners && s.runners[g].handler == h ensures s.runners[g].pc == Releasing {
        if g != step.g || !step.Release? {
          assert g in t.runners && t.runners[g].handler == h;
          assert g != step.g ==> t.runners[g] == s.runners[g];
        }
      }
    }
  }

  /** A handler that is over stays so while the connection lasts. */
  lemma StaysOver(s: State, step: Step, h: nat)
    requires Inv(s) && Enabled(s, step) && Established(s) && Established(Apply(s, step)) && HandlerOver(s, h)
    ensures HandlerOver(Apply(s, step), h)
  {
    var t := Apply(s, step);
    forall g | g in t.runners && t.runners[g].handler == h ensures t.runners[g].pc == Releasing {
      assert !step.Spawn? || g != s.nextRunner;
      assert g in s.runners && s.runners[g].handler == h;
    }
  }

  lemma CloserEndsIt(s: State, g: nat)
    requires Inv(s) && Enabled(s, Cancel(g))
    ensures HandlerOver(Apply(s, Cancel(g)), s.runners[g].handler)
    ensures s.epoch in Apply(s, Cancel(g)).cancelled
  {
  }

  lemma StepKeepsEnding(s: State, step: Step)
    requires Inv(s) && Enabled(s, step) && EndsWithAHandler(s)
    ensures EndsWithAHandler(Apply(s, step))
  {
    var t := Apply(s, step);
    forall h | HandlerOver(t, h) && Established(t) ensures t.epoch in t.cancelled {
      OverBefore(s, step, h);
      if step.Cancel? {
        CloserEndsIt(s, step.g);
      }
    }
  }

  lemma StepKeepsReason(s: State, step: Step)
    requires Inv(s) && Enabled(s, step) && EndsForAReason(s)
    ensures EndsForAReason(Apply(s, step))
  {
    var t := Apply(s, step);
    if Established(t) && t.epoch in t.cancelled && !t.globalDone {
      if step.Cancel? {
        CloserEndsIt(s, step.g);
      } else if !step.Dial? {
        assert Established(s) && s.epoch in s.cancelled;
        var h :| HandlerOver(s, h);
        StaysOver(s, step, h);
      }
    }
  }

  lemma StepKeepsStreamEnd(s: State, step: Step)
    requires Inv(s) && Enabled(s, step) && StreamEndsWithIt(s)
    ensures StreamEndsWithIt(Apply(s, step))
  {
  }

  lemma {:induction false} RunKeepsContexts(steps: seq<Step>)
    requires Exec(INIT, steps).Some?
    ensures var s := Exec(INIT, steps).value; EndsWithAHandler(s) && EndsForAReason(s) && StreamEndsWithIt(s)
    decreases |steps|
  {
    hide EndsWithAHandler, EndsForAReason, StreamEndsWithIt, Inv, Apply;
    if steps == [] {
      NothingToEnd();
    } else {
      var front, step := steps[..|steps| - 1], steps[|steps| - 1];
      RunKeepsContexts(front);
      RunKeepsInv(INIT, front) by {
        InitHolds();
      }
      var s := Exec(INIT, front).value;
      StepKeepsEnding(s, step);
      StepKeepsReason(s, step);
      StepKeepsStreamEnd(s, step);
    }
  }

  lemma NothingToEnd()
    ensures EndsWithAHandler(INIT) && EndsForAReason(INIT) && StreamEndsWithIt(INIT)
  {
  }

  /** In every run, while a connection lasts: its context ends if one of its handlers is over, and it has
      ended only if one is or the global context has; the streamer leaves only when it has ended. */
  lemma {:induction false} ContextEndsWithTheFirstHandler(steps: seq<Step>)
    requires Exec(INIT, steps).Some?
    ensures var s := Exec(INIT, steps).value;
            Established(s) ==>
              && ((exists h :: HandlerOver(s, h)) ==> s.epoch in s.cancelled)
              && (s.epoch in s.cancelled ==> s.globalDone || exists h :: HandlerOver(s, h))
              && (s.epoch in s.outClosed ==> s.epoch in s.cancelled)
  {
    RunKeepsContexts(steps);
  }
}
