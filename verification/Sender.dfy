/** The callers of writer.go as the imperative programs they are: `TrySend`, `Publish` and `PublishWait`,
    with the middleware in front and `MessageQueue.Put` behind. Each method is the code of one caller;
    between its own steps the publisher and all other callers take theirs. Everything that happens is a
    run of the machine of module Outbox with at most one consumer at a time. */
module Sender {
  import opened Channels
  import opened SendLog
  import opened Messages
  import opened Answers
  import Outbox
  import Signing

  /** One scheduling point: the others move; a select that could go either way takes the context's case iff
      `ctxDone`. For `PublishWait` it is the caller's context, for `TrySend` the global one. */
  datatype Turn = Turn(env: seq<Outbox.Step>, ctxDone: bool)

  predicate OfCaller(step: Outbox.Step, p: nat) {
    (step.Reject? || step.Push? || step.Offer? || step.Take? || step.GiveUp?) && step.p == p
  }

  /** The others' steps; a publisher starts only where none runs (module System). */
  predicate OfOthers(s: Outbox.State, step: Outbox.Step, p: nat) {
    !OfCaller(step, p) && (step.Start? ==> s.consumers == [])
  }

  predicate StaysPut(s: Outbox.State, t: Outbox.State, p: nat) {
    (p in s.calls <==> p in t.calls) && (p in s.calls ==> t.calls[p] == s.calls[p])
  }

  lemma OthersLeaveItPut(s: Outbox.State, step: Outbox.Step, p: nat)
    requires Outbox.Inv(s) && Outbox.Enabled(s, step) && OfOthers(s, step, p)
    ensures StaysPut(s, Outbox.Apply(s, step), p)
  {
    if step.Advance? {
      var pc := s.consumers[step.c];
      assert |s.consumers| == 1;
      if Outbox.AtReply(pc) {
        Outbox.ReplyTouchesChannelsOnly(s);
      } else if Outbox.AtLoop(pc) {
        Outbox.LoopOnlyMoves(s, step.ok);
      }
    }
  }

  lemma {:induction false} ExecSnoc(steps: seq<Outbox.Step>, step: Outbox.Step)
    requires Outbox.Exec(Outbox.INIT, steps).Some?
    requires Outbox.Enabled(Outbox.Exec(Outbox.INIT, steps).value, step)
    ensures Outbox.Exec(Outbox.INIT, steps + [step])
            == Some(Outbox.Apply(Outbox.Exec(Outbox.INIT, steps).value, step))
  {
    assert (steps + [step])[..|steps|] == steps;
  }

  /** A caller that waits has its reply channel. */
  lemma WaitsForItsChannel(s: Outbox.State, p: nat)
    requires Outbox.Inv(s) && Outbox.CallAt(s, p, Outbox.Blocked)
    ensures if s.calls[p].kind.TryKind? then p in s.tries else p in s.dones && s.dones[p].buf == []
  {
    assert Outbox.CallServed(s, s.calls[p].slot);
  }

  /** What a result says about the wire. */
  lemma ResultIsTrue(s: Outbox.State, p: nat)
    requires Outbox.Inv(s) && p in s.calls && s.calls[p].pc.Returned?
    ensures var m := Msg(p, s.calls[p].kind);
            match s.calls[p].pc.result
            case Completed => TimesAccepted(s.wire, m) == 1 && (m.kind.TryKind? ==> Times(s.wire, m) == 1)
            case PublishFailed => m.kind.TryKind? && Times(s.wire, m) == 1 && TimesAccepted(s.wire, m) == 0
            case Rejected => Times(s.wire, m) == 0
            case ContextDone => true
  {
    if s.calls[p].pc.result == Outbox.Rejected {
      Outbox.RejectedIsNeverSent(s, p);
    } else {
      Outbox.CallersLearnTheTruth(s, p);
      assert Outbox.CallServed(s, s.calls[p].slot);
      Outbox.FateOfSlot(s, s.calls[p].slot);
    }
  }

  /** `messages` and `notify` are the queue's; `tries` and `dones` the reply channels, and `contents` what the
      queued messages carry. */
  class Sender {
    var messages: seq<Msg>
    var notify: bool
    var tries: map<nat, Chan<bool>>
    var dones: map<nat, Chan<bool>>
    var contents: map<nat, Message>
    var world: Outbox.State
    ghost var trace: seq<Outbox.Step>

    ghost predicate Tracked()
      reads this`world, this`trace
    {
      Outbox.Exec(Outbox.INIT, trace) == Some(world) && Outbox.Inv(world) && !world.panicked
    }

    ghost predicate Agrees()
      reads this
    {
      messages == world.pending && notify == world.token && tries == world.tries && dones == world.dones
    }

    ghost predicate Valid()
      reads this
    {
      Tracked() && Agrees()
    }

    constructor ()
      ensures Valid() && world == Outbox.INIT && contents == map[]
    {
      messages, notify, tries, dones, contents := [], false, map[], map[], map[];
      world, trace := Outbox.INIT, [];
      new;
      Outbox.InitHolds();
    }

    method Take(step: Outbox.Step)
      requires Tracked() && Outbox.Enabled(world, step) && (step.Start? ==> world.consumers == [])
      modifies this`world, this`trace
      ensures Tracked() && world == Outbox.Apply(old(world), step) && trace == old(trace) + [step]
    {
      Outbox.StepKeepsInv(world, step);
      ExecSnoc(trace, step);
      world := Outbox.Apply(world, step);
      trace := trace + [step];
    }

    method Interfere(env: seq<Outbox.Step>, p: nat)
      requires Valid()
      modifies this
      ensures Valid() && StaysPut(old(world), world, p) && contents == old(contents)
    {
      hide Outbox.Exec, Outbox.Inv, Outbox.Enabled, Outbox.Apply;
      for i := 0 to |env|
        invariant Valid() && StaysPut(old(world), world, p) && contents == old(contents)
      {
        if Outbox.Enabled(world, env[i]) && OfOthers(world, env[i], p) {
          OthersLeaveItPut(world, env[i], p);
          Take(env[i]);
          messages, notify, tries, dones := world.pending, world.token, world.tries, world.dones;
        }
      }
    }

    ghost predicate At(p: nat, kind: Kind, pc: Outbox.CallPc)
      reads this`world
    {
      Outbox.CallAt(world, p, pc) && world.calls[p].kind == kind
    }

    /** `Put`: PushBack under the lock, then the offer to `notify`, whatever happens in between. */
    method Put(p: nat, kind: Kind, m: Message, between: seq<Outbox.Step>)
      requires Valid() && p !in world.calls
      modifies this
      ensures Valid() && At(p, kind, Outbox.Blocked) && contents == old(contents)[p := m] && notify
    {
      hide Outbox.Exec, Outbox.Inv;
      contents := contents[p := m];
      Take(Outbox.Push(p, kind));
      messages := messages + [Msg(p, kind)];
      if kind.TryKind? {
        tries := tries[p := Make(1)];
      } else {
        dones := dones[p := Make(0)];
      }
      Interfere(between, p);
      Take(Outbox.Offer(p));
      if !notify {
        notify := true;
      }
    }

    /** The receive of the outcome, if it is there or the channel closed. */
    method TryTake(p: nat, kind: Kind) returns (taken: bool)
      requires Valid() && At(p, kind, Outbox.Blocked)
      modifies this
      ensures Valid() && contents == old(contents)
      ensures if taken
              then p in world.calls && world.calls[p].kind == kind && world.calls[p].pc.Returned?
                   && (world.calls[p].pc.result == Outbox.Completed || world.calls[p].pc.result == Outbox.PublishFailed)
              else At(p, kind, Outbox.Blocked) && Silent(p, kind)
    {
      hide Outbox.Exec, Outbox.Inv;
      WaitsForItsChannel(world, p);
      var got := if kind.TryKind? then Receive(tries[p]) else Receive(dones[p]);
      taken := !got.ReceiveBlocks?;
      if taken {
        Take(Outbox.Take(p));
        if got.Got? && kind.TryKind? {
          tries := tries[p := got.ch];
        }
      }
    }

    /** The reply channel of call `p` is open and empty. */
    predicate Silent(p: nat, kind: Kind)
      reads this
    {
      match kind
      case TryKind => p in tries && tries[p].buf == [] && !tries[p].closed
      case DoneKind => p in dones && dones[p].buf == [] && !dones[p].closed
    }

    /** The select of a caller: its outcome, or the end of a context; neither only while its channel is open
        and empty. */
    method Await(p: nat, kind: Kind, turns: seq<Turn>)
      requires Valid() && At(p, kind, Outbox.Blocked)
      modifies this
      ensures Valid() && contents == old(contents) && p in world.calls && world.calls[p].kind == kind
      ensures if world.calls[p].pc.Returned? then world.calls[p].pc.result != Outbox.Rejected
              else At(p, kind, Outbox.Blocked) && Silent(p, kind)
      ensures world.calls[p].pc == Outbox.Returned(Outbox.ContextDone) ==>
                exists i :: 0 <= i < |turns| && turns[i].ctxDone
    {
      hide Outbox.Exec, Outbox.Inv;
      for i := 0 to |turns|
        invariant Valid() && contents == old(contents) && At(p, kind, Outbox.Blocked)
      {
        Interfere(turns[i].env, p);
        if turns[i].ctxDone && (kind.DoneKind? || world.globalDone) {
          Take(Outbox.GiveUp(p));
          return;
        }
        var taken := TryTake(p, kind);
        if taken {
          return;
        }
      }
      var _ := TryTake(p, kind);
    }

    /** `TrySend`. A message that middleware refuses is not sent, and nil is returned; any other nil means
        accepted, in the only attempt; an error, that the only attempt failed, or that a context ended.
        None is a caller that still waits when the run ends. */
    method TrySend(p: nat, chain: seq<Signing.Handler>, e: Envelope, between: seq<Outbox.Step>, turns: seq<Turn>)
      returns (err: Option<Error>, panicked: bool)
      requires Valid() && p !in world.calls
      modifies this, e
      ensures Valid() && (panicked <==> Signing.Panics(chain, old(e.msg)))
      ensures panicked ==> world == old(world)
      ensures Signing.Refuses(chain, old(e.msg)) ==>
                err == Some(Nil) && Times(world.wire, Msg(p, TryKind)) == 0 && contents == old(contents)
      ensures !panicked && !Signing.Refuses(chain, old(e.msg)) ==>
                && Signing.HandsThrough(chain, old(e.msg), e.msg) && contents == old(contents)[p := e.msg]
                && (err == Some(Nil) ==>
                      Times(world.wire, Msg(p, TryKind)) == TimesAccepted(world.wire, Msg(p, TryKind)) == 1)
                && (err == Some(NotNil) ==>
                      || (exists i :: 0 <= i < |turns| && turns[i].ctxDone)
                      || (Times(world.wire, Msg(p, TryKind)) == 1 && TimesAccepted(world.wire, Msg(p, TryKind)) == 0))
                && (err.None? ==> Silent(p, TryKind))
      ensures err.Some? ==> p in world.calls && world.calls[p].pc.Returned?
                            && err.value == TrySendError(world.calls[p].pc.result)
    {
      hide Outbox.Exec, Outbox.Inv, Signing.Path, Signing.Panics, Signing.Refuses, Signing.Process;
      var ok;
      ok, panicked := Signing.ProcessMessage(chain, e);
      if panicked {
        return None, true;
      }
      if !ok {
        Take(Outbox.Reject(p, TryKind));
        ResultIsTrue(world, p);
        return Some(Nil), false;
      }
      Put(p, TryKind, e.msg, between);
      Await(p, TryKind, turns);
      if !world.calls[p].pc.Returned? {
        return None, false;
      }
      ResultIsTrue(world, p);
      err := Some(if world.calls[p].pc.result == Outbox.Completed then Nil else NotNil);
    }

    /** `Publish`: the error tells that middleware refused the message; otherwise it is put, and its `Done` is
        what the caller gets. */
    method Publish(p: nat, chain: seq<Signing.Handler>, e: Envelope, between: seq<Outbox.Step>)
      returns (err: Error, panicked: bool)
      requires Valid() && p !in world.calls
      modifies this, e
      ensures Valid() && (panicked <==> Signing.Panics(chain, old(e.msg)))
      ensures panicked ==> world == old(world) && !Signing.Refuses(chain, old(e.msg))
      ensures !panicked ==> (err == NotNil <==> Signing.Refuses(chain, old(e.msg)))
      ensures !panicked && err == NotNil ==>
                At(p, DoneKind, Outbox.Returned(Outbox.Rejected)) && contents == old(contents)
                && Times(world.wire, Msg(p, DoneKind)) == 0
      ensures !panicked && err == Nil ==>
                && At(p, DoneKind, Outbox.Blocked) && p in dones && notify
                && Signing.HandsThrough(chain, old(e.msg), e.msg) && contents == old(contents)[p := e.msg]
    {
      hide Outbox.Exec, Outbox.Inv, Signing.Path, Signing.Panics, Signing.Refuses, Signing.Process;
      var ok;
      ok, panicked := Signing.ProcessMessage(chain, e);
      err := NotNil;
      if panicked {
        return;
      }
      if !ok {
        Take(Outbox.Reject(p, DoneKind));
        ResultIsTrue(world, p);
        return;
      }
      err := Nil;
      Put(p, DoneKind, e.msg, between);
      WaitsForItsChannel(world, p);
    }

    /** `PublishWait`: nil means accepted exactly once; an error, that middleware refused the message, which
        then was not sent, or that the caller's context ended. None is a caller that still waits. */
    method PublishWait(p: nat, chain: seq<Signing.Handler>, e: Envelope, between: seq<Outbox.Step>,
                       turns: seq<Turn>)
      returns (err: Option<Error>, panicked: bool)
      requires Valid() && p !in world.calls
      modifies this, e
      ensures Valid() && (panicked <==> Signing.Panics(chain, old(e.msg)))
      ensures Signing.Refuses(chain, old(e.msg)) ==>
                err == Some(NotNil) && Times(world.wire, Msg(p, DoneKind)) == 0
      ensures !panicked && err == Some(Nil) ==>
                && TimesAccepted(world.wire, Msg(p, DoneKind)) == 1
                && Signing.HandsThrough(chain, old(e.msg), e.msg) && p in contents && contents[p] == e.msg
      ensures !panicked && err == Some(NotNil) && !Signing.Refuses(chain, old(e.msg)) ==>
                exists i :: 0 <= i < |turns| && turns[i].ctxDone
      ensures !panicked && err.None? ==> Silent(p, DoneKind)
      ensures err.Some? ==> p in world.calls && world.calls[p].pc.Returned?
                            && err.value == PublishWaitError(world.calls[p].pc.result)
    {
      hide Outbox.Exec, Outbox.Inv, Signing.Path, Signing.Panics, Signing.Refuses, Signing.HandsThrough;
      var refused;
      refused, panicked := Publish(p, chain, e, between);
      if panicked {
        return None, true;
      }
      if refused == NotNil {
        return Some(NotNil), false;
      }
      Await(p, DoneKind, turns);
      if !world.calls[p].pc.Returned? {
        return None, false;
      }
      ResultIsTrue(world, p);
      err := Some(if world.calls[p].pc.result == Outbox.Completed then Nil else NotNil);
    }
  }
}
