/** The publisher of writer.go with its embedded `MessageQueue`, as the imperative program it is.

    The object's whole history is a run of the step machine of module Outbox, with the object's fields
    as the shared variables: the code below and the machine take the same steps in the same order. So
    everything proved of the machine's runs holds of the program, under any interference. */
module Publisher {
  import opened Channels
  import opened SendLog
  import Outbox

  /** What happens at one scheduling point of `ChannelReady`: other threads take steps, then the
      broker call, if one is due, returns nil iff `ok`, and a select that could go either way takes
      the context's case iff `ctxDone`. */
  datatype Turn = Turn(env: seq<Outbox.Step>, ok: bool, ctxDone: bool)

  /** `Suspended`: the script ended while the loop waits, for a notification or for its next publish. */
  datatype Error = DeclareFailed | PublishError | Cancelled | Suspended

  /** Where the script has run out nothing happens. */
  function TurnAt(turns: seq<Turn>, i: nat): Turn {
    if i < |turns| then turns[i] else Turn([], true, false)
  }

  predicate OfProducer(step: Outbox.Step) {
    step.Reject? || step.Push? || step.Offer? || step.Take? || step.GiveUp? || step.CancelGlobal?
  }

  /** The queue's length crosses `maxSize` upwards at observation `x`. */
  predicate Rises(lens: seq<nat>, maxSize: int, x: nat)
    requires x < |lens|
  {
    lens[x] >= maxSize && (x > 0 ==> lens[x - 1] < maxSize)
  }

  /** The overflow handler was called exactly at the observations where the length rose. */
  ghost predicate EdgeTriggered(lens: seq<nat>, alarms: seq<nat>, maxSize: int, handler: bool) {
    && (forall j :: 0 <= j < |alarms| ==> alarms[j] < |lens|)
    && (forall i, j :: 0 <= i < j < |alarms| ==> alarms[i] < alarms[j])
    && (forall x :: 0 <= x < |lens| ==> (x in alarms <==> handler && Rises(lens, maxSize, x)))
  }

  /** The alarm is on: it was given and the length has not been below `maxSize` since. */
  predicate Overflowing(lens: seq<nat>, maxSize: int, handler: bool) {
    handler && lens != [] && lens[|lens| - 1] >= maxSize
  }

  function AfterPublish(msg: Msg, ok: bool): Outbox.ConsumerPc {
    if msg.kind.TryKind? then Outbox.Answering(msg, ok) else if ok then Outbox.ClosingDone(msg) else Outbox.Leaving
  }

  /** One more observation of the length, and the decision taken on it. */
  lemma OneMoreObservation(lens: seq<nat>, alarms: seq<nat>, maxSize: int, handler: bool,
                           n: nat, overflow: bool, after: seq<nat>)
    requires EdgeTriggered(lens, alarms, maxSize, handler)
    requires overflow == Overflowing(lens, maxSize, handler)
    requires after == if n >= maxSize && !overflow && handler then alarms + [|lens|] else alarms
    ensures EdgeTriggered(lens + [n], after, maxSize, handler)
  {
    var longer := lens + [n];
    forall x | 0 <= x < |longer| ensures x in after <==> handler && Rises(longer, maxSize, x) {
      if x < |lens| {
        assert Rises(longer, maxSize, x) == Rises(lens, maxSize, x);
      }
    }
  }

  lemma NothingObserved(maxSize: int, handler: bool)
    ensures EdgeTriggered([], [], maxSize, handler) && !Overflowing([], maxSize, handler)
  {
  }

  /** What the machine's steps do at the positions of the consumer. */
  lemma LoopEffect(s: Outbox.State, ok: bool)
    requires |s.consumers| == 1 && Outbox.AtLoop(s.consumers[0]) && !s.panicked
    requires s.consumers[0] == Outbox.Waiting ==> s.token
    ensures var t := Outbox.Apply(s, Outbox.Advance(0, ok));
            && t == s.(consumers := t.consumers, token := t.token, wakeups := t.wakeups, spins := t.spins)
            && t.token == (s.token && s.consumers[0] != Outbox.Waiting)
            && t.consumers == [match s.consumers[0]
                               case Declaring => if ok then Outbox.LoopTop else Outbox.Leaving
                               case LoopTop => Outbox.Peeking(false)
                               case Waiting => Outbox.Peeking(true)
                               case _ => if s.pending == [] then Outbox.Waiting else Outbox.Publishing(s.pending[0])]
  {
  }

  lemma PublishEffect(s: Outbox.State, msg: Msg, ok: bool)
    requires s.consumers == [Outbox.Publishing(msg)] && !s.panicked
    ensures Outbox.Apply(s, Outbox.Advance(0, ok))
            == s.(wire := s.wire + [Attempt(msg, ok)], consumers := [AfterPublish(msg, ok)])
  {
  }

  lemma CommitEffect(s: Outbox.State, msg: Msg)
    requires Outbox.Inv(s) && |s.consumers| == 1 && Outbox.AtCommit(s.consumers[0])
    requires Outbox.Held(s.consumers[0]) == Some(msg)
    ensures var t := Outbox.Apply(s, Outbox.Advance(0, true));
            && s.pending == [msg] + t.pending
            && t.consumers == [Outbox.AfterCommit(s.consumers[0])]
            && t == s.(pending := t.pending, settled := t.settled, consumers := t.consumers)
  {
  }

  lemma {:induction false} ExecSnoc(steps: seq<Outbox.Step>, step: Outbox.Step)
    requires Outbox.Exec(Outbox.INIT, steps).Some?
    requires Outbox.Enabled(Outbox.Exec(Outbox.INIT, steps).value, step)
    ensures Outbox.Exec(Outbox.INIT, steps + [step])
            == Some(Outbox.Apply(Outbox.Exec(Outbox.INIT, steps).value, step))
  {
    assert (steps + [step])[..|steps|] == steps;
  }

  /** The length the loop reads in one step, if it reads it there. */
  function Observation(s: Outbox.State, step: Outbox.Step): seq<nat> {
    if step.Advance? && step.c < |s.consumers| && s.consumers[step.c] == Outbox.LoopTop then [|s.pending|] else []
  }

  /** All lengths read at the top of the loop in a run, in order. */
  function Observed(steps: seq<Outbox.Step>): seq<nat>
    requires Outbox.Exec(Outbox.INIT, steps).Some?
    decreases |steps|
  {
    if steps == [] then []
    else
      var front := steps[..|steps| - 1];
      Observed(front) + Observation(Outbox.Exec(Outbox.INIT, front).value, steps[|steps| - 1])
  }

  lemma {:induction false} ObservedSnoc(steps: seq<Outbox.Step>, step: Outbox.Step)
    requires Outbox.Exec(Outbox.INIT, steps).Some?
    requires Outbox.Enabled(Outbox.Exec(Outbox.INIT, steps).value, step)
    ensures Outbox.Exec(Outbox.INIT, steps + [step]).Some?
    ensures Observed(steps + [step])
            == Observed(steps) + Observation(Outbox.Exec(Outbox.INIT, steps).value, step)
  {
    assert (steps + [step])[..|steps|] == steps;
  }

  /** `messages` and `notify` are the queue's; `tries` and `dones` the reply channels the messages carry;
      `sent` the calls of `ch.Publish`. The last three fields are where the callers stand. */
  class Publisher {
    var messages: seq<Msg>
    var notify: bool
    var tries: map<nat, Chan<bool>>
    var dones: map<nat, Chan<bool>>
    var sent: seq<Attempt>
    var calls: map<nat, Outbox.Call>
    var arrivals: nat
    var globalDone: bool

    ghost var st: Outbox.State
    ghost var trace: seq<Outbox.Step>

    ghost predicate Agrees()
      reads this
    {
      && messages == st.pending && notify == st.token && tries == st.tries && dones == st.dones
      && sent == st.wire && calls == st.calls && arrivals == |st.puts| && globalDone == st.globalDone
    }

    /** The ghost state is where the machine is after the steps logged so far. */
    ghost predicate Tracked()
      reads this`st, this`trace
    {
      Outbox.Exec(Outbox.INIT, trace) == Some(st) && Outbox.Inv(st) && !st.panicked
    }

    ghost predicate Valid()
      reads this
    {
      Agrees() && Tracked()
    }

    /** The lengths this publisher has read so far. */
    ghost function Seen(): seq<nat>
      requires Tracked()
      reads this`st, this`trace
    {
      Observed(trace)
    }

    constructor ()
      ensures Valid() && trace == [] && st == Outbox.INIT
    {
      messages, notify, tries, dones, sent := [], false, map[], map[], [];
      calls, arrivals, globalDone := map[], 0, false;
      st, trace := Outbox.INIT, [];
      new;
      Outbox.InitHolds();
    }

    /** Records one step of the machine. */
    ghost method Log(step: Outbox.Step)
      requires Tracked() && Outbox.Enabled(st, step) && (step.Start? ==> st.consumers == [])
      modifies this`st, this`trace
      ensures Tracked() && st == Outbox.Apply(old(st), step) && trace == old(trace) + [step]
      ensures Seen() == old(Seen()) + Observation(old(st), step)
    {
      ObservedSnoc(trace, step);
      Outbox.StepKeepsInv(st, step);
      ExecSnoc(trace, step);
      st := Outbox.Apply(st, step);
      trace := trace + [step];
    }

    // ---- The other threads ----

    /** The first half of `Put`: PushBack under the lock, of a message with a fresh reply channel. */
    method PushBack(p: nat, kind: Kind)
      requires Valid() && Outbox.Enabled(st, Outbox.Push(p, kind))
      modifies this
      ensures Valid() && trace == old(trace) + [Outbox.Push(p, kind)]
      ensures messages == old(messages) + [Msg(p, kind)] && sent == old(sent)
      ensures st.consumers == old(st).consumers
      ensures Seen() == old(Seen())
    {
      hide Outbox.Exec, Outbox.Inv, Observed;
      Log(Outbox.Push(p, kind));
      if kind.TryKind? {
        tries := tries[p := Make(1)];
      } else {
        dones := dones[p := Make(0)];
      }
      messages := messages + [Msg(p, kind)];
      calls := calls[p := Outbox.Call(kind, arrivals, Outbox.Offering)];
      arrivals := arrivals + 1;
    }

    /** The second half: a send to `notify` that gives up when the slot is taken. */
    method Offer(p: nat)
      requires Valid() && Outbox.Enabled(st, Outbox.Offer(p))
      modifies this
      ensures Valid() && trace == old(trace) + [Outbox.Offer(p)]
      ensures notify && messages == old(messages) && sent == old(sent)
      ensures st.consumers == old(st).consumers
      ensures Seen() == old(Seen())
    {
      hide Outbox.Exec, Outbox.Inv, Observed;
      Log(Outbox.Offer(p));
      if !notify {
        notify := true;
      }
      calls := calls[p := calls[p].(pc := Outbox.Blocked)];
    }

    /** The receive of a caller that waits for its reply. */
    method TakeReply(p: nat)
      requires Valid() && Outbox.Enabled(st, Outbox.Take(p))
      modifies this
      ensures Valid() && trace == old(trace) + [Outbox.Take(p)]
      ensures sent == old(sent) && messages == old(messages)
      ensures st.consumers == old(st).consumers
      ensures Seen() == old(Seen())
    {
      hide Outbox.Exec, Outbox.Inv, Observed;
      var result := Outbox.Completed;
      Log(Outbox.Take(p));
      if calls[p].kind.TryKind? {
        var got := Receive(tries[p]);
        if got.Got? {
          result := if got.value then Outbox.Completed else Outbox.PublishFailed;
          tries := tries[p := got.ch];
        }
      } else {
        var got := Receive(dones[p]);
        if got.Got? {
          result := if got.value then Outbox.Completed else Outbox.PublishFailed;
          dones := dones[p := got.ch];
        }
      }
      calls := calls[p := calls[p].(pc := Outbox.Returned(result))];
    }

    /** The shared variables as a machine state without histories: enough to see who can move. */
    function View(): Outbox.State
      reads this
    {
      Outbox.State(messages, notify, tries, dones, calls, [], globalDone, false, [], [], sent, 0, 0, 0)
    }

    /** One step of another thread, if that thread can take it. */
    method Produce(step: Outbox.Step)
      requires Valid()
      modifies this
      ensures Valid() && old(trace) <= trace
      ensures st.consumers == old(st).consumers && sent == old(sent) && old(messages) <= messages
      ensures Seen() == old(Seen())
    {
      hide Outbox.Exec, Outbox.Inv, Observed;
      if !OfProducer(step) || !Outbox.Enabled(View(), step) {
        return;
      }
      match step
      case Push(p, kind) => PushBack(p, kind);
      case Offer(p) => Offer(p);
      case Take(p) => TakeReply(p);
      case Reject(p, kind) =>
        Log(step);
        calls := calls[p := Outbox.Call(kind, 0, Outbox.Returned(Outbox.Rejected))];
      case GiveUp(p) =>
        Log(step);
        calls := calls[p := calls[p].(pc := Outbox.Returned(Outbox.ContextDone))];
      case CancelGlobal =>
        Log(step);
        globalDone := true;
      case _ =>
    }

    method Interfere(env: seq<Outbox.Step>)
      requires Valid()
      modifies this
      ensures Valid() && old(trace) <= trace
      ensures st.consumers == old(st).consumers && sent == old(sent) && old(messages) <= messages
      ensures Seen() == old(Seen())
    {
      hide Outbox.Exec, Outbox.Inv, Observed;
      for i := 0 to |env|
        invariant Valid() && old(trace) <= trace && Seen() == old(Seen())
        invariant st.consumers == old(st).consumers && sent == old(sent) && old(messages) <= messages
      {
        Produce(env[i]);
      }
    }

    // ---- The consumer ----

    /** Where the machine has this connection's consumer. */
    ghost predicate At(pc: Outbox.ConsumerPc)
      reads this`st
    {
      st.consumers == [pc]
    }

    /** `Len`, read under the lock. */
    method Len() returns (n: nat)
      requires Valid() && At(Outbox.LoopTop)
      modifies this`st, this`trace
      ensures Valid() && At(Outbox.Peeking(false)) && old(trace) <= trace
      ensures n == |messages|
      ensures Seen() == old(Seen()) + [n]
    {
      hide Outbox.Exec, Outbox.Inv, Observed;
      LoopEffect(st, true);
      Log(Outbox.Advance(0, true));
      n := |messages|;
    }

    /** `Front`, read under the lock. */
    method Front() returns (front: Option<Msg>)
      requires Valid() && |st.consumers| == 1 && st.consumers[0].Peeking?
      modifies this`st, this`trace
      ensures Valid() && old(trace) <= trace
      ensures messages == [] ==> front == None && At(Outbox.Waiting)
      ensures messages != [] ==> front == Some(messages[0]) && At(Outbox.Publishing(messages[0]))
      ensures Seen() == old(Seen())
    {
      hide Outbox.Exec, Outbox.Inv, Observed;
      LoopEffect(st, true);
      Log(Outbox.Advance(0, true));
      front := if messages == [] then None else Some(messages[0]);
    }

    /** Taking the notification that is there. */
    method Notified()
      requires Valid() && At(Outbox.Waiting) && notify
      modifies this`st, this`trace, this`notify
      ensures Valid() && old(trace) <= trace && At(Outbox.Peeking(true)) && !notify
      ensures Seen() == old(Seen())
    {
      hide Outbox.Exec, Outbox.Inv, Observed;
      LoopEffect(st, true);
      Log(Outbox.Advance(0, true));
      notify := false;
    }

    /** The select of `Peek`: wait until there is a notification to take or the context ends. Neither only
        if the script ends first, and then no notification is there. */
    method Select(turns: seq<Turn>, start: nat) returns (woken: bool, ended: bool, next: nat)
      requires Valid() && At(Outbox.Waiting)
      modifies this
      ensures Valid() && old(trace) <= trace && sent == old(sent) && start <= next && !(woken && ended)
      ensures woken ==> At(Outbox.Peeking(true)) && (start < next <= |turns| || (old(notify) && !notify))
      ensures ended ==> At(Outbox.Leaving) && start < next <= |turns| && turns[next - 1].ctxDone
      ensures !woken && !ended ==> At(Outbox.Waiting) && |turns| <= next && !notify
      ensures Seen() == old(Seen())
    {
      hide Outbox.Exec, Outbox.Inv, Observed;
      next := start;
      while next < |turns|
        invariant Valid() && old(trace) <= trace && sent == old(sent) && start <= next && Seen() == old(Seen())
        invariant At(Outbox.Waiting) && if next == start then notify == old(notify) else !notify
      {
        var turn := turns[next];
        next := next + 1;
        Interfere(turn.env);
        if turn.ctxDone {
          Log(Outbox.Cancelled(0));
          return false, true, next;
        }
        if notify {
          Notified();
          return true, false, next;
        }
      }
      woken, ended := notify, false;
      if woken {
        Notified();
      }
    }

    /** `Peek`: look at the front; if there is none, wait, and look again. It gives up only at the end of the
        context; if the script ends before, it still waits, without a notification. */
    method Peek(turns: seq<Turn>, start: nat) returns (msg: Option<Msg>, ended: bool, next: nat)
      requires Valid() && At(Outbox.Peeking(false))
      modifies this
      ensures Valid() && old(trace) <= trace && sent == old(sent) && start <= next && !(msg.Some? && ended)
      ensures msg.Some? ==> At(Outbox.Publishing(msg.value)) && messages != [] && messages[0] == msg.value
      ensures ended ==> At(Outbox.Leaving) && start < next <= |turns| && turns[next - 1].ctxDone
      ensures msg.None? && !ended ==> At(Outbox.Waiting) && |turns| <= next && !notify
      ensures Seen() == old(Seen())
    {
      hide Outbox.Exec, Outbox.Inv, Observed;
      next, ended := start, false;
      while true
        invariant Valid() && old(trace) <= trace && sent == old(sent) && start <= next && Seen() == old(Seen())
        invariant |st.consumers| == 1 && st.consumers[0].Peeking? && !ended
        decreases if next < |turns| then |turns| - next else 0, if notify then 1 else 0
      {
        msg := Front();
        if msg.Some? {
          return;
        }
        var woken;
        woken, ended, next := Select(turns, next);
        if !woken {
          return;
        }
      }
    }

    /** `ch.Publish`. */
    method Publish(msg: Msg, ok: bool)
      requires Valid() && At(Outbox.Publishing(msg))
      modifies this
      ensures Valid() && old(trace) <= trace && sent == old(sent) + [Attempt(msg, ok)]
      ensures At(AfterPublish(msg, ok)) && messages == old(messages)
      ensures Seen() == old(Seen())
    {
      hide Outbox.Exec, Outbox.Inv, Observed;
      PublishEffect(st, msg, ok);
      Log(Outbox.Advance(0, ok));
      sent := sent + [Attempt(msg, ok)];
    }

    /** `msg.Try <- err`. The slot is free: the consumer does not block. */
    method SendTry(msg: Msg, ok: bool)
      requires Valid() && At(Outbox.Answering(msg, ok))
      modifies this
      ensures Valid() && old(trace) <= trace && sent == old(sent) && At(Outbox.ClosingTry(msg, ok))
      ensures Seen() == old(Seen())
    {
      hide Outbox.Exec, Observed;
      Outbox.ReplyGoesThrough(st);
      Log(Outbox.Advance(0, true));
      tries := tries[msg.id := tries[msg.id].(buf := tries[msg.id].buf + [ok])];
    }

    method CloseTry(msg: Msg, ok: bool)
      requires Valid() && At(Outbox.ClosingTry(msg, ok))
      modifies this
      ensures Valid() && old(trace) <= trace && sent == old(sent) && At(Outbox.DroppingTry(msg, ok))
      ensures Seen() == old(Seen())
    {
      hide Outbox.Exec, Observed;
      Outbox.ReplyGoesThrough(st);
      Log(Outbox.Advance(0, true));
      tries := tries[msg.id := tries[msg.id].(closed := true)];
    }

    method CloseDone(msg: Msg)
      requires Valid() && At(Outbox.ClosingDone(msg))
      modifies this
      ensures Valid() && old(trace) <= trace && sent == old(sent) && At(Outbox.DroppingDone(msg))
      ensures Seen() == old(Seen())
    {
      hide Outbox.Exec, Observed;
      Outbox.ReplyGoesThrough(st);
      Log(Outbox.Advance(0, true));
      dones := dones[msg.id := dones[msg.id].(closed := true)];
    }

    /** `Commit`: remove the front, if there is one; there is, and it is the message just handled. */
    method Commit(ghost msg: Msg)
      requires Valid() && |st.consumers| == 1 && Outbox.AtCommit(st.consumers[0])
      requires Outbox.Held(st.consumers[0]) == Some(msg)
      modifies this
      ensures Valid() && old(trace) <= trace && sent == old(sent)
      ensures At(Outbox.AfterCommit(old(st.consumers[0])))
      ensures old(messages) == [msg] + messages
      ensures Seen() == old(Seen())
    {
      hide Outbox.Exec, Observed;
      CommitEffect(st, msg);
      Log(Outbox.Advance(0, true));
      if messages != [] {
        messages := messages[1..];
      }
    }

    /** The return of `ChannelReady`. */
    method Leave()
      requires Valid() && At(Outbox.Leaving)
      modifies this`st, this`trace
      ensures Valid() && old(trace) <= trace && st.consumers == []
      ensures Seen() == old(Seen())
    {
      hide Outbox.Exec, Outbox.Inv, Observed;
      Log(Outbox.Stop(0));
    }

    /** The start of `ChannelReady`: `ExchangeDeclare`, unless the default exchange is used. */
    method Begin(turn: Turn, declares: bool) returns (ok: bool)
      requires Valid() && st.consumers == []
      modifies this
      ensures Valid() && old(trace) <= trace && sent == old(sent)
      ensures ok == (!declares || turn.ok)
      ensures At(if ok then Outbox.LoopTop else Outbox.Leaving)
      ensures Seen() == old(Seen())
    {
      hide Outbox.Exec, Outbox.Inv, Observed;
      Log(Outbox.Start);
      if declares {
        Interfere(turn.env);
      }
      ok := !declares || turn.ok;
      LoopEffect(st, ok);
      Log(Outbox.Advance(0, ok));
    }

    /** After an attempt of a `Try` message: answer, close, and then discard. */
    method AnswerTry(turns: seq<Turn>, start: nat, msg: Msg, ok: bool)
      requires Valid() && At(Outbox.Answering(msg, ok))
      modifies this
      ensures Valid() && old(trace) <= trace && sent == old(sent) && At(Outbox.DroppingTry(msg, ok))
      ensures Seen() == old(Seen())
    {
      hide Outbox.Exec, Outbox.Inv, Observed;
      Interfere(TurnAt(turns, start).env);
      SendTry(msg, ok);
      Interfere(TurnAt(turns, start + 1).env);
      CloseTry(msg, ok);
    }

    method FinishTry(turns: seq<Turn>, start: nat, msg: Msg, ok: bool)
      requires Valid() && At(Outbox.Answering(msg, ok))
      modifies this
      ensures Valid() && old(trace) <= trace && sent == old(sent)
      ensures At(if ok then Outbox.LoopTop else Outbox.Leaving)
      ensures Seen() == old(Seen())
    {
      hide Outbox.Exec, Outbox.Inv, Observed;
      AnswerTry(turns, start, msg, ok);
      Interfere(TurnAt(turns, start + 2).env);
      Commit(msg);
    }

    /** After a successful attempt of a `Done` message: complete it, remove it. */
    method FinishDone(turns: seq<Turn>, start: nat, msg: Msg)
      requires Valid() && At(Outbox.ClosingDone(msg))
      modifies this
      ensures Valid() && old(trace) <= trace && sent == old(sent) && At(Outbox.LoopTop)
      ensures Seen() == old(Seen())
    {
      hide Outbox.Exec, Outbox.Inv, Observed;
      Interfere(TurnAt(turns, start).env);
      CloseDone(msg);
      Interfere(TurnAt(turns, start + 1).env);
      Commit(msg);
    }

    /** The publish of the peeked message, and what follows. */
    method SendOne(turns: seq<Turn>, start: nat, msg: Msg) returns (ok: bool, next: nat)
      requires Valid() && At(Outbox.Publishing(msg)) && start < |turns|
      modifies this
      ensures Valid() && old(trace) <= trace && start < next
      ensures sent == old(sent) + [Attempt(msg, ok)] && ok == turns[start].ok
      ensures At(if ok then Outbox.LoopTop else Outbox.Leaving)
      ensures Seen() == old(Seen())
    {
      hide Outbox.Exec, Outbox.Inv, Observed;
      Interfere(turns[start].env);
      ok, next := turns[start].ok, start + 1;
      Publish(msg, ok);
      if msg.kind.TryKind? {
        FinishTry(turns, next, msg, ok);
        next := next + 3;
      } else if ok {
        FinishDone(turns, next, msg);
        next := next + 2;
      }
    }

    /** Where the loop stands when the script ends: it waits without a notification, and if there is work a
        producer is about to offer one; or it is about to publish the front. */
    ghost predicate Hanging()
      reads this
    {
      || (At(Outbox.Waiting) && !notify && (messages == [] || exists p :: Outbox.CallAt(st, p, Outbox.Offering)))
      || (messages != [] && At(Outbox.Publishing(messages[0])))
    }

    lemma WaitingIsHanging()
      requires Valid() && At(Outbox.Waiting) && !notify
      ensures Hanging()
    {
    }

    /** `Peek`, publish, and what follows; None means that the loop goes on, after one successful publish. */
    method ServeOne(turns: seq<Turn>, start: nat) returns (err: Option<Error>, next: nat)
      requires Valid() && At(Outbox.Peeking(false))
      modifies this
      ensures Valid() && old(trace) <= trace && start <= next && Seen() == old(Seen())
      ensures err.None? ==> At(Outbox.LoopTop) && start < |turns| && start < next
      ensures err.None? ==> |sent| == |old(sent)| + 1 && old(sent) == sent[..|old(sent)|] && sent[|old(sent)|].ok
      ensures err == Some(PublishError) ==>
                && At(Outbox.Leaving) && |sent| == |old(sent)| + 1
                && old(sent) == sent[..|old(sent)|] && !sent[|old(sent)|].ok
      ensures err == Some(PublishError) ==> exists i :: start <= i < |turns| && !turns[i].ok
      ensures err == Some(Cancelled) ==>
                At(Outbox.Leaving) && sent == old(sent) && exists i :: start <= i < |turns| && turns[i].ctxDone
      ensures err == Some(Suspended) ==> Hanging() && sent == old(sent) && |turns| <= next
      ensures err != Some(DeclareFailed)
    {
      hide Outbox.Exec, Outbox.Inv, Observed;
      var msg, ended;
      msg, ended, next := Peek(turns, start);
      if ended {
        return Some(Cancelled), next;
      }
      if msg.None? || next >= |turns| {
        if msg.None? {
          WaitingIsHanging();
        }
        return Some(Suspended), next;
      }
      var ok;
      ok, next := SendOne(turns, next, msg.value);
      err := if ok then None else Some(PublishError);
    }

    /** The length, read at the next scheduling point. */
    method ReadLength(turn: Turn) returns (n: nat)
      requires Valid() && At(Outbox.LoopTop)
      modifies this
      ensures Valid() && old(trace) <= trace && At(Outbox.Peeking(false)) && n == |messages| && sent == old(sent)
      ensures Seen() == old(Seen()) + [n]
    {
      hide Outbox.Exec, Outbox.Inv, Observed;
      Interfere(turn.env);
      n := Len();
    }

    /** The decision on one observed length: call the handler unless it was already called. */
    method Observe(lens: seq<nat>, before: seq<nat>, maxSize: int, handler: bool, n: nat, was: bool)
      returns (overflow: bool, alarms: seq<nat>)
      requires EdgeTriggered(lens, before, maxSize, handler)
      requires was == Overflowing(lens, maxSize, handler)
      ensures EdgeTriggered(lens + [n], alarms, maxSize, handler)
      ensures overflow == Overflowing(lens + [n], maxSize, handler)
    {
      overflow, alarms := was, before;
      if n < maxSize {
        overflow := false;
      } else if !overflow && handler {
        overflow := true;
        alarms := alarms + [|lens|];
      }
      OneMoreObservation(lens, before, maxSize, handler, n, was, alarms);
    }

    /** Of the publishes since `before` only the last may have failed, and it did if and only if `failed`. */
    ghost predicate OnlyLastFailed(before: seq<Attempt>, failed: bool)
      reads this`sent
    {
      && before <= sent
      && (forall i :: |before| <= i < |sent| ==> (sent[i].ok <==> !(failed && i == |sent| - 1)))
      && (failed ==> |before| < |sent|)
    }

    /** `ChannelReady` over one connection, interleaved with the other threads as `turns` say. `lens` are
        the lengths it read, `alarms` the observations at which it called the overflow handler. It
        returns after the first publish that fails, at the end of the context or if the declaration
        fails; and then the object may be handed the next connection: `Valid` is all it needs. */
    method ChannelReady(turns: seq<Turn>, declares: bool, maxSize: int, handler: bool)
      returns (err: Error, lens: seq<nat>, alarms: seq<nat>)
      requires Valid() && st.consumers == []
      modifies this
      ensures Valid() && old(trace) <= trace
      ensures Seen() == old(Seen()) + lens
      ensures EdgeTriggered(lens, alarms, maxSize, handler)
      ensures OnlyLastFailed(old(sent), err == PublishError)
      ensures err == PublishError ==> exists i :: 0 < i < |turns| && !turns[i].ok
      ensures err == Cancelled ==> exists i :: 0 < i < |turns| && turns[i].ctxDone
      ensures err == DeclareFailed <==> declares && !TurnAt(turns, 0).ok
      ensures if err == DeclareFailed then sent == old(sent) && lens == [] else lens != []
      ensures if err == Suspended then Hanging() else st.consumers == []
    {
      hide Outbox.Exec, Outbox.Inv, Observed, EdgeTriggered, Overflowing;
      lens, alarms := [], [];
      NothingObserved(maxSize, handler);
      ghost var before, wire := Seen(), sent;
      var ok := Begin(TurnAt(turns, 0), declares);
      if !ok {
        Leave();
        return DeclareFailed, lens, alarms;
      }
      var next, overflow := 1, false;
      while true
        invariant Valid() && At(Outbox.LoopTop) && old(trace) <= trace && 0 < next
        invariant Seen() == before + lens && OnlyLastFailed(wire, false)
        invariant EdgeTriggered(lens, alarms, maxSize, handler)
        invariant overflow == Overflowing(lens, maxSize, handler)
        decreases if next < |turns| then |turns| - next else 0
      {
        var n := ReadLength(TurnAt(turns, next));
        overflow, alarms := Observe(lens, alarms, maxSize, handler, n, overflow);
        lens := lens + [n];
        var failure;
        failure, next := ServeOne(turns, next + 1);
        if failure.Some? {
          if failure.value != Suspended {
            Leave();
          }
          return failure.value, lens, alarms;
        }
      }
    }
  }
}
