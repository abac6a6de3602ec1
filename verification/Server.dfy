/** The `Server` of amqp.go as the imperative program it is: `handle`, the streamer's nested loops, and
    the loop of `start`. Each method is the code of one thread; between its own steps the other threads
    take theirs. Everything that happens is a run of the machine of module Supervisor. */
module Server {
  import opened Channels
  import opened Supervisor

  /** A step of another thread; a `handle` call brings the handler it registers. */
  datatype Move = Move(step: Step, handler: nat)

  /** One scheduling point: the others move; then a call of the outside world succeeds iff `ok`, and a
      select that could go either way takes the context's case iff `ctxDone`. */
  datatype Turn = Turn(env: seq<Move>, ok: bool, ctxDone: bool)

  /** Whose steps a method takes itself. */
  datatype Self = Caller(h: nat) | Streamer(k: nat) | Main

  predicate OfMain(step: Step) {
    || step.Dial? || step.Hand? || step.Spawn? || step.RangeEnd? || step.Join? || step.Retry? || step.Abort?
    || step.CloseDone?
  }

  predicate OfOthers(step: Step, self: Self) {
    match self
    case Caller(h) => step != Offer(h)
    case Streamer(k) =>
      && step != TakeSnapshot(k) && step != StreamCancelled(k) && step != TakeRefresh(k) && step != CloseOut(k)
      && step != Hand
    case Main => !OfMain(step)
  }

  /** A thread stays where it is while the others move. */
  ghost predicate StaysPut(s: State, t: State, self: Self) {
    match self
    case Caller(h) => (h in s.registering ==> h in t.registering)
    case Streamer(k) =>
      (k in s.streamers ==> k in t.streamers && t.streamers[k] == s.streamers[k] && t.dispatched == s.dispatched)
    case Main =>
      && t.main == s.main && t.epoch == s.epoch && t.dispatched == s.dispatched
      && (s.epoch in s.outClosed ==> s.epoch in t.outClosed)
      && (s.wg == 0 ==> t.wg == 0) && (s.globalDone ==> t.globalDone)
  }

  lemma OthersLeaveItPut(s: State, step: Step, self: Self)
    requires Inv(s) && Enabled(s, step) && OfOthers(step, self)
    ensures StaysPut(s, Apply(s, step), self)
  {
    if self.Main? && step.Release? {
      assert step.g in s.runners && |s.runners.Keys| == |s.runners|;
    }
  }

  lemma StaysPutRefl(s: State, self: Self)
    ensures StaysPut(s, s, self)
  {
  }

  lemma StaysPutTrans(s: State, t: State, u: State, self: Self)
    requires StaysPut(s, t, self) && StaysPut(t, u, self)
    ensures StaysPut(s, u, self)
  {
  }

  lemma StreamerIsCurrent(s: State, k: nat)
    requires Inv(s) && k in s.streamers
    ensures k == s.epoch && StreamerCounts(s, s.streamers[k])
  {
  }

  lemma IdleMeansAlone(s: State)
    requires Inv(s) && (s.main == Idle || s.main == Stopped)
    ensures s.runners == map[] && s.streamers == map[] && (s.main == Stopped ==> s.doneCloses == 1)
  {
  }

  lemma SomebodyRuns(s: State)
    requires Inv(s) && s.wg != 0
    ensures s.runners != map[]
  {
  }

  lemma {:induction false} ExecSnoc(steps: seq<Step>, step: Step)
    requires Exec(INIT, steps).Some? && Enabled(Exec(INIT, steps).value, step)
    ensures Exec(INIT, steps + [step]) == Some(Apply(Exec(INIT, steps).value, step))
  {
    assert (steps + [step])[..|steps|] == steps;
  }

  /** `handlers`, `refreshHandlers` and `done` are the fields of the struct; `world` says where all
      threads stand, and `trace` how they got there. */
  class Server {
    var handlers: seq<nat>
    var refreshHandlers: Chan<()>
    var done: Chan<()>
    var world: State
    ghost var trace: seq<Step>

    ghost predicate Tracked()
      reads this`world, this`trace
    {
      Exec(INIT, trace) == Some(world) && Inv(world)
    }

    ghost predicate Agrees()
      reads this
    {
      && |handlers| == world.handlers
      && refreshHandlers.cap == 1 && !refreshHandlers.closed
      && |refreshHandlers.buf| == (if world.token then 1 else 0)
      && (done.closed <==> world.main == Stopped)
    }

    ghost predicate Valid()
      reads this
    {
      Tracked() && Agrees()
    }

    constructor ()
      ensures Valid() && handlers == [] && world == INIT && trace == []
    {
      handlers, refreshHandlers, done := [], Make(1), Make(0);
      world, trace := INIT, [];
    }

    method Take(step: Step)
      requires Tracked() && Enabled(world, step)
      modifies this`world, this`trace
      ensures Tracked() && world == Apply(old(world), step) && trace == old(trace) + [step]
    {
      StepKeepsInv(world, step);
      ExecSnoc(trace, step);
      world := Apply(world, step);
      trace := trace + [step];
    }

    /** The send of `handle` to `refreshHandlers`, which gives up when a token is already there. */
    method OfferRefresh()
      requires refreshHandlers.cap == 1 && |refreshHandlers.buf| <= 1 && !refreshHandlers.closed
      modifies this`refreshHandlers
      ensures refreshHandlers.cap == 1 && |refreshHandlers.buf| == 1 && !refreshHandlers.closed
    {
      match Send(refreshHandlers, ()) {
        case Sent(ch) => refreshHandlers := ch;
        case _ =>
      }
    }

    /** The receive of a token that is there. */
    method TakeToken()
      requires refreshHandlers.buf != []
      modifies this`refreshHandlers
      ensures refreshHandlers == old(refreshHandlers).(buf := old(refreshHandlers).buf[1..])
    {
      match Receive(refreshHandlers) {
        case Got(_, ch) => refreshHandlers := ch;
      }
    }

    /** One step of another thread, if that thread can take it. */
    method Other(move: Move, self: Self)
      requires Valid()
      modifies this
      ensures Valid() && StaysPut(old(world), world, self) && old(handlers) <= handlers
    {
      hide Exec, Inv;
      if Enabled(world, move.step) && OfOthers(move.step, self) {
        OthersLeaveItPut(world, move.step, self);
        Take(move.step);
        match move.step {
          case Append => handlers := handlers + [move.handler];
          case Offer(_) => OfferRefresh();
          case TakeRefresh(_) => TakeToken();
          case CloseDone => done := done.(closed := true);
          case _ =>
        }
      }
    }

    method Interfere(env: seq<Move>, self: Self)
      requires Valid()
      modifies this
      ensures Valid() && StaysPut(old(world), world, self) && old(handlers) <= handlers
    {
      hide Exec, Inv, StaysPut;
      StaysPutRefl(world, self);
      for i := 0 to |env|
        invariant Valid() && StaysPut(old(world), world, self) && old(handlers) <= handlers
      {
        ghost var before := world;
        Other(env[i], self);
        StaysPutTrans(old(world), before, world, self);
      }
    }

    // ---- handle ----

    /** Appends the handler under the lock, then leaves a refresh token, whatever happens in between. */
    method Handle(h: nat, between: seq<Move>)
      requires Valid()
      modifies this
      ensures Valid() && old(handlers) + [h] <= handlers
      ensures |refreshHandlers.buf| == 1
    {
      var me := |handlers|;
      Take(Append);
      handlers := handlers + [h];
      Interfere(between, Caller(me));
      Take(Offer(me));
      OfferRefresh();
    }

    // ---- streamHandlers ----

    ghost predicate StreamerAt(k: nat, pc: StreamPc)
      reads this`world
    {
      k in world.streamers && world.streamers[k] == pc
    }

    /** The inner select: hand out handler `i`, unless the connection's context is done. */
    method HandOut(turns: seq<Turn>, start: nat, k: nat, i: nat, targetNum: nat)
      returns (left: bool, sent: bool, next: nat)
      requires Valid() && StreamerAt(k, Handing(i, targetNum))
      modifies this
      ensures Valid() && old(handlers) <= handlers && start <= next && (start <= |turns| ==> next <= |turns|)
      ensures !(left && sent) && |world.dispatched| == |old(world).dispatched| + if sent then 1 else 0
      ensures left ==> StreamerAt(k, Leaving) && 0 < next <= |turns| && turns[next - 1].ctxDone
      ensures sent ==> StreamerAt(k, Continue(i + 1, targetNum))
      ensures !left && !sent ==> StreamerAt(k, Handing(i, targetNum)) && |turns| <= next
      ensures !left && !sent && start < |turns| ==> world.main != Ranging
    {
      hide Exec, Inv;
      next := start;
      while next < |turns|
        invariant Valid() && StreamerAt(k, Handing(i, targetNum)) && old(handlers) <= handlers
        invariant world.dispatched == old(world).dispatched && (start < next ==> world.main != Ranging)
        invariant start <= next && (start <= |turns| ==> next <= |turns|)
      {
        var turn := turns[next];
        next := next + 1;
        Interfere(turn.env, Streamer(k));
        if k in world.cancelled && turn.ctxDone {
          Take(StreamCancelled(k));
          return true, false, next;
        }
        if world.main == Ranging {
          StreamerIsCurrent(world, k);
          Take(Hand);
          return false, true, next;
        }
      }
      return false, false, next;
    }

    /** The outer select: wait for a refresh, unless the connection's context is done. */
    method AwaitRefresh(turns: seq<Turn>, start: nat, k: nat, num: nat)
      returns (left: bool, woken: bool, next: nat)
      requires Valid() && StreamerAt(k, Parked(num))
      modifies this
      ensures Valid() && old(handlers) <= handlers && start <= next && (start <= |turns| ==> next <= |turns|)
      ensures !(left && woken) && world.dispatched == old(world).dispatched
      ensures left ==> StreamerAt(k, Leaving) && 0 < next <= |turns| && turns[next - 1].ctxDone
      ensures woken ==> StreamerAt(k, Snapshot(num)) && start < next
      ensures !left && !woken ==> StreamerAt(k, Parked(num)) && |turns| <= next
      ensures !left && !woken && start < |turns| ==> refreshHandlers.buf == []
    {
      hide Exec, Inv;
      next := start;
      while next < |turns|
        invariant Valid() && StreamerAt(k, Parked(num)) && old(handlers) <= handlers
        invariant world.dispatched == old(world).dispatched && (start < next ==> refreshHandlers.buf == [])
        invariant start <= next && (start <= |turns| ==> next <= |turns|)
      {
        var turn := turns[next];
        next := next + 1;
        Interfere(turn.env, Streamer(k));
        if k in world.cancelled && turn.ctxDone {
          Take(StreamCancelled(k));
          return true, false, next;
        }
        if refreshHandlers.buf != [] {
          Take(TakeRefresh(k));
          TakeToken();
          return false, true, next;
        }
      }
      return false, false, next;
    }

    /** The streamer's goroutine. What it sends, which is all that is dispatched in this connection, is a
        prefix of `handlers`, in order and without gaps, however many are appended meanwhile. If it
        leaves, its channel is closed; otherwise this run ends while it waits in one of its selects. */
    method StreamHandlers(turns: seq<Turn>, k: nat) returns (out: seq<nat>, left: bool)
      requires Valid() && StreamerAt(k, Snapshot(0))
      modifies this
      ensures Valid() && old(handlers) <= handlers && out <= handlers
      ensures |out| == |world.dispatched|
      ensures if left then k !in world.streamers && k in world.outClosed
              else k in world.streamers && (world.streamers[k].Handing? || world.streamers[k].Parked?)
    {
      hide Exec, Inv;
      out, left := [], false;
      var num, next := 0, 0;
      StreamerIsCurrent(world, k);
      while !left
        invariant Valid() && old(handlers) <= handlers && out <= handlers
        invariant next <= |turns| && |out| == |world.dispatched|
        invariant if left then StreamerAt(k, Leaving) else num == |out| && StreamerAt(k, Snapshot(num))
        decreases !left, |turns| - next
      {
        var targetNum := |handlers|;
        Take(TakeSnapshot(k));
        var i, sent := num, true;
        ghost var mark := next;
        while i < targetNum
          invariant Valid() && old(handlers) <= handlers && out <= handlers && !left
          invariant num <= i <= targetNum <= |handlers| && i == |out| && sent && mark <= next <= |turns|
          invariant StreamerAt(k, Continue(i, targetNum)) && |out| == |world.dispatched|
        {
          left, sent, next := HandOut(turns, next, k, i, targetNum);
          if !sent {
            break;
          }
          out := out + [handlers[i]];
          i := i + 1;
        }
        if !left {
          if !sent {
            return;
          }
          num := targetNum;
          var woken;
          left, woken, next := AwaitRefresh(turns, next, k, num);
          if !left && !woken {
            return;
          }
        }
      }
      Take(CloseOut(k));
    }

    // ---- start ----

    /** One receive from the streamer's channel: a handler, which gets a goroutine, or the end; neither only
        if the streamer offers no handler and has not closed the channel. */
    method RangeOnce(turn: Turn) returns (ended: bool, started: Option<nat>)
      requires Valid() && world.main == Ranging
      modifies this
      ensures Valid() && old(handlers) <= handlers && !(ended && started.Some?)
      ensures if ended then world.main == Joining && world.epoch in world.outClosed else world.main == Ranging
      ensures if started.Some?
              then |world.dispatched| == |old(world).dispatched| + 1 && |old(world).dispatched| < |handlers|
                   && started.value == handlers[|old(world).dispatched|]
              else world.dispatched == old(world).dispatched
      ensures !ended && started.None? ==> !Enabled(world, Hand) && world.epoch !in world.outClosed
      ensures world.epoch == old(world).epoch
    {
      hide Exec, Inv;
      Interfere(turn.env, Main);
      ended, started := world.epoch in world.outClosed, None;
      if ended {
        Take(RangeEnd);
      } else if Enabled(world, Hand) {
        StreamerIsCurrent(world, world.epoch);
        Take(Hand);
        started := Some(handlers[world.main.h]);
        Interfere(turn.env, Main);
        Take(Spawn);
      }
    }

    /** `for handler := range` the streamer's channel: each gets a goroutine. */
    method RangeHandlers(turns: seq<Turn>, start: nat) returns (ended: bool, started: seq<nat>, next: nat)
      requires Valid() && world.main == Ranging && world.dispatched == [] && start <= |turns|
      modifies this
      ensures Valid() && old(handlers) <= handlers && started <= handlers && start <= next <= |turns|
      ensures if ended then world.main == Joining else world.main == Ranging && next == |turns|
      ensures |started| == |world.dispatched|
      ensures world.epoch == old(world).epoch
    {
      hide Exec, Inv;
      started, next := [], start;
      while next < |turns|
        invariant Valid() && old(handlers) <= handlers && started <= handlers && start <= next <= |turns|
        invariant world.main == Ranging && |started| == |world.dispatched| && world.epoch == old(world).epoch
      {
        var handler;
        ended, handler := RangeOnce(turns[next]);
        next := next + 1;
        if ended {
          return;
        }
        if handler.Some? {
          started := started + [handler.value];
        }
      }
      ended := false;
    }

    /** `wg.Wait`, and the deferred `closer`. It waits on only while a goroutine is left. */
    method WaitForAll(turns: seq<Turn>, start: nat) returns (joined: bool, next: nat)
      requires Valid() && world.main == Joining && start <= |turns|
      modifies this
      ensures Valid() && old(handlers) <= handlers && start <= next <= |turns|
      ensures if joined then world.main == Idle && world.epoch in world.cancelled
              else world.main == Joining && next == |turns| && world.runners != map[]
      ensures world.dispatched == old(world).dispatched
      ensures world.epoch == old(world).epoch
    {
      hide Exec, Inv;
      next := start;
      while next < |turns| && world.wg != 0
        invariant Valid() && old(handlers) <= handlers && start <= next <= |turns|
        invariant world.main == Joining && world.dispatched == old(world).dispatched
        invariant world.epoch == old(world).epoch
      {
        Interfere(turns[next].env, Main);
        next := next + 1;
      }
      joined := world.wg == 0;
      if joined {
        Take(Join);
      } else {
        SomebodyRuns(world);
      }
    }

    /** One connection. `started` are the handlers that got a goroutine: a prefix of the registered ones.
        When it is over none of these goroutines is left, nor the streamer. */
    method OnConnectionEstablished(turns: seq<Turn>, start: nat)
      returns (over: bool, started: seq<nat>, next: nat)
      requires Valid() && world.main == Ranging && world.dispatched == [] && start <= |turns|
      modifies this
      ensures Valid() && old(handlers) <= handlers && started <= handlers && start <= next <= |turns|
      ensures over ==> world.main == Idle && world.runners == map[] && world.streamers == map[]
      ensures if over then world.epoch in world.cancelled else Established(world)
      ensures |started| == |world.dispatched|
      ensures world.epoch == old(world).epoch
    {
      hide Exec, Inv;
      over, started, next := RangeHandlers(turns, start);
      if over {
        over, next := WaitForAll(turns, next);
      }
      if over {
        IdleMeansAlone(world);
      }
    }

    method OnReady(turns: seq<Turn>, start: nat) returns (over: bool, next: nat)
      requires Valid() && world.main == Dialing && start < |turns|
      modifies this
      ensures Valid() && old(handlers) <= handlers && start < next <= |turns|
      ensures over ==> world.main == Idle && world.runners == map[] && world.streamers == map[]
      ensures !over ==> Established(world)
      ensures if turns[start].ok then world.epoch == old(world).epoch + 1 else over && world.epoch == old(world).epoch
    {
      hide Exec, Inv;
      var turn := turns[start];
      next := start + 1;
      Interfere(turn.env, Main);
      Take(Dial(turn.ok));
      over := true;
      if turn.ok {
        var started;
        over, started, next := OnConnectionEstablished(turns, next);
      } else {
        IdleMeansAlone(world);
      }
    }

    /** The select of `onIdle`: the timer, or the end of the global context. */
    method OnIdle(turn: Turn) returns (aborted: bool)
      requires Valid() && world.main == Idle
      modifies this
      ensures Valid() && old(handlers) <= handlers
      ensures aborted <==> turn.ctxDone && world.globalDone
      ensures world.main == if aborted then Stopping else Dialing
    {
      hide Exec, Inv;
      Interfere(turn.env, Main);
      aborted := world.globalDone && turn.ctxDone;
      if aborted {
        Take(Abort);
      } else {
        Take(Retry);
      }
    }

    /** The deferred `close(brk.done)`: the first and only one. */
    method CloseDoneChannel(env: seq<Move>)
      requires Valid() && world.main == Stopping
      modifies this
      ensures Valid() && old(handlers) <= handlers
      ensures world.main == Stopped && done.closed && world.doneCloses == 1
      ensures world.runners == map[] && world.streamers == map[]
      ensures old(world).globalDone ==> world.globalDone
    {
      hide Exec, Inv;
      Interfere(env, Main);
      Take(CloseDone);
      IdleMeansAlone(world);
      match Close(done) {
        case Closed(ch) => done := ch;
      }
    }

    /** `start`: connect, and after every connection or failure reconnect, until the context ends. When it
        returns, `done` has been closed once and no goroutine of any connection is left. */
    method Start(turns: seq<Turn>) returns (returned: bool)
      requires Valid() && world.main == Dialing
      modifies this
      ensures Valid() && old(handlers) <= handlers
      ensures returned ==> world.globalDone && done.closed && world.doneCloses == 1
      ensures returned ==> world.runners == map[] && world.streamers == map[]
      ensures !returned ==> !done.closed
    {
      hide Exec, Inv;
      var next, over := 0, false;
      while next < |turns|
        invariant Valid() && old(handlers) <= handlers && 0 <= next <= |turns|
        invariant world.main == Dialing
      {
        over, next := OnReady(turns, next);
        if !over || next == |turns| {
          return false;
        }
        var aborted := OnIdle(turns[next]);
        next := next + 1;
        if aborted {
          CloseDoneChannel([]);
          return true;
        }
      }
      returned := false;
    }
  }
}
