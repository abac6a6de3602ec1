/** The loop of a transactional sink (sink.go) as the imperative program it is, running in the world of
    module Delivery: the broker, the requeue responders and all other sinks take their steps between
    its own. Everything the program does is a run of that machine. */
module Sink {
  import opened Channels
  import opened Headers
  import opened Delivery
  import Handshake
  import opened Settlements

  /** What happens around one delivery: steps of the others before every step of the loop, which copy
      the broker hands out, what handlers, middleware and `fn` answer, and whether `snk.requeue` is set
      yet. A stream may be closed by the broker, and the context may end. */
  datatype Turn = Turn(
    env: seq<Step>,
    closed: bool,
    ctxDone: bool,
    copy: nat,
    tooMuchAnswer: bool,
    expiredAnswer: bool,
    verdicts: seq<bool>,
    fnOk: bool,
    err: string,
    requeueSet: bool)

  /** The processes taken from the stream and those settled, in order. */
  datatype Tally = Tally(taken: seq<nat>, settled: seq<nat>)

  /** `Blocked`: still waiting for a requeue; `StillOpen`: still waiting for a delivery. */
  datatype Outcome = StreamClosed | ContextDone | NackFailed | Blocked | StillOpen

  /** The others neither take deliveries for sink `k` nor move its processes, except that the broker may
      cut their connection and the handshake may serve their requests. */
  predicate OfOthers(s: State, step: Step, k: nat) {
    && (step.Deliver? ==> step.owner != k)
    && (Moving(step) && !step.Lose? ==> step.d < |s.procs| && s.procs[step.d].owner != k)
  }

  /** Process `d` stands where it stood, with the same delivery in its hands. */
  ghost predicate Waits(s: State, t: State, d: nat)
    requires d < |s.procs| && s.procs[d].copy < |s.copies|
  {
    && |s.procs| <= |t.procs| && |s.copies| <= |t.copies|
    && t.procs[d] == s.procs[d].(live := t.procs[d].live)
    && t.copies[t.procs[d].copy].headers == s.copies[s.procs[d].copy].headers
  }

  lemma OthersLeaveItWaiting(cfg: Config, s: State, step: Step, d: nat)
    requires Sound(cfg, s) && Enabled(cfg, s, step) && d < |s.procs| && OfOthers(s, step, s.procs[d].owner)
    ensures ProcPlaced(s, d) && Waits(s, Apply(cfg, s, step), d)
  {
    assert ProcPlaced(s, d);
    if Moving(step) {
      MovingStepOnlyMoves(cfg, s, step);
    }
  }

  /** From `before` to `after`, exactly the processes `handled` were taken from the stream, apart from
      one that may still wait, and exactly these were settled, once each, in that order. */
  ghost predicate Answered(before: Tally, after: Tally, handled: seq<nat>, waiting: Option<nat>) {
    && after.taken == before.taken + handled + (if waiting.Some? then [waiting.value] else [])
    && after.settled == before.settled + handled
  }

  lemma AnsweredOneMore(t: Tally, u: Tally, v: Tally, handled: seq<nat>, d: nat, settled: bool)
    requires Answered(t, u, handled, None)
    requires v == Tally(u.taken + [d], u.settled + if settled then [d] else [])
    ensures if settled then Answered(t, v, handled + [d], None) else Answered(t, v, handled, Some(d))
  {
    if settled {
      assert v.taken == t.taken + (handled + [d]) + [];
    } else {
      assert v.settled == t.settled + handled;
      assert v.taken == t.taken + handled + [d];
    }
  }

  /** Of the calls made since `before`, a failed Nack without requeue is the last, and there is one if and
      only if `failed`. */
  ghost predicate NewCalls(before: seq<Settlement>, after: seq<Settlement>, failed: bool) {
    && before <= after
    && (forall i :: |before| <= i < |after| && after[i].kind == NackDrop && !after[i].ok ==>
          failed && i == |after| - 1)
    && (failed ==> |before| < |after| && after[|after| - 1].kind == NackDrop && !after[|after| - 1].ok)
  }

  lemma NoNewCalls(calls: seq<Settlement>)
    ensures NewCalls(calls, calls, false)
  {
  }

  predicate FailedDrop(call: Option<Settlement>) {
    call.Some? && call.value.kind == NackDrop && !call.value.ok
  }

  lemma OneNewCall(before: seq<Settlement>, after: seq<Settlement>, call: Option<Settlement>)
    requires after == before + if call.Some? then [call.value] else []
    ensures NewCalls(before, after, FailedDrop(call))
  {
  }

  lemma MoreNewCalls(a: seq<Settlement>, b: seq<Settlement>, c: seq<Settlement>, failed: bool)
    requires NewCalls(a, b, false) && NewCalls(b, c, failed)
    ensures NewCalls(a, c, failed)
  {
    assert forall i :: |a| <= i < |b| ==> c[i] == b[i];
  }

  lemma Further(a: seq<Step>, b: seq<Step>, c: seq<Step>)
    requires a <= b <= c
    ensures a <= c
  {
  }

  /** What one more step adds to the sink's processes and to its calls of Ack and Nack. */
  lemma LogsAfter(cfg: Config, steps: seq<Step>, s: State, step: Step, k: nat)
    requires Exec(cfg, INIT, steps) == Some(s) && Sound(cfg, s) && Enabled(cfg, s, step)
    ensures Exec(cfg, INIT, steps + [step]) == Some(Apply(cfg, s, step)) && Sound(cfg, Apply(cfg, s, step))
    ensures Settling(cfg, steps + [step], k) == Settling(cfg, steps, k) + Made(s, step, k)
    ensures Owned(Apply(cfg, s, step).procs, k)
            == Owned(s.procs, k) + if step.Deliver? && step.owner == k then [|s.procs|] else []
  {
    assert (steps + [step])[..|steps|] == steps;
    StepKeepsSound(cfg, s, step);
    OwnedAfter(cfg, s, step, k);
  }

  /** The first `n` turns end nothing. */
  predicate Quiet(turns: seq<Turn>, n: nat)
    requires n <= |turns|
  {
    forall i :: 0 <= i < n ==> !turns[i].closed && !turns[i].ctxDone
  }

  /** `me` is the sink's number among all sinks of the queue. `settlements` are its calls of Ack and Nack,
      `taken` the processes of the deliveries it took from the stream, both in order. */
  class Sink {
    const cfg: Config
    const middleware: nat
    const me: nat
    var world: State
    var settlements: seq<Settlement>
    ghost var taken: seq<nat>
    ghost var trace: seq<Step>

    ghost predicate Tracked()
      reads this`world, this`trace
    {
      Exec(cfg, INIT, trace) == Some(world) && Sound(cfg, world)
    }

    /** Both logs are those of the run: no call of this sink and no delivery to it is missing. */
    ghost predicate Valid()
      reads this
    {
      Tracked() && settlements == Settling(cfg, trace, me) && taken == Owned(world.procs, me)
    }

    /** Process `d` is this sink's, and stands at `pc`. */
    ghost predicate Mine(d: nat, pc: Pc)
      reads this`world
    {
      At(world, d, pc) && world.procs[d].owner == me
    }

    constructor (cfg: Config, middleware: nat, me: nat)
      ensures Valid() && this.cfg == cfg && this.middleware == middleware && this.me == me
      ensures world == INIT && settlements == [] && trace == [] && taken == []
    {
      this.cfg, this.middleware, this.me := cfg, middleware, me;
      world, settlements, trace, taken := INIT, [], [], [];
    }

    /** A step that is neither a settlement nor a delivery of this sink. */
    method Take(step: Step)
      requires Valid() && Enabled(cfg, world, step)
      requires Made(world, step, me) == [] && (step.Deliver? ==> step.owner != me)
      modifies this`world, this`trace
      ensures Valid() && world == Apply(cfg, old(world), step) && trace == old(trace) + [step]
    {
      hide Exec, Sound, Enabled, Apply, Settling, Owned, Made;
      LogsAfter(cfg, trace, world, step, me);
      world := Apply(cfg, world, step);
      trace := trace + [step];
    }

    /** The others' steps while process `d` of this sink waits. */
    method Interfere(env: seq<Step>, d: nat)
      requires Valid() && d < |world.procs| && world.procs[d].owner == me
      modifies this`world, this`trace
      ensures Valid() && old(trace) <= trace
      ensures ProcPlaced(old(world), d) && Waits(old(world), world, d)
    {
      hide Exec, Settling, Owned;
      assert ProcPlaced(world, d);
      for i := 0 to |env|
        invariant Valid() && old(trace) <= trace
        invariant ProcPlaced(old(world), d) && Waits(old(world), world, d)
      {
        if Enabled(cfg, world, env[i]) && OfOthers(world, env[i], me) {
          OthersLeaveItWaiting(cfg, world, env[i], d);
          Take(env[i]);
        }
      }
    }

    /** The retry policy, in the order the loop evaluates it. The message is refused if the handler for too
        many retries is due and answers false, or if the limit is exceeded and the handler for expired
        messages is absent, always refuses, or answers false. */
    method Judged(turn: Turn, d: nat) returns (keepMessage: bool, ghost retries: int)
      requires Valid() && Mine(d, Judging)
      modifies this`world, this`trace
      ensures Valid() && old(trace) <= trace
      ensures ProcPlaced(old(world), d)
      ensures retries == Redelivery(old(world).copies[old(world).procs[d].copy].headers)
      ensures !keepMessage <==>
                || (cfg.tooMuch.Some? && retries >= cfg.tooMuch.value && !turn.tooMuchAnswer)
                || (cfg.limit >= 0 && retries > cfg.limit && (cfg.expired != Decides || !turn.expiredAnswer))
      ensures Mine(d, if keepMessage then Filtering else Rejecting)
    {
      hide Exec, Settling, Owned;
      Interfere(turn.env, d);
      var redelivered := Redelivery(world.copies[world.procs[d].copy].headers);
      retries := redelivered;
      keepMessage := true;
      if cfg.tooMuch.Some? && redelivered >= cfg.tooMuch.value {
        keepMessage := turn.tooMuchAnswer;
      }
      if cfg.limit >= 0 && redelivered > cfg.limit {
        if cfg.expired != NoHandler {
          keepMessage := keepMessage && cfg.expired == Decides && turn.expiredAnswer;
        } else {
          keepMessage := false;
        }
      }
      Take(Judge(d, turn.tooMuchAnswer, turn.expiredAnswer));
    }

    /** The middleware, in order, up to the first that refuses. */
    method Filtered(turn: Turn, d: nat) returns (filtered: bool)
      requires Valid() && Mine(d, Filtering)
      modifies this`world, this`trace
      ensures Valid() && old(trace) <= trace
      ensures filtered <==> exists j :: 0 <= j < middleware && j < |turn.verdicts| && !turn.verdicts[j]
      ensures Mine(d, if filtered then Rejecting else Handling)
    {
      hide Exec, Settling, Owned;
      Interfere(turn.env, d);
      filtered := false;
      var j := 0;
      while j < middleware
        invariant 0 <= j <= middleware && !filtered
        invariant forall i :: 0 <= i < j && i < |turn.verdicts| ==> turn.verdicts[i]
        invariant Valid() && Mine(d, Filtering) && old(trace) <= trace
      {
        if j < |turn.verdicts| && !turn.verdicts[j] {
          filtered := true;
          break;
        }
        j := j + 1;
      }
      Take(Filter(d, !filtered));
    }

    /** `Ack` or `Nack`: one attempt, which fails when the connection is gone. */
    method Settled(d: nat, kind: Kind) returns (call: Settlement)
      requires Valid() && d < |world.procs| && world.procs[d].owner == me
      requires match kind
               case Ack => world.procs[d].pc.Acking?
               case NackRequeue => world.procs[d].pc == Returning
               case NackDrop => world.procs[d].pc == Rejecting
      modifies this`world, this`trace, this`settlements
      ensures Valid() && old(trace) <= trace && Mine(d, Pc.Settled)
      ensures call == Settlement(d, kind, old(world).procs[d].live)
      ensures settlements == old(settlements) + [call] && world.hs == old(world).hs
    {
      hide Exec, Settling, Owned;
      assert ProcPlaced(world, d);
      call := Settlement(d, kind, world.procs[d].live);
      settlements := settlements + [call];
      LogsAfter(cfg, trace, world, Settle(d), me);
      world := Apply(cfg, world, Settle(d));
      trace := trace + [Settle(d)];
    }

    /** `Requeue`: wait for the answer. The caller watches only the global context, so it may wait for
        longer than this run lasts; then there is no answer yet. */
    method AwaitRequeue(turns: seq<Turn>, start: nat, d: nat) returns (answered: bool, next: nat)
      requires Valid() && Mine(d, Requesting)
      modifies this`world, this`trace
      ensures Valid() && old(trace) <= trace && Mine(d, Requesting) && start <= next
      ensures answered ==> Enabled(cfg, world, Resume(d))
      ensures !answered ==> next >= |turns| && !Enabled(cfg, world, Resume(d))
    {
      hide Exec, Settling, Owned;
      next := start;
      while next < |turns|
        invariant Valid() && old(trace) <= trace && Mine(d, Requesting) && start <= next
      {
        assert RequestHolds(cfg, world, d);
        if world.hs.callers[d].Back? {
          return true, next;
        }
        Interfere(turns[next].env, d);
        next := next + 1;
      }
      assert RequestHolds(cfg, world, d);
      answered := world.hs.callers[d].Back?;
    }

    /** The call of `fn` by the closure of `TransactFunc`. After an error the request to the requeue queue is
        made with the delivery's headers and the error's text. */
    method Called(turn: Turn, d: nat)
      requires Valid() && Mine(d, Handling)
      modifies this`world, this`trace
      ensures Valid() && old(trace) <= trace
      ensures Mine(d, if turn.fnOk then Acking(true)
                      else if cfg.requeue && turn.requeueSet then Requesting else Returning)
      ensures ProcPlaced(old(world), d)
      ensures Mine(d, Requesting) ==>
                d in world.bodies
                && var h := old(world).copies[old(world).procs[d].copy].headers;
                   world.bodies[d] == h[LAST_ERROR := Text(turn.err)]
    {
      hide Exec, Settling, Owned;
      Interfere(turn.env, d);
      assert ProcPlaced(world, d) && RequestHolds(cfg, world, d);
      Take(Run(d, turn.fnOk, turn.err, turn.requeueSet));
    }

    /** Ack after the requeue, or Nack if it did not go through. */
    method Concluded(turn: Turn, d: nat) returns (call: Settlement)
      requires Valid() && Mine(d, Requesting) && Enabled(cfg, world, Resume(d))
      modifies this`world, this`trace, this`settlements
      ensures Valid() && old(trace) <= trace && Mine(d, Pc.Settled)
      ensures settlements == old(settlements) + [call] && call.d == d
      ensures d in world.hs.callers
      ensures call.kind == if world.hs.callers[d] == Handshake.Back(Handshake.Published) then Ack else NackRequeue
    {
      hide Exec, Settling, Owned;
      var kind := if world.hs.callers[d].result == Handshake.Published then Ack else NackRequeue;
      Take(Resume(d));
      call := Settled(d, kind);
    }

    /** The closure of `TransactFunc`: one settlement, unless it still waits for its requeue. Ack if `fn`
        returned nil or the requeue did, Nack with requeue otherwise. */
    method Transact(turns: seq<Turn>, start: nat, turn: Turn, d: nat)
      returns (call: Option<Settlement>, next: nat)
      requires Valid() && Mine(d, Handling)
      modifies this`world, this`trace, this`settlements
      ensures Valid() && old(trace) <= trace && start <= next
      ensures settlements == old(settlements) + if call.Some? then [call.value] else []
      ensures if call.Some? then call.value.d == d && Mine(d, Pc.Settled)
              else Mine(d, Requesting) && !Enabled(cfg, world, Resume(d))
      ensures call.Some? ==>
                call.value.kind
                == if turn.fnOk
                      || (cfg.requeue && turn.requeueSet && d in world.hs.callers
                          && world.hs.callers[d] == Handshake.Back(Handshake.Published))
                   then Ack else NackRequeue
      ensures call.None? ==> !turn.fnOk && cfg.requeue && turn.requeueSet
    {
      hide Exec, Settling, Owned;
      next := start;
      Called(turn, d);
      Interfere(turn.env, d);
      if turn.fnOk {
        var done := Settled(d, Ack);
        return Some(done), next;
      }
      if !(cfg.requeue && turn.requeueSet) {
        var returned := Settled(d, NackRequeue);
        return Some(returned), next;
      }
      var answered;
      answered, next := AwaitRequeue(turns, start, d);
      if !answered {
        return None, next;
      }
      var concluded := Concluded(turn, d);
      call := Some(concluded);
    }

    /** The broker hands out a copy. */
    method Received(c: nat) returns (d: nat)
      requires Valid() && Enabled(cfg, world, Deliver(c, me))
      modifies this`world, this`trace, this`taken
      ensures Valid() && old(trace) <= trace && d == |old(world).procs| && Mine(d, Judging)
      ensures taken == old(taken) + [d]
      ensures world.procs[d].copy == c && c < |world.copies|
      ensures world.copies[c].headers == old(world).copies[c].headers
    {
      hide Exec, Settling, Owned;
      d := |world.procs|;
      LogsAfter(cfg, trace, world, Deliver(c, me), me);
      world := Apply(cfg, world, Deliver(c, me));
      trace := trace + [Deliver(c, me)];
      taken := taken + [d];
    }

    /** Nack without requeue, for policy or middleware. */
    method Drop(turn: Turn, d: nat) returns (call: Settlement)
      requires Valid() && Mine(d, Rejecting)
      modifies this`world, this`trace, this`settlements
      ensures Valid() && old(trace) <= trace && Mine(d, Pc.Settled)
      ensures settlements == old(settlements) + [call] && call.d == d && call.kind == NackDrop
    {
      hide Exec, Settling, Owned;
      Interfere(turn.env, d);
      call := Settled(d, NackDrop);
    }

    /** Policy, then middleware. */
    method Admit(turn: Turn, d: nat) returns (admitted: bool, ghost retries: int)
      requires Valid() && Mine(d, Judging)
      modifies this`world, this`trace
      ensures Valid() && old(trace) <= trace && ProcPlaced(old(world), d)
      ensures retries == Redelivery(old(world).copies[old(world).procs[d].copy].headers)
      ensures !admitted <==>
                || (cfg.tooMuch.Some? && retries >= cfg.tooMuch.value && !turn.tooMuchAnswer)
                || (cfg.limit >= 0 && retries > cfg.limit && (cfg.expired != Decides || !turn.expiredAnswer))
                || (exists j :: 0 <= j < middleware && j < |turn.verdicts| && !turn.verdicts[j])
      ensures Mine(d, if admitted then Handling else Rejecting)
    {
      hide Exec, Settling, Owned, Sound, At, Enabled, Apply, Keep, Redelivery;
      admitted, retries := Judged(turn, d);
      if admitted {
        var filtered := Filtered(turn, d);
        admitted := !filtered;
      }
    }

    /** One delivery, from the stream to its settlement: refused by policy or middleware, it gets a Nack
        without requeue; admitted, an Ack or a Nack with requeue as `TransactFunc` has it. */
    method HandleDelivery(turns: seq<Turn>, start: nat, turn: Turn, d: nat)
      returns (call: Option<Settlement>, next: nat, ghost retries: int)
      requires Valid() && Mine(d, Judging)
      modifies this`world, this`trace, this`settlements
      ensures Valid() && old(trace) <= trace && start <= next
      ensures settlements == old(settlements) + if call.Some? then [call.value] else []
      ensures if call.Some? then call.value.d == d && Mine(d, Pc.Settled)
              else Mine(d, Requesting) && !Enabled(cfg, world, Resume(d))
      ensures ProcPlaced(old(world), d)
      ensures retries == Redelivery(old(world).copies[old(world).procs[d].copy].headers)
      ensures call.Some? && call.value.kind == NackDrop <==>
                || (cfg.tooMuch.Some? && retries >= cfg.tooMuch.value && !turn.tooMuchAnswer)
                || (cfg.limit >= 0 && retries > cfg.limit && (cfg.expired != Decides || !turn.expiredAnswer))
                || (exists j :: 0 <= j < middleware && j < |turn.verdicts| && !turn.verdicts[j])
      ensures call.Some? && call.value.kind != NackDrop ==>
                call.value.kind
                == if turn.fnOk
                      || (cfg.requeue && turn.requeueSet && d in world.hs.callers
                          && world.hs.callers[d] == Handshake.Back(Handshake.Published))
                   then Ack else NackRequeue
    {
      hide Exec, Settling, Owned, Sound, Apply, Keep, Redelivery;
      next := start;
      var admitted;
      admitted, retries := Admit(turn, d);
      if admitted {
        call, next := Transact(turns, start, turn, d);
      } else {
        var dropped := Drop(turn, d);
        call := Some(dropped);
      }
    }

    /** The others' steps while the loop waits for a delivery. */
    method Idle(env: seq<Step>)
      requires Valid()
      modifies this`world, this`trace
      ensures Valid() && old(trace) <= trace
    {
      hide Exec, Sound, Settling, Owned;
      for i := 0 to |env|
        invariant Valid() && old(trace) <= trace
      {
        if Enabled(cfg, world, env[i]) && OfOthers(world, env[i], me) {
          Take(env[i]);
        }
      }
    }

    ghost function Counted(): Tally
      reads this
    {
      Tally(taken, Ids(settlements))
    }

    /** `HandleDelivery`, seen from the loop. */
    method Served(turns: seq<Turn>, start: nat, turn: Turn, d: nat)
      returns (call: Option<Settlement>, next: nat)
      requires Valid() && Mine(d, Judging)
      modifies this`world, this`trace, this`settlements
      ensures Valid() && old(trace) <= trace && start <= next
      ensures settlements == old(settlements) + if call.Some? then [call.value] else []
      ensures Counted() == Tally(old(taken), Ids(old(settlements)) + if call.Some? then [d] else [])
      ensures call.None? ==> Mine(d, Requesting) && !Enabled(cfg, world, Resume(d))
    {
      hide Exec, Settling, Owned;
      ghost var retries;
      ghost var settled := settlements;
      call, next, retries := HandleDelivery(turns, start, turn, d);
      if call.Some? {
        IdsSnoc(settled, call.value);
      } else {
        assert settlements == settled && Ids(settled) + [] == Ids(settled);
      }
    }

    /** The select of the loop: the end of the stream or of the context, or else the next delivery of the
        stream; neither only if the broker has none to hand out. */
    method Next(turn: Turn) returns (d: Option<nat>, ended: Option<Outcome>)
      requires Valid()
      modifies this`world, this`trace, this`taken
      ensures Valid() && old(trace) <= trace
      ensures d.Some? ==> ended.None? && Mine(d.value, Judging)
      ensures Counted() == Tally(old(taken) + (if d.Some? then [d.value] else []), Ids(old(settlements)))
      ensures ended == if turn.closed then Some(StreamClosed) else if turn.ctxDone then Some(ContextDone) else None
      ensures d.None? && ended.None? ==> !Enabled(cfg, world, Deliver(turn.copy, me))
    {
      hide Exec, Settling, Owned;
      Idle(turn.env);
      d, ended := None, None;
      if turn.closed {
        ended := Some(StreamClosed);
      } else if turn.ctxDone {
        ended := Some(ContextDone);
      } else if Enabled(cfg, world, Deliver(turn.copy, me)) {
        var p := Received(turn.copy);
        d := Some(p);
      }
    }

    /** What the script has to say for the loop to end, or to go on without a delivery. */
    ghost predicate Scripted(turns: seq<Turn>, outcome: Outcome, handled: seq<nat>) {
      match outcome
      case StreamClosed => exists i :: 0 <= i < |turns| && turns[i].closed
      case ContextDone => exists i :: 0 <= i < |turns| && turns[i].ctxDone && !turns[i].closed
      case StillOpen => handled != [] || Quiet(turns, |turns|)
      case _ => true
    }

    /** One turn of the loop. `handled` are the deliveries settled so far since `start`. */
    method TurnOnce(turns: seq<Turn>, next: nat, handled: seq<nat>, ghost start: Tally,
                    ghost first: seq<Step>)
      returns (outcome: Option<Outcome>, handled': seq<nat>, waiting: Option<nat>, next': nat)
      requires Valid() && next < |turns| && Answered(start, Counted(), handled, None)
      requires first <= trace && (handled != [] || Quiet(turns, next))
      modifies this
      ensures Valid() && first <= trace && next < next'
      ensures Answered(start, Counted(), handled', waiting)
      ensures outcome == Some(Blocked) <==> waiting.Some?
      ensures waiting.Some? ==> Mine(waiting.value, Requesting) && !Enabled(cfg, world, Resume(waiting.value))
      ensures outcome.Some? ==> outcome.value != StillOpen && Scripted(turns, outcome.value, handled')
      ensures outcome.None? ==> handled' != [] || (next' == next + 1 && Quiet(turns, next'))
      ensures NewCalls(old(settlements), settlements, outcome == Some(NackFailed))
    {
      hide Exec, Sound, Settling, Owned, NewCalls, Ids;
      NoNewCalls(settlements);
      ghost var before, soFar, calls := Counted(), trace, settlements;
      var turn, d := turns[next], None;
      handled', waiting, next' := handled, None, next + 1;
      d, outcome := Next(turn);
      Further(first, soFar, trace);
      soFar := trace;
      if d.Some? {
        var call;
        call, next' := Served(turns, next', turn, d.value);
        OneNewCall(calls, settlements, call);
        Further(first, soFar, trace);
        AnsweredOneMore(start, before, Counted(), handled, d.value, call.Some?);
        if call.Some? {
          handled' := handled + [d.value];
          outcome := if FailedDrop(call) then Some(NackFailed) else None;
        } else {
          waiting, outcome := d, Some(Blocked);
        }
      }
    }

    /** `ChannelReady` over one connection. The deliveries it takes from the stream, which by `Valid` are
        all that the broker hands to this sink, get exactly one call of Ack or Nack each, in the order
        taken, except the last if the sink still waits for its requeue. A Nack of a refused message
        that fails ends the loop, a failed Ack or Nack of the transaction does not. */
    method ChannelReady(turns: seq<Turn>) returns (outcome: Outcome, handled: seq<nat>, waiting: Option<nat>)
      requires Valid()
      modifies this
      ensures Valid() && old(trace) <= trace
      ensures Answered(old(Counted()), Counted(), handled, waiting)
      ensures outcome == Blocked <==> waiting.Some?
      ensures waiting.Some? ==> Mine(waiting.value, Requesting) && !Enabled(cfg, world, Resume(waiting.value))
      ensures NewCalls(old(settlements), settlements, outcome == NackFailed)
      ensures Scripted(turns, outcome, handled)
    {
      hide Exec, Sound, Settling, Owned, NewCalls, Enabled;
      ghost var start, first, calls := Counted(), trace, settlements;
      handled, waiting := [], None;
      NoNewCalls(calls);
      var next := 0;
      while next < |turns|
        invariant Valid() && first <= trace && waiting == None
        invariant Answered(start, Counted(), handled, waiting)
        invariant NewCalls(calls, settlements, false)
        invariant handled != [] || (next <= |turns| && Quiet(turns, next))
        decreases if next < |turns| then |turns| - next else 0
      {
        ghost var soFar := settlements;
        var ended;
        ended, handled, waiting, next := TurnOnce(turns, next, handled, start, first);
        MoreNewCalls(calls, soFar, settlements, ended == Some(NackFailed));
        if ended.Some? {
          return ended.value, handled, waiting;
        }
      }
      outcome := StillOpen;
    }

    /** What the logs say of the run so far: `taken` are exactly this sink's processes, the earlier first;
        those with a call in `settlements` are exactly the settled ones, and none has two. */
    lemma LogsTellTheRun(d: nat)
      requires Valid()
      ensures d in taken <==> d < |world.procs| && world.procs[d].owner == me
      ensures forall i, j :: 0 <= i < j < |taken| ==> taken[i] < taken[j]
      ensures TimesSettled(settlements, d) == if Mine(d, Pc.Settled) then 1 else 0
      ensures d in Ids(settlements) <==> Mine(d, Pc.Settled)
      ensures forall c :: c in settlements ==> Reasoned(world, c)
    {
      OwnedExactly(world.procs, me);
      EachOnce(cfg, trace, me, d);
      IdsAreTheSettled(cfg, trace, me, d);
      forall c | c in settlements ensures Reasoned(world, c) {
        EveryCallIsReasoned(cfg, trace, me, c);
      }
    }
  }
}
