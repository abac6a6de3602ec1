/** The `RPC` object of rpc.go as the imperative program it is: `Raw` up to its registration, `onMessage`,
    the sweep of `BuildRPC` and `Reply.Bytes`. Each method is the code of one thread; between its own
    steps all others take theirs. Everything that happens is a run of the machine of module Rpc in which
    the supervisor keeps its promise. */
module RpcClient {
  import opened Channels
  import opened Rpc

  /** Whose steps a method takes itself. */
  datatype Self = Caller(id: nat) | Reader | Handler(k: nat) | Sweeper

  predicate OfOthers(step: Step, self: Self) {
    match self
    case Caller(id) => step != Register(id)
    case Reader => true
    case Handler(k) => !((step.Stop? || step.Arrive? || step.Look? || step.Send? || step.Close?) && step.k == k)
    case Sweeper => !step.SweepBegin? && !step.SweepClose? && !step.SweepEnd?
  }

  ghost predicate StaysPut(s: State, t: State, self: Self) {
    && |s.owners| <= |t.owners| && (forall ch :: 0 <= ch < |s.owners| ==> t.owners[ch] == s.owners[ch])
    && match self
       case Caller(id) => id !in s.owners ==> id !in t.owners
       case Reader => true
       case Handler(k) =>
         k in s.handlers ==>
           && k in t.handlers && t.handlers[k] == s.handlers[k]
           && (s.handlers[k].Closing? && s.handlers[k].ch < |s.fates| ==>
                 s.handlers[k].ch < |t.fates| && t.fates[s.handlers[k].ch] == s.fates[s.handlers[k].ch])
       case Sweeper =>
         && t.sweep == s.sweep && (s.done ==> t.done)
         && (s.sweep.Sweeping? ==> t.correlation == s.correlation && |t.chans| == |s.chans|)
  }

  lemma OthersLeaveItPut(s: State, step: Step, self: Self)
    requires Inv(s) && Enabled(s, step) && Orderly(s, step) && OfOthers(step, self)
    ensures StaysPut(s, Apply(s, step), self)
  {
    if self.Handler? && self.k in s.handlers && s.handlers[self.k].Closing? {
      var ch := s.handlers[self.k].ch;
      assert HandlerFits(s, self.k, s.handlers[self.k]);
      FirstReplyWins(s, step, ch);
      StepKeepsInv(s, step);
      assert HandlerFits(Apply(s, step), self.k, s.handlers[self.k]);
    }
  }

  lemma StaysPutTrans(s: State, t: State, u: State, self: Self)
    requires StaysPut(s, t, self) && StaysPut(t, u, self)
    ensures StaysPut(s, u, self)
  {
  }

  lemma NothingHappens(s: State, self: Self)
    ensures StaysPut(s, s, self)
  {
  }

  /** While a handler runs nobody sweeps, and its channel is there, open and empty. */
  lemma HandlerIsSafe(s: State, k: nat)
    requires Inv(s) && k in s.handlers
    ensures LockFree(s) && !s.done && |s.owners| == |s.chans| == |s.fates|
    ensures s.handlers[k].Looking? && s.handlers[k].d.correlation in s.correlation ==>
              s.correlation[s.handlers[k].d.correlation] < |s.chans|
    ensures s.handlers[k].Sending? ==>
              && s.handlers[k].ch < |s.chans| && Channels.Send(s.chans[s.handlers[k].ch], s.handlers[k].d).Sent?
              && s.owners[s.handlers[k].ch] == s.handlers[k].d.correlation
    ensures s.handlers[k].Closing? ==>
              && s.handlers[k].ch < |s.chans| && !s.chans[s.handlers[k].ch].closed
              && s.fates[s.handlers[k].ch].Delivered?
              && s.fates[s.handlers[k].ch].d.correlation == s.owners[s.handlers[k].ch]
  {
    assert HandlerFits(s, k, s.handlers[k]);
    RepliesGoThrough(s, k);
    match s.handlers[k]
    case Sending(ch, _) => assert FateHolds(s, ch);
    case Closing(ch) => assert FateHolds(s, ch);
    case _ =>
  }

  lemma ChannelsAreOwned(s: State)
    requires Inv(s)
    ensures |s.owners| == |s.chans| == |s.fates|
  {
  }

  /** The channels left to sweep are open, and no two ids have the same one. */
  lemma SweepIsSafe(s: State, id: nat)
    requires Inv(s) && s.sweep.Sweeping? && id in s.correlation
    ensures s.correlation[id] < |s.chans|
    ensures s.correlation[id] in s.sweep.left ==> !s.chans[s.correlation[id]].closed
    ensures forall other :: other in s.correlation && other != id ==> s.correlation[other] != s.correlation[id]
  {
    assert FateHolds(s, s.correlation[id]);
  }

  lemma SweptMeansClosed(s: State, ch: nat)
    requires Inv(s) && s.sweep == Sweeping({}) && ch < |s.chans|
    ensures s.chans[ch].closed
  {
    assert FateHolds(s, ch);
    assert ch !in s.sweep.left;
  }

  /** What a receive yields, and from which fate. */
  lemma ReceiveFits(s: State, ch: nat)
    requires Inv(s) && Enabled(s, Receive(ch))
    ensures ch < |s.owners| == |s.fates|
    ensures match Channels.Receive(s.chans[ch])
            case Got(d, _) => d.correlation == s.owners[ch]
            case _ => s.fates[ch].Answered? || s.fates[ch].SweptAway?
  {
    assert FateHolds(s, ch);
  }

  /** `correlation` is the table; `chans` are the reply channels the `Reply` objects hold, in the order
      `Raw` made them. */
  class Client {
    var correlation: map<nat, nat>
    var chans: seq<Chan<Delivery>>
    var world: State
    ghost var trace: seq<Step>

    ghost predicate Tracked()
      reads this`world, this`trace
    {
      Exec(INIT, trace) == Some(world) && Inv(world) && !world.panicked
    }

    ghost predicate Agrees()
      reads this
    {
      correlation == world.correlation && chans == world.chans
    }

    ghost predicate Valid()
      reads this
    {
      Tracked() && Agrees()
    }

    constructor ()
      ensures Valid() && world == INIT && correlation == map[] && chans == []
    {
      correlation, chans := map[], [];
      world, trace := INIT, [];
      new;
      InitHolds();
    }

    method Take(step: Step)
      requires Tracked() && Enabled(world, step) && Orderly(world, step)
      modifies this`world, this`trace
      ensures Tracked() && world == Apply(old(world), step) && trace == old(trace) + [step]
    {
      StepKeepsInv(world, step);
      ExecSnoc(INIT, trace, step);
      world := Apply(world, step);
      trace := trace + [step];
    }

    method Interfere(env: seq<Step>, self: Self)
      requires Valid()
      modifies this
      ensures Valid() && StaysPut(old(world), world, self)
    {
      hide Exec, Inv, StaysPut, Enabled, Apply;
      NothingHappens(world, self);
      for i := 0 to |env|
        invariant Valid() && StaysPut(old(world), world, self)
      {
        if Enabled(world, env[i]) && Orderly(world, env[i]) && OfOthers(env[i], self) {
          ghost var before := world;
          OthersLeaveItPut(world, env[i], self);
          Take(env[i]);
          correlation, chans := world.correlation, world.chans;
          StaysPutTrans(old(world), before, world, self);
        }
      }
    }

    // ---- Raw ----

    /** The registration in `Raw`: a fresh one-place channel under the fresh id, as soon as the lock is
        free; None if the run ends before, with the lock still held. */
    method Register(id: nat, turns: seq<seq<Step>>) returns (ch: Option<nat>)
      requires Valid() && id !in world.owners
      modifies this
      ensures Valid() && (ch.None? ==> id !in world.owners && !LockFree(world))
      ensures ch.Some? ==>
                && ch.value == |chans| - 1 && chans[ch.value] == Make(1)
                && id in correlation && correlation[id] == ch.value
                && ch.value < |world.owners| && world.owners[ch.value] == id
    {
      hide Exec, Inv;
      var i := 0;
      while i < |turns| && !LockFree(world)
        invariant 0 <= i <= |turns| && Valid() && id !in world.owners
      {
        Interfere(turns[i], Caller(id));
        i := i + 1;
      }
      if !LockFree(world) {
        return None;
      }
      ChannelsAreOwned(world);
      ch := Some(|chans|);
      Take(Rpc.Register(id));
      chans := chans + [Make(1)];
      correlation := correlation[id := ch.value];
    }

    // ---- onMessage ----

    ghost predicate At(k: nat, pc: HandlerPc)
      reads this`world
    {
      k in world.handlers && world.handlers[k] == pc
    }

    /** The critical section: look the id up and take it out of the table. */
    method LookUp(env: seq<Step>, k: nat, d: Delivery) returns (ch: Option<nat>)
      requires Valid() && At(k, Looking(d))
      modifies this
      ensures Valid() && d.correlation !in correlation
      ensures At(k, if ch.Some? then Sending(ch.value, d) else Idle)
    {
      hide Exec, Inv;
      Interfere(env, Handler(k));
      HandlerIsSafe(world, k);
      ch := if d.correlation in correlation then Some(correlation[d.correlation]) else None;
      Take(Look(k));
      if ch.Some? {
        correlation := correlation - {d.correlation};
      }
    }

    method SendReply(env: seq<Step>, k: nat, ch: nat, d: Delivery)
      requires Valid() && At(k, Sending(ch, d))
      modifies this
      ensures Valid() && At(k, Closing(ch))
      ensures ch < |world.fates| && world.fates[ch] == Delivered(k, d)
    {
      hide Exec, Inv;
      Interfere(env, Handler(k));
      HandlerIsSafe(world, k);
      match Channels.Send(chans[ch], d) {
        case Sent(c) => chans := chans[ch := c];
      }
      Take(Rpc.Send(k));
    }

    method CloseReply(env: seq<Step>, k: nat, ch: nat, d: Delivery)
      requires Valid() && At(k, Closing(ch)) && ch < |world.fates| && world.fates[ch] == Delivered(k, d)
      modifies this
      ensures Valid() && At(k, Idle) && ch < |chans| && chans[ch].closed
      ensures ch < |world.fates| && world.fates[ch] == Answered(d)
      ensures ch < |world.owners| && world.owners[ch] == d.correlation
    {
      hide Exec, Inv;
      Interfere(env, Handler(k));
      HandlerIsSafe(world, k);
      match Channels.Close(chans[ch]) {
        case Closed(c) => chans := chans[ch := c];
      }
      Take(Rpc.Close(k));
    }

    /** `onMessage`. If a call waits under the message's id, its channel gets this message and is closed;
        otherwise nothing happens but the look into the table. Neither panics nor blocks. */
    method OnMessage(k: nat, d: Delivery, env: seq<Step>, env': seq<Step>, env'': seq<Step>)
      returns (ch: Option<nat>)
      requires Valid() && At(k, Idle)
      modifies this
      ensures Valid() && At(k, Idle)
      ensures ch.None? ==> d.correlation !in correlation
      ensures ch.Some? ==>
                && ch.value < |chans| && chans[ch.value].closed
                && ch.value < |world.fates| && world.fates[ch.value] == Answered(d)
                && ch.value < |world.owners| && world.owners[ch.value] == d.correlation
    {
      hide Exec, Inv;
      Take(Arrive(k, d));
      ch := LookUp(env, k, d);
      if ch.Some? {
        SendReply(env', k, ch.value, d);
        CloseReply(env'', k, ch.value, d);
      }
    }

    // ---- The sweep ----

    /** The close of one listed channel. */
    method SweepOne(env: seq<Step>, id: nat)
      requires Valid() && world.sweep.Sweeping? && id in correlation && correlation[id] in world.sweep.left
      modifies this
      ensures Valid() && correlation == old(correlation) && |chans| == |old(chans)|
      ensures world.sweep == Sweeping(old(world).sweep.left - {correlation[id]})
    {
      hide Exec, Inv;
      Interfere(env, Sweeper);
      SweepIsSafe(world, id);
      match Channels.Close(chans[correlation[id]]) {
        case Closed(c) => chans := chans[correlation[id] := c];
      }
      Take(SweepClose(correlation[id]));
    }

    /** The goroutine of `BuildRPC` once the broker is done: it closes the channel of every call still in
        the table. Afterwards every channel made so far is closed, and the table is as it was. */
    method Sweep(turns: seq<seq<Step>>)
      requires Valid() && world.done && world.sweep == NotYet
      modifies this
      ensures Valid() && world.sweep == Swept && correlation == old(correlation)
      ensures |chans| == |old(chans)| && forall ch :: 0 <= ch < |chans| ==> chans[ch].closed
    {
      hide Exec, Inv;
      Take(SweepBegin);
      var todo, i := correlation.Keys, 0;
      while todo != {}
        invariant Valid() && correlation == old(correlation) && |chans| == |old(chans)|
        invariant todo <= correlation.Keys
        invariant world.sweep == Sweeping(set id | id in todo :: correlation[id])
        decreases |todo|
      {
        var id :| id in todo;
        SweepIsSafe(world, id);
        ghost var left := set other | other in todo :: correlation[other];
        assert correlation[id] in left;
        SweepOne(if i < |turns| then turns[i] else [], id);
        todo, i := todo - {id}, i + 1;
        assert left - {correlation[id]} == set other | other in todo :: correlation[other];
      }
      forall ch | 0 <= ch < |chans| ensures chans[ch].closed {
        SweptMeansClosed(world, ch);
      }
      Take(SweepEnd);
    }

    // ---- Reply.Bytes ----

    /** `Reply.Bytes`: the outer None is a caller that still waits when the run ends, for a channel that is
        open and empty; the inner one is the "closed channel" error. A reply is one that was sent for the
        caller's own id. */
    method Bytes(ch: nat, turns: seq<seq<Step>>) returns (reply: Option<Option<Delivery>>)
      requires Valid() && ch < |chans|
      modifies this
      ensures Valid() && ch < |chans| && ch < |world.owners| == |world.fates|
      ensures reply.None? ==> chans[ch].buf == [] && !chans[ch].closed
      ensures reply.Some? && reply.value.Some? ==> reply.value.value.correlation == world.owners[ch]
      ensures reply == Some(None) ==> world.fates[ch].Answered? || world.fates[ch].SweptAway?
      ensures reply.Some? ==> Read(ch, reply.value) in world.seen
    {
      hide Exec, Inv;
      var i := 0;
      while i < |turns| && Channels.Receive(chans[ch]).ReceiveBlocks?
        invariant 0 <= i <= |turns| && Valid() && ch < |chans|
      {
        ChannelsAreOwned(world);
        Interfere(turns[i], Reader);
        ChannelsAreOwned(world);
        i := i + 1;
      }
      ChannelsAreOwned(world);
      var got := Channels.Receive(chans[ch]);
      if got.ReceiveBlocks? {
        return None;
      }
      ReceiveFits(world, ch);
      Take(Rpc.Receive(ch));
      if got.Got? {
        chans := chans[ch := got.ch];
      }
      reply := Some(if got.Got? then Some(got.value) else None);
    }
  }
}
