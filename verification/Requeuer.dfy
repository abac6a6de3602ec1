/** The `requeue` object of requeuer.go as the imperative program it is: `Requeue` and `RequeueWithError`
    on the callers' side, `ChannelReady` on the responder's. Each method is the code of one thread;
    between its own steps all others take theirs. Everything that happens is a run of the machine of
    module Handshake, in which a request stands for the message it carries. */
module Requeuer {
  import opened Channels
  import opened Handshake
  import opened Headers
  import opened Messages

  /** A step of another thread; a call brings its message. */
  datatype Move = Move(step: Step, msg: Message)

  /** One scheduling point: the others move; then a call of the broker returns nil iff `ok`, and a select
      that could go either way takes the context's case iff `ctxDone`. */
  datatype Turn = Turn(env: seq<Move>, ok: bool, ctxDone: bool)

  datatype Outcome = DeclareFailed | PublishFailed | Cancelled | Waiting

  /** A call of `ch.Publish` and whether it returned nil. */
  datatype Sending = Sending(msg: Message, ok: bool)

  datatype Self = Caller(r: nat) | Responder(k: nat)

  predicate OfOthers(step: Step, self: Self) {
    match self
    case Caller(r) => step != Call(r) && step != Hand(r) && step != TakeReply(r) && step != GiveUp(r)
    case Responder(k) =>
      !((step.Start? || step.Declare? || step.Cancelled? || step.Accept? || step.Publish? || step.Reply? || step.Shut?
         || step.Stop?) && step.k == k)
  }

  ghost predicate StaysPut(s: State, t: State, self: Self) {
    match self
    case Caller(r) => (r in s.callers <==> r in t.callers) && (r in s.callers ==> t.callers[r] == s.callers[r])
    case Responder(k) =>
      (k in s.responders <==> k in t.responders) && (k in s.responders ==> t.responders[k] == s.responders[k])
  }

  /** What was tried stays tried, and what was answered stays answered. */
  ghost predicate Grows(s: State, t: State) {
    && (forall a :: a in s.attempts ==> a in t.attempts)
    && (forall r :: r in s.places && s.places[r].Finished? ==> r in t.places && t.places[r] == s.places[r])
    && (s.globalDone ==> t.globalDone)
  }

  lemma StepGrows(s: State, step: Step)
    requires Inv(s) && Enabled(s, step) && (forall r :: r in s.places ==> r in s.callers)
    ensures Grows(s, Apply(s, step))
  {
    var t := Apply(s, step);
    forall r | r in s.places && s.places[r].Finished? ensures r in t.places && t.places[r] == s.places[r] {
      assert PlaceHolds(s, r);
      match step
      case Publish(k, _) => assert ResponderFits(s, k, s.responders[k]);
      case Reply(k) => assert ResponderFits(s, k, s.responders[k]);
      case Shut(k) => assert ResponderFits(s, k, s.responders[k]);
      case _ =>
    }
  }

  /** Only requests that were made have a place. */
  lemma PlacesAreOfCallers(s: State, step: Step)
    requires Inv(s) && Enabled(s, step) && (forall r :: r in s.places ==> r in s.callers)
    ensures forall r :: r in Apply(s, step).places ==> r in Apply(s, step).callers
  {
    match step
    case Publish(k, _) => assert ResponderFits(s, k, s.responders[k]);
    case Reply(k) => assert ResponderFits(s, k, s.responders[k]);
    case Shut(k) => assert ResponderFits(s, k, s.responders[k]);
    case _ =>
  }

  lemma OthersLeaveItPut(s: State, step: Step, self: Self)
    requires Enabled(s, step) && OfOthers(step, self)
    ensures StaysPut(s, Apply(s, step), self)
  {
  }

  /** The requests a responder accepted from the channel, and those it published with the outcome. */
  datatype Work = Work(accepted: seq<nat>, tried: seq<Attempt>)

  /** What one step adds to the work of responder `k`. */
  function Then(w: Work, s: State, step: Step, k: nat): Work {
    match step
    case Accept(j) => if j == k && s.queue.buf != [] then w.(accepted := w.accepted + [s.queue.buf[0]]) else w
    case Publish(j, ok) =>
      if j == k && k in s.responders && s.responders[k].Publishing?
      then w.(tried := w.tried + [Attempt(s.responders[k].r, ok)]) else w
    case _ => w
  }

  function WorkOf(steps: seq<Step>, k: nat): Work
    requires Exec(INIT, steps).Some?
    decreases |steps|
  {
    if steps == [] then Work([], [])
    else
      var front := steps[..|steps| - 1];
      Then(WorkOf(front, k), Exec(INIT, front).value, steps[|steps| - 1], k)
  }

  lemma {:induction false} ExecSnoc(steps: seq<Step>, step: Step)
    requires Exec(INIT, steps).Some? && Enabled(Exec(INIT, steps).value, step)
    ensures Exec(INIT, steps + [step]) == Some(Apply(Exec(INIT, steps).value, step))
    ensures forall k :: WorkOf(steps + [step], k) == Then(WorkOf(steps, k), Exec(INIT, steps).value, step, k)
  {
    assert (steps + [step])[..|steps|] == steps;
  }

  function Requests(served: seq<Attempt>): seq<nat> {
    seq(|served|, i requires 0 <= i < |served| => served[i].r)
  }

  /** From `before` to `now` a responder accepted the requests of `served` and published each of them with
      the outcome recorded there, in that order, and nothing else. */
  ghost predicate WorkDone(before: Work, now: Work, served: seq<Attempt>) {
    now.accepted == before.accepted + Requests(served) && now.tried == before.tried + served
  }

  lemma NoWorkDone(w: Work)
    ensures WorkDone(w, w, [])
  {
    assert w.accepted + Requests([]) == w.accepted;
  }

  lemma MoreWorkDone(before: Work, now: Work, later: Work, served: seq<Attempt>, a: Attempt)
    requires WorkDone(before, now, served)
    requires later == Work(now.accepted + [a.r], now.tried + [a])
    ensures WorkDone(before, later, served + [a])
  {
    assert Requests(served + [a]) == Requests(served) + [a.r];
  }

  /** The calls of `ch.Publish` carried exactly the attempted requests' messages, in order. */
  ghost predicate WireMatches(wire: seq<Sending>, attempts: seq<Attempt>, contents: map<nat, Message>) {
    && |wire| == |attempts|
    && forall i :: 0 <= i < |wire| ==>
         attempts[i].r in contents && wire[i] == Sending(contents[attempts[i].r], attempts[i].ok)
  }

  lemma {:induction false} AttemptIsOnTheWire(wire: seq<Sending>, attempts: seq<Attempt>,
                                             contents: map<nat, Message>, a: Attempt)
    requires WireMatches(wire, attempts, contents) && a in attempts
    ensures a.r in contents && Sending(contents[a.r], a.ok) in wire
  {
    var i :| 0 <= i < |attempts| && attempts[i] == a;
    assert wire[i] == Sending(contents[a.r], a.ok);
  }

  /** Where a request stands that a responder has just accepted, and what nil or an error means. */
  lemma AcceptedIsUntried(s: State, k: nat)
    requires Inv(s) && k in s.responders && s.responders[k].Publishing?
    ensures s.responders[k].r in s.callers && !Attempted(s, s.responders[k].r)
  {
    assert ResponderFits(s, k, s.responders[k]);
    assert PlaceHolds(s, s.responders[k].r);
  }

  lemma BackTellsTheTruth(s: State, r: nat)
    requires Inv(s) && r in s.callers && s.callers[r].Back?
    ensures match s.callers[r].result
            case Published => Attempt(r, true) in s.attempts
            case Refused => Attempt(r, false) in s.attempts
            case ContextDone => s.globalDone
  {
    assert PlaceHolds(s, r);
  }

  /** Every request in `served` was tried with that outcome and answered with it, and its reply channel
      is closed; no request is in it twice. */
  ghost predicate Answered(s: State, served: seq<Attempt>) {
    && (forall a :: a in served ==> a in s.attempts && a.r in s.places && s.places[a.r] == Finished(a.ok))
    && (forall i, j :: 0 <= i < j < |served| ==> served[i].r != served[j].r)
  }

  lemma GrowsTrans(s: State, t: State, u: State)
    requires Grows(s, t) && Grows(t, u)
    ensures Grows(s, u)
  {
  }

  lemma StaysPutTrans(s: State, t: State, u: State, self: Self)
    requires StaysPut(s, t, self) && StaysPut(t, u, self)
    ensures StaysPut(s, u, self)
  {
  }

  lemma StillAnswered(s: State, t: State, served: seq<Attempt>)
    requires Answered(s, served) && Grows(s, t)
    ensures Answered(t, served)
  {
  }

  lemma OneMoreAnswered(s: State, t: State, served: seq<Attempt>, a: Attempt)
    requires Answered(s, served) && Grows(s, t) && !Attempted(s, a.r)
    requires a in t.attempts && a.r in t.places && t.places[a.r] == Finished(a.ok)
    ensures Answered(t, served + [a])
  {
    forall i | 0 <= i < |served| ensures served[i].r != a.r {
      assert Attempt(served[i].r, served[i].ok) in s.attempts;
    }
  }

  /** Only calls and publishes add callers and attempts. */
  lemma QuietStep(s: State, step: Step)
    requires Enabled(s, step) && !step.Call? && !step.Publish?
    ensures Apply(s, step).callers.Keys == s.callers.Keys && Apply(s, step).attempts == s.attempts
  {
  }

  lemma NothingAnswered(s: State)
    ensures Answered(s, [])
  {
  }

  lemma PublisherIsACaller(s: State, k: nat)
    requires Inv(s) && k in s.responders && s.responders[k].Publishing?
    ensures s.responders[k].r in s.callers
  {
    assert ResponderFits(s, k, s.responders[k]);
  }

  lemma ReplyIsOpen(s: State, k: nat)
    requires Inv(s) && k in s.responders && (s.responders[k].Replying? || s.responders[k].Shutting?)
    ensures var r := s.responders[k].r;
            && r in s.replies && !s.replies[r].closed && !s.panicked
            && (s.responders[k].Replying? ==> Send(s.replies[r], s.responders[k].ok).Sent?)
  {
    ReplyGoesThrough(s, k);
  }

  lemma RequestChannelIsOpen(s: State)
    requires Inv(s)
    ensures s.queue.cap == 1 && |s.queue.buf| <= 1 && !s.queue.closed
  {
  }

  lemma ReplyChannelIsThere(s: State, r: nat)
    requires Inv(s) && r in s.callers
    ensures r in s.replies && !s.panicked
  {
    assert PlaceHolds(s, r);
  }

  /** A request carries the same message for ever. */
  ghost predicate SameContents(before: map<nat, Message>, after: map<nat, Message>) {
    forall r :: r in before ==> r in after && after[r] == before[r]
  }

  lemma SameContentsTrans(a: map<nat, Message>, b: map<nat, Message>, c: map<nat, Message>)
    requires SameContents(a, b) && SameContents(b, c)
    ensures SameContents(a, c)
  {
  }

  lemma KeptContent(before: map<nat, Message>, after: map<nat, Message>, r: nat)
    requires SameContents(before, after) && r in before
    ensures r in after && after[r] == before[r]
  {
  }

  lemma NothingHappens(s: State, contents: map<nat, Message>, self: Self)
    ensures StaysPut(s, s, self) && Grows(s, s) && SameContents(contents, contents)
  {
  }

  /** What the caller's result says about the wire. */
  lemma {:induction false} Conclusion(s: State, wire: seq<Sending>, contents: map<nat, Message>, r: nat)
    requires Inv(s) && r in s.callers && r in contents && WireMatches(wire, s.attempts, contents)
    ensures Times(s.attempts, r) <= 1
    ensures s.callers[r] == Back(Published) ==> Sending(contents[r], true) in wire
    ensures s.callers[r] == Back(Refused) ==> Sending(contents[r], false) in wire
    ensures s.callers[r].Back? && s.callers[r].result != ContextDone ==> Times(s.attempts, r) == 1
    ensures s.callers[r] == Back(ContextDone) ==> s.globalDone
  {
    DistinctMeansOnce(s.attempts, r);
    if s.callers[r].Back? {
      BackTellsTheTruth(s, r);
      if s.callers[r].result != ContextDone {
        AttemptIsOnTheWire(wire, s.attempts, contents, Attempt(r, s.callers[r].result == Published));
      }
    }
  }

  /** `messages` is the request channel; `replies` and `contents` are what the requests carry: the reply
      channel and the message. */
  class Requeue {
    const timeout: int
    var messages: Chan<nat>
    var replies: map<nat, Chan<bool>>
    var contents: map<nat, Message>
    var wire: seq<Sending>
    var world: State
    ghost var trace: seq<Step>

    ghost predicate Tracked()
      reads this`world, this`trace
    {
      && Exec(INIT, trace) == Some(world) && Inv(world) && !world.panicked
      && (forall r :: r in world.places ==> r in world.callers)
    }

    /** What responder `k` has done so far. */
    ghost function Doing(k: nat): Work
      requires Tracked()
      reads this`world, this`trace
    {
      WorkOf(trace, k)
    }

    ghost predicate Agrees()
      reads this
    {
      && messages == world.queue && replies == world.replies
      && contents.Keys == world.callers.Keys
      && WireMatches(wire, world.attempts, contents)
    }

    ghost predicate Valid()
      reads this
    {
      Tracked() && Agrees()
    }

    constructor (timeout: int)
      ensures Valid() && this.timeout == timeout && world == INIT && wire == []
    {
      this.timeout := timeout;
      messages, replies, contents, wire := Chan(1, [], false), map[], map[], [];
      world, trace := INIT, [];
    }

    method Take(step: Step)
      requires Tracked() && Enabled(world, step)
      modifies this`world, this`trace
      ensures Tracked() && world == Apply(old(world), step) && trace == old(trace) + [step]
      ensures Grows(old(world), world)
      ensures forall k :: Doing(k) == Then(old(Doing(k)), old(world), step, k)
    {
      hide Inv, Apply, Enabled;
      StepKeepsInv(world, step);
      StepGrows(world, step);
      PlacesAreOfCallers(world, step);
      ExecSnoc(trace, step);
      world := Apply(world, step);
      trace := trace + [step];
    }

    /** A step of another thread that calls `Requeue` or publishes. */
    method OtherSpeaks(move: Move, self: Self)
      requires Valid() && Enabled(world, move.step) && OfOthers(move.step, self)
      requires move.step.Call? || move.step.Publish?
      modifies this
      ensures Valid() && StaysPut(old(world), world, self) && Grows(old(world), world)
      ensures SameContents(old(contents), contents)
      ensures self.Responder? ==> Doing(self.k) == old(Doing(self.k))
    {
      hide Exec, Inv, Grows, WorkOf;
      OthersLeaveItPut(world, move.step, self);
      if move.step.Call? {
        contents := contents[move.step.r := move.msg];
        replies := replies[move.step.r := Make(1)];
      } else {
        PublisherIsACaller(world, move.step.k);
        wire := wire + [Sending(contents[world.responders[move.step.k].r], move.step.ok)];
      }
      Take(move.step);
    }

    /** Any other step: what it does to the channels is in the machine's step. */
    method OtherMoves(step: Step, self: Self)
      requires Valid() && Enabled(world, step) && OfOthers(step, self)
      requires !step.Call? && !step.Publish?
      modifies this
      ensures Valid() && StaysPut(old(world), world, self) && Grows(old(world), world)
      ensures contents == old(contents)
      ensures self.Responder? ==> Doing(self.k) == old(Doing(self.k))
    {
      hide Exec, Inv, Grows, StaysPut, WireMatches, Enabled, Apply, WorkOf;
      OthersLeaveItPut(world, step, self);
      QuietStep(world, step);
      Take(step);
      messages, replies := world.queue, world.replies;
    }

    /** One step of another thread, if that thread can take it. */
    method Other(move: Move, self: Self)
      requires Valid()
      modifies this
      ensures Valid() && StaysPut(old(world), world, self) && Grows(old(world), world)
      ensures SameContents(old(contents), contents)
      ensures self.Responder? ==> Doing(self.k) == old(Doing(self.k))
    {
      hide Exec, Inv, Grows, StaysPut, WireMatches, Enabled, WorkOf;
      if Enabled(world, move.step) && OfOthers(move.step, self) {
        if move.step.Call? || move.step.Publish? {
          OtherSpeaks(move, self);
        } else {
          OtherMoves(move.step, self);
        }
      } else {
        NothingHappens(world, contents, self);
      }
    }

    method Interfere(env: seq<Move>, self: Self)
      requires Valid()
      modifies this
      ensures Valid() && StaysPut(old(world), world, self) && Grows(old(world), world)
      ensures SameContents(old(contents), contents)
      ensures self.Responder? ==> Doing(self.k) == old(Doing(self.k))
    {
      hide Exec, Inv, StaysPut, Grows, SameContents, WorkOf;
      NothingHappens(world, contents, self);
      for i := 0 to |env|
        invariant Valid() && StaysPut(old(world), world, self) && Grows(old(world), world)
        invariant SameContents(old(contents), contents)
        invariant self.Responder? ==> Doing(self.k) == old(Doing(self.k))
      {
        ghost var before, held := world, contents;
        Other(env[i], self);
        StaysPutTrans(old(world), before, world, self);
        GrowsTrans(old(world), before, world);
        SameContentsTrans(old(contents), held, contents);
      }
    }

    // ---- ChannelReady ----

    ghost predicate At(k: nat, pc: ResponderPc)
      reads this`world
    {
      k in world.responders && world.responders[k] == pc
    }

    /** `ch.Publish` of an accepted request. */
    method PublishIt(k: nat, r: nat, ok: bool)
      requires Valid() && At(k, Publishing(r))
      modifies this
      ensures Valid() && At(k, Replying(r, ok)) && Grows(old(world), world)
      ensures contents == old(contents) && r in contents && wire == old(wire) + [Sending(contents[r], ok)]
      ensures Attempt(r, ok) in world.attempts
      ensures Doing(k) == old(Doing(k)).(tried := old(Doing(k)).tried + [Attempt(r, ok)])
    {
      hide Exec, Inv, WorkOf;
      PublisherIsACaller(world, k);
      Take(Publish(k, ok));
      wire := wire + [Sending(contents[r], ok)];
    }

    /** The send of the outcome: the channel has room, so it neither waits nor panics. */
    method SendAnswer(k: nat, r: nat, ok: bool)
      requires Valid() && At(k, Replying(r, ok))
      modifies this
      ensures Valid() && At(k, Shutting(r, ok)) && Grows(old(world), world) && Doing(k) == old(Doing(k))
    {
      hide Exec, Inv, Grows, WorkOf;
      ReplyIsOpen(world, k);
      Take(Reply(k));
      match Send(replies[r], ok) {
        case Sent(ch) => replies := replies[r := ch];
      }
    }

    /** The close of the reply channel, which is open. */
    method CloseAnswer(k: nat, r: nat, ok: bool)
      requires Valid() && At(k, Shutting(r, ok))
      modifies this
      ensures Valid() && At(k, if ok then Selecting else Leaving) && Grows(old(world), world)
      ensures r in world.places && world.places[r] == Finished(ok) && Doing(k) == old(Doing(k))
    {
      hide Exec, Inv, Grows, WorkOf;
      ReplyIsOpen(world, k);
      Take(Shut(k));
      match Close(replies[r]) {
        case Closed(ch) => replies := replies[r := ch];
      }
    }

    /** Send, then close. */
    method AnswerIt(turn: Turn, k: nat, r: nat, ok: bool)
      requires Valid() && At(k, Replying(r, ok))
      modifies this
      ensures Valid() && At(k, if ok then Selecting else Leaving) && Grows(old(world), world)
      ensures r in world.places && world.places[r] == Finished(ok)
      ensures Doing(k) == old(Doing(k))
    {
      hide Exec, Inv, Grows, WorkOf, SameContents, WireMatches;
      ghost var first := world;
      SendAnswer(k, r, ok);
      ghost var second := world;
      Interfere(turn.env, Responder(k));
      GrowsTrans(first, second, world);
      second := world;
      CloseAnswer(k, r, ok);
      GrowsTrans(first, second, world);
    }

    /** One accepted request: publish, answer, close. */
    method ServeRequest(turn: Turn, k: nat, r: nat)
      requires Valid() && At(k, Publishing(r))
      modifies this
      ensures Valid() && At(k, if turn.ok then Selecting else Leaving) && Grows(old(world), world)
      ensures Attempt(r, turn.ok) in world.attempts && r in world.places && world.places[r] == Finished(turn.ok)
      ensures !Attempted(old(world), r)
      ensures Doing(k) == old(Doing(k)).(tried := old(Doing(k)).tried + [Attempt(r, turn.ok)])
    {
      hide Exec, Inv, WorkOf;
      AcceptedIsUntried(world, k);
      PublishIt(k, r, turn.ok);
      AnswerIt(turn, k, r, turn.ok);
    }

    /** The select: a request, the end of the connection's context, or neither yet. */
    method Select(turn: Turn, k: nat) returns (r: Option<nat>, cancelled: bool)
      requires Valid() && At(k, Selecting)
      modifies this
      ensures Valid() && Grows(old(world), world) && !(r.Some? && cancelled) && cancelled == turn.ctxDone
      ensures At(k, if r.Some? then Publishing(r.value) else if cancelled then Leaving else Selecting)
      ensures r.None? && !cancelled ==> messages.buf == []
      ensures Doing(k) == if r.Some? then old(Doing(k)).(accepted := old(Doing(k)).accepted + [r.value])
                          else old(Doing(k))
    {
      hide Exec, Inv, Grows, WorkOf;
      r, cancelled := None, false;
      ghost var first := world;
      Interfere(turn.env, Responder(k));
      ghost var second := world;
      if turn.ctxDone {
        Take(Handshake.Cancelled(k));
        cancelled := true;
        GrowsTrans(first, second, world);
      } else {
        match Receive(messages) {
          case Got(request, ch) =>
            Take(Accept(k));
            messages := ch;
            r := Some(request);
            GrowsTrans(first, second, world);
          case _ =>
        }
      }
    }

    /** The declaration of the queue, before the loop. */
    method Begin(turn: Turn, k: nat)
      requires Valid() && k !in world.responders
      modifies this
      ensures Valid() && At(k, if turn.ok then Selecting else Leaving)
      ensures Doing(k) == old(Doing(k))
    {
      hide Exec, Inv, Grows, WorkOf;
      Take(Start(k));
      Interfere(turn.env, Responder(k));
      Take(Declare(k, turn.ok));
    }

    method Leave(k: nat)
      requires Valid() && At(k, Leaving)
      modifies this
      ensures Valid() && k !in world.responders && Grows(old(world), world)
      ensures Doing(k) == old(Doing(k))
    {
      hide Exec, Inv, Grows, WorkOf;
      Take(Stop(k));
    }

    /** `ChannelReady` over one connection. `served` is all it did: every request it accepted, published
        once and answered with the outcome before the next was accepted; the first failure ends the
        connection, after its answer. */
    method ChannelReady(turns: seq<Turn>, k: nat) returns (outcome: Outcome, served: seq<Attempt>)
      requires Valid() && k !in world.responders && turns != []
      modifies this
      ensures Valid() && Answered(world, served)
      ensures WorkDone(old(Doing(k)), Doing(k), served)
      ensures forall i :: 0 <= i < |served| - 1 ==> served[i].ok
      ensures outcome == PublishFailed <==> served != [] && !served[|served| - 1].ok
      ensures outcome == DeclareFailed <==> !turns[0].ok
      ensures outcome == DeclareFailed ==> served == []
      ensures outcome == Outcome.Cancelled ==> exists i :: 0 < i < |turns| && turns[i].ctxDone
      ensures if outcome == Waiting then At(k, Selecting) else k !in world.responders
      ensures outcome == Waiting && served == [] && |turns| > 1 ==> messages.buf == []
    {
      hide Exec, Inv, Grows, Answered, Attempted, WorkDone, WorkOf;
      served := [];
      ghost var start := Doing(k);
      NoWorkDone(start);
      Begin(turns[0], k);
      NothingAnswered(world);
      if !turns[0].ok {
        ghost var last := world;
        Leave(k);
        StillAnswered(last, world, served);
        return DeclareFailed, served;
      }
      for i := 1 to |turns|
        invariant Valid() && At(k, Selecting) && Answered(world, served)
        invariant WorkDone(start, Doing(k), served)
        invariant forall j :: 0 <= j < |served| ==> served[j].ok
        invariant served == [] && i > 1 ==> messages.buf == []
      {
        ghost var before, now := world, Doing(k);
        var r, cancelled := Select(turns[i], k);
        StillAnswered(before, world, served);
        before := world;
        if r.Some? {
          ServeRequest(turns[i], k, r.value);
          OneMoreAnswered(before, world, served, Attempt(r.value, turns[i].ok));
          MoreWorkDone(start, now, Doing(k), served, Attempt(r.value, turns[i].ok));
          served := served + [Attempt(r.value, turns[i].ok)];
          before := world;
        }
        if cancelled || (r.Some? && !turns[i].ok) {
          Leave(k);
          StillAnswered(before, world, served);
          return if cancelled then Outcome.Cancelled else PublishFailed, served;
        }
      }
      outcome := Waiting;
    }

    // ---- Requeue ----

    /** The send of the request, if there is room for it. */
    method TryHand(r: nat) returns (handed: bool)
      requires Valid() && CallerAt(world, r, Offering)
      modifies this
      ensures Valid() && contents == old(contents)
      ensures CallerAt(world, r, if handed then Awaiting else Offering) && (!handed ==> messages.buf != [])
    {
      hide Exec, Inv, Grows, SameContents, WorkOf;
      RequestChannelIsOpen(world);
      match Send(messages, r) {
        case Sent(ch) =>
          Take(Hand(r));
          messages := ch;
          handed := true;
        case _ =>
          handed := false;
      }
    }

    /** The receive of the answer, if it is there or the channel closed. */
    method TryTake(r: nat) returns (taken: bool)
      requires Valid() && CallerAt(world, r, Awaiting)
      modifies this
      ensures Valid() && contents == old(contents) && r in world.callers
      ensures if taken then world.callers[r].Back?
              else CallerAt(world, r, Awaiting) && r in replies && replies[r].buf == [] && !replies[r].closed
    {
      hide Exec, Inv, Grows, SameContents, WorkOf;
      ReplyChannelIsThere(world, r);
      var got := Receive(replies[r]);
      taken := !got.ReceiveBlocks?;
      if taken {
        Take(TakeReply(r));
        if got.Got? {
          replies := replies[r := got.ch];
        }
      }
    }

    /** The outer select: hand the request over, unless the global context is done. The caller waits on only
        while the channel is full. */
    method HandOver(turns: seq<Turn>, start: nat, r: nat) returns (next: nat)
      requires Valid() && CallerAt(world, r, Offering) && start <= |turns|
      modifies this
      ensures Valid() && start <= next <= |turns| && SameContents(old(contents), contents)
      ensures CallerAt(world, r, Offering) || CallerAt(world, r, Awaiting) || CallerAt(world, r, Back(ContextDone))
      ensures CallerAt(world, r, Offering) ==> messages.buf != [] && next == |turns|
      ensures CallerAt(world, r, Back(ContextDone)) ==> exists i :: start <= i < |turns| && turns[i].ctxDone
    {
      hide Exec, Inv, Grows, SameContents, WorkOf;
      next := start;
      NothingHappens(world, contents, Caller(r));
      while next < |turns|
        invariant Valid() && CallerAt(world, r, Offering) && start <= next <= |turns|
        invariant SameContents(old(contents), contents)
      {
        var turn := turns[next];
        next := next + 1;
        ghost var held := contents;
        Interfere(turn.env, Caller(r));
        SameContentsTrans(old(contents), held, contents);
        if world.globalDone && turn.ctxDone {
          Take(GiveUp(r));
          return;
        }
        var handed := TryHand(r);
        if handed {
          return;
        }
      }
      var _ := TryHand(r);
    }

    /** The inner select: the answer, unless the global context is done. The caller waits on only while its
        reply channel is open and empty. */
    method AwaitReply(turns: seq<Turn>, start: nat, r: nat)
      requires Valid() && CallerAt(world, r, Awaiting) && start <= |turns|
      modifies this
      ensures Valid() && r in world.callers && SameContents(old(contents), contents)
      ensures CallerAt(world, r, Awaiting) || world.callers[r].Back?
      ensures CallerAt(world, r, Awaiting) ==> r in replies && replies[r].buf == [] && !replies[r].closed
    {
      hide Exec, Inv, Grows, SameContents, WorkOf;
      NothingHappens(world, contents, Caller(r));
      for i := start to |turns|
        invariant Valid() && CallerAt(world, r, Awaiting) && SameContents(old(contents), contents)
      {
        ghost var held := contents;
        Interfere(turns[i].env, Caller(r));
        SameContentsTrans(old(contents), held, contents);
        if world.globalDone && turns[i].ctxDone {
          Take(GiveUp(r));
          return;
        }
        var taken := TryTake(r);
        if taken {
          return;
        }
      }
      var _ := TryTake(r);
    }

    /** `Requeue`, as request `r`. Nil means that a copy of this very message was published; the error of
        the publish, that its only publish failed; anything else is the global context's. None is a
        caller that still waits when the run ends. */
    method Requeue(original: Message, r: nat, turns: seq<Turn>) returns (result: Option<Result>)
      requires Valid() && r !in world.callers
      modifies this
      ensures Valid() && (result.Some? ==> CallerAt(world, r, Back(result.value)))
      ensures result == Some(Published) ==>
                Sending(Message(original.content, original.headers, Some(Millis(timeout)), false), true) in wire
      ensures result == Some(Refused) ==>
                Sending(Message(original.content, original.headers, Some(Millis(timeout)), false), false) in wire
      ensures result == Some(ContextDone) ==> world.globalDone
      ensures result.None? ==>
                || (CallerAt(world, r, Offering) && messages.buf != [])
                || (CallerAt(world, r, Awaiting) && r in replies && replies[r].buf == [] && !replies[r].closed)
      ensures result.Some? && result != Some(ContextDone) ==> Times(world.attempts, r) == 1
      ensures Times(world.attempts, r) <= 1
    {
      hide Exec, Inv, Grows, SameContents, Attempted, Times, WorkOf;
      contents := contents[r := CopyOf(original, timeout)];
      Take(Call(r));
      replies := replies[r := Make(1)];
      ghost var held := contents;
      var next := HandOver(turns, 0, r);
      if CallerAt(world, r, Awaiting) {
        ghost var later := contents;
        AwaitReply(turns, next, r);
        SameContentsTrans(held, later, contents);
      }
      result := if world.callers[r].Back? then Some(world.callers[r].result) else None;
      Conclusion(world, wire, contents, r);
      KeptContent(held, contents, r);
    }

    /** `RequeueWithError`: notes the error, if there is one, in the message's own headers first, making the
        table if there is none; what is published carries these headers. */
    method RequeueWithError(original: Envelope, err: Option<string>, r: nat, turns: seq<Turn>)
      returns (result: Option<Result>)
      requires Valid() && r !in world.callers
      modifies this, original
      ensures Valid() && original.msg == old(original.msg).(headers := original.msg.headers)
      ensures err.None? ==> original.msg.headers == old(original.msg).headers
      ensures err.Some? ==>
                && original.msg.headers.Some?
                && original.msg.headers.value
                   == (match old(original.msg).headers
                       case None => map[]
                       case Some(h) => h)[LAST_ERROR := Text(err.value)]
      ensures var m := original.msg;
              result == Some(Published) ==>
                Sending(Message(m.content, m.headers, Some(Millis(timeout)), false), true) in wire
      ensures var m := original.msg;
              result == Some(Refused) ==>
                Sending(Message(m.content, m.headers, Some(Millis(timeout)), false), false) in wire
      ensures result == Some(ContextDone) ==> world.globalDone
    {
      if err.Some? {
        if original.msg.headers.None? {
          original.msg := original.msg.(headers := Some(map[]));
        }
        original.msg := original.msg.(headers := Some(original.msg.headers.value[LAST_ERROR := Text(err.value)]));
      }
      result := Requeue(original.msg, r, turns);
    }
  }
}
