/** The request/reply handshake of requeuer.go as interleaved steps: callers of `Requeue`, and
    responders (`requeue.ChannelReady`) that come and go with connections, sharing a request channel
    with one buffered place. Any number of both may be active at once. */
module Handshake {
  import opened Channels

  /** What `Requeue` returns: nil, the error of the publish, or the error of the global context. */
  datatype Result = Published | Refused | ContextDone

  /** A caller is in the outer select, in the inner one, or back. */
  datatype CallerPc = Offering | Awaiting | Back(result: Result)

  /** A responder declares its queue, selects, then publishes, replies and closes the reply. */
  datatype ResponderPc =
    | Declaring
    | Selecting
    | Publishing(r: nat)
    | Replying(r: nat, ok: bool)
    | Shutting(r: nat, ok: bool)
    | Leaving

  /** History: how far a request has come. */
  datatype Place =
    | Unsent
    | Queued
    | Taken(k: nat)
    | Tried(k: nat, ok: bool)
    | Replied(k: nat, ok: bool)
    | Finished(ok: bool)

  datatype Attempt = Attempt(r: nat, ok: bool)

  datatype State = State(
    queue: Chan<nat>,
    replies: map<nat, Chan<bool>>,
    callers: map<nat, CallerPc>,
    responders: map<nat, ResponderPc>,
    globalDone: bool,
    panicked: bool,
    attempts: seq<Attempt>,
    places: map<nat, Place>)

  datatype Step =
    | Call(r: nat)
    | Hand(r: nat)
    | TakeReply(r: nat)
    | GiveUp(r: nat)
    | CancelGlobal
    | Start(k: nat)
    | Declare(k: nat, ok: bool)
    | Cancelled(k: nat)
    | Accept(k: nat)
    | Publish(k: nat, ok: bool)
    | Reply(k: nat)
    | Shut(k: nat)
    | Stop(k: nat)

  const INIT := State(Chan(1, [], false), map[], map[], map[], false, false, [], map[])

  predicate CallerAt(s: State, r: nat, pc: CallerPc) {
    r in s.callers && s.callers[r] == pc
  }

  predicate Enabled(s: State, step: Step) {
    && !s.panicked
    && match step
       case Call(r) => r !in s.callers
       case Hand(r) => CallerAt(s, r, Offering) && Send(s.queue, r).Sent?
       case TakeReply(r) => CallerAt(s, r, Awaiting) && r in s.replies && !Receive(s.replies[r]).ReceiveBlocks?
       case GiveUp(r) => r in s.callers && !s.callers[r].Back? && s.globalDone
       case CancelGlobal => true
       case Start(k) => k !in s.responders
       case Declare(k, _) => k in s.responders && s.responders[k].Declaring?
       case Cancelled(k) => k in s.responders && s.responders[k].Selecting?
       case Accept(k) => k in s.responders && s.responders[k].Selecting? && Receive(s.queue).Got?
       case Publish(k, _) => k in s.responders && s.responders[k].Publishing?
       case Reply(k) =>
         k in s.responders && s.responders[k].Replying? && s.responders[k].r in s.replies
         && !Send(s.replies[s.responders[k].r], s.responders[k].ok).SendBlocks?
       case Shut(k) => k in s.responders && s.responders[k].Shutting? && s.responders[k].r in s.replies
       case Stop(k) => k in s.responders && s.responders[k].Leaving?
  }

  function SetResponder(s: State, k: nat, pc: ResponderPc): State {
    s.(responders := s.responders[k := pc])
  }

  function ApplyTakeReply(s: State, r: nat): State
    requires r in s.replies && !Receive(s.replies[r]).ReceiveBlocks?
  {
    match Receive(s.replies[r])
    case Got(ok, ch) =>
      s.(replies := s.replies[r := ch], callers := s.callers[r := Back(if ok then Published else Refused)])
    case Zero => s.(callers := s.callers[r := Back(Published)])
  }

  function ApplyAccept(s: State, k: nat): State
    requires Receive(s.queue).Got?
  {
    var got := Receive(s.queue);
    SetResponder(s, k, Publishing(got.value)).(queue := got.ch, places := s.places[got.value := Taken(k)])
  }

  function ApplyReply(s: State, k: nat, r: nat, ok: bool): State
    requires r in s.replies
  {
    match Send(s.replies[r], ok)
    case Sent(ch) =>
      SetResponder(s, k, Shutting(r, ok)).(replies := s.replies[r := ch], places := s.places[r := Replied(k, ok)])
    case _ => s.(panicked := true)
  }

  function ApplyShut(s: State, k: nat, r: nat, ok: bool): State
    requires r in s.replies
  {
    match Close(s.replies[r])
    case Closed(ch) =>
      SetResponder(s, k, if ok then Selecting else Leaving).(replies := s.replies[r := ch],
                                                          places := s.places[r := Finished(ok)])
    case ClosePanics => s.(panicked := true)
  }

  function Apply(s: State, step: Step): State
    requires Enabled(s, step)
  {
    match step
    case Call(r) =>
      s.(callers := s.callers[r := Offering], replies := s.replies[r := Make(1)], places := s.places[r := Unsent])
    case Hand(r) =>
      s.(callers := s.callers[r := Awaiting], queue := Send(s.queue, r).ch, places := s.places[r := Queued])
    case TakeReply(r) => ApplyTakeReply(s, r)
    case GiveUp(r) => s.(callers := s.callers[r := Back(ContextDone)])
    case CancelGlobal => s.(globalDone := true)
    case Start(k) => SetResponder(s, k, Declaring)
    case Declare(k, ok) => SetResponder(s, k, if ok then Selecting else Leaving)
    case Cancelled(k) => SetResponder(s, k, Leaving)
    case Accept(k) => ApplyAccept(s, k)
    case Publish(k, ok) =>
      var r := s.responders[k].r;
      SetResponder(s, k, Replying(r, ok)).(attempts := s.attempts + [Attempt(r, ok)],
                                           places := s.places[r := Tried(k, ok)])
    case Reply(k) => ApplyReply(s, k, s.responders[k].r, s.responders[k].ok)
    case Shut(k) => ApplyShut(s, k, s.responders[k].r, s.responders[k].ok)
    case Stop(k) => s.(responders := s.responders - {k})
  }

  function Exec(s: State, steps: seq<Step>): Option<State>
    decreases |steps|
  {
    if steps == [] then Some(s)
    else
      match Exec(s, steps[..|steps| - 1])
      case None => None
      case Some(t) =>
        var step := steps[|steps| - 1];
        if Enabled(t, step) then Some(Apply(t, step)) else None
  }

  // ---- Invariants ----

  ghost predicate Attempted(s: State, r: nat) {
    exists ok :: Attempt(r, ok) in s.attempts
  }

  ghost predicate ReplyTaken(s: State, r: nat)
    requires r in s.callers
  {
    s.callers[r].Back? && s.callers[r].result != ContextDone
  }

  ghost predicate ReplyWaits(s: State, r: nat, ok: bool)
    requires r in s.callers && r in s.replies
  {
    && !s.callers[r].Offering?
    && s.replies[r].buf == (if ReplyTaken(s, r) then [] else [ok])
    && (ReplyTaken(s, r) ==> s.callers[r] == Back(if ok then Published else Refused))
  }

  /** Before the reply is sent. */
  ghost predicate NoReplyYet(s: State, r: nat)
    requires r in s.callers && r in s.replies
  {
    s.replies[r].buf == [] && !s.replies[r].closed && !ReplyTaken(s, r)
  }

  /** A request is in one place only, and its place fixes its reply channel and the wire. */
  ghost predicate PlaceHolds(s: State, r: nat)
    requires r in s.callers
  {
    && r in s.places && r in s.replies && s.replies[r].cap == 1
    && (r in s.queue.buf <==> s.places[r] == Queued)
    && match s.places[r]
       case Unsent => NoReplyYet(s, r) && !Attempted(s, r) && s.callers[r] != Awaiting
       case Queued => NoReplyYet(s, r) && !Attempted(s, r) && s.callers[r] != Offering
       case Taken(k) =>
         && NoReplyYet(s, r) && !Attempted(s, r) && s.callers[r] != Offering
         && k in s.responders && s.responders[k] == Publishing(r)
       case Tried(k, ok) =>
         && NoReplyYet(s, r) && Attempt(r, ok) in s.attempts && s.callers[r] != Offering
         && k in s.responders && s.responders[k] == Replying(r, ok)
       case Replied(k, ok) =>
         && ReplyWaits(s, r, ok) && !s.replies[r].closed && Attempt(r, ok) in s.attempts
         && k in s.responders && s.responders[k] == Shutting(r, ok)
       case Finished(ok) => ReplyWaits(s, r, ok) && s.replies[r].closed && Attempt(r, ok) in s.attempts
  }

  ghost predicate ResponderFits(s: State, k: nat, pc: ResponderPc) {
    match pc
    case Publishing(r) => r in s.callers && r in s.places && s.places[r] == Taken(k)
    case Replying(r, ok) => r in s.callers && r in s.places && s.places[r] == Tried(k, ok)
    case Shutting(r, ok) => r in s.callers && r in s.places && s.places[r] == Replied(k, ok)
    case _ => true
  }

  ghost predicate PlacesHold(s: State) {
    && s.queue.cap == 1 && |s.queue.buf| <= 1 && !s.queue.closed
    && (forall r :: r in s.queue.buf ==> r in s.callers)
    && (forall r :: r in s.callers ==> PlaceHolds(s, r))
    && (forall k :: k in s.responders ==> ResponderFits(s, k, s.responders[k]))
  }

  /** No request is tried twice, whatever the outcome. */
  ghost predicate TriedOnce(s: State) {
    && (forall a :: a in s.attempts ==> a.r in s.callers)
    && (forall i, j :: 0 <= i < j < |s.attempts| ==> s.attempts[i].r != s.attempts[j].r)
  }

  /** Only the end of the global context makes a caller leave without an answer. */
  ghost predicate GiveUpsJustified(s: State) {
    forall r :: r in s.callers && s.callers[r] == Back(ContextDone) ==> s.globalDone
  }

  ghost predicate Inv(s: State) {
    !s.panicked && PlacesHold(s) && TriedOnce(s) && GiveUpsJustified(s)
  }

  /** Nothing that `PlaceHolds` looks at differs for `r`. */
  ghost predicate SameRequest(s: State, t: State, r: nat)
    requires r in s.callers
  {
    && r in t.callers && t.callers[r] == s.callers[r]
    && (r in s.places ==> r in t.places && t.places[r] == s.places[r])
    && (r in s.replies ==> r in t.replies && t.replies[r] == s.replies[r])
    && (r in t.queue.buf <==> r in s.queue.buf)
    && (forall ok :: Attempt(r, ok) in t.attempts <==> Attempt(r, ok) in s.attempts)
    && (forall k :: k in s.responders && Serves(s.responders[k], r) ==>
          k in t.responders && t.responders[k] == s.responders[k])
  }

  ghost predicate Serves(pc: ResponderPc, r: nat) {
    (pc.Publishing? || pc.Replying? || pc.Shutting?) && pc.r == r
  }

  lemma SameRequestHolds(s: State, t: State, r: nat)
    requires r in s.callers && PlaceHolds(s, r) && SameRequest(s, t, r)
    ensures PlaceHolds(t, r)
  {
  }

  lemma CallKeepsInv(s: State, r: nat)
    requires Inv(s) && Enabled(s, Call(r))
    ensures Inv(Apply(s, Call(r)))
  {
    var t := Apply(s, Call(r));
    forall q | q in t.callers ensures PlaceHolds(t, q) {
      if q != r {
        assert PlaceHolds(s, q);
        SameRequestHolds(s, t, q);
      }
    }
  }

  lemma TakeReplyKeepsInv(s: State, r: nat)
    requires Inv(s) && Enabled(s, TakeReply(r))
    ensures Inv(Apply(s, TakeReply(r)))
  {
    var t := Apply(s, TakeReply(r));
    assert PlaceHolds(s, r);
    forall q | q in t.callers ensures PlaceHolds(t, q) {
      assert PlaceHolds(s, q);
      if q != r {
        SameRequestHolds(s, t, q);
      }
    }
  }

  lemma GiveUpKeepsInv(s: State, step: Step)
    requires Inv(s) && Enabled(s, step) && (step.GiveUp? || step.CancelGlobal?)
    ensures Inv(Apply(s, step))
  {
    var t := Apply(s, step);
    forall q | q in t.callers ensures PlaceHolds(t, q) {
      assert PlaceHolds(s, q);
      if step.CancelGlobal? || step.r != q {
        SameRequestHolds(s, t, q);
      }
    }
  }

  lemma HandKeepsInv(s: State, r: nat)
    requires Inv(s) && Enabled(s, Hand(r))
    ensures Inv(Apply(s, Hand(r)))
  {
    var t := Apply(s, Hand(r));
    assert t.queue.buf == [r];
    forall q | q in t.callers ensures PlaceHolds(t, q) {
      assert PlaceHolds(s, q);
      if q != r {
        SameRequestHolds(s, t, q);
      }
    }
  }

  lemma ComingAndGoingKeepsInv(s: State, step: Step)
    requires Inv(s) && Enabled(s, step)
    requires step.Start? || step.Declare? || step.Cancelled? || step.Stop?
    ensures Inv(Apply(s, step))
  {
    hide PlaceHolds;
    var t := Apply(s, step);
    forall q | q in t.callers ensures PlaceHolds(t, q) {
      assert PlaceHolds(s, q);
      SameRequestHolds(s, t, q);
    }
  }

  lemma AcceptPlaces(s: State, k: nat)
    requires PlacesHold(s) && Enabled(s, Accept(k))
    ensures var r := s.queue.buf[0];
            && s.queue.buf == [r] && r in s.callers && r in s.places && s.places[r] == Queued
            && PlaceHolds(ApplyAccept(s, k), r)
  {
    assert PlaceHolds(s, s.queue.buf[0]);
  }

  lemma AcceptKeepsInv(s: State, k: nat)
    requires Inv(s) && Enabled(s, Accept(k))
    ensures Inv(Apply(s, Accept(k)))
  {
    hide PlaceHolds;
    var t := Apply(s, Accept(k));
    AcceptPlaces(s, k);
    var r := s.queue.buf[0];
    assert s.queue.buf == [r] && t.queue == s.queue.(buf := []);
    forall q | q in t.callers ensures PlaceHolds(t, q) {
      assert PlaceHolds(s, q);
      if q != r {
        assert q !in s.queue.buf && q !in t.queue.buf;
        SameRequestHolds(s, t, q);
      }
    }
  }

  lemma PublishPlaces(s: State, k: nat, ok: bool)
    requires PlacesHold(s) && Enabled(s, Publish(k, ok))
    ensures var r := s.responders[k].r;
            && r in s.callers && PlaceHolds(Apply(s, Publish(k, ok)), r)
            && forall i :: 0 <= i < |s.attempts| ==> s.attempts[i].r != r
  {
    var r := s.responders[k].r;
    assert ResponderFits(s, k, s.responders[k]);
    assert PlaceHolds(s, r);
    forall i | 0 <= i < |s.attempts| ensures s.attempts[i].r != r {
      assert Attempt(s.attempts[i].r, s.attempts[i].ok) in s.attempts;
    }
  }

  lemma PublishKeepsInv(s: State, k: nat, ok: bool)
    requires Inv(s) && Enabled(s, Publish(k, ok))
    ensures Inv(Apply(s, Publish(k, ok)))
  {
    hide PlaceHolds;
    var t := Apply(s, Publish(k, ok));
    var r := s.responders[k].r;
    assert ResponderFits(s, k, s.responders[k]);
    PublishPlaces(s, k, ok);
    forall q | q in t.callers ensures PlaceHolds(t, q) {
      assert PlaceHolds(s, q);
      if q != r {
        SameRequestHolds(s, t, q);
      }
    }
  }

  /** The reply channel is open, and empty before the reply: the send and the close go through. */
  lemma ReplyGoesThrough(s: State, k: nat)
    requires PlacesHold(s) && k in s.responders && (s.responders[k].Replying? || s.responders[k].Shutting?)
    ensures var r := s.responders[k].r;
            && r in s.callers && r in s.replies && !s.replies[r].closed
            && (s.responders[k].Replying? ==> Send(s.replies[r], s.responders[k].ok).Sent?)
  {
    assert ResponderFits(s, k, s.responders[k]);
    assert PlaceHolds(s, s.responders[k].r);
  }

  lemma ReplyServesCaller(s: State, k: nat)
    requires PlacesHold(s) && k in s.responders && s.responders[k].Replying? && s.responders[k].r in s.replies
    ensures var r := s.responders[k].r;
            r in s.callers && PlaceHolds(ApplyReply(s, k, r, s.responders[k].ok), r)
  {
    ReplyGoesThrough(s, k);
    assert ResponderFits(s, k, s.responders[k]);
    assert PlaceHolds(s, s.responders[k].r);
  }

  lemma ShutServesCaller(s: State, k: nat)
    requires PlacesHold(s) && k in s.responders && s.responders[k].Shutting? && s.responders[k].r in s.replies
    ensures var r := s.responders[k].r;
            r in s.callers && PlaceHolds(ApplyShut(s, k, r, s.responders[k].ok), r)
  {
    ReplyGoesThrough(s, k);
    assert ResponderFits(s, k, s.responders[k]);
    assert PlaceHolds(s, s.responders[k].r);
  }

  /** A step that concerns one request and its responder only. */
  lemma OneRequestKeepsInv(s: State, t: State, k: nat, r: nat)
    requires Inv(s) && r in s.callers && t.callers == s.callers && t.queue == s.queue && t.attempts == s.attempts
    requires t.globalDone == s.globalDone && !t.panicked
    requires k in s.responders && Serves(s.responders[k], r) && k in t.responders
    requires t.responders == s.responders[k := t.responders[k]] && ResponderFits(t, k, t.responders[k])
    requires r in t.places && t.places == s.places[r := t.places[r]]
    requires r in t.replies && t.replies == s.replies[r := t.replies[r]]
    requires PlaceHolds(t, r)
    ensures Inv(t)
  {
    forall q | q in t.callers ensures PlaceHolds(t, q) {
      assert PlaceHolds(s, q);
      if q != r {
        SameRequestHolds(s, t, q);
      }
    }
    forall j | j in t.responders ensures ResponderFits(t, j, t.responders[j]) {
      assert j in s.responders && ResponderFits(s, j, s.responders[j]);
    }
  }

  lemma ReplyKeepsInv(s: State, k: nat)
    requires Inv(s) && Enabled(s, Reply(k))
    ensures Inv(Apply(s, Reply(k)))
  {
    ReplyGoesThrough(s, k);
    ReplyServesCaller(s, k);
    assert ResponderFits(s, k, s.responders[k]);
    OneRequestKeepsInv(s, Apply(s, Reply(k)), k, s.responders[k].r);
  }

  lemma ShutKeepsInv(s: State, k: nat)
    requires Inv(s) && Enabled(s, Shut(k))
    ensures Inv(Apply(s, Shut(k)))
  {
    ReplyGoesThrough(s, k);
    ShutServesCaller(s, k);
    assert ResponderFits(s, k, s.responders[k]);
    OneRequestKeepsInv(s, Apply(s, Shut(k)), k, s.responders[k].r);
  }

  lemma StepKeepsInv(s: State, step: Step)
    requires Inv(s) && Enabled(s, step)
    ensures Inv(Apply(s, step))
  {
    match step
    case Hand(r) => HandKeepsInv(s, r);
    case Accept(k) => AcceptKeepsInv(s, k);
    case Publish(k, ok) => PublishKeepsInv(s, k, ok);
    case Reply(k) => ReplyKeepsInv(s, k);
    case Shut(k) => ShutKeepsInv(s, k);
    case Start(_) => ComingAndGoingKeepsInv(s, step);
    case Declare(_, _) => ComingAndGoingKeepsInv(s, step);
    case Cancelled(_) => ComingAndGoingKeepsInv(s, step);
    case Stop(_) => ComingAndGoingKeepsInv(s, step);
    case Call(r) => CallKeepsInv(s, r);
    case TakeReply(r) => TakeReplyKeepsInv(s, r);
    case GiveUp(_) => GiveUpKeepsInv(s, step);
    case CancelGlobal => GiveUpKeepsInv(s, step);
  }

  lemma {:induction false} RunKeepsInv(s: State, steps: seq<Step>)
    requires Inv(s) && Exec(s, steps).Some?
    ensures Inv(Exec(s, steps).value)
    decreases |steps|
  {
    if steps != [] {
      RunKeepsInv(s, steps[..|steps| - 1]);
      StepKeepsInv(Exec(s, steps[..|steps| - 1]).value, steps[|steps| - 1]);
    }
  }

  // ---- What holds of every run ----

  function Times(attempts: seq<Attempt>, r: nat): nat
    decreases |attempts|
  {
    if attempts == [] then 0
    else Times(attempts[..|attempts| - 1], r) + if attempts[|attempts| - 1].r == r then 1 else 0
  }

  lemma {:induction false} DistinctMeansOnce(attempts: seq<Attempt>, r: nat)
    requires forall i, j :: 0 <= i < j < |attempts| ==> attempts[i].r != attempts[j].r
    ensures Times(attempts, r) <= 1
    ensures Times(attempts, r) == 1 <==> exists ok :: Attempt(r, ok) in attempts
    decreases |attempts|
  {
    if attempts != [] {
      var front, last := attempts[..|attempts| - 1], attempts[|attempts| - 1];
      DistinctMeansOnce(front, r);
      assert attempts == front + [last];
      if last.r == r {
        assert Attempt(r, last.ok) in attempts;
        forall ok ensures Attempt(r, ok) !in front {
          forall i | 0 <= i < |front| ensures front[i].r != r {
            assert attempts[i] == front[i];
          }
        }
      }
    }
  }

  /** Over any run, with any number of connections: a request is published at most once; nil means it
      was, the publish error means its only publish failed, and the only other answer is the global
      context's. */
  lemma {:induction false} RequeueTellsTheTruth(steps: seq<Step>, r: nat)
    requires Exec(INIT, steps).Some?
    ensures var s := Exec(INIT, steps).value;
            && Times(s.attempts, r) <= 1
            && (CallerAt(s, r, Back(Published)) ==> Attempt(r, true) in s.attempts && Times(s.attempts, r) == 1)
            && (CallerAt(s, r, Back(Refused)) ==> Attempt(r, false) in s.attempts && Times(s.attempts, r) == 1)
            && (CallerAt(s, r, Back(ContextDone)) ==> s.globalDone)
  {
    RunKeepsInv(INIT, steps);
    var s := Exec(INIT, steps).value;
    DistinctMeansOnce(s.attempts, r);
    if r in s.callers {
      assert PlaceHolds(s, r);
    }
  }

  /** A responder never waits for a caller, present or gone, and never panics on its reply. */
  lemma {:induction false} ResponderNeverBlocks(steps: seq<Step>, k: nat)
    requires Exec(INIT, steps).Some?
    ensures var s := Exec(INIT, steps).value;
            && !s.panicked
            && (k in s.responders && s.responders[k].Replying? ==> Enabled(s, Reply(k)) && !Apply(s, Reply(k)).panicked)
            && (k in s.responders && s.responders[k].Shutting? ==> Enabled(s, Shut(k)) && !Apply(s, Shut(k)).panicked)
  {
    RunKeepsInv(INIT, steps);
    var s := Exec(INIT, steps).value;
    if k in s.responders {
      assert ResponderFits(s, k, s.responders[k]);
      match s.responders[k]
      case Replying(r, _) => assert PlaceHolds(s, r);
      case Shutting(r, _) => assert PlaceHolds(s, r);
      case _ =>
    }
  }
}
