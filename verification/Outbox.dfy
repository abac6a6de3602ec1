/** The outbox of a publisher: `MessageQueue` (internal/message_queue.go) shared by any number of
    producers (`Publish`, `TrySend`) and drained by `publisher.ChannelReady` (writer.go), as
    interleaved steps.

    Every access to the list is one step, because the source makes it under the queue's lock. The
    state allows any number of consumers at once; that there is at most one is a theorem about the
    connection supervisor (module System), not something this module builds in. */
module Outbox {
  import opened Channels
  import opened SendLog

  /** What a caller of `PublishWait` or `TrySend` learns: middleware refused the message, the
      broker accepted it, the attempt failed, or a context ended first. */
  datatype Result = Rejected | Completed | PublishFailed | ContextDone

  /** A producer is before its offer to `notify`, waiting for its reply channel, or back. */
  datatype CallPc = Offering | Blocked | Returned(result: Result)

  /** `slot` is the position the message took among all messages ever put. */
  datatype Call = Call(kind: Kind, slot: nat, pc: CallPc)

  /** Where `ChannelReady` stands: declaring the exchange; at the top of its loop; inside `Peek`
      before it reads the front (`woken` if it took a notification) and in its select; before
      `ch.Publish`; before the send to, the close of and the `Commit` after `Try`; before the close
      of `Done` and the `Commit` after it; about to return. */
  datatype ConsumerPc =
    | Declaring
    | LoopTop
    | Peeking(woken: bool)
    | Waiting
    | Publishing(msg: Msg)
    | Answering(msg: Msg, ok: bool)
    | ClosingTry(msg: Msg, ok: bool)
    | DroppingTry(msg: Msg, ok: bool)
    | ClosingDone(msg: Msg)
    | DroppingDone(msg: Msg)
    | Leaving

  /** `puts`, `settled`, `wire` and the counters are histories: all messages ever put, the messages
      removed by `Commit` with the outcome of their last attempt, all attempts, all offers to
      `notify`, all notifications taken, and those of them that found the queue empty. */
  datatype State = State(
    pending: seq<Msg>,
    token: bool,
    tries: map<nat, Chan<bool>>,
    dones: map<nat, Chan<bool>>,
    calls: map<nat, Call>,
    consumers: seq<ConsumerPc>,
    globalDone: bool,
    panicked: bool,
    puts: seq<Msg>,
    settled: seq<Attempt>,
    wire: seq<Attempt>,
    offers: nat,
    wakeups: nat,
    spins: nat)

  datatype Step =
    | Reject(p: nat, kind: Kind)
    | Push(p: nat, kind: Kind)
    | Offer(p: nat)
    | Take(p: nat)
    | GiveUp(p: nat)
    | CancelGlobal
    | Start
    | Advance(c: nat, ok: bool)
    | Cancelled(c: nat)
    | Stop(c: nat)

  const INIT := State([], false, map[], map[], map[], [], false, false, [], [], [], 0, 0, 0)

  function TakeReply(s: State, p: nat): ReceiveOutcome<bool>
    requires p in s.calls
  {
    if s.calls[p].kind.TryKind? then
      if p in s.tries then Receive(s.tries[p]) else ReceiveBlocks
    else
      if p in s.dones then Receive(s.dones[p]) else ReceiveBlocks
  }

  predicate CallAt(s: State, p: nat, pc: CallPc) {
    p in s.calls && s.calls[p].pc == pc
  }

  predicate ConsumerReady(s: State, pc: ConsumerPc) {
    match pc
    case Waiting => s.token
    case Answering(m, ok) => m.id in s.tries && !Send(s.tries[m.id], ok).SendBlocks?
    case ClosingTry(m, _) => m.id in s.tries
    case ClosingDone(m) => m.id in s.dones
    case Leaving => false
    case _ => true
  }

  predicate Enabled(s: State, step: Step) {
    && !s.panicked
    && match step
       case Reject(p, _) => p !in s.calls
       case Push(p, _) => p !in s.calls
       case Offer(p) => CallAt(s, p, Offering)
       case Take(p) => CallAt(s, p, Blocked) && !TakeReply(s, p).ReceiveBlocks?
       case GiveUp(p) => CallAt(s, p, Blocked) && (s.calls[p].kind.TryKind? ==> s.globalDone)
       case CancelGlobal => true
       case Start => true
       case Advance(c, _) => c < |s.consumers| && ConsumerReady(s, s.consumers[c])
       case Cancelled(c) => c < |s.consumers| && s.consumers[c] == Waiting
       case Stop(c) => c < |s.consumers| && s.consumers[c] == Leaving
  }

  function SetCall(s: State, p: nat, pc: CallPc): State
    requires p in s.calls
  {
    s.(calls := s.calls[p := s.calls[p].(pc := pc)])
  }

  function SetConsumer(s: State, c: nat, pc: ConsumerPc): State
    requires c < |s.consumers|
  {
    s.(consumers := s.consumers[c := pc])
  }

  /** PushBack under the lock; the caller then stands before its offer. */
  function ApplyPush(s: State, p: nat, kind: Kind): State {
    var m := Msg(p, kind);
    s.(pending := s.pending + [m], puts := s.puts + [m],
       tries := if kind.TryKind? then s.tries[p := Make(1)] else s.tries,
       dones := if kind.DoneKind? then s.dones[p := Make(0)] else s.dones,
       calls := s.calls[p := Call(kind, |s.puts|, Offering)])
  }

  function ApplyTake(s: State, p: nat): State
    requires p in s.calls && !TakeReply(s, p).ReceiveBlocks?
  {
    match TakeReply(s, p)
    case Got(ok, ch) =>
      var t := SetCall(s, p, Returned(if ok then Completed else PublishFailed));
      if s.calls[p].kind.TryKind? then t.(tries := s.tries[p := ch]) else t.(dones := s.dones[p := ch])
    case Zero => SetCall(s, p, Returned(Completed))
  }

  /** `Commit`: drops whatever is in front. */
  function Commit(s: State, ok: bool): State {
    if s.pending == [] then s
    else s.(pending := s.pending[1..], settled := s.settled + [Attempt(s.pending[0], ok)])
  }

  function ApplyPublish(s: State, c: nat, m: Msg, ok: bool): State
    requires c < |s.consumers|
  {
    SetConsumer(s.(wire := s.wire + [Attempt(m, ok)]), c,
                if m.kind.TryKind? then Answering(m, ok) else if ok then ClosingDone(m) else Leaving)
  }

  predicate AtLoop(pc: ConsumerPc) {
    pc.Declaring? || pc.LoopTop? || pc.Peeking? || pc.Waiting?
  }

  predicate AtReply(pc: ConsumerPc) {
    pc.Answering? || pc.ClosingTry? || pc.ClosingDone?
  }

  predicate AtCommit(pc: ConsumerPc) {
    pc.DroppingTry? || pc.DroppingDone?
  }

  /** Declaring the exchange, reading the length, and the loop of `Peek`. */
  function ApplyLoop(s: State, c: nat, ok: bool): State
    requires c < |s.consumers| && AtLoop(s.consumers[c])
  {
    match s.consumers[c]
    case Declaring => SetConsumer(s, c, if ok then LoopTop else Leaving)
    case LoopTop => SetConsumer(s, c, Peeking(false))
    case Peeking(woken) =>
      if s.pending == [] then SetConsumer(s.(spins := s.spins + if woken then 1 else 0), c, Waiting)
      else SetConsumer(s, c, Publishing(s.pending[0]))
    case Waiting => SetConsumer(s.(token := false, wakeups := s.wakeups + 1), c, Peeking(true))
  }

  function ApplyAnswer(s: State, c: nat, m: Msg, ok: bool): (t: State)
    requires c < |s.consumers| && m.id in s.tries
    ensures |t.consumers| == |s.consumers|
    ensures t == s.(consumers := t.consumers, tries := t.tries, dones := t.dones, panicked := t.panicked)
  {
    match Send(s.tries[m.id], ok)
    case Sent(ch) => SetConsumer(s.(tries := s.tries[m.id := ch]), c, ClosingTry(m, ok))
    case _ => s.(panicked := true)
  }

  function ApplyCloseTry(s: State, c: nat, m: Msg, ok: bool): (t: State)
    requires c < |s.consumers| && m.id in s.tries
    ensures |t.consumers| == |s.consumers|
    ensures t == s.(consumers := t.consumers, tries := t.tries, dones := t.dones, panicked := t.panicked)
  {
    match Close(s.tries[m.id])
    case Closed(ch) => SetConsumer(s.(tries := s.tries[m.id := ch]), c, DroppingTry(m, ok))
    case _ => s.(panicked := true)
  }

  function ApplyCloseDone(s: State, c: nat, m: Msg): (t: State)
    requires c < |s.consumers| && m.id in s.dones
    ensures |t.consumers| == |s.consumers|
    ensures t == s.(consumers := t.consumers, tries := t.tries, dones := t.dones, panicked := t.panicked)
  {
    match Close(s.dones[m.id])
    case Closed(ch) => SetConsumer(s.(dones := s.dones[m.id := ch]), c, DroppingDone(m))
    case _ => s.(panicked := true)
  }

  /** The send to and the closes of the reply channels. */
  function ApplyReply(s: State, c: nat): State
    requires c < |s.consumers| && AtReply(s.consumers[c]) && ConsumerReady(s, s.consumers[c])
  {
    match s.consumers[c]
    case Answering(m, r) => ApplyAnswer(s, c, m, r)
    case ClosingTry(m, r) => ApplyCloseTry(s, c, m, r)
    case ClosingDone(m) => ApplyCloseDone(s, c, m)
  }

  /** What follows `Commit`: the loop again, or the return of a failed `Try`. */
  function AfterCommit(pc: ConsumerPc): ConsumerPc {
    if pc.DroppingTry? && !pc.ok then Leaving else LoopTop
  }

  function ApplyCommit(s: State, c: nat): State
    requires c < |s.consumers| && AtCommit(s.consumers[c])
  {
    var pc := s.consumers[c];
    SetConsumer(Commit(s, if pc.DroppingTry? then pc.ok else true), c, AfterCommit(pc))
  }

  /** One step of `ChannelReady`; `ok` is the outcome of a broker call. */
  function ApplyAdvance(s: State, c: nat, ok: bool): State
    requires c < |s.consumers| && ConsumerReady(s, s.consumers[c])
  {
    var pc := s.consumers[c];
    if AtLoop(pc) then ApplyLoop(s, c, ok)
    else if AtReply(pc) then ApplyReply(s, c)
    else if AtCommit(pc) then ApplyCommit(s, c)
    else ApplyPublish(s, c, pc.msg, ok)
  }

  function Apply(s: State, step: Step): State
    requires Enabled(s, step)
  {
    match step
    case Reject(p, kind) => s.(calls := s.calls[p := Call(kind, 0, Returned(Rejected))])
    case Push(p, kind) => ApplyPush(s, p, kind)
    case Offer(p) => SetCall(s, p, Blocked).(token := true, offers := s.offers + 1)
    case Take(p) => ApplyTake(s, p)
    case GiveUp(p) => SetCall(s, p, Returned(ContextDone))
    case CancelGlobal => s.(globalDone := true)
    case Start => s.(consumers := s.consumers + [Declaring])
    case Advance(c, ok) => ApplyAdvance(s, c, ok)
    case Cancelled(c) => SetConsumer(s, c, Leaving)
    case Stop(c) => s.(consumers := s.consumers[..c] + s.consumers[c + 1..])
  }

  function Exec(s: State, steps: seq<Step>): Option<State>
    decreases |steps|
  {
    if steps == [] then Some(s)
    else
      match Exec(s, steps[..|steps| - 1])
      case None => None
      case Some(t) =>
        var step := steps[|steps| - 1];
        if Enabled(t, step) then Some(Apply(t, step)) else None
  }

  // ---- Invariants, all under at most one consumer ----

  ghost predicate Exclusive(s: State) {
    |s.consumers| <= 1
  }

  /** What the one consumer does; an absent consumer counts as one that has not begun. */
  function Head(s: State): ConsumerPc {
    if |s.consumers| == 1 then s.consumers[0] else Declaring
  }

  function Held(pc: ConsumerPc): Option<Msg> {
    match pc
    case Publishing(m) => Some(m)
    case Answering(m, _) => Some(m)
    case ClosingTry(m, _) => Some(m)
    case DroppingTry(m, _) => Some(m)
    case ClosingDone(m) => Some(m)
    case DroppingDone(m) => Some(m)
    case _ => None
  }

  ghost predicate HeldKindFits(pc: ConsumerPc) {
    && (pc.Answering? || pc.ClosingTry? || pc.DroppingTry? ==> Held(pc).value.kind.TryKind?)
    && (pc.ClosingDone? || pc.DroppingDone? ==> Held(pc).value.kind.DoneKind?)
  }

  /** The ended turn that is not committed yet. */
  function InFlight(pc: ConsumerPc): seq<Attempt> {
    match pc
    case Answering(m, ok) => [Attempt(m, ok)]
    case ClosingTry(m, ok) => [Attempt(m, ok)]
    case DroppingTry(m, ok) => [Attempt(m, ok)]
    case ClosingDone(m) => [Attempt(m, true)]
    case DroppingDone(m) => [Attempt(m, true)]
    case _ => []
  }

  /** Between `Peek` and `Commit` the front of the queue is the peeked message. */
  ghost predicate FrontHeld(s: State) {
    && HeldKindFits(Head(s))
    && (Held(Head(s)).Some? ==> s.pending != [] && s.pending[0] == Held(Head(s)).value)
  }

  ghost predicate LogSplits(s: State) {
    s.puts == Msgs(s.settled) + s.pending
  }

  ghost predicate WireFollowsLog(s: State) {
    && Finals(s.wire) == s.settled + InFlight(Head(s))
    && Cursor(s.puts, s.wire) == Some(|s.settled| + |InFlight(Head(s))|)
    && (InFlight(Head(s)) != [] ==> s.wire != [] && s.wire[|s.wire| - 1] == InFlight(Head(s))[0])
  }

  /** How far the reply channel of a message is served. */
  datatype Stage = Fresh | Answered(ok: bool) | Shut(ok: bool)

  function HeadStage(pc: ConsumerPc): Stage {
    match pc
    case ClosingTry(_, ok) => Answered(ok)
    case DroppingTry(_, ok) => Shut(ok)
    case DroppingDone(_) => Shut(true)
    case _ => Fresh
  }

  function StageOf(s: State, i: nat): Stage {
    if i < |s.settled| then Shut(s.settled[i].ok)
    else if i == |s.settled| then HeadStage(Head(s))
    else Fresh
  }

  /** The reply to a `Try` call is in its channel until the caller takes it. */
  ghost predicate TryServed(ch: Chan<bool>, pc: CallPc, stage: Stage) {
    var taken := pc.Returned? && pc.result != ContextDone;
    && ch.cap == 1
    && ch.closed == stage.Shut?
    && (stage == Fresh ==> ch.buf == [] && !taken)
    && (stage != Fresh ==>
          && ch.buf == (if taken then [] else [stage.ok])
          && (taken ==> pc.result == if stage.ok then Completed else PublishFailed))
  }

  ghost predicate DoneServed(ch: Chan<bool>, pc: CallPc, stage: Stage) {
    && ch.cap == 0 && ch.buf == []
    && ch.closed == stage.Shut?
    && pc != Returned(PublishFailed)
    && (pc == Returned(Completed) ==> ch.closed)
  }

  ghost predicate CallServed(s: State, i: nat)
    requires i < |s.puts|
  {
    var m := s.puts[i];
    && m.id in s.calls
    && s.calls[m.id].kind == m.kind
    && s.calls[m.id].slot == i
    && s.calls[m.id].pc != Returned(Rejected)
    && (m.kind.TryKind? ==> m.id in s.tries && TryServed(s.tries[m.id], s.calls[m.id].pc, StageOf(s, i)))
    && (m.kind.DoneKind? ==> m.id in s.dones && DoneServed(s.dones[m.id], s.calls[m.id].pc, StageOf(s, i)))
  }

  ghost predicate CallsServed(s: State) {
    && (forall i :: 0 <= i < |s.puts| ==> CallServed(s, i))
    && (forall p :: p in s.calls && s.calls[p].pc != Returned(Rejected) ==>
          s.calls[p].slot < |s.puts| && s.puts[s.calls[p].slot] == Msg(p, s.calls[p].kind))
  }

  /** A waiting consumer with work to do will be woken. */
  ghost predicate NoLostWakeup(s: State) {
    Head(s) == Waiting && s.pending != [] ==> s.token || exists p :: CallAt(s, p, Offering)
  }

  function OfferingCalls(s: State): set<nat> {
    set p | p in s.calls && s.calls[p].pc == Offering
  }

  ghost predicate NotificationsCounted(s: State) {
    && s.offers + |OfferingCalls(s)| == |s.puts|
    && s.wakeups + (if s.token then 1 else 0) <= s.offers
    && s.spins + (if Head(s) == Peeking(true) then 1 else 0) <= s.wakeups
    && s.spins <= |s.settled|
  }

  ghost predicate Inv(s: State) {
    && Exclusive(s)
    && !s.panicked
    && LogSplits(s)
    && FrontHeld(s)
    && WireFollowsLog(s)
    && CallsServed(s)
    && NoLostWakeup(s)
    && NotificationsCounted(s)
  }

  // ---- Producer steps ----

  lemma DistinctPuts(s: State)
    requires CallsServed(s)
    ensures DistinctIds(s.puts)
  {
    forall i, j | 0 <= i < j < |s.puts| ensures s.puts[i].id != s.puts[j].id {
      assert CallServed(s, i) && CallServed(s, j);
    }
  }

  /** Nothing that `CallServed` looks at differs for slot `i`. */
  ghost predicate SameCall(s: State, t: State, i: nat)
    requires i < |s.puts| <= |t.puts|
  {
    var p := s.puts[i].id;
    && t.puts[i] == s.puts[i]
    && StageOf(t, i) == StageOf(s, i)
    && (p in s.calls ==> p in t.calls && t.calls[p] == s.calls[p])
    && (p in s.tries ==> p in t.tries && t.tries[p] == s.tries[p])
    && (p in s.dones ==> p in t.dones && t.dones[p] == s.dones[p])
  }

  lemma SameCallServed(s: State, t: State, i: nat)
    requires i < |s.puts| <= |t.puts| && SameCall(s, t, i) && CallServed(s, i)
    ensures CallServed(t, i)
  {
  }

  lemma PushKeepsCalls(s: State, p: nat, kind: Kind)
    requires FrontHeld(s) && LogSplits(s) && CallsServed(s) && p !in s.calls
    ensures CallsServed(ApplyPush(s, p, kind))
  {
    var t := ApplyPush(s, p, kind);
    forall i | 0 <= i < |t.puts| ensures CallServed(t, i) {
      if i < |s.puts| {
        assert CallServed(s, i);
        SameCallServed(s, t, i);
      }
    }
  }

  lemma PushKeepsLog(s: State, p: nat, kind: Kind)
    requires LogSplits(s) && FrontHeld(s) && WireFollowsLog(s)
    ensures var t := ApplyPush(s, p, kind); LogSplits(t) && FrontHeld(t) && WireFollowsLog(t)
  {
    CursorOfLongerLog(s.puts, [Msg(p, kind)], s.wire);
  }

  lemma PushKeepsCounts(s: State, p: nat, kind: Kind)
    requires NotificationsCounted(s) && p !in s.calls
    ensures var t := ApplyPush(s, p, kind); NotificationsCounted(t) && NoLostWakeup(t)
  {
    var t := ApplyPush(s, p, kind);
    assert OfferingCalls(t) == OfferingCalls(s) + {p};
    assert CallAt(t, p, Offering);
  }

  lemma PushKeepsInv(s: State, p: nat, kind: Kind)
    requires Inv(s) && Enabled(s, Push(p, kind))
    ensures Inv(Apply(s, Push(p, kind)))
  {
    PushKeepsCalls(s, p, kind);
    PushKeepsLog(s, p, kind);
    PushKeepsCounts(s, p, kind);
  }

  lemma SetCallKeepsCalls(s: State, p: nat, pc: CallPc)
    requires CallsServed(s) && p in s.calls && s.calls[p].pc != Returned(Rejected)
    requires pc == Blocked || pc == Returned(ContextDone)
    requires !s.calls[p].pc.Returned?
    ensures CallsServed(SetCall(s, p, pc))
  {
    var t := SetCall(s, p, pc);
    forall i | 0 <= i < |t.puts| ensures CallServed(t, i) {
      assert CallServed(s, i);
      assert StageOf(t, i) == StageOf(s, i);
    }
  }

  lemma OfferKeepsCounts(s: State, p: nat)
    requires NotificationsCounted(s) && CallAt(s, p, Offering)
    ensures NotificationsCounted(SetCall(s, p, Blocked).(token := true, offers := s.offers + 1))
  {
    var t := SetCall(s, p, Blocked).(token := true, offers := s.offers + 1);
    assert OfferingCalls(t) == OfferingCalls(s) - {p};
    assert p in OfferingCalls(s);
  }

  lemma OfferKeepsInv(s: State, p: nat)
    requires Inv(s) && Enabled(s, Offer(p))
    ensures Inv(Apply(s, Offer(p)))
  {
    var t := Apply(s, Offer(p));
    SetCallKeepsCalls(s, p, Blocked);
    OfferKeepsCounts(s, p);
    var u := SetCall(s, p, Blocked);
    forall i | 0 <= i < |t.puts| ensures CallServed(t, i) {
      assert CallServed(u, i);
      SameCallServed(u, t, i);
    }
    assert FrontHeld(t) && LogSplits(t) && WireFollowsLog(t);
  }

  lemma TakeServesTaker(s: State, p: nat)
    requires CallsServed(s) && Enabled(s, Take(p))
    ensures CallServed(s, s.calls[p].slot) && s.puts[s.calls[p].slot].id == p
    ensures CallServed(ApplyTake(s, p), s.calls[p].slot)
  {
    assert CallServed(s, s.calls[p].slot);
  }

  lemma TakeKeepsCalls(s: State, p: nat)
    requires CallsServed(s) && Enabled(s, Take(p))
    ensures CallsServed(ApplyTake(s, p))
  {
    var t := ApplyTake(s, p);
    TakeServesTaker(s, p);
    DistinctPuts(s);
    forall i | 0 <= i < |t.puts| ensures CallServed(t, i) {
      assert CallServed(s, i);
      if i != s.calls[p].slot {
        SameCallServed(s, t, i);
      }
    }
  }

  /** A producer step that neither puts a message nor offers a notification. */
  ghost predicate OnlyCalls(s: State, t: State) {
    && t == s.(calls := t.calls, tries := t.tries, dones := t.dones, globalDone := t.globalDone)
    && (forall q :: CallAt(s, q, Offering) <==> CallAt(t, q, Offering))
  }

  lemma OnlyCallsKeepsRest(s: State, t: State)
    requires Inv(s) && OnlyCalls(s, t) && CallsServed(t)
    ensures Inv(t)
  {
    assert OfferingCalls(t) == OfferingCalls(s) by {
      forall q ensures q in OfferingCalls(t) <==> q in OfferingCalls(s) {
        assert CallAt(s, q, Offering) <==> CallAt(t, q, Offering);
      }
    }
    assert FrontHeld(t) && LogSplits(t) && WireFollowsLog(t);
    if Head(t) == Waiting && t.pending != [] && !t.token {
      var p :| CallAt(s, p, Offering);
      assert CallAt(t, p, Offering);
    }
  }

  lemma TakeIsOnlyCalls(s: State, p: nat)
    requires CallAt(s, p, Blocked) && !TakeReply(s, p).ReceiveBlocks?
    ensures OnlyCalls(s, ApplyTake(s, p))
  {
  }

  lemma TakeKeepsInv(s: State, p: nat)
    requires Inv(s) && Enabled(s, Take(p))
    ensures Inv(Apply(s, Take(p)))
  {
    TakeKeepsCalls(s, p);
    TakeIsOnlyCalls(s, p);
    OnlyCallsKeepsRest(s, ApplyTake(s, p));
  }

  lemma GiveUpKeepsInv(s: State, p: nat)
    requires Inv(s) && Enabled(s, GiveUp(p))
    ensures Inv(Apply(s, GiveUp(p)))
  {
    SetCallKeepsCalls(s, p, Returned(ContextDone));
    OnlyCallsKeepsRest(s, Apply(s, GiveUp(p)));
  }

  lemma RejectKeepsInv(s: State, p: nat, kind: Kind)
    requires Inv(s) && Enabled(s, Reject(p, kind))
    ensures Inv(Apply(s, Reject(p, kind)))
  {
    var t := Apply(s, Reject(p, kind));
    forall i | 0 <= i < |t.puts| ensures CallServed(t, i) {
      assert CallServed(s, i);
      SameCallServed(s, t, i);
    }
    OnlyCallsKeepsRest(s, t);
  }

  lemma CancelGlobalKeepsInv(s: State)
    requires Inv(s)
    ensures Inv(s.(globalDone := true))
  {
    var t := s.(globalDone := true);
    forall i | 0 <= i < |t.puts| ensures CallServed(t, i) {
      assert CallServed(s, i);
      SameCallServed(s, t, i);
    }
    OnlyCallsKeepsRest(s, t);
  }

  // ---- Consumer steps ----

  /** A consumer step that touches neither messages nor reply channels. */
  ghost predicate OnlyMoves(s: State, t: State) {
    && t == s.(consumers := t.consumers, token := t.token, wakeups := t.wakeups, spins := t.spins)
    && InFlight(Head(t)) == InFlight(Head(s))
    && HeadStage(Head(t)) == HeadStage(Head(s))
  }

  lemma MovingKeepsCalls(s: State, t: State)
    requires Inv(s) && OnlyMoves(s, t)
    ensures LogSplits(t) && WireFollowsLog(t) && CallsServed(t)
    ensures OfferingCalls(t) == OfferingCalls(s)
  {
    forall i | 0 <= i < |t.puts| ensures CallServed(t, i) {
      assert CallServed(s, i);
      assert StageOf(t, i) == StageOf(s, i);
    }
  }

  lemma LifecycleKeepsInv(s: State, step: Step)
    requires Inv(s) && Enabled(s, step)
    requires step.Start? || step.Stop? || step.Cancelled?
    requires step.Start? ==> s.consumers == []
    ensures Inv(Apply(s, step))
  {
    MovingKeepsCalls(s, Apply(s, step));
  }

  lemma LoopOnlyMoves(s: State, ok: bool)
    requires |s.consumers| == 1 && AtLoop(s.consumers[0])
    ensures OnlyMoves(s, ApplyLoop(s, 0, ok)) && |ApplyLoop(s, 0, ok).consumers| == 1
  {
  }

  /** How the loop of `Peek` reads the queue and uses notifications. */
  ghost predicate PeekMove(s: State, t: State) {
    match Head(s)
    case Waiting => Head(t) == Peeking(true) && !t.token && t.wakeups == s.wakeups + 1 && t.spins == s.spins
    case Peeking(woken) =>
      && t.token == s.token && t.wakeups == s.wakeups
      && (s.pending == [] ==> Head(t) == Waiting && t.spins == s.spins + if woken then 1 else 0)
      && (s.pending != [] ==> Head(t) == Publishing(s.pending[0]) && t.spins == s.spins)
    case _ => (Head(t) == LoopTop || Head(t) == Peeking(false) || Head(t) == Leaving)
              && t.token == s.token && t.wakeups == s.wakeups && t.spins == s.spins
  }

  lemma LoopPeeks(s: State, ok: bool)
    requires |s.consumers| == 1 && AtLoop(s.consumers[0])
    ensures PeekMove(s, ApplyLoop(s, 0, ok))
  {
  }

  /** A notification that finds the queue empty belongs to a message settled before. */
  lemma PeekKeepsCounts(s: State, t: State)
    requires NotificationsCounted(s) && LogSplits(s) && |s.consumers| == 1 && |t.consumers| == 1
    requires AtLoop(s.consumers[0]) && (s.consumers[0].Waiting? ==> s.token)
    requires OnlyMoves(s, t) && PeekMove(s, t)
    ensures NotificationsCounted(t)
  {
    assert OfferingCalls(t) == OfferingCalls(s);
    if s.pending == [] {
      assert |s.settled| == |s.puts|;
    }
  }

  lemma PeekMoveKeepsInv(s: State, t: State)
    requires Inv(s) && |s.consumers| == 1 && |t.consumers| == 1
    requires AtLoop(s.consumers[0]) && OnlyMoves(s, t) && PeekMove(s, t) && NotificationsCounted(t)
    ensures Inv(t)
  {
    MovingKeepsCalls(s, t);
    assert FrontHeld(t);
  }

  lemma PeekKeepsInv(s: State, ok: bool)
    requires Inv(s) && |s.consumers| == 1 && AtLoop(s.consumers[0]) && ConsumerReady(s, s.consumers[0])
    ensures Inv(ApplyLoop(s, 0, ok))
  {
    var t := ApplyLoop(s, 0, ok);
    LoopOnlyMoves(s, ok);
    LoopPeeks(s, ok);
    PeekKeepsCounts(s, t);
    PeekMoveKeepsInv(s, t);
  }

  /** One more attempt at the current slot of the log. */
  lemma PublishKeepsWire(s: State, m: Msg, ok: bool)
    requires LogSplits(s) && FrontHeld(s) && WireFollowsLog(s)
    requires s.consumers == [Publishing(m)]
    ensures var t := ApplyPublish(s, 0, m, ok); LogSplits(t) && FrontHeld(t) && WireFollowsLog(t)
  {
    var t := ApplyPublish(s, 0, m, ok);
    assert s.puts[|s.settled|] == m;
    assert t.wire[..|t.wire| - 1] == s.wire;
    assert s.settled + [] == s.settled;
  }

  /** A step of the consumer that leaves all calls and their reply channels alone. */
  lemma CallsUntouched(s: State, t: State)
    requires CallsServed(s) && t.puts == s.puts && t.calls == s.calls && t.tries == s.tries && t.dones == s.dones
    requires forall i :: 0 <= i < |s.puts| ==> StageOf(t, i) == StageOf(s, i)
    ensures CallsServed(t)
    ensures OfferingCalls(t) == OfferingCalls(s)
  {
    forall i | 0 <= i < |t.puts| ensures CallServed(t, i) {
      assert CallServed(s, i);
      SameCallServed(s, t, i);
    }
  }

  lemma SameCounts(s: State, t: State)
    requires NotificationsCounted(s) && !AtLoop(Head(t))
    requires t.calls == s.calls && t.puts == s.puts && t.token == s.token && t.offers == s.offers
    requires t.wakeups == s.wakeups && t.spins == s.spins && |s.settled| <= |t.settled|
    ensures NotificationsCounted(t)
  {
    assert OfferingCalls(t) == OfferingCalls(s);
  }

  lemma PublishKeepsInv(s: State, ok: bool)
    requires Inv(s) && |s.consumers| == 1 && s.consumers[0].Publishing?
    ensures Inv(Apply(s, Advance(0, ok)))
  {
    hide CallsServed, WireFollowsLog, LogSplits, FrontHeld, NotificationsCounted;
    var m := s.consumers[0].msg;
    var t := ApplyPublish(s, 0, m, ok);
    PublishKeepsWire(s, m, ok);
    CallsUntouched(s, t);
    SameCounts(s, t);
  }

  /** The consumer's message is the one in slot `|settled|`, and no other call shares its channel. */
  lemma HeldSlot(s: State)
    requires LogSplits(s) && FrontHeld(s) && CallsServed(s) && Held(Head(s)).Some?
    ensures |s.settled| < |s.puts| && s.puts[|s.settled|] == Held(Head(s)).value
    ensures CallServed(s, |s.settled|)
    ensures forall i :: 0 <= i < |s.puts| && i != |s.settled| ==> s.puts[i].id != Held(Head(s)).value.id
  {
    DistinctPuts(s);
    assert s.puts[|s.settled|] == s.pending[0];
  }

  /** The send and the closes succeed: the channel is open and, before the send, empty. */
  lemma ReplyGoesThrough(s: State)
    requires LogSplits(s) && FrontHeld(s) && CallsServed(s) && |s.consumers| == 1 && AtReply(s.consumers[0])
    ensures ConsumerReady(s, s.consumers[0])
    ensures var m := Held(Head(s)).value;
            match s.consumers[0]
            case Answering(_, r) => Send(s.tries[m.id], r).Sent?
            case ClosingTry(_, _) => Close(s.tries[m.id]).Closed?
            case ClosingDone(_) => Close(s.dones[m.id]).Closed?
            case _ => true
  {
    HeldSlot(s);
  }

  lemma ReplyTouchesChannelsOnly(s: State)
    requires |s.consumers| == 1 && AtReply(s.consumers[0]) && ConsumerReady(s, s.consumers[0])
    ensures var t := ApplyReply(s, 0);
            t == s.(consumers := t.consumers, tries := t.tries, dones := t.dones, panicked := t.panicked)
  {
    hide ApplyAnswer, ApplyCloseTry, ApplyCloseDone;
  }

  lemma AnswerServesCaller(s: State)
    requires LogSplits(s) && FrontHeld(s) && CallsServed(s) && |s.consumers| == 1 && s.consumers[0].Answering?
    requires ConsumerReady(s, s.consumers[0])
    ensures |s.settled| < |s.puts| && CallServed(ApplyReply(s, 0), |s.settled|)
  {
    hide CallsServed, LogSplits, ApplyCloseTry, ApplyCloseDone;
    HeldSlot(s);
  }

  lemma CloseServesCaller(s: State)
    requires LogSplits(s) && FrontHeld(s) && CallsServed(s) && |s.consumers| == 1
    requires s.consumers[0].ClosingTry? || s.consumers[0].ClosingDone?
    requires ConsumerReady(s, s.consumers[0])
    ensures |s.settled| < |s.puts| && CallServed(ApplyReply(s, 0), |s.settled|)
  {
    hide CallsServed, LogSplits, ApplyAnswer;
    HeldSlot(s);
  }

  lemma ReplyServesCaller(s: State)
    requires LogSplits(s) && FrontHeld(s) && CallsServed(s) && |s.consumers| == 1 && AtReply(s.consumers[0])
    requires ConsumerReady(s, s.consumers[0])
    ensures |s.settled| < |s.puts| && CallServed(ApplyReply(s, 0), |s.settled|)
  {
    hide CallsServed, LogSplits, ApplyAnswer, ApplyCloseTry, ApplyCloseDone, CallServed;
    if s.consumers[0].Answering? {
      AnswerServesCaller(s);
    } else {
      CloseServesCaller(s);
    }
  }

  lemma ReplyKeepsCalls(s: State)
    requires LogSplits(s) && FrontHeld(s) && CallsServed(s) && |s.consumers| == 1 && AtReply(s.consumers[0])
    requires ConsumerReady(s, s.consumers[0])
    ensures CallsServed(ApplyReply(s, 0))
  {
    HeldSlot(s);
    ReplyGoesThrough(s);
    ReplyServesCaller(s);
    var t := ApplyReply(s, 0);
    forall i | 0 <= i < |t.puts| ensures CallServed(t, i) {
      assert CallServed(s, i);
      if i != |s.settled| {
        SameCallServed(s, t, i);
      }
    }
  }

  lemma ReplyOnlyMoves(s: State)
    requires LogSplits(s) && FrontHeld(s) && CallsServed(s)
    requires |s.consumers| == 1 && AtReply(s.consumers[0]) && ConsumerReady(s, s.consumers[0])
    ensures var t := ApplyReply(s, 0);
            && t == s.(consumers := t.consumers, tries := t.tries, dones := t.dones)
            && |t.consumers| == 1 && !AtLoop(Head(t))
            && HeldKindFits(Head(t)) && Held(Head(t)) == Held(Head(s))
            && InFlight(Head(t)) == InFlight(Head(s))
  {
    ReplyGoesThrough(s);
  }

  lemma ReplyKeepsInv(s: State, ok: bool)
    requires Inv(s) && |s.consumers| == 1 && AtReply(s.consumers[0]) && Enabled(s, Advance(0, ok))
    ensures Inv(Apply(s, Advance(0, ok)))
  {
    ReplyKeepsCalls(s);
    ReplyOnlyMoves(s);
    SameCounts(s, ApplyAdvance(s, 0, ok));
  }

  /** `Commit` settles exactly the message the consumer peeked. */
  lemma CommitKeepsLog(s: State)
    requires LogSplits(s) && FrontHeld(s) && WireFollowsLog(s)
    requires |s.consumers| == 1 && AtCommit(s.consumers[0])
    ensures var t := ApplyCommit(s, 0);
            && LogSplits(t) && FrontHeld(t) && WireFollowsLog(t)
            && t.settled == s.settled + InFlight(Head(s))
            && s.pending == [Held(Head(s)).value] + t.pending
  {
    var t := ApplyCommit(s, 0);
    assert Msgs(t.settled) + t.pending == Msgs(s.settled) + s.pending;
    assert t.settled + [] == s.settled + InFlight(Head(s));
  }

  lemma CommitKeepsInv(s: State, ok: bool)
    requires Inv(s) && |s.consumers| == 1
    requires AtCommit(s.consumers[0])
    ensures Inv(Apply(s, Advance(0, ok)))
  {
    CommitKeepsLog(s);
    CallsUntouched(s, ApplyCommit(s, 0));
  }

  /** Every step keeps the invariant, provided consumers start one after the other. */
  lemma StepKeepsInv(s: State, step: Step)
    requires Inv(s) && Enabled(s, step)
    requires step.Start? ==> s.consumers == []
    ensures Inv(Apply(s, step))
  {
    hide CallsServed, WireFollowsLog, NotificationsCounted, LogSplits;
    match step
    case Reject(p, kind) => RejectKeepsInv(s, p, kind);
    case Push(p, kind) => PushKeepsInv(s, p, kind);
    case Offer(p) => OfferKeepsInv(s, p);
    case Take(p) => TakeKeepsInv(s, p);
    case GiveUp(p) => GiveUpKeepsInv(s, p);
    case CancelGlobal => CancelGlobalKeepsInv(s);
    case Start => LifecycleKeepsInv(s, step);
    case Stop(_) => LifecycleKeepsInv(s, step);
    case Cancelled(_) => LifecycleKeepsInv(s, step);
    case Advance(_, ok) =>
      match s.consumers[0]
      case Publishing(_) => PublishKeepsInv(s, ok);
      case Answering(_, _) => ReplyKeepsInv(s, ok);
      case ClosingTry(_, _) => ReplyKeepsInv(s, ok);
      case ClosingDone(_) => ReplyKeepsInv(s, ok);
      case DroppingTry(_, _) => CommitKeepsInv(s, ok);
      case DroppingDone(_) => CommitKeepsInv(s, ok);
      case _ => PeekKeepsInv(s, ok);
  }

  lemma InitHolds()
    ensures Inv(INIT)
  {
    assert OfferingCalls(INIT) == {};
  }

  /** Only starting and returning changes how many consumers there are. */
  lemma InnerStepsKeepConsumers(s: State, step: Step)
    requires Enabled(s, step) && !step.Start? && !step.Stop?
    ensures |Apply(s, step).consumers| == |s.consumers|
  {
    if step.Advance? {
      var pc := s.consumers[step.c];
      if AtReply(pc) {
        ReplyKeepsConsumerCount(s, step.c);
      }
    }
  }

  lemma ReplyKeepsConsumerCount(s: State, c: nat)
    requires c < |s.consumers| && AtReply(s.consumers[c]) && ConsumerReady(s, s.consumers[c])
    ensures |ApplyReply(s, c).consumers| == |s.consumers|
  {
    hide ApplyAnswer, ApplyCloseTry, ApplyCloseDone;
  }

  // ---- What the invariant says to a user of the outbox ----

  /** The outbox is the sequential sender of SendLog over the log of all puts: its attempts are a
      sequential sender's, it is done with exactly the settled messages, except that the front may
      have been sent and not yet been committed, and the broker's log is the settled messages in put
      order without the failed `Try` messages, plus possibly that front. */
  lemma OutboxIsASequentialSender(s: State)
    requires Inv(s)
    ensures s.puts == Msgs(s.settled) + s.pending
    ensures Cursor(s.puts, s.wire).Some?
    ensures |s.settled| <= Cursor(s.puts, s.wire).value <= |s.settled| + 1
    ensures Accepted(s.wire) == Accepted(s.settled)
            || (s.pending != [] && Accepted(s.wire) == Accepted(s.settled) + [s.pending[0]])
  {
    AcceptedAreEndedTurns(s.wire);
    var ended := s.settled + InFlight(Head(s));
    if InFlight(Head(s)) == [] {
      assert ended == s.settled;
    } else {
      assert ended[..|ended| - 1] == s.settled;
      assert Accepted(s.settled) + [] == Accepted(s.settled);
    }
  }

  /** What became of the message in slot `i`, counted on the wire. */
  lemma FateOfSlot(s: State, i: nat)
    requires Inv(s) && i < |s.puts|
    ensures i < |s.settled| && s.puts[i].kind.DoneKind? ==> TimesAccepted(s.wire, s.puts[i]) == 1
    ensures i < |s.settled| && s.puts[i].kind.TryKind? ==>
              Times(s.wire, s.puts[i]) == 1
              && TimesAccepted(s.wire, s.puts[i]) == if s.settled[i].ok then 1 else 0
    ensures i == |s.settled| ==> TimesAccepted(s.wire, s.puts[i]) <= 1
    ensures i == |s.settled| && s.puts[i].kind.TryKind? ==> Times(s.wire, s.puts[i]) <= 1
    ensures i > |s.settled| ==> Times(s.wire, s.puts[i]) == 0 && TimesAccepted(s.wire, s.puts[i]) == 0
  {
    DistinctPuts(s);
    AttemptsOfSlot(s.puts, s.wire, i);
  }

  /** A caller that got an answer got the right one. `PublishWait` returning nil and a closed `Done`
      mean accepted exactly once; `TrySend` tells the outcome of its only attempt. */
  lemma CallersLearnTheTruth(s: State, p: nat)
    requires Inv(s) && p in s.calls
    ensures var m := Msg(p, s.calls[p].kind);
            match s.calls[p].pc
            case Returned(Completed) => TimesAccepted(s.wire, m) == 1
            case Returned(PublishFailed) =>
              m.kind.TryKind? && Times(s.wire, m) == 1 && TimesAccepted(s.wire, m) == 0
            case _ => true
    ensures s.calls[p].kind.DoneKind? && p in s.dones && s.calls[p].pc != Returned(Rejected) ==>
              (s.dones[p].closed ==> TimesAccepted(s.wire, Msg(p, DoneKind)) == 1)
    ensures s.calls[p].kind.TryKind? && s.calls[p].pc != Returned(Rejected) ==>
              Times(s.wire, Msg(p, TryKind)) <= 1
  {
    if s.calls[p].pc != Returned(Rejected) {
      var i := s.calls[p].slot;
      assert CallServed(s, i);
      DistinctPuts(s);
      AttemptsOfSlot(s.puts, s.wire, i);
      var ended := s.settled + InFlight(Head(s));
      assert i < |s.settled| ==> ended[i] == s.settled[i];
    }
  }

  /** A message refused by middleware is not put, not settled, and never reaches the wire. */
  lemma RejectedIsNeverSent(s: State, p: nat)
    requires Inv(s) && CallAt(s, p, Returned(Rejected))
    ensures forall i :: 0 <= i < |s.puts| ==> s.puts[i].id != p
    ensures forall i :: 0 <= i < |s.settled| ==> s.settled[i].msg.id != p
    ensures forall kind :: Times(s.wire, Msg(p, kind)) == 0 && TimesAccepted(s.wire, Msg(p, kind)) == 0
  {
    forall i | 0 <= i < |s.puts| ensures s.puts[i].id != p {
      assert CallServed(s, i);
    }
    forall i | 0 <= i < |s.settled| ensures s.settled[i].msg.id != p {
      assert s.puts[i] == s.settled[i].msg;
    }
    forall kind ensures Times(s.wire, Msg(p, kind)) == 0 && TimesAccepted(s.wire, Msg(p, kind)) == 0 {
      OnlyTheLogIsSent(s.puts, s.wire, Msg(p, kind));
    }
  }

  /** The `Done` of the message in slot `i` is closed exactly when its turn has come to its success: it is
      settled, or its close is done and its `Commit` is not. */
  lemma DoneIsClosedExactly(s: State, i: nat)
    requires Inv(s) && i < |s.puts| && s.puts[i].kind.DoneKind?
    ensures s.puts[i].id in s.dones
    ensures s.dones[s.puts[i].id].closed <==> i < |s.settled| || (i == |s.settled| && Head(s).DroppingDone?)
    ensures TimesAccepted(s.wire, s.puts[i]) == 1 <==>
              s.dones[s.puts[i].id].closed || (i == |s.settled| && Head(s).ClosingDone?)
  {
    assert CallServed(s, i);
    DistinctPuts(s);
    AttemptsOfSlot(s.puts, s.wire, i);
    var ended := s.settled + InFlight(Head(s));
    assert i < |ended| ==> ended[i] == if i < |s.settled| then s.settled[i] else InFlight(Head(s))[0];
  }

  /** The `Try` of the message in slot `i` gets one outcome, that of its only attempt, and is closed: once
      the message is settled the outcome waits in the channel or the caller has it. */
  lemma TryIsAnsweredExactly(s: State, i: nat)
    requires Inv(s) && i < |s.puts| && s.puts[i].kind.TryKind?
    ensures var p := s.puts[i].id;
            && p in s.tries && p in s.calls
            && (s.tries[p].closed <==> i < |s.settled| || (i == |s.settled| && Head(s).DroppingTry?))
            && (i < |s.settled| ==>
                  if s.calls[p].pc.Returned? && s.calls[p].pc.result != ContextDone
                  then s.tries[p].buf == []
                       && s.calls[p].pc.result == if s.settled[i].ok then Completed else PublishFailed
                  else s.tries[p].buf == [s.settled[i].ok])
            && (i > |s.settled| ==> s.tries[p].buf == [] && !(s.calls[p].pc.Returned?
                                                              && s.calls[p].pc.result != ContextDone))
  {
    assert CallServed(s, i);
  }

  /** A producer step never changes the front of a non-empty queue. */
  lemma ProducersKeepFront(s: State, step: Step)
    requires Enabled(s, step) && s.pending != []
    requires !step.Advance?
    ensures var t := Apply(s, step);
            t.pending != [] && t.pending[0] == s.pending[0] && t.settled == s.settled
  {
  }

  /** Nor does the consumer, before it commits. */
  lemma ConsumerKeepsQueueBeforeCommit(s: State, ok: bool)
    requires |s.consumers| == 1 && ConsumerReady(s, s.consumers[0]) && !AtCommit(s.consumers[0])
    ensures ApplyAdvance(s, 0, ok).pending == s.pending && ApplyAdvance(s, 0, ok).settled == s.settled
  {
    var pc := s.consumers[0];
    if AtLoop(pc) {
      LoopOnlyMoves(s, ok);
    } else if AtReply(pc) {
      ReplyTouchesChannelsOnly(s);
    }
  }

  /** So what `Commit` settles is the message that was peeked and sent, and only that. */
  lemma CommitRemovesThePeeked(s: State, ok: bool)
    requires Inv(s) && |s.consumers| == 1 && AtCommit(s.consumers[0])
    ensures var t := Apply(s, Advance(0, ok));
            var m := Held(Head(s)).value;
            && s.pending == [m] + t.pending
            && |t.settled| == |s.settled| + 1 && t.settled[..|s.settled|] == s.settled
            && t.settled[|s.settled|].msg == m && t.settled[|s.settled|] == s.wire[|s.wire| - 1]
  {
    CommitKeepsLog(s);
  }

  /** `t` continues the histories of `s`, with at most one more attempt. */
  ghost predicate Extends(s: State, t: State) {
    && s.puts <= t.puts && s.settled <= t.settled && s.wire <= t.wire
    && (t.wire != s.wire ==> t.puts == s.puts && |t.wire| == |s.wire| + 1)
  }

  lemma CommitExtends(s: State)
    requires |s.consumers| == 1 && AtCommit(s.consumers[0])
    ensures Extends(s, ApplyCommit(s, 0))
  {
  }

  lemma PublishExtends(s: State, m: Msg, ok: bool)
    requires |s.consumers| == 1
    ensures Extends(s, ApplyPublish(s, 0, m, ok))
  {
  }

  lemma ConsumerExtends(s: State, ok: bool)
    requires |s.consumers| == 1 && ConsumerReady(s, s.consumers[0])
    ensures Extends(s, ApplyAdvance(s, 0, ok))
  {
    var pc := s.consumers[0];
    if AtReply(pc) {
      ReplyTouchesChannelsOnly(s);
    } else if AtLoop(pc) {
      LoopOnlyMoves(s, ok);
    } else if AtCommit(pc) {
      CommitExtends(s);
    } else {
      PublishExtends(s, pc.msg, ok);
    }
  }

  lemma TakeTouchesNoHistory(s: State, p: nat)
    requires CallAt(s, p, Blocked) && !TakeReply(s, p).ReceiveBlocks?
    ensures Extends(s, ApplyTake(s, p))
  {
    TakeIsOnlyCalls(s, p);
  }

  /** A step appends to the histories and never rewrites them. */
  lemma StepExtends(s: State, step: Step)
    requires Inv(s) && Enabled(s, step)
    ensures Extends(s, Apply(s, step))
  {
    if step.Advance? {
      ConsumerExtends(s, step.ok);
    } else if step.Take? {
      TakeTouchesNoHistory(s, step.p);
    }
  }

  // ---- Why there must be one consumer only ----

  ghost predicate Reachable(s: State) {
    exists steps :: Exec(INIT, steps) == Some(s)
  }

  lemma Reach(s: State, step: Step)
    requires Reachable(s) && Enabled(s, step)
    ensures Reachable(Apply(s, step))
  {
    var steps :| Exec(INIT, steps) == Some(s);
    assert (steps + [step])[..|steps|] == steps;
    assert Exec(INIT, steps + [step]) == Some(Apply(s, step));
  }

  /** A fresh consumer runs up to its publish of the front message. */
  lemma DriveToPublish(s: State, c: nat)
    requires Reachable(s) && !s.panicked && c < |s.consumers| && s.consumers[c] == Declaring && s.pending != []
    ensures Reachable(SetConsumer(s, c, Publishing(s.pending[0])))
  {
    Reach(s, Advance(c, true));
    var s1 := SetConsumer(s, c, LoopTop);
    assert ApplyAdvance(s, c, true) == s1;
    Reach(s1, Advance(c, true));
    var s2 := SetConsumer(s, c, Peeking(false));
    assert ApplyAdvance(s1, c, true) == s2;
    Reach(s2, Advance(c, true));
    assert ApplyAdvance(s2, c, true) == SetConsumer(s, c, Publishing(s.pending[0]));
  }

  /** One message put, two consumers about to send it. */
  const BOTH_PUBLISHING := State([Msg(0, DoneKind)], false, map[], map[0 := Make(0)],
                                map[0 := Call(DoneKind, 0, Offering)],
                                [Publishing(Msg(0, DoneKind)), Publishing(Msg(0, DoneKind))],
                                false, false, [Msg(0, DoneKind)], [], [], 0, 0, 0)

  lemma BothPublish()
    ensures Reachable(BOTH_PUBLISHING)
  {
    var m := Msg(0, DoneKind);
    assert Exec(INIT, []) == Some(INIT);
    Reach(INIT, Push(0, DoneKind));
    var s := ApplyPush(INIT, 0, DoneKind);
    assert s == BOTH_PUBLISHING.(consumers := []);
    Reach(s, Start);
    Reach(s.(consumers := [] + [Declaring]), Start);
    var s2 := s.(consumers := [Declaring, Declaring]);
    assert Apply(s.(consumers := [] + [Declaring]), Start) == s2;
    DriveToPublish(s2, 0);
    assert s2.consumers[0 := Publishing(m)] == [Publishing(m), Declaring];
    var s3 := s.(consumers := [Publishing(m), Declaring]);
    DriveToPublish(s3, 1);
    assert s3.consumers[1 := Publishing(m)] == BOTH_PUBLISHING.consumers;
  }

  lemma SendTwice(s: State, m: Msg)
    requires Reachable(s) && !s.panicked && m.kind.DoneKind? && s.consumers == [Publishing(m), Publishing(m)]
    ensures Reachable(s.(wire := s.wire + [Attempt(m, true)] + [Attempt(m, true)],
                         consumers := [ClosingDone(m), ClosingDone(m)]))
  {
    Reach(s, Advance(0, true));
    var s1 := ApplyPublish(s, 0, m, true);
    assert s1.consumers == [ClosingDone(m), Publishing(m)];
    Reach(s1, Advance(1, true));
    var s2 := ApplyPublish(s1, 1, m, true);
    assert s2.consumers == [ClosingDone(m), ClosingDone(m)];
  }

  lemma AcceptedTwice(m: Msg)
    ensures TimesAccepted([] + [Attempt(m, true)] + [Attempt(m, true)], m) == 2
  {
    var one := [] + [Attempt(m, true)];
    assert one[..0] == [];
    assert TimesAccepted(one, m) == 1;
    assert (one + [Attempt(m, true)])[..1] == one;
  }

  /** Two consumers of one queue send and complete the same message: the broker gets it twice and the
      second close of its `Done` panics. */
  lemma TwoConsumersPanic()
    ensures exists s :: Reachable(s) && s.panicked && TimesAccepted(s.wire, Msg(0, DoneKind)) == 2
  {
    BothPublish();
    var m := Msg(0, DoneKind);
    SendTwice(BOTH_PUBLISHING, m);
    AcceptedTwice(m);
    var wire := BOTH_PUBLISHING.wire + [Attempt(m, true)] + [Attempt(m, true)];
    var s := BOTH_PUBLISHING.(wire := wire, consumers := [ClosingDone(m), ClosingDone(m)]);
    assert Reachable(s);
    SecondClosePanics(s, m);
  }

  lemma SecondClosePanics(s: State, m: Msg)
    requires Reachable(s) && !s.panicked && s.consumers == [ClosingDone(m), ClosingDone(m)]
    requires m.id in s.dones && !s.dones[m.id].closed
    ensures exists t :: Reachable(t) && t.panicked && t.wire == s.wire
  {
    Reach(s, Advance(0, true));
    var t := ApplyReply(s, 0);
    assert t.consumers[1] == ClosingDone(m) && t.dones[m.id].closed;
    Reach(t, Advance(1, true));
  }
}
