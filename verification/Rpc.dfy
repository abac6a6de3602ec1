/** The correlation table of rpc.go as interleaved steps: callers of `Raw`, any number of running
    `onMessage` handlers, the goroutine that sweeps the table when the broker is done, and callers
    reading their `Reply`.

    Critical sections under `rpc.lock` are single steps, except the sweep, which holds the lock from
    `SweepBegin` to `SweepEnd`. Correlation ids are fresh, as random UUIDs are taken to be. That
    handlers and the sweep never meet is not built in: see `Orderly` and module System. */
module Rpc {
  import opened Channels

  datatype Delivery = Delivery(correlation: nat, body: nat)

  /** Where `onMessage` stands: between messages, before its critical section, before the send and
      before the close. */
  datatype HandlerPc = Idle | Looking(d: Delivery) | Sending(ch: nat, d: Delivery) | Closing(ch: nat)

  datatype Sweep = NotYet | Sweeping(left: set<nat>) | Swept

  /** History: what has happened to a reply channel. */
  datatype Fate =
    | Open
    | Claimed(k: nat, d: Delivery)
    | Delivered(k: nat, d: Delivery)
    | Answered(d: Delivery)
    | SweptAway

  /** What a caller of `Reply.Bytes` got from channel `ch`; None is the "closed channel" error. */
  datatype Read = Read(ch: nat, reply: Option<Delivery>)

  /** Reply channels are numbered in the order `Raw` registered them; `owners` are their ids. */
  datatype State = State(
    correlation: map<nat, nat>,
    chans: seq<Chan<Delivery>>,
    handlers: map<nat, HandlerPc>,
    done: bool,
    sweep: Sweep,
    panicked: bool,
    owners: seq<nat>,
    fates: seq<Fate>,
    sweptFrom: nat,
    seen: seq<Read>)

  datatype Step =
    | Register(id: nat)
    | Receive(ch: nat)
    | Start(k: nat)
    | Stop(k: nat)
    | Arrive(k: nat, d: Delivery)
    | Look(k: nat)
    | Send(k: nat)
    | Close(k: nat)
    | BrokerDone
    | SweepBegin
    | SweepClose(ch: nat)
    | SweepEnd

  const INIT := State(map[], [], map[], false, NotYet, false, [], [], 0, [])

  predicate LockFree(s: State) {
    !s.sweep.Sweeping?
  }

  predicate Enabled(s: State, step: Step) {
    && !s.panicked
    && match step
       case Register(id) => LockFree(s) && id !in s.owners
       case Receive(ch) => ch < |s.chans| && !Channels.Receive(s.chans[ch]).ReceiveBlocks?
       case Start(k) => k !in s.handlers
       case Stop(k) => k in s.handlers && s.handlers[k].Idle?
       case Arrive(k, _) => k in s.handlers && s.handlers[k].Idle?
       case Look(k) => LockFree(s) && k in s.handlers && s.handlers[k].Looking?
       case Send(k) =>
         k in s.handlers && s.handlers[k].Sending? && s.handlers[k].ch < |s.chans|
         && !Channels.Send(s.chans[s.handlers[k].ch], s.handlers[k].d).SendBlocks?
       case Close(k) => k in s.handlers && s.handlers[k].Closing? && s.handlers[k].ch < |s.chans|
       case BrokerDone => !s.done
       case SweepBegin => s.done && s.sweep == NotYet
       case SweepClose(ch) => s.sweep.Sweeping? && ch in s.sweep.left && ch < |s.chans|
       case SweepEnd => s.sweep == Sweeping({})
  }

  function SetHandler(s: State, k: nat, pc: HandlerPc): State {
    s.(handlers := s.handlers[k := pc])
  }

  /** Records the fate of a channel; `chans` and `fates` have the same length. */
  function SetFate(fates: seq<Fate>, ch: nat, f: Fate): seq<Fate> {
    if ch < |fates| then fates[ch := f] else fates
  }

  function ApplyReceive(s: State, ch: nat): State
    requires ch < |s.chans| && !Channels.Receive(s.chans[ch]).ReceiveBlocks?
  {
    match Channels.Receive(s.chans[ch])
    case Got(d, c) => s.(chans := s.chans[ch := c], seen := s.seen + [Read(ch, Some(d))])
    case Zero => s.(seen := s.seen + [Read(ch, None)])
  }

  /** The critical section of `onMessage`: look the id up and take it out of the table. */
  function ApplyLook(s: State, k: nat): State
    requires k in s.handlers && s.handlers[k].Looking?
  {
    var d := s.handlers[k].d;
    if d.correlation in s.correlation then
      var ch := s.correlation[d.correlation];
      SetHandler(s, k, Sending(ch, d)).(correlation := s.correlation - {d.correlation},
                                       fates := SetFate(s.fates, ch, Claimed(k, d)))
    else SetHandler(s, k, Idle)
  }

  function ApplySend(s: State, k: nat): State
    requires k in s.handlers && s.handlers[k].Sending? && s.handlers[k].ch < |s.chans|
  {
    var pc := s.handlers[k];
    match Channels.Send(s.chans[pc.ch], pc.d)
    case Sent(c) =>
      SetHandler(s, k, Closing(pc.ch)).(chans := s.chans[pc.ch := c],
                                       fates := SetFate(s.fates, pc.ch, Delivered(k, pc.d)))
    case _ => s.(panicked := true)
  }

  function ApplyClose(s: State, k: nat): State
    requires k in s.handlers && s.handlers[k].Closing? && s.handlers[k].ch < |s.chans|
  {
    var ch := s.handlers[k].ch;
    match Channels.Close(s.chans[ch])
    case Closed(c) =>
      var fates := if ch < |s.fates| && s.fates[ch].Delivered? then s.fates[ch := Answered(s.fates[ch].d)] else s.fates;
      SetHandler(s, k, Idle).(chans := s.chans[ch := c], fates := fates)
    case ClosePanics => s.(panicked := true)
  }

  function ApplySweepClose(s: State, ch: nat): State
    requires s.sweep.Sweeping? && ch < |s.chans|
  {
    match Channels.Close(s.chans[ch])
    case Closed(c) =>
      s.(chans := s.chans[ch := c], fates := SetFate(s.fates, ch, SweptAway), sweep := Sweeping(s.sweep.left - {ch}))
    case ClosePanics => s.(panicked := true)
  }

  function Apply(s: State, step: Step): State
    requires Enabled(s, step)
  {
    match step
    case Register(id) =>
      s.(correlation := s.correlation[id := |s.chans|], chans := s.chans + [Make(1)],
         owners := s.owners + [id], fates := s.fates + [Open])
    case Receive(ch) => ApplyReceive(s, ch)
    case Start(k) => SetHandler(s, k, Idle)
    case Stop(k) => s.(handlers := s.handlers - {k})
    case Arrive(k, d) => SetHandler(s, k, Looking(d))
    case Look(k) => ApplyLook(s, k)
    case Send(k) => ApplySend(s, k)
    case Close(k) => ApplyClose(s, k)
    case BrokerDone => s.(done := true)
    case SweepBegin =>
      s.(sweep := Sweeping(set id | id in s.correlation :: s.correlation[id]), sweptFrom := |s.chans|)
    case SweepClose(ch) => ApplySweepClose(s, ch)
    case SweepEnd => s.(sweep := Swept)
  }

  /** What the connection supervisor owes this module: no handler runs once the broker is done. */
  predicate Orderly(s: State, step: Step) {
    && (step.Start? ==> !s.done)
    && (step.BrokerDone? ==> s.handlers == map[])
  }

  function Exec(s: State, steps: seq<Step>): Option<State>
    decreases |steps|
  {
    if steps == [] then Some(s)
    else
      match Exec(s, steps[..|steps| - 1])
      case None => None
      case Some(t) =>
        var step := steps[|steps| - 1];
        if Enabled(t, step) then Some(Apply(t, step)) else None
  }

  // ---- Invariants ----

  ghost predicate SameLengths(s: State) {
    && |s.owners| == |s.chans| == |s.fates|
    && (forall i, j :: 0 <= i < j < |s.owners| ==> s.owners[i] != s.owners[j])
  }

  predicate Listed(s: State, ch: nat)
    requires ch < |s.owners|
  {
    s.owners[ch] in s.correlation && s.correlation[s.owners[ch]] == ch
  }

  ghost predicate WasTaken(s: State, ch: nat, d: Delivery) {
    Read(ch, Some(d)) in s.seen
  }

  /** Each fate fixes the channel's contents, its place in the table and who works on it. */
  ghost predicate FateHolds(s: State, ch: nat)
    requires ch < |s.fates| && |s.owners| == |s.chans| == |s.fates|
  {
    var c := s.chans[ch];
    && c.cap == 1
    && match s.fates[ch]
       case Open => Listed(s, ch) && c.buf == [] && !c.closed
       case Claimed(k, d) =>
         && !Listed(s, ch) && c.buf == [] && !c.closed
         && d.correlation == s.owners[ch]
         && k in s.handlers && s.handlers[k] == Sending(ch, d)
       case Delivered(k, d) =>
         && !Listed(s, ch) && !c.closed
         && d.correlation == s.owners[ch]
         && c.buf == (if WasTaken(s, ch, d) then [] else [d])
         && k in s.handlers && s.handlers[k] == Closing(ch)
       case Answered(d) =>
         && !Listed(s, ch) && c.closed
         && d.correlation == s.owners[ch]
         && c.buf == (if WasTaken(s, ch, d) then [] else [d])
       case SweptAway => Listed(s, ch) && c.closed && c.buf == []
  }

  ghost predicate FatesHold(s: State) {
    && SameLengths(s)
    && (forall ch :: 0 <= ch < |s.fates| ==> FateHolds(s, ch))
    && (forall id :: id in s.correlation ==>
          s.correlation[id] < |s.owners| && s.owners[s.correlation[id]] == id)
  }

  ghost predicate HandlerFits(s: State, k: nat, pc: HandlerPc) {
    match pc
    case Sending(ch, d) => ch < |s.fates| && s.fates[ch] == Claimed(k, d)
    case Closing(ch) => ch < |s.fates| && s.fates[ch].Delivered? && s.fates[ch].k == k
    case _ => true
  }

  ghost predicate HandlersFit(s: State) {
    forall k :: k in s.handlers ==> HandlerFits(s, k, s.handlers[k])
  }

  ghost predicate ReadFits(s: State, r: Read) {
    && r.ch < |s.fates|
    && match r.reply
       case Some(d) => s.fates[r.ch] == Answered(d) || (s.fates[r.ch].Delivered? && s.fates[r.ch].d == d)
       case None => s.fates[r.ch].Answered? || s.fates[r.ch].SweptAway?
  }

  /** Every reply read was sent to the reader's own channel. */
  ghost predicate ReadsFit(s: State) {
    forall r :: r in s.seen ==> ReadFits(s, r)
  }

  ghost predicate SweepFits(s: State) {
    && (s.done ==> s.handlers == map[])
    && (s.sweep != NotYet ==> s.done && s.sweptFrom <= |s.fates|)
    && (s.sweep == NotYet ==> forall ch :: 0 <= ch < |s.fates| ==> s.fates[ch] != SweptAway)
    && (s.sweep.Sweeping? ==> s.sweptFrom == |s.fates|
                              && forall ch :: ch in s.sweep.left <==> 0 <= ch < |s.fates| && s.fates[ch] == Open)
    && (s.sweep == Swept ==>
          forall ch :: 0 <= ch < |s.fates| ==> (s.fates[ch] == Open <==> s.sweptFrom <= ch))
  }

  ghost predicate Inv(s: State) {
    !s.panicked && FatesHold(s) && HandlersFit(s) && ReadsFit(s) && SweepFits(s)
  }

  // ---- Preservation ----

  /** The channel, its table entry and its handler look the same. */
  ghost predicate SameChannel(s: State, t: State, ch: nat)
    requires SameLengths(s) && SameLengths(t) && ch < |s.fates| <= |t.fates|
  {
    && t.fates[ch] == s.fates[ch] && t.chans[ch] == s.chans[ch] && t.owners[ch] == s.owners[ch]
    && Listed(t, ch) == Listed(s, ch)
    && (forall d :: WasTaken(t, ch, d) == WasTaken(s, ch, d))
    && (forall k :: k in s.handlers && (s.handlers[k].Sending? || s.handlers[k].Closing?) && s.handlers[k].ch == ch ==>
          k in t.handlers && t.handlers[k] == s.handlers[k])
  }

  lemma SameChannelHolds(s: State, t: State, ch: nat)
    requires SameLengths(s) && SameLengths(t) && ch < |s.fates| <= |t.fates|
    requires FateHolds(s, ch) && SameChannel(s, t, ch)
    ensures FateHolds(t, ch)
  {
  }

  lemma RegisterKeepsInv(s: State, id: nat)
    requires Inv(s) && Enabled(s, Register(id))
    ensures Inv(Apply(s, Register(id)))
  {
    var t := Apply(s, Register(id));
    forall ch | 0 <= ch < |t.fates| ensures FateHolds(t, ch) {
      if ch < |s.fates| {
        SameChannelHolds(s, t, ch);
      }
    }
  }

  lemma ReceiveKeepsFates(s: State, ch: nat)
    requires FatesHold(s) && Enabled(s, Receive(ch))
    ensures FatesHold(ApplyReceive(s, ch))
  {
    var t := ApplyReceive(s, ch);
    assert FateHolds(s, ch);
    var r := t.seen[|t.seen| - 1];
    assert t.seen == s.seen + [r];
    forall c | 0 <= c < |t.fates| ensures FateHolds(t, c) {
      assert FateHolds(s, c);
      if c != ch {
        SameChannelHolds(s, t, c);
      }
    }
  }

  lemma ReceiveKeepsReads(s: State, ch: nat)
    requires FatesHold(s) && ReadsFit(s) && Enabled(s, Receive(ch))
    ensures ReadsFit(ApplyReceive(s, ch))
  {
    var t := ApplyReceive(s, ch);
    assert FateHolds(s, ch);
    var r := t.seen[|t.seen| - 1];
    assert t.seen == s.seen + [r];
    assert ReadFits(t, r);
  }

  lemma ReceiveKeepsInv(s: State, ch: nat)
    requires Inv(s) && Enabled(s, Receive(ch))
    ensures Inv(Apply(s, Receive(ch)))
  {
    ReceiveKeepsFates(s, ch);
    ReceiveKeepsReads(s, ch);
  }

  lemma HandlerMovesKeepInv(s: State, step: Step)
    requires Inv(s) && Enabled(s, step) && Orderly(s, step)
    requires step.Start? || step.Stop? || step.Arrive?
    ensures Inv(Apply(s, step))
  {
    var t := Apply(s, step);
    forall c | 0 <= c < |t.fates| ensures FateHolds(t, c) {
      assert FateHolds(s, c);
      SameChannelHolds(s, t, c);
    }
  }

  lemma LookKeepsInv(s: State, k: nat)
    requires Inv(s) && Enabled(s, Look(k))
    ensures Inv(Apply(s, Look(k)))
  {
    var t := Apply(s, Look(k));
    var d := s.handlers[k].d;
    if d.correlation in s.correlation {
      assert FateHolds(s, s.correlation[d.correlation]);
      assert s.fates[s.correlation[d.correlation]] == Open;
    }
    forall c | 0 <= c < |t.fates| ensures FateHolds(t, c) {
      assert FateHolds(s, c);
      if d.correlation !in s.correlation || c != s.correlation[d.correlation] {
        SameChannelHolds(s, t, c);
      }
    }
  }

  lemma SendKeepsInv(s: State, k: nat)
    requires Inv(s) && Enabled(s, Send(k))
    ensures Inv(Apply(s, Send(k)))
  {
    var t := Apply(s, Send(k));
    var ch := s.handlers[k].ch;
    assert FateHolds(s, ch);
    forall c | 0 <= c < |t.fates| ensures FateHolds(t, c) {
      assert FateHolds(s, c);
      if c != ch {
        SameChannelHolds(s, t, c);
      }
    }
  }

  lemma CloseKeepsInv(s: State, k: nat)
    requires Inv(s) && Enabled(s, Close(k))
    ensures Inv(Apply(s, Close(k)))
  {
    var t := Apply(s, Close(k));
    var ch := s.handlers[k].ch;
    assert FateHolds(s, ch);
    forall c | 0 <= c < |t.fates| ensures FateHolds(t, c) {
      assert FateHolds(s, c);
      if c != ch {
        SameChannelHolds(s, t, c);
      }
    }
  }

  lemma SweepBeginKeepsInv(s: State)
    requires Inv(s) && Enabled(s, SweepBegin)
    ensures Inv(Apply(s, SweepBegin))
  {
    var t := Apply(s, SweepBegin);
    forall c | 0 <= c < |t.fates| ensures FateHolds(t, c) {
      assert FateHolds(s, c);
      SameChannelHolds(s, t, c);
    }
    forall c | 0 <= c < |t.fates| && t.fates[c] == Open ensures c in t.sweep.left {
      assert FateHolds(s, c);
    }
    forall c | c in t.sweep.left ensures 0 <= c < |t.fates| && t.fates[c] == Open {
      assert FateHolds(s, c);
    }
  }

  lemma SweepCloseKeepsInv(s: State, ch: nat)
    requires Inv(s) && Enabled(s, SweepClose(ch))
    ensures Inv(Apply(s, SweepClose(ch)))
  {
    var t := Apply(s, SweepClose(ch));
    assert FateHolds(s, ch);
    forall c | 0 <= c < |t.fates| ensures FateHolds(t, c) {
      assert FateHolds(s, c);
      if c != ch {
        SameChannelHolds(s, t, c);
      }
    }
  }

  lemma SweepEdgesKeepInv(s: State, step: Step)
    requires Inv(s) && Enabled(s, step) && Orderly(s, step)
    requires step.BrokerDone? || step.SweepEnd?
    ensures Inv(Apply(s, step))
  {
    var t := Apply(s, step);
    forall c | 0 <= c < |t.fates| ensures FateHolds(t, c) {
      assert FateHolds(s, c);
      SameChannelHolds(s, t, c);
    }
    if step.SweepEnd? {
      assert forall c :: 0 <= c < |s.fates| ==> c !in s.sweep.left;
    }
  }

  lemma StepKeepsInv(s: State, step: Step)
    requires Inv(s) && Enabled(s, step) && Orderly(s, step)
    ensures Inv(Apply(s, step))
  {
    match step
    case Register(id) => RegisterKeepsInv(s, id);
    case Receive(ch) => ReceiveKeepsInv(s, ch);
    case Start(_) => HandlerMovesKeepInv(s, step);
    case Stop(_) => HandlerMovesKeepInv(s, step);
    case Arrive(_, _) => HandlerMovesKeepInv(s, step);
    case Look(k) => LookKeepsInv(s, k);
    case Send(k) => SendKeepsInv(s, k);
    case Close(k) => CloseKeepsInv(s, k);
    case BrokerDone => SweepEdgesKeepInv(s, step);
    case SweepBegin => SweepBeginKeepsInv(s);
    case SweepClose(ch) => SweepCloseKeepsInv(s, ch);
    case SweepEnd => SweepEdgesKeepInv(s, step);
  }

  lemma InitHolds()
    ensures Inv(INIT)
  {
  }

  /** Only starting and returning changes which handlers run. */
  lemma InnerStepsKeepHandlers(s: State, step: Step)
    requires Enabled(s, step) && !step.Start? && !step.Stop? && !step.BrokerDone?
    ensures Apply(s, step).handlers.Keys == s.handlers.Keys && Apply(s, step).done == s.done
  {
  }

  // ---- What the invariant says to a user of the table ----

  /** The table holds exactly the registered calls whose reply was not taken out by `onMessage`. */
  lemma TableIsRegisteredMinusDelivered(s: State, id: nat)
    requires Inv(s)
    ensures id in s.correlation <==>
              exists ch :: 0 <= ch < |s.owners| && s.owners[ch] == id
                           && (s.fates[ch] == Open || s.fates[ch] == SweptAway)
    ensures s.sweep == NotYet ==> forall ch :: 0 <= ch < |s.fates| ==> (Listed(s, ch) <==> s.fates[ch] == Open)
  {
    forall ch | 0 <= ch < |s.owners| ensures Listed(s, ch) <==> s.fates[ch] == Open || s.fates[ch] == SweptAway {
      assert FateHolds(s, ch);
    }
    if id in s.correlation {
      assert Listed(s, s.correlation[id]);
    }
  }

  /** `onMessage` never blocks on its send and never panics: its channel is open and empty. */
  lemma RepliesGoThrough(s: State, k: nat)
    requires Inv(s) && k in s.handlers
    ensures s.handlers[k].Sending? ==> Enabled(s, Send(k)) && !Apply(s, Send(k)).panicked
    ensures s.handlers[k].Closing? ==> Enabled(s, Close(k)) && !Apply(s, Close(k)).panicked
  {
    assert HandlerFits(s, k, s.handlers[k]);
    match s.handlers[k]
    case Sending(ch, _) => assert FateHolds(s, ch);
    case Closing(ch) => assert FateHolds(s, ch);
    case _ =>
  }

  /** Whatever a caller reads was sent for its own id, and all its reads agree. */
  lemma ReadersGetTheirOwnReply(s: State, r: Read, q: Read)
    requires Inv(s) && r in s.seen && q in s.seen && r.ch == q.ch && r.reply.Some?
    ensures r.ch < |s.owners| && r.reply.value.correlation == s.owners[r.ch]
    ensures q.reply.Some? ==> q.reply == r.reply
  {
    assert FateHolds(s, r.ch);
  }

  /** The first reply decides: from the moment it is looked up the channel is bound to it, and a
      resolved channel stays as it was resolved. */
  lemma FirstReplyWins(s: State, step: Step, ch: nat)
    requires Inv(s) && Enabled(s, step) && Orderly(s, step) && ch < |s.fates|
    ensures var t := Apply(s, step);
            && ch < |t.fates|
            && match s.fates[ch]
               case Open => !t.fates[ch].Delivered? && !t.fates[ch].Answered?
               case Claimed(k, d) => t.fates[ch] == Claimed(k, d) || t.fates[ch] == Delivered(k, d)
               case Delivered(k, d) => t.fates[ch] == Delivered(k, d) || t.fates[ch] == Answered(d)
               case Answered(d) => t.fates[ch] == Answered(d)
               case SweptAway => t.fates[ch] == SweptAway
  {
    assert FateHolds(s, ch);
    match step
    case Look(k) =>
      if s.handlers[k].d.correlation in s.correlation {
        assert FateHolds(s, s.correlation[s.handlers[k].d.correlation]);
      }
    case Send(k) => assert HandlerFits(s, k, s.handlers[k]);
    case Close(k) => assert HandlerFits(s, k, s.handlers[k]);
    case _ =>
  }

  /** A reply nobody waits for, unknown or late, changes nothing but the handler's own position. */
  lemma LateRepliesChangeNothing(s: State, k: nat)
    requires Inv(s) && Enabled(s, Look(k))
    requires forall ch :: 0 <= ch < |s.owners| && s.owners[ch] == s.handlers[k].d.correlation ==> s.fates[ch] != Open
    ensures Apply(s, Look(k)) == s.(handlers := s.handlers[k := Idle])
  {
    var id := s.handlers[k].d.correlation;
    forall ch | 0 <= ch < |s.owners| ensures !(s.owners[ch] == id && Listed(s, ch)) {
      assert FateHolds(s, ch);
    }
  }

  /** Once the sweep is over, a call is resolved if and only if it was registered before the sweep:
      the table is not emptied and not closed to new calls, so a later caller waits forever. */
  lemma ResolvedIffRegisteredBeforeSweep(s: State, ch: nat)
    requires Inv(s) && s.sweep == Swept && ch < |s.chans|
    ensures s.chans[ch].closed <==> ch < s.sweptFrom
    ensures s.chans[ch].closed <==> s.fates[ch].Answered? || s.fates[ch].SweptAway?
    ensures Channels.Receive(s.chans[ch]).ReceiveBlocks? <==> s.sweptFrom <= ch
  {
    assert FateHolds(s, ch);
  }

  lemma {:induction false} ExecSnoc(s: State, steps: seq<Step>, step: Step)
    requires Exec(s, steps).Some? && Enabled(Exec(s, steps).value, step)
    ensures Exec(s, steps + [step]) == Some(Apply(Exec(s, steps).value, step))
  {
    assert (steps + [step])[..|steps|] == steps;
  }

  /** One call registered, broker done, table swept. */
  const AFTER_SWEEP := State(map[0 := 0], [Chan(1, [], true)], map[], true, Swept, false, [0], [SweptAway], 1, [])

  lemma SweepLeavesClosedChannel()
    ensures exists steps :: Exec(INIT, steps) == Some(AFTER_SWEEP)
  {
    var open := AFTER_SWEEP.(chans := [Make(1)], sweep := NotYet, fates := [Open], sweptFrom := 0);
    var s1 := Apply(INIT, Register(0));
    assert s1.correlation == open.correlation && s1.chans == open.chans && s1.owners == open.owners;
    assert s1.fates == open.fates;
    ExecSnoc(INIT, [], Register(0));
    ExecSnoc(INIT, [] + [Register(0)], BrokerDone);
    var steps := [] + [Register(0)] + [BrokerDone];
    assert Exec(INIT, steps) == Some(open);
    assert (set id | id in open.correlation :: open.correlation[id]) == {0} by { assert open.correlation[0] == 0; }
    ExecSnoc(INIT, steps, SweepBegin);
    var s3 := Apply(open, SweepBegin);
    ExecSnoc(INIT, steps + [SweepBegin], SweepClose(0));
    var s4 := Apply(s3, SweepClose(0));
    assert s4.sweep.left == {} && s4.chans == AFTER_SWEEP.chans && s4.fates == AFTER_SWEEP.fates;
    ExecSnoc(INIT, steps + [SweepBegin] + [SweepClose(0)], SweepEnd);
  }

  /** Without the supervisor's promise the sweep is unsafe: it leaves closed channels in the table,
      so a reply handled after it is sent to a closed channel. */
  lemma ReplyAfterSweepPanics()
    ensures exists steps :: Exec(INIT, steps).Some? && Exec(INIT, steps).value.panicked
  {
    SweepLeavesClosedChannel();
    var d := Delivery(0, 0);
    var swept :| Exec(INIT, swept) == Some(AFTER_SWEEP);
    ExecSnoc(INIT, swept, Start(0));
    ExecSnoc(INIT, swept + [Start(0)], Arrive(0, d));
    ExecSnoc(INIT, swept + [Start(0)] + [Arrive(0, d)], Look(0));
    ExecSnoc(INIT, swept + [Start(0)] + [Arrive(0, d)] + [Look(0)], Send(0));
  }
}
