/** The life of messages consumed by a transactional sink (sink.go) with requeueing (requeuer.go),
    against a small broker, as interleaved steps.

    The broker keeps copies of messages in the target queue, the requeue queue and the dead queue, or
    unacknowledged at a consumer. Each delivery is processed by one turn of the sink's loop, a
    process here; any number of sinks, in any number of programs, may consume the target queue at
    once. A connection may be lost between any two steps: the broker then puts the copy back, while
    the process goes on and its Ack or Nack reaches nobody. The requeue handshake is the one of
    module Handshake; request `d` is the one made by process `d`.

    Broker assumptions: an accepted publish, Ack or Nack takes effect; Nack with requeue and a lost
    connection return the copy with its headers unchanged; Nack without requeue dead-letters the copy
    if the sink has a dead letter exchange and queue and drops it otherwise; expiry in the requeue
    queue moves the copy to the target queue and updates its headers by `Headers.Expire`. */
module Delivery {
  import opened Channels
  import opened Headers
  import Handshake

  /** What `OnExpired` does: absent, or it always refuses, or its answer decides. */
  datatype ExpiredPolicy = NoHandler | Refuses | Decides

  /** `limit` is `retries`; `requeueName` is the requeue queue's name. */
  datatype Config = Config(
    limit: int,
    tooMuch: Option<int>,
    expired: ExpiredPolicy,
    requeue: bool,
    deadLetter: bool,
    requeueName: string)

  datatype Loc = InTarget | Unacked(d: nat) | InRequeue | Dead | Consumed | Superseded | Dropped

  /** `orig` names the message this is a copy of by the number of its first copy. */
  datatype Copy = Copy(orig: nat, headers: Headers, loc: Loc)

  /** A process evaluates the retry policy, the middleware, then `fn`; after a failure it may ask for
      a requeue; it ends with one settlement: Nack without requeue, Ack after success or after the
      requeue (`byFn` tells which), or Nack with requeue. */
  datatype Pc = Judging | Filtering | Handling | Requesting | Rejecting | Acking(byFn: bool) | Returning | Settled

  /** `live`: the connection the delivery came over is still up and the copy unsettled. `owner` is the sink
      whose loop took it. */
  datatype Proc = Proc(copy: nat, live: bool, pc: Pc, owner: nat)

  /** Per message: `fn` ran and returned nil or an error, policy or middleware refused it, the broker
      put it back on Nack, a connection was lost while it was unacked, and its copies forked: one was
      put back or published although another already stood for the same delivery. */
  datatype Event = Ran(o: nat, ok: bool) | Refused(o: nat) | Returned(o: nat) | Lost(o: nat) | Forked(o: nat)

  /** `bodies` are the headers of requested messages, `copyOf` the copy an accepted request made. */
  datatype State = State(
    copies: seq<Copy>,
    procs: seq<Proc>,
    hs: Handshake.State,
    bodies: map<nat, Headers>,
    copyOf: map<nat, nat>,
    events: multiset<Event>)

  datatype Step =
    | Arrive(h: Headers)
    | Deliver(c: nat, owner: nat)
    | Lose(d: nat)
    | Judge(d: nat, tooMuchAnswer: bool, expiredAnswer: bool)
    | Filter(d: nat, pass: bool)
    | Run(d: nat, ok: bool, err: string, requeueSet: bool)
    | Requeuer(step: Handshake.Step)
    | Resume(d: nat)
    | Settle(d: nat)
    | Expiry(c: nat)

  const INIT := State([], [], Handshake.INIT, map[], map[], multiset{})

  /** The retry policy of the sink loop. */
  predicate Keep(cfg: Config, retries: int, tooMuchAnswer: bool, expiredAnswer: bool) {
    var keep := if cfg.tooMuch.Some? && retries >= cfg.tooMuch.value then tooMuchAnswer else true;
    if cfg.limit >= 0 && retries > cfg.limit then
      match cfg.expired
      case NoHandler => false
      case Refuses => false
      case Decides => keep && expiredAnswer
    else keep
  }

  /** A message is refused exactly if the handler for too many retries is due and answers false, or if the
      limit is exceeded and no handler for expired messages answers true. */
  lemma PolicyRefusesExactly(cfg: Config, retries: int, tooMuchAnswer: bool, expiredAnswer: bool)
    ensures !Keep(cfg, retries, tooMuchAnswer, expiredAnswer) <==>
              || (cfg.tooMuch.Some? && retries >= cfg.tooMuch.value && !tooMuchAnswer)
              || (cfg.limit >= 0 && retries > cfg.limit && (cfg.expired != Decides || !expiredAnswer))
  {
  }

  predicate At(s: State, d: nat, pc: Pc) {
    d < |s.procs| && s.procs[d].pc == pc
  }

  predicate Enabled(cfg: Config, s: State, step: Step) {
    !s.hs.panicked && EnabledIn(cfg, s, step)
  }

  predicate EnabledIn(cfg: Config, s: State, step: Step) {
    match step
    case Arrive(h) => Expiries(h, cfg.requeueName) >= 0
    case Deliver(c, _) => c < |s.copies| && s.copies[c].loc == InTarget
    case Lose(d) => d < |s.procs| && s.procs[d].live && s.procs[d].copy < |s.copies|
    case Judge(d, _, _) => At(s, d, Judging) && s.procs[d].copy < |s.copies|
    case Filter(d, _) => At(s, d, Filtering) && s.procs[d].copy < |s.copies|
    case Run(d, _, _, _) => At(s, d, Handling) && s.procs[d].copy < |s.copies| && d !in s.hs.callers
    case Requeuer(st) =>
      && !st.Call? && Handshake.Enabled(s.hs, st)
      && (st.Publish? ==> PublishFits(s, s.hs.responders[st.k].r))
    case Resume(d) => At(s, d, Requesting) && d in s.hs.callers && s.hs.callers[d].Back?
    case Settle(d) =>
      && d < |s.procs| && s.procs[d].copy < |s.copies|
      && (s.procs[d].pc == Rejecting || s.procs[d].pc.Acking? || s.procs[d].pc == Returning)
    case Expiry(c) => c < |s.copies| && s.copies[c].loc == InRequeue
  }

  predicate PublishFits(s: State, r: nat) {
    r in s.bodies && r < |s.procs| && s.procs[r].copy < |s.copies|
  }

  function SetPc(s: State, d: nat, pc: Pc): State
    requires d < |s.procs|
  {
    s.(procs := s.procs[d := s.procs[d].(pc := pc)])
  }

  function SetLoc(s: State, c: nat, loc: Loc): State
    requires c < |s.copies|
  {
    s.(copies := s.copies[c := s.copies[c].(loc := loc)])
  }

  function Record(s: State, e: Event): State {
    s.(events := s.events + multiset{e})
  }

  function OrigOf(s: State, d: nat): nat
    requires d < |s.procs| && s.procs[d].copy < |s.copies|
  {
    s.copies[s.procs[d].copy].orig
  }

  function ApplyDeliver(s: State, c: nat, owner: nat): State
    requires c < |s.copies|
  {
    SetLoc(s, c, Unacked(|s.procs|)).(procs := s.procs + [Proc(c, true, Judging, owner)])
  }

  /** The copy goes back; if a requeued copy already stands for it, there are now two. */
  function PutBack(s: State, d: nat, e: Event): (t: State)
    requires d < |s.procs| && s.procs[d].copy < |s.copies|
    ensures t == s.(copies := t.copies, events := t.events)
  {
    var t := Record(SetLoc(s, s.procs[d].copy, InTarget), e);
    if d in s.copyOf then Record(t, Forked(OrigOf(s, d))) else t
  }

  function ApplyLose(s: State, d: nat): State
    requires d < |s.procs| && s.procs[d].copy < |s.copies|
  {
    PutBack(s, d, Lost(OrigOf(s, d))).(procs := s.procs[d := s.procs[d].(live := false)])
  }

  function ApplyRun(cfg: Config, s: State, d: nat, ok: bool, err: string, requeueSet: bool): State
    requires d < |s.procs| && s.procs[d].copy < |s.copies| && Handshake.Enabled(s.hs, Handshake.Call(d))
  {
    var t := Record(s, Ran(OrigOf(s, d), ok));
    if ok then SetPc(t, d, Acking(true))
    else if !(cfg.requeue && requeueSet) then SetPc(t, d, Returning)
    else
      SetPc(t, d, Requesting).(
        bodies := s.bodies[d := s.copies[s.procs[d].copy].headers[LAST_ERROR := Text(err)]],
        hs := Handshake.Apply(s.hs, Handshake.Call(d)))
  }

  /** A step of the handshake; an accepted publish also makes a copy in the requeue queue. */
  function ApplyRequeuer(s: State, st: Handshake.Step): State
    requires !st.Call? && Handshake.Enabled(s.hs, st)
    requires st.Publish? ==> PublishFits(s, s.hs.responders[st.k].r)
  {
    var t := s.(hs := Handshake.Apply(s.hs, st));
    if st.Publish? && st.ok then
      var r := s.hs.responders[st.k].r;
      var o := OrigOf(s, r);
      var u := t.(copies := s.copies + [Copy(o, s.bodies[r], InRequeue)], copyOf := s.copyOf[r := |s.copies|]);
      if s.procs[r].live then u else Record(u, Forked(o))
    else t
  }

  /** One settlement; without its connection it reaches nobody. */
  function ApplySettle(cfg: Config, s: State, d: nat): State
    requires d < |s.procs| && s.procs[d].copy < |s.copies|
  {
    var p := s.procs[d];
    var t := if !p.live then s
             else
               match p.pc
               case Rejecting => SetLoc(s, p.copy, if cfg.deadLetter then Dead else Dropped)
               case Acking(byFn) => SetLoc(s, p.copy, if byFn then Consumed else Superseded)
               case _ => PutBack(s, d, Returned(OrigOf(s, d)));
    t.(procs := s.procs[d := p.(live := false, pc := Settled)])
  }

  function Apply(cfg: Config, s: State, step: Step): State
    requires Enabled(cfg, s, step)
  {
    match step
    case Arrive(h) => s.(copies := s.copies + [Copy(|s.copies|, h, InTarget)])
    case Deliver(c, k) => ApplyDeliver(s, c, k)
    case Lose(d) => ApplyLose(s, d)
    case Judge(d, tm, ex) =>
      if Keep(cfg, Redelivery(s.copies[s.procs[d].copy].headers), tm, ex) then SetPc(s, d, Filtering)
      else Record(SetPc(s, d, Rejecting), Refused(OrigOf(s, d)))
    case Filter(d, pass) =>
      if pass then SetPc(s, d, Handling)
      else Record(SetPc(s, d, Rejecting), Refused(OrigOf(s, d)))
    case Run(d, ok, err, requeueSet) => ApplyRun(cfg, s, d, ok, err, requeueSet)
    case Requeuer(st) => ApplyRequeuer(s, st)
    case Resume(d) =>
      SetPc(s, d, if s.hs.callers[d].result == Handshake.Published then Acking(false) else Returning)
    case Settle(d) => ApplySettle(cfg, s, d)
    case Expiry(c) =>
      var headers := Expire(s.copies[c].headers, cfg.requeueName);
      s.(copies := s.copies[c := s.copies[c].(loc := InTarget, headers := headers)])
  }

  function Exec(cfg: Config, s: State, steps: seq<Step>): Option<State>
    decreases |steps|
  {
    if steps == [] then Some(s)
    else
      match Exec(cfg, s, steps[..|steps| - 1])
      case None => None
      case Some(t) =>
        var step := steps[|steps| - 1];
        if Enabled(cfg, t, step) then Some(Apply(cfg, t, step)) else None
  }

  // ---- Copies and processes ----

  ghost predicate ProcPlaced(s: State, d: nat)
    requires d < |s.procs|
  {
    var p := s.procs[d];
    && p.copy < |s.copies|
    && s.copies[p.copy].loc != InRequeue
    && (p.live ==> s.copies[p.copy].loc == Unacked(d) && p.pc != Settled)
  }

  ghost predicate CopyPlaced(cfg: Config, s: State, i: nat)
    requires i < |s.copies|
  {
    var c := s.copies[i];
    && c.orig <= i && s.copies[c.orig].orig == c.orig
    && Expiries(c.headers, cfg.requeueName) >= 0
    && (c.loc.Unacked? ==> c.loc.d < |s.procs| && s.procs[c.loc.d].live && s.procs[c.loc.d].copy == i)
  }

  ghost predicate Placed(cfg: Config, s: State) {
    && (forall d :: 0 <= d < |s.procs| ==> ProcPlaced(s, d))
    && (forall i :: 0 <= i < |s.copies| ==> CopyPlaced(cfg, s, i))
  }

  lemma ArriveKeepsPlaced(cfg: Config, s: State, h: Headers)
    requires Placed(cfg, s) && Enabled(cfg, s, Arrive(h))
    ensures Placed(cfg, Apply(cfg, s, Arrive(h)))
  {
    var t := Apply(cfg, s, Arrive(h));
    forall i | 0 <= i < |t.copies| ensures CopyPlaced(cfg, t, i) {
      if i < |s.copies| {
        assert CopyPlaced(cfg, s, i);
      }
    }
    forall d | 0 <= d < |t.procs| ensures ProcPlaced(t, d) {
      assert ProcPlaced(s, d);
    }
  }

  lemma DeliverKeepsPlaced(cfg: Config, s: State, c: nat, k: nat)
    requires Placed(cfg, s) && Enabled(cfg, s, Deliver(c, k))
    ensures Placed(cfg, Apply(cfg, s, Deliver(c, k)))
  {
    var t := Apply(cfg, s, Deliver(c, k));
    forall i | 0 <= i < |t.copies| ensures CopyPlaced(cfg, t, i) {
      assert CopyPlaced(cfg, s, i);
    }
    forall d | 0 <= d < |t.procs| ensures ProcPlaced(t, d) {
      if d < |s.procs| {
        assert ProcPlaced(s, d);
      }
    }
  }

  /** Process `d` and its copy change place together; everything else stays. */
  ghost predicate OnlyMoves(s: State, t: State, d: nat)
    requires d < |s.procs| && s.procs[d].copy < |s.copies|
  {
    var c := s.procs[d].copy;
    && |t.procs| == |s.procs| && |t.copies| == |s.copies|
    && t.procs == s.procs[d := t.procs[d]] && t.procs[d].copy == c && t.procs[d].owner == s.procs[d].owner
    && t.copies == s.copies[c := s.copies[c].(loc := t.copies[c].loc)]
  }

  lemma MoveKeepsPlaced(cfg: Config, s: State, t: State, d: nat)
    requires Placed(cfg, s) && d < |s.procs| && s.procs[d].copy < |s.copies| && OnlyMoves(s, t, d)
    requires s.procs[d].live ==>
               var loc := t.copies[s.procs[d].copy].loc;
               if t.procs[d].live then loc == Unacked(d) && t.procs[d].pc != Settled
               else !loc.Unacked? && loc != InRequeue
    requires !s.procs[d].live ==> !t.procs[d].live && t.copies == s.copies
    ensures Placed(cfg, t)
  {
    assert ProcPlaced(s, d);
    forall i | 0 <= i < |t.copies| ensures CopyPlaced(cfg, t, i) {
      assert CopyPlaced(cfg, s, i);
    }
    forall e | 0 <= e < |t.procs| ensures ProcPlaced(t, e) {
      assert ProcPlaced(s, e);
    }
  }

  /** The steps that move one process. */
  predicate Moving(step: Step) {
    step.Lose? || step.Judge? || step.Filter? || step.Run? || step.Resume? || step.Settle?
  }

  lemma SettlingOnlyMoves(cfg: Config, s: State, step: Step)
    requires Placed(cfg, s) && Enabled(cfg, s, step) && (step.Lose? || step.Settle?)
    ensures ProcPlaced(s, step.d) && OnlyMoves(s, Apply(cfg, s, step), step.d)
    ensures Placed(cfg, Apply(cfg, s, step))
  {
    assert ProcPlaced(s, step.d);
    MoveKeepsPlaced(cfg, s, Apply(cfg, s, step), step.d);
  }

  lemma MovingStepOnlyMoves(cfg: Config, s: State, step: Step)
    requires Placed(cfg, s) && Enabled(cfg, s, step) && Moving(step)
    ensures ProcPlaced(s, step.d) && OnlyMoves(s, Apply(cfg, s, step), step.d)
    ensures Placed(cfg, Apply(cfg, s, step))
  {
    if step.Lose? || step.Settle? {
      SettlingOnlyMoves(cfg, s, step);
    } else {
      assert ProcPlaced(s, step.d);
      var t := Apply(cfg, s, step);
      assert t.copies == s.copies && t.procs == s.procs[step.d := s.procs[step.d].(pc := t.procs[step.d].pc)];
      MoveKeepsPlaced(cfg, s, t, step.d);
    }
  }

  lemma RequeuerKeepsPlaced(cfg: Config, s: State, st: Handshake.Step)
    requires Placed(cfg, s) && Enabled(cfg, s, Requeuer(st))
    requires forall r :: r in s.bodies ==> Expiries(s.bodies[r], cfg.requeueName) >= 0
    ensures Placed(cfg, Apply(cfg, s, Requeuer(st)))
  {
    var t := Apply(cfg, s, Requeuer(st));
    if st.Publish? && st.ok {
      assert CopyPlaced(cfg, s, s.procs[s.hs.responders[st.k].r].copy);
    }
    forall i | 0 <= i < |t.copies| ensures CopyPlaced(cfg, t, i) {
      if i < |s.copies| {
        assert CopyPlaced(cfg, s, i);
      }
    }
    forall e | 0 <= e < |t.procs| ensures ProcPlaced(t, e) {
      assert ProcPlaced(s, e);
    }
  }

  lemma ExpiryKeepsPlaced(cfg: Config, s: State, c: nat)
    requires Placed(cfg, s) && Enabled(cfg, s, Expiry(c))
    ensures Placed(cfg, Apply(cfg, s, Expiry(c)))
  {
    var t := Apply(cfg, s, Expiry(c));
    ExpireCountsUp(s.copies[c].headers, cfg.requeueName);
    forall i | 0 <= i < |t.copies| ensures CopyPlaced(cfg, t, i) {
      assert CopyPlaced(cfg, s, i);
    }
    forall e | 0 <= e < |t.procs| ensures ProcPlaced(t, e) {
      assert ProcPlaced(s, e);
    }
  }

  // ---- Requests ----

  ghost predicate RequestHolds(cfg: Config, s: State, d: nat)
    requires d < |s.procs|
  {
    var p := s.procs[d];
    && (d in s.hs.callers <==> d in s.bodies)
    && (d in s.copyOf <==> Handshake.Attempt(d, true) in s.hs.attempts)
    && (p.pc == Requesting || p.pc == Acking(false) ==> d in s.bodies)
    && (p.pc == Acking(false) ==> d in s.copyOf)
    && (d in s.bodies ==>
          && (p.pc == Requesting || p.pc == Acking(false) || p.pc == Returning || p.pc == Settled)
          && p.copy < |s.copies|
          && Expiries(s.bodies[d], cfg.requeueName) == Expiries(s.copies[p.copy].headers, cfg.requeueName))
  }

  ghost predicate Requested(cfg: Config, s: State) {
    && Handshake.Inv(s.hs)
    && (forall r :: r in s.hs.callers || r in s.bodies || r in s.copyOf ==> r < |s.procs|)
    && (forall d :: 0 <= d < |s.procs| ==> RequestHolds(cfg, s, d))
  }

  ghost predicate Sound(cfg: Config, s: State) {
    Placed(cfg, s) && Requested(cfg, s)
  }

  lemma DeliverKeepsRequested(cfg: Config, s: State, c: nat, k: nat)
    requires Requested(cfg, s) && Enabled(cfg, s, Deliver(c, k))
    ensures Requested(cfg, Apply(cfg, s, Deliver(c, k)))
  {
    var t := Apply(cfg, s, Deliver(c, k));
    forall d | 0 <= d < |t.procs| ensures RequestHolds(cfg, t, d) {
      if d < |s.procs| {
        assert RequestHolds(cfg, s, d);
      }
    }
  }

  /** What a handshake step other than a call may change. */
  lemma HandshakeStepFrame(hs: Handshake.State, st: Handshake.Step)
    requires Handshake.Enabled(hs, st) && !st.Call?
    ensures Handshake.Apply(hs, st).callers.Keys == hs.callers.Keys
    ensures Handshake.Apply(hs, st).attempts
            == hs.attempts + if st.Publish? then [Handshake.Attempt(hs.responders[st.k].r, st.ok)] else []
  {
  }

  lemma RequeuerKeepsRequested(cfg: Config, s: State, st: Handshake.Step)
    requires Requested(cfg, s) && Enabled(cfg, s, Requeuer(st))
    ensures Requested(cfg, Apply(cfg, s, Requeuer(st)))
  {
    hide Handshake.Apply, Handshake.Inv;
    var t := Apply(cfg, s, Requeuer(st));
    HandshakeStepFrame(s.hs, st);
    Handshake.StepKeepsInv(s.hs, st);
    forall d | 0 <= d < |t.procs| ensures RequestHolds(cfg, t, d) {
      assert RequestHolds(cfg, s, d);
      assert d in t.hs.callers.Keys <==> d in s.hs.callers.Keys;
    }
    forall r | r in t.hs.callers ensures r < |t.procs| {
      assert r in s.hs.callers.Keys;
    }
  }

  /** An accepted handshake publish always has its message: the guard of the step excludes nothing. */
  lemma PublishAlwaysFits(cfg: Config, s: State, k: nat, ok: bool)
    requires Placed(cfg, s) && Requested(cfg, s) && Handshake.Enabled(s.hs, Handshake.Publish(k, ok))
    ensures Enabled(cfg, s, Requeuer(Handshake.Publish(k, ok)))
  {
    assert Handshake.ResponderFits(s.hs, k, s.hs.responders[k]);
    var r := s.hs.responders[k].r;
    assert ProcPlaced(s, r) && RequestHolds(cfg, s, r);
  }

  lemma RunKeepsRequested(cfg: Config, s: State, d: nat, ok: bool, err: string, requeueSet: bool)
    requires Requested(cfg, s) && Enabled(cfg, s, Run(d, ok, err, requeueSet))
    ensures Requested(cfg, Apply(cfg, s, Run(d, ok, err, requeueSet)))
  {
    var t := Apply(cfg, s, Run(d, ok, err, requeueSet));
    assert RequestHolds(cfg, s, d);
    LastErrorKeepsDeaths(s.copies[s.procs[d].copy].headers, err, cfg.requeueName);
    if t.hs != s.hs {
      Handshake.StepKeepsInv(s.hs, Handshake.Call(d));
    }
    forall e | 0 <= e < |t.procs| ensures RequestHolds(cfg, t, e) {
      assert RequestHolds(cfg, s, e);
    }
  }

  lemma ResumeKeepsRequested(cfg: Config, s: State, d: nat)
    requires Requested(cfg, s) && Enabled(cfg, s, Resume(d))
    ensures Requested(cfg, Apply(cfg, s, Resume(d)))
  {
    var t := Apply(cfg, s, Resume(d));
    assert Handshake.PlaceHolds(s.hs, d);
    forall e | 0 <= e < |t.procs| ensures RequestHolds(cfg, t, e) {
      assert RequestHolds(cfg, s, e);
    }
  }

  lemma PlainMoveKeepsRequested(cfg: Config, s: State, t: State, d: nat)
    requires Requested(cfg, s) && Placed(cfg, s) && d < |s.procs| && s.procs[d].copy < |s.copies| && OnlyMoves(s, t, d)
    requires t.hs == s.hs && t.bodies == s.bodies && t.copyOf == s.copyOf
    requires t.procs[d].pc != s.procs[d].pc ==>
               t.procs[d].pc == Settled
               || ((s.procs[d].pc == Judging || s.procs[d].pc == Filtering)
                   && t.procs[d].pc != Requesting && !t.procs[d].pc.Acking?)
    ensures Requested(cfg, t)
  {
    forall e | 0 <= e < |t.procs| ensures RequestHolds(cfg, t, e) {
      assert RequestHolds(cfg, s, e) && ProcPlaced(s, e);
    }
  }

  lemma LoseKeepsRequested(cfg: Config, s: State, d: nat)
    requires Sound(cfg, s) && Enabled(cfg, s, Lose(d))
    ensures Requested(cfg, Apply(cfg, s, Lose(d)))
  {
    hide Requested;
    SettlingOnlyMoves(cfg, s, Lose(d));
    PlainMoveKeepsRequested(cfg, s, ApplyLose(s, d), d);
  }

  lemma SettleFrame(cfg: Config, s: State, d: nat)
    requires d < |s.procs| && s.procs[d].copy < |s.copies|
    ensures var t := ApplySettle(cfg, s, d);
            && t.hs == s.hs && t.bodies == s.bodies && t.copyOf == s.copyOf
            && d < |t.procs| && t.procs[d].pc == Settled
  {
    hide PutBack;
  }

  lemma SettleKeepsRequested(cfg: Config, s: State, d: nat)
    requires Sound(cfg, s) && Enabled(cfg, s, Settle(d))
    ensures Requested(cfg, Apply(cfg, s, Settle(d)))
  {
    hide Requested, ApplySettle;
    SettlingOnlyMoves(cfg, s, Settle(d));
    SettleFrame(cfg, s, d);
    PlainMoveKeepsRequested(cfg, s, ApplySettle(cfg, s, d), d);
  }

  lemma PolicyKeepsRequested(cfg: Config, s: State, step: Step)
    requires Sound(cfg, s) && Enabled(cfg, s, step) && (step.Judge? || step.Filter?)
    ensures Requested(cfg, Apply(cfg, s, step))
  {
    MovingStepOnlyMoves(cfg, s, step);
    PlainMoveKeepsRequested(cfg, s, Apply(cfg, s, step), step.d);
  }

  lemma BrokerStepKeepsRequested(cfg: Config, s: State, step: Step)
    requires Requested(cfg, s) && Placed(cfg, s) && Enabled(cfg, s, step) && (step.Arrive? || step.Expiry?)
    ensures Requested(cfg, Apply(cfg, s, step))
  {
    var t := Apply(cfg, s, step);
    forall e | 0 <= e < |t.procs| ensures RequestHolds(cfg, t, e) {
      assert RequestHolds(cfg, s, e) && ProcPlaced(s, e);
    }
  }

  /** Requests carry headers with a death count the broker could have made. */
  lemma BodiesCounted(cfg: Config, s: State)
    requires Placed(cfg, s) && Requested(cfg, s)
    ensures forall r :: r in s.bodies ==> Expiries(s.bodies[r], cfg.requeueName) >= 0
  {
    forall r | r in s.bodies ensures Expiries(s.bodies[r], cfg.requeueName) >= 0 {
      assert RequestHolds(cfg, s, r) && CopyPlaced(cfg, s, s.procs[r].copy);
    }
  }

  lemma StepKeepsSound(cfg: Config, s: State, step: Step)
    requires Sound(cfg, s) && Enabled(cfg, s, step)
    ensures Sound(cfg, Apply(cfg, s, step))
  {
    match step
    case Arrive(h) =>
      ArriveKeepsPlaced(cfg, s, h);
      BrokerStepKeepsRequested(cfg, s, step);
    case Deliver(c, k) =>
      DeliverKeepsPlaced(cfg, s, c, k);
      DeliverKeepsRequested(cfg, s, c, k);
    case Requeuer(st) =>
      BodiesCounted(cfg, s);
      RequeuerKeepsPlaced(cfg, s, st);
      RequeuerKeepsRequested(cfg, s, st);
    case Expiry(c) =>
      ExpiryKeepsPlaced(cfg, s, c);
      BrokerStepKeepsRequested(cfg, s, step);
    case Run(d, ok, err, requeueSet) =>
      MovingStepOnlyMoves(cfg, s, step);
      RunKeepsRequested(cfg, s, d, ok, err, requeueSet);
    case Resume(d) =>
      MovingStepOnlyMoves(cfg, s, step);
      ResumeKeepsRequested(cfg, s, d);
    case Lose(d) =>
      MovingStepOnlyMoves(cfg, s, step);
      LoseKeepsRequested(cfg, s, d);
    case Settle(d) =>
      MovingStepOnlyMoves(cfg, s, step);
      SettleKeepsRequested(cfg, s, d);
    case _ =>
      MovingStepOnlyMoves(cfg, s, step);
      PolicyKeepsRequested(cfg, s, step);
  }
}
