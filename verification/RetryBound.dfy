/** The second law of the delivery cycle, over every run: how often `fn` can be called for a message.

    Every copy carries as many calls of `fn` as its headers still allow; a call uses one up, and only
    a fork, a Nack with requeue or a lost connection creates new ones. */
module RetryBound {
  import opened Headers
  import opened Weights
  import opened Delivery
  import opened Conservation
  import Handshake

  /** The policy the bound is about: a limit, and no expiry handler that lets messages through. */
  predicate Limited(cfg: Config) {
    cfg.limit >= 0 && !cfg.expired.Decides?
  }

  /** Expiries left before the limit. */
  function Left(cfg: Config, h: Headers): nat {
    var n := Expiries(h, cfg.requeueName);
    if n < cfg.limit then cfg.limit - n else 0
  }

  /** Calls of `fn` a copy in the target queue still allows. */
  function Fresh(cfg: Config, h: Headers): nat {
    if Redelivery(h) <= cfg.limit then 1 + Left(cfg, h) else 0
  }

  function PcCalls(cfg: Config, pc: Pc, replaced: bool, h: Headers): nat {
    match pc
    case Judging => Fresh(cfg, h)
    case Rejecting => Fresh(cfg, h)
    case Filtering => 1 + Left(cfg, h)
    case Handling => 1 + Left(cfg, h)
    case Requesting => if replaced then 0 else Left(cfg, h)
    case Returning => if replaced then 0 else Left(cfg, h)
    case Acking(byFn) => if byFn then Left(cfg, h) else 0
    case Settled => 0
  }

  function Calls(cfg: Config, s: State, o: nat, i: nat): nat
    requires i < |s.copies|
  {
    var c := s.copies[i];
    if c.orig != o then 0
    else
      match c.loc
      case InTarget => Fresh(cfg, c.headers)
      case Unacked(d) => if d < |s.procs| then PcCalls(cfg, s.procs[d].pc, d in s.copyOf, c.headers) else 0
      case InRequeue => Left(cfg, c.headers)
      case _ => 0
  }

  /** A process that lost its connection before it called `fn` may still call it. */
  function Stray(s: State, o: nat, d: nat): nat
    requires d < |s.procs|
  {
    var p := s.procs[d];
    if !p.live && p.copy < |s.copies| && s.copies[p.copy].orig == o
       && (p.pc == Judging || p.pc == Filtering || p.pc == Handling) then 1 else 0
  }

  function AllCalls(cfg: Config, s: State, o: nat): seq<nat> {
    seq(|s.copies|, i requires 0 <= i < |s.copies| => Calls(cfg, s, o, i))
  }

  function Strays(s: State, o: nat): seq<nat> {
    seq(|s.procs|, d requires 0 <= d < |s.procs| => Stray(s, o, d))
  }

  function Attempts(s: State, o: nat): nat {
    s.events[Ran(o, true)] + s.events[Ran(o, false)]
  }

  function Allowance(cfg: Config, s: State, o: nat): nat
    requires cfg.limit >= 0
  {
    (if Arrived(s, o) then cfg.limit + 1 else 0)
    + cfg.limit * s.events[Forked(o)] + s.events[Returned(o)] + s.events[Lost(o)]
  }

  ghost predicate BoundedFor(cfg: Config, s: State, o: nat)
    requires cfg.limit >= 0
  {
    Attempts(s, o) + Sum(AllCalls(cfg, s, o)) + Sum(Strays(s, o)) <= Allowance(cfg, s, o)
  }

  // ---- How the sums move ----

  lemma {:induction false} CallsMoveAt(cfg: Config, s: State, t: State, o: nat, c: nat)
    requires |t.copies| == |s.copies| && c < |s.copies|
    requires forall i :: 0 <= i < |s.copies| && i != c ==> Calls(cfg, t, o, i) == Calls(cfg, s, o, i)
    ensures Sum(AllCalls(cfg, t, o)) + Calls(cfg, s, o, c) == Sum(AllCalls(cfg, s, o)) + Calls(cfg, t, o, c)
  {
    assert AllCalls(cfg, t, o) == AllCalls(cfg, s, o)[c := Calls(cfg, t, o, c)];
    SumOfUpdated(AllCalls(cfg, s, o), c, Calls(cfg, t, o, c));
  }

  lemma {:induction false} CallsOfNewCopy(cfg: Config, s: State, t: State, o: nat)
    requires |t.copies| == |s.copies| + 1
    requires forall i :: 0 <= i < |s.copies| ==> Calls(cfg, t, o, i) == Calls(cfg, s, o, i)
    ensures Sum(AllCalls(cfg, t, o)) == Sum(AllCalls(cfg, s, o)) + Calls(cfg, t, o, |s.copies|)
  {
    assert AllCalls(cfg, t, o) == AllCalls(cfg, s, o) + [Calls(cfg, t, o, |s.copies|)];
    SumOfLonger(AllCalls(cfg, s, o), Calls(cfg, t, o, |s.copies|));
  }

  lemma {:induction false} StraysMoveAt(s: State, t: State, o: nat, d: nat)
    requires |t.procs| == |s.procs| && d < |s.procs|
    requires forall e :: 0 <= e < |s.procs| && e != d ==> Stray(t, o, e) == Stray(s, o, e)
    ensures Sum(Strays(t, o)) + Stray(s, o, d) == Sum(Strays(s, o)) + Stray(t, o, d)
  {
    assert Strays(t, o) == Strays(s, o)[d := Stray(t, o, d)];
    SumOfUpdated(Strays(s, o), d, Stray(t, o, d));
  }

  /** A move of process `d` changes the calls of its copy and its own stray call, nothing else. */
  lemma {:induction false} MoveShifts(cfg: Config, s: State, t: State, o: nat, d: nat)
    requires Sound(cfg, s) && d < |s.procs| && ProcPlaced(s, d) && OnlyMoves(s, t, d) && t.copyOf == s.copyOf
    ensures var c := s.procs[d].copy;
            && Sum(AllCalls(cfg, t, o)) + Calls(cfg, s, o, c) == Sum(AllCalls(cfg, s, o)) + Calls(cfg, t, o, c)
            && Sum(Strays(t, o)) + Stray(s, o, d) == Sum(Strays(s, o)) + Stray(t, o, d)
            && Arrived(t, o) == Arrived(s, o)
  {
    var c := s.procs[d].copy;
    forall i | 0 <= i < |s.copies| && i != c ensures Calls(cfg, t, o, i) == Calls(cfg, s, o, i) {
      assert CopyPlaced(cfg, s, i);
    }
    CallsMoveAt(cfg, s, t, o, c);
    StraysMoveAt(s, t, o, d);
  }

  // ---- Preservation ----

  lemma ArriveBounded(cfg: Config, s: State, h: Headers, o: nat)
    requires Limited(cfg) && Sound(cfg, s) && BoundedFor(cfg, s, o) && Enabled(cfg, s, Arrive(h))
    ensures BoundedFor(cfg, Apply(cfg, s, Arrive(h)), o)
  {
    var t := Apply(cfg, s, Arrive(h));
    CallsOfNewCopy(cfg, s, t, o);
    forall d | 0 <= d < |s.procs| ensures Stray(t, o, d) == Stray(s, o, d) {
      assert ProcPlaced(s, d);
    }
    assert Strays(t, o) == Strays(s, o);
  }

  lemma DeliverBounded(cfg: Config, s: State, c: nat, k: nat, o: nat)
    requires Limited(cfg) && Sound(cfg, s) && BoundedFor(cfg, s, o) && Enabled(cfg, s, Deliver(c, k))
    ensures BoundedFor(cfg, Apply(cfg, s, Deliver(c, k)), o)
  {
    var t := Apply(cfg, s, Deliver(c, k));
    forall i | 0 <= i < |s.copies| && i != c ensures Calls(cfg, t, o, i) == Calls(cfg, s, o, i) {
      assert CopyPlaced(cfg, s, i);
    }
    assert |s.procs| !in s.copyOf;
    CallsMoveAt(cfg, s, t, o, c);
    assert Strays(t, o) == Strays(s, o) + [0];
    SumOfLonger(Strays(s, o), 0);
  }

  /** An expiry uses up one expiry, and allows the call that follows it. */
  lemma ExpiredCopyAllows(cfg: Config, h: Headers)
    requires Limited(cfg) && Expiries(h, cfg.requeueName) >= 0
    ensures Fresh(cfg, Expire(h, cfg.requeueName)) <= Left(cfg, h)
  {
    ExpireCountsUp(h, cfg.requeueName);
  }

  lemma ExpiryBounded(cfg: Config, s: State, c: nat, o: nat)
    requires Limited(cfg) && Sound(cfg, s) && BoundedFor(cfg, s, o) && Enabled(cfg, s, Expiry(c))
    ensures BoundedFor(cfg, Apply(cfg, s, Expiry(c)), o)
  {
    var t := Apply(cfg, s, Expiry(c));
    assert CopyPlaced(cfg, s, c);
    ExpiredCopyAllows(cfg, s.copies[c].headers);
    assert Calls(cfg, t, o, c) <= Calls(cfg, s, o, c);
    CallsMoveAt(cfg, s, t, o, c);
    assert Strays(t, o) == Strays(s, o);
    assert Allowance(cfg, t, o) == Allowance(cfg, s, o);
  }

  /** The policy lets a message through only within the limit. */
  lemma KeptIsWithinLimit(cfg: Config, retries: int, tooMuchAnswer: bool, expiredAnswer: bool)
    requires Limited(cfg) && Keep(cfg, retries, tooMuchAnswer, expiredAnswer)
    ensures retries <= cfg.limit
  {
  }

  /** What a move of process `d` adds on the left of the bound it must find on the right. */
  ghost predicate PaysItsWay(cfg: Config, s: State, t: State, o: nat, d: nat)
    requires cfg.limit >= 0 && d < |s.procs| && s.procs[d].copy < |s.copies|
    requires |t.copies| == |s.copies| && |t.procs| == |s.procs|
  {
    var c := s.procs[d].copy;
    Attempts(t, o) + Calls(cfg, t, o, c) + Stray(t, o, d) + Allowance(cfg, s, o)
    <= Attempts(s, o) + Calls(cfg, s, o, c) + Stray(s, o, d) + Allowance(cfg, t, o)
  }

  lemma PayingKeepsBounded(cfg: Config, s: State, t: State, o: nat, d: nat)
    requires Limited(cfg) && Sound(cfg, s) && BoundedFor(cfg, s, o)
    requires d < |s.procs| && ProcPlaced(s, d) && OnlyMoves(s, t, d) && t.copyOf == s.copyOf
    requires PaysItsWay(cfg, s, t, o, d)
    ensures BoundedFor(cfg, t, o)
  {
    MoveShifts(cfg, s, t, o, d);
  }

  /** A process that only changes its position. */
  lemma ThoughtPays(cfg: Config, s: State, t: State, o: nat, d: nat)
    requires Limited(cfg) && Sound(cfg, s) && d < |s.procs| && ProcPlaced(s, d)
    requires t.copies == s.copies && t.copyOf == s.copyOf && |t.procs| == |s.procs|
    requires t.procs == s.procs[d := s.procs[d].(pc := t.procs[d].pc)]
    requires t.events[Forked(o)] == s.events[Forked(o)] && t.events[Returned(o)] == s.events[Returned(o)]
    requires t.events[Lost(o)] == s.events[Lost(o)]
    requires Attempts(t, o) == Attempts(s, o) + if s.procs[d].pc == Handling && OrigOf(s, d) == o then 1 else 0
    requires var h := s.copies[s.procs[d].copy].headers;
             match s.procs[d].pc
             case Judging => t.procs[d].pc == Rejecting || (t.procs[d].pc == Filtering && Redelivery(h) <= cfg.limit)
             case Filtering => t.procs[d].pc == Rejecting || t.procs[d].pc == Handling
             case Handling => t.procs[d].pc == Acking(true) || t.procs[d].pc == Requesting || t.procs[d].pc == Returning
             case Requesting => t.procs[d].pc == Returning || (t.procs[d].pc == Acking(false) && d in s.copyOf)
             case _ => false
    ensures PaysItsWay(cfg, s, t, o, d)
  {
    assert Arrived(t, o) == Arrived(s, o);
  }

  lemma JudgePays(cfg: Config, s: State, d: nat, tm: bool, ex: bool, o: nat)
    requires Limited(cfg) && Sound(cfg, s) && Enabled(cfg, s, Judge(d, tm, ex)) && ProcPlaced(s, d)
    ensures PaysItsWay(cfg, s, Apply(cfg, s, Judge(d, tm, ex)), o, d)
  {
    if Keep(cfg, Redelivery(s.copies[s.procs[d].copy].headers), tm, ex) {
      KeptIsWithinLimit(cfg, Redelivery(s.copies[s.procs[d].copy].headers), tm, ex);
    }
    ThoughtPays(cfg, s, Apply(cfg, s, Judge(d, tm, ex)), o, d);
  }

  lemma FilterPays(cfg: Config, s: State, d: nat, pass: bool, o: nat)
    requires Limited(cfg) && Sound(cfg, s) && Enabled(cfg, s, Filter(d, pass)) && ProcPlaced(s, d)
    ensures PaysItsWay(cfg, s, Apply(cfg, s, Filter(d, pass)), o, d)
  {
    ThoughtPays(cfg, s, Apply(cfg, s, Filter(d, pass)), o, d);
  }

  /** A call of `fn` uses up one of the calls its process stands for. */
  lemma RunPays(cfg: Config, s: State, d: nat, ok: bool, err: string, requeueSet: bool, o: nat)
    requires Limited(cfg) && Sound(cfg, s) && Enabled(cfg, s, Run(d, ok, err, requeueSet)) && ProcPlaced(s, d)
    ensures PaysItsWay(cfg, s, Apply(cfg, s, Run(d, ok, err, requeueSet)), o, d)
  {
    ThoughtPays(cfg, s, Apply(cfg, s, Run(d, ok, err, requeueSet)), o, d);
  }

  lemma ThinkingBounded(cfg: Config, s: State, step: Step, o: nat)
    requires Limited(cfg) && Sound(cfg, s) && BoundedFor(cfg, s, o) && Enabled(cfg, s, step)
    requires step.Judge? || step.Filter? || step.Run?
    ensures BoundedFor(cfg, Apply(cfg, s, step), o)
  {
    hide PaysItsWay, BoundedFor;
    MovingStepOnlyMoves(cfg, s, step);
    match step {
      case Judge(d, tm, ex) => JudgePays(cfg, s, d, tm, ex, o);
      case Filter(d, pass) => FilterPays(cfg, s, d, pass, o);
      case Run(d, ok, err, requeueSet) => RunPays(cfg, s, d, ok, err, requeueSet, o);
    }
    PayingKeepsBounded(cfg, s, Apply(cfg, s, step), o, step.d);
  }

  lemma ResumeBounded(cfg: Config, s: State, d: nat, o: nat)
    requires Limited(cfg) && Sound(cfg, s) && BoundedFor(cfg, s, o) && Enabled(cfg, s, Resume(d))
    ensures BoundedFor(cfg, Apply(cfg, s, Resume(d)), o)
  {
    var t := Apply(cfg, s, Resume(d));
    MovingStepOnlyMoves(cfg, s, Resume(d));
    StepKeepsSound(cfg, s, Resume(d));
    assert RequestHolds(cfg, t, d);
    ThoughtPays(cfg, s, t, o, d);
    PayingKeepsBounded(cfg, s, t, o, d);
  }

  lemma OneMoreFork(l: nat, forks: nat)
    ensures l * (forks + 1) == l * forks + l
  {
  }

  /** Putting a copy back costs one call, and those of a whole cycle if it forks. */
  lemma PutBackBounded(cfg: Config, s: State, d: nat)
    requires Limited(cfg) && Sound(cfg, s) && d < |s.procs| && s.procs[d].live
    ensures ProcPlaced(s, d)
    ensures var c := s.procs[d].copy;
            Fresh(cfg, s.copies[c].headers)
            <= Calls(cfg, s, OrigOf(s, d), c) + 1 + if d in s.copyOf then cfg.limit else 0
  {
    assert ProcPlaced(s, d) && CopyPlaced(cfg, s, s.procs[d].copy) && RequestHolds(cfg, s, d);
    if d in s.copyOf {
      assert Handshake.Attempt(d, true) in s.hs.attempts;
    }
  }

  lemma LosePays(cfg: Config, s: State, d: nat, o: nat)
    requires Limited(cfg) && Sound(cfg, s) && Enabled(cfg, s, Lose(d))
    ensures ProcPlaced(s, d) && PaysItsWay(cfg, s, Apply(cfg, s, Lose(d)), o, d)
  {
    PutBackBounded(cfg, s, d);
    OneMoreFork(cfg.limit, s.events[Forked(o)]);
  }

  lemma LoseBounded(cfg: Config, s: State, d: nat, o: nat)
    requires Limited(cfg) && Sound(cfg, s) && BoundedFor(cfg, s, o) && Enabled(cfg, s, Lose(d))
    ensures BoundedFor(cfg, Apply(cfg, s, Lose(d)), o)
  {
    SettlingOnlyMoves(cfg, s, Lose(d));
    LosePays(cfg, s, d, o);
    PayingKeepsBounded(cfg, s, Apply(cfg, s, Lose(d)), o, d);
  }

  /** A Nack with requeue puts the copy back. */
  lemma ReturnPays(cfg: Config, s: State, d: nat, o: nat)
    requires Limited(cfg) && Sound(cfg, s) && Enabled(cfg, s, Settle(d)) && s.procs[d].live
    requires s.procs[d].pc == Returning
    ensures ProcPlaced(s, d) && PaysItsWay(cfg, s, Apply(cfg, s, Settle(d)), o, d)
  {
    hide Sound, PcCalls;
    LiveSettlement(cfg, s, d);
    PutBackBounded(cfg, s, d);
    OneMoreFork(cfg.limit, s.events[Forked(o)]);
  }

  /** The other settlements end the copy. */
  lemma EndPays(cfg: Config, s: State, d: nat, o: nat)
    requires Limited(cfg) && Sound(cfg, s) && Enabled(cfg, s, Settle(d)) && s.procs[d].live
    requires s.procs[d].pc != Returning
    ensures ProcPlaced(s, d) && PaysItsWay(cfg, s, Apply(cfg, s, Settle(d)), o, d)
  {
    hide Sound, PcCalls;
    LiveSettlement(cfg, s, d);
  }

  lemma SettlePays(cfg: Config, s: State, d: nat, o: nat)
    requires Limited(cfg) && Sound(cfg, s) && Enabled(cfg, s, Settle(d)) && s.procs[d].live
    ensures ProcPlaced(s, d) && PaysItsWay(cfg, s, Apply(cfg, s, Settle(d)), o, d)
  {
    hide Sound, PaysItsWay;
    if s.procs[d].pc == Returning {
      ReturnPays(cfg, s, d, o);
    } else {
      EndPays(cfg, s, d, o);
    }
  }

  lemma LiveSettleBounded(cfg: Config, s: State, d: nat, o: nat)
    requires Limited(cfg) && Sound(cfg, s) && BoundedFor(cfg, s, o) && Enabled(cfg, s, Settle(d)) && s.procs[d].live
    ensures BoundedFor(cfg, Apply(cfg, s, Settle(d)), o)
  {
    SettlingOnlyMoves(cfg, s, Settle(d));
    SettlePays(cfg, s, d, o);
    PayingKeepsBounded(cfg, s, Apply(cfg, s, Settle(d)), o, d);
  }

  /** A settlement without a connection changes nothing that counts. */
  lemma StraySettleBounded(cfg: Config, s: State, d: nat, o: nat)
    requires Limited(cfg) && Sound(cfg, s) && BoundedFor(cfg, s, o) && Enabled(cfg, s, Settle(d)) && !s.procs[d].live
    ensures BoundedFor(cfg, Apply(cfg, s, Settle(d)), o)
  {
    var t := Apply(cfg, s, Settle(d));
    SettlingOnlyMoves(cfg, s, Settle(d));
    assert t.copies == s.copies && t.events == s.events;
    assert CopyPlaced(cfg, s, s.procs[d].copy);
    PayingKeepsBounded(cfg, s, t, o, d);
  }

  lemma SettleBounded(cfg: Config, s: State, d: nat, o: nat)
    requires Limited(cfg) && Sound(cfg, s) && BoundedFor(cfg, s, o) && Enabled(cfg, s, Settle(d))
    ensures BoundedFor(cfg, Apply(cfg, s, Settle(d)), o)
  {
    if s.procs[d].live {
      LiveSettleBounded(cfg, s, d, o);
    } else {
      StraySettleBounded(cfg, s, d, o);
    }
  }

  /** The copy made by request `r` takes over the calls left to a live process; from any other process
      it is a fork and brings at most a cycle's worth. */
  lemma {:induction false} AcceptanceShifts(cfg: Config, s: State, r: nat, n: nat, o: nat)
    requires Limited(cfg) && Sound(cfg, s) && r < |s.procs| && r !in s.copyOf && r in s.bodies
    ensures ProcPlaced(s, r)
    ensures var u := s.(copyOf := s.copyOf[r := n]);
            Sum(AllCalls(cfg, u, o))
            + (if s.procs[r].live && OrigOf(s, r) == o then Left(cfg, s.bodies[r]) else 0)
            <= Sum(AllCalls(cfg, s, o))
  {
    var u := s.(copyOf := s.copyOf[r := n]);
    var c := s.procs[r].copy;
    assert ProcPlaced(s, r) && RequestHolds(cfg, s, r);
    forall i | 0 <= i < |s.copies| && i != c ensures Calls(cfg, u, o, i) == Calls(cfg, s, o, i) {
      assert CopyPlaced(cfg, s, i);
    }
    CallsMoveAt(cfg, s, u, o, c);
    assert CopyPlaced(cfg, s, c);
  }

  /** `t` is `s` after the broker accepted the message of request `r`. */
  ghost predicate Accepts(s: State, t: State, r: nat)
    requires r < |s.procs| && s.procs[r].copy < |s.copies| && r in s.bodies
  {
    && t.procs == s.procs && t.copyOf == s.copyOf[r := |s.copies|]
    && t.copies == s.copies + [Copy(OrigOf(s, r), s.bodies[r], InRequeue)]
    && t.events == s.events + if s.procs[r].live then multiset{} else multiset{Forked(OrigOf(s, r))}
  }

  /** The calls left before and after an accepted publish. */
  lemma {:induction false} AcceptanceAddsCalls(cfg: Config, s: State, t: State, r: nat, o: nat)
    requires Limited(cfg) && Sound(cfg, s) && r < |s.procs| && r in s.bodies && r !in s.copyOf
    requires s.procs[r].copy < |s.copies| && Accepts(s, t, r)
    ensures Sum(AllCalls(cfg, t, o))
            <= Sum(AllCalls(cfg, s, o)) + if !s.procs[r].live && OrigOf(s, r) == o then cfg.limit else 0
  {
    AcceptanceShifts(cfg, s, r, |s.copies|, o);
    CallsOfNewCopy(cfg, s.(copyOf := t.copyOf), t, o);
    BodiesCounted(cfg, s);
  }

  lemma SameStrays(cfg: Config, s: State, t: State, o: nat)
    requires Sound(cfg, s) && t.procs == s.procs && |s.copies| <= |t.copies|
    requires forall i :: 0 <= i < |s.copies| ==> t.copies[i].orig == s.copies[i].orig
    ensures Strays(t, o) == Strays(s, o)
  {
    forall d | 0 <= d < |s.procs| ensures Stray(t, o, d) == Stray(s, o, d) {
      assert ProcPlaced(s, d);
    }
  }

  lemma AcceptanceBounded(cfg: Config, s: State, t: State, r: nat, o: nat)
    requires Limited(cfg) && Sound(cfg, s) && r < |s.procs| && r in s.bodies && r !in s.copyOf
    requires s.procs[r].copy < |s.copies| && Accepts(s, t, r) && BoundedFor(cfg, s, o)
    ensures BoundedFor(cfg, t, o)
  {
    AcceptanceAddsCalls(cfg, s, t, r, o);
    SameStrays(cfg, s, t, o);
    assert CopyPlaced(cfg, s, s.procs[r].copy);
    assert Arrived(t, o) == Arrived(s, o) && Attempts(t, o) == Attempts(s, o);
    OneMoreFork(cfg.limit, s.events[Forked(o)]);
  }

  lemma PublishBounded(cfg: Config, s: State, k: nat, o: nat)
    requires Limited(cfg) && Sound(cfg, s) && BoundedFor(cfg, s, o)
    requires Enabled(cfg, s, Requeuer(Handshake.Publish(k, true)))
    ensures BoundedFor(cfg, Apply(cfg, s, Requeuer(Handshake.Publish(k, true))), o)
  {
    FirstPublish(cfg, s, k);
    AcceptanceBounded(cfg, s, Apply(cfg, s, Requeuer(Handshake.Publish(k, true))), s.hs.responders[k].r, o);
  }

  lemma RequeuerBounded(cfg: Config, s: State, st: Handshake.Step, o: nat)
    requires Limited(cfg) && Sound(cfg, s) && BoundedFor(cfg, s, o) && Enabled(cfg, s, Requeuer(st))
    ensures BoundedFor(cfg, Apply(cfg, s, Requeuer(st)), o)
  {
    if st.Publish? && st.ok {
      PublishBounded(cfg, s, st.k, o);
    } else {
      var t := Apply(cfg, s, Requeuer(st));
      assert AllCalls(cfg, t, o) == AllCalls(cfg, s, o) && Strays(t, o) == Strays(s, o);
    }
  }

  lemma StepBounded(cfg: Config, s: State, step: Step, o: nat)
    requires Limited(cfg) && Sound(cfg, s) && BoundedFor(cfg, s, o) && Enabled(cfg, s, step)
    ensures BoundedFor(cfg, Apply(cfg, s, step), o)
  {
    match step
    case Arrive(h) => ArriveBounded(cfg, s, h, o);
    case Deliver(c, k) => DeliverBounded(cfg, s, c, k, o);
    case Expiry(c) => ExpiryBounded(cfg, s, c, o);
    case Requeuer(st) => RequeuerBounded(cfg, s, st, o);
    case Lose(d) => LoseBounded(cfg, s, d, o);
    case Settle(d) => SettleBounded(cfg, s, d, o);
    case Resume(d) => ResumeBounded(cfg, s, d, o);
    case _ => ThinkingBounded(cfg, s, step, o);
  }

  lemma {:induction false} RunBoundedFor(cfg: Config, steps: seq<Step>, o: nat)
    requires Limited(cfg) && Exec(cfg, INIT, steps).Some?
    ensures BoundedFor(cfg, Exec(cfg, INIT, steps).value, o)
    decreases |steps|
  {
    if steps == [] {
      assert AllCalls(cfg, INIT, o) == [] && Strays(INIT, o) == [];
    } else {
      var front := steps[..|steps| - 1];
      RunBoundedFor(cfg, front, o);
      Conservation.RunKeepsInv(cfg, front);
      StepBounded(cfg, Exec(cfg, INIT, front).value, steps[|steps| - 1], o);
    }
  }

  /** With a limit L and no expiry handler that lets messages through, `fn` is called at most L + 1
      times for a message, once more for every Nack with requeue and every lost connection, and L more
      times for every fork; whatever headers the message arrived with. */
  lemma {:induction false} AttemptsAreBounded(cfg: Config, steps: seq<Step>, o: nat)
    requires Limited(cfg) && Exec(cfg, INIT, steps).Some?
    ensures var s := Exec(cfg, INIT, steps).value;
            Attempts(s, o)
            <= cfg.limit + 1 + cfg.limit * s.events[Forked(o)] + s.events[Returned(o)] + s.events[Lost(o)]
  {
    RunBoundedFor(cfg, steps, o);
  }

  /** The bound as the documentation of `Retries` suggests it: nothing went wrong on the way. */
  lemma {:induction false} UndisturbedAttempts(cfg: Config, steps: seq<Step>, o: nat)
    requires Limited(cfg) && Exec(cfg, INIT, steps).Some?
    requires var e := Exec(cfg, INIT, steps).value.events; e[Forked(o)] == e[Returned(o)] == e[Lost(o)] == 0
    ensures Attempts(Exec(cfg, INIT, steps).value, o) <= cfg.limit + 1
  {
    RunBoundedFor(cfg, steps, o);
  }
}
