/** The first law of the delivery cycle, over every run: copies are conserved. */
module Conservation {
  import opened Headers
  import opened Weights
  import opened Delivery
  import Handshake

  predicate Arrived(s: State, o: nat) {
    o < |s.copies| && s.copies[o].orig == o
  }

  // ---- Conservation of copies ----

  /** 1 for a copy that stands for its message: waiting somewhere, being processed with no requeued
      copy in its place, or at its end; 0 for one that a requeued copy has replaced. */
  function Stake(s: State, o: nat, i: nat): nat
    requires i < |s.copies|
  {
    var c := s.copies[i];
    if c.orig != o || c.loc == Superseded || (c.loc.Unacked? && c.loc.d in s.copyOf) then 0 else 1
  }

  function Stakes(s: State, o: nat): seq<nat> {
    seq(|s.copies|, i requires 0 <= i < |s.copies| => Stake(s, o, i))
  }

  ghost predicate ConservedFor(s: State, o: nat) {
    Sum(Stakes(s, o)) == s.events[Forked(o)] + if Arrived(s, o) then 1 else 0
  }

  ghost predicate Conserved(s: State) {
    forall o: nat :: ConservedFor(s, o)
  }

  /** Only copy `c` changed its stake. */
  lemma {:induction false} StakeMovesAt(s: State, t: State, o: nat, c: nat)
    requires |t.copies| == |s.copies| && c < |s.copies|
    requires forall i :: 0 <= i < |s.copies| && i != c ==> Stake(t, o, i) == Stake(s, o, i)
    ensures Sum(Stakes(t, o)) + Stake(s, o, c) == Sum(Stakes(s, o)) + Stake(t, o, c)
  {
    assert Stakes(t, o) == Stakes(s, o)[c := Stake(t, o, c)];
    SumOfUpdated(Stakes(s, o), c, Stake(t, o, c));
  }

  lemma {:induction false} StakeOfNewCopy(s: State, t: State, o: nat)
    requires |t.copies| == |s.copies| + 1
    requires forall i :: 0 <= i < |s.copies| ==> Stake(t, o, i) == Stake(s, o, i)
    ensures Sum(Stakes(t, o)) == Sum(Stakes(s, o)) + Stake(t, o, |s.copies|)
  {
    assert Stakes(t, o) == Stakes(s, o) + [Stake(t, o, |s.copies|)];
    SumOfLonger(Stakes(s, o), Stake(t, o, |s.copies|));
  }

  lemma ArriveConserves(cfg: Config, s: State, h: Headers)
    requires Sound(cfg, s) && Conserved(s) && Enabled(cfg, s, Arrive(h))
    ensures Conserved(Apply(cfg, s, Arrive(h)))
  {
    var t := Apply(cfg, s, Arrive(h));
    forall o: nat ensures ConservedFor(t, o) {
      assert ConservedFor(s, o);
      StakeOfNewCopy(s, t, o);
    }
  }

  /** Delivery and expiry move a copy that keeps its stake. */
  lemma BrokerConserves(cfg: Config, s: State, step: Step)
    requires Sound(cfg, s) && Conserved(s) && Enabled(cfg, s, step) && (step.Deliver? || step.Expiry?)
    ensures Conserved(Apply(cfg, s, step))
  {
    var t := Apply(cfg, s, step);
    forall o: nat ensures ConservedFor(t, o) {
      assert ConservedFor(s, o);
      StakeMovesAt(s, t, o, step.c);
    }
  }

  /** Steps that leave copies and their replacements alone. */
  lemma ThinkingConserves(cfg: Config, s: State, step: Step, o: nat)
    requires ConservedFor(s, o) && Enabled(cfg, s, step)
    requires step.Judge? || step.Filter? || step.Run? || step.Resume?
    ensures ConservedFor(Apply(cfg, s, step), o)
  {
    var t := Apply(cfg, s, step);
    assert t.copies == s.copies && t.copyOf == s.copyOf && t.events[Forked(o)] == s.events[Forked(o)];
    assert Stakes(t, o) == Stakes(s, o);
  }

  /** Moving one copy out of the hands of process `d` changes one stake. */
  lemma {:induction false} OneStakeMoves(cfg: Config, s: State, t: State, o: nat, d: nat)
    requires Sound(cfg, s) && d < |s.procs| && ProcPlaced(s, d) && OnlyMoves(s, t, d) && t.copyOf == s.copyOf
    ensures var c := s.procs[d].copy;
            Sum(Stakes(t, o)) + Stake(s, o, c) == Sum(Stakes(s, o)) + Stake(t, o, c)
    ensures Arrived(t, o) == Arrived(s, o)
  {
    StakeMovesAt(s, t, o, s.procs[d].copy);
  }

  lemma LoseConserves(cfg: Config, s: State, d: nat, o: nat)
    requires Sound(cfg, s) && ConservedFor(s, o) && Enabled(cfg, s, Lose(d))
    ensures ConservedFor(Apply(cfg, s, Lose(d)), o)
  {
    SettlingOnlyMoves(cfg, s, Lose(d));
    OneStakeMoves(cfg, s, Apply(cfg, s, Lose(d)), o, d);
  }

  /** A settlement over a live connection frees exactly the stake of its copy. */
  lemma LiveSettlement(cfg: Config, s: State, d: nat)
    requires Sound(cfg, s) && Enabled(cfg, s, Settle(d)) && s.procs[d].live
    ensures var c, pc := s.procs[d].copy, s.procs[d].pc;
            var t := Apply(cfg, s, Settle(d));
            && s.copies[c].loc == Unacked(d) && t.copyOf == s.copyOf
            && (pc == Returning ==> t.copies[c].loc == InTarget)
            && (pc != Returning ==>
                  t.copies[c].loc == (match pc
                                      case Rejecting => if cfg.deadLetter then Dead else Dropped
                                      case Acking(byFn) => if byFn then Consumed else Superseded
                                      case _ => InTarget))
            && (pc == Acking(false) ==> d in s.copyOf)
            && (d in s.copyOf ==> pc == Acking(false) || pc == Returning)
            && (forall o: nat :: t.events[Forked(o)] == s.events[Forked(o)] +
                  if pc == Returning && d in s.copyOf && o == OrigOf(s, d) then 1 else 0)
  {
    assert ProcPlaced(s, d) && RequestHolds(cfg, s, d);
    if d in s.copyOf {
      assert Handshake.Attempt(d, true) in s.hs.attempts;
      assert d in s.hs.callers;
    }
  }

  lemma SettleConserves(cfg: Config, s: State, d: nat, o: nat)
    requires Sound(cfg, s) && ConservedFor(s, o) && Enabled(cfg, s, Settle(d))
    ensures ConservedFor(Apply(cfg, s, Settle(d)), o)
  {
    hide Stakes, Requested;
    SettlingOnlyMoves(cfg, s, Settle(d));
    OneStakeMoves(cfg, s, Apply(cfg, s, Settle(d)), o, d);
    if s.procs[d].live {
      LiveSettlement(cfg, s, d);
    }
  }

  /** Once request `r` is accepted, its process no longer stands for the message. */
  lemma {:induction false} AcceptanceHandsOver(cfg: Config, s: State, r: nat, n: nat, o: nat)
    requires Sound(cfg, s) && r < |s.procs| && r !in s.copyOf
    ensures ProcPlaced(s, r)
    ensures Sum(Stakes(s.(copyOf := s.copyOf[r := n]), o))
            + (if s.procs[r].live && OrigOf(s, r) == o then 1 else 0) == Sum(Stakes(s, o))
  {
    var u := s.(copyOf := s.copyOf[r := n]);
    var c := s.procs[r].copy;
    assert ProcPlaced(s, r);
    forall i | 0 <= i < |s.copies| && i != c ensures Stake(u, o, i) == Stake(s, o, i) {
      assert CopyPlaced(cfg, s, i);
    }
    StakeMovesAt(s, u, o, c);
    assert CopyPlaced(cfg, s, c);
  }

  /** An accepted publish hands the stake of a live process to the new copy; of any other process it
      is a fork. */
  lemma PublishConserves(cfg: Config, s: State, k: nat, o: nat)
    requires Sound(cfg, s) && ConservedFor(s, o) && Enabled(cfg, s, Requeuer(Handshake.Publish(k, true)))
    ensures ConservedFor(Apply(cfg, s, Requeuer(Handshake.Publish(k, true))), o)
  {
    var t := Apply(cfg, s, Requeuer(Handshake.Publish(k, true)));
    var r := s.hs.responders[k].r;
    FirstPublish(cfg, s, k);
    AcceptanceHandsOver(cfg, s, r, |s.copies|, o);
    StakeOfNewCopy(s.(copyOf := t.copyOf), t, o);
    assert CopyPlaced(cfg, s, s.procs[r].copy);
  }

  lemma RequeuerConserves(cfg: Config, s: State, st: Handshake.Step, o: nat)
    requires Sound(cfg, s) && ConservedFor(s, o) && Enabled(cfg, s, Requeuer(st))
    ensures ConservedFor(Apply(cfg, s, Requeuer(st)), o)
  {
    if st.Publish? && st.ok {
      PublishConserves(cfg, s, st.k, o);
    } else {
      assert Stakes(Apply(cfg, s, Requeuer(st)), o) == Stakes(s, o);
    }
  }

  /** A request about to be published has not been published before. */
  lemma FirstPublish(cfg: Config, s: State, k: nat)
    requires Requested(cfg, s) && k in s.hs.responders && s.hs.responders[k].Publishing?
    ensures s.hs.responders[k].r < |s.procs| && s.hs.responders[k].r !in s.copyOf
  {
    var r := s.hs.responders[k].r;
    assert Handshake.ResponderFits(s.hs, k, s.hs.responders[k]);
    assert Handshake.PlaceHolds(s.hs, r);
    assert RequestHolds(cfg, s, r);
  }

  lemma StepConserves(cfg: Config, s: State, step: Step)
    requires Sound(cfg, s) && Conserved(s) && Enabled(cfg, s, step)
    ensures Conserved(Apply(cfg, s, step))
  {
    hide Sound, ConservedFor, Apply;
    match step
    case Arrive(h) => ArriveConserves(cfg, s, h);
    case Deliver(_, _) => BrokerConserves(cfg, s, step);
    case Expiry(_) => BrokerConserves(cfg, s, step);
    case _ =>
      forall o: nat ensures ConservedFor(Apply(cfg, s, step), o) {
        assert ConservedFor(s, o);
        match step
        case Requeuer(st) => RequeuerConserves(cfg, s, st, o);
        case Lose(d) => LoseConserves(cfg, s, d, o);
        case Settle(d) => SettleConserves(cfg, s, d, o);
        case _ => ThinkingConserves(cfg, s, step, o);
      }
  }

  // ---- Why a copy has ended ----

  ghost predicate CopyJustified(cfg: Config, s: State, i: nat)
    requires i < |s.copies|
  {
    var c := s.copies[i];
    && (c.loc == Consumed ==> Ran(c.orig, true) in s.events)
    && (c.loc == Dead || c.loc == Dropped ==> Refused(c.orig) in s.events)
    && (c.loc == Dropped ==> !cfg.deadLetter)
    && (c.loc == Dead ==> cfg.deadLetter)
  }

  ghost predicate ProcJustified(s: State, d: nat)
    requires d < |s.procs|
  {
    s.procs[d].copy < |s.copies| ==>
      && (s.procs[d].pc == Acking(true) ==> Ran(OrigOf(s, d), true) in s.events)
      && (s.procs[d].pc == Rejecting ==> Refused(OrigOf(s, d)) in s.events)
  }

  ghost predicate Justified(cfg: Config, s: State) {
    && (forall i :: 0 <= i < |s.copies| ==> CopyJustified(cfg, s, i))
    && (forall d :: 0 <= d < |s.procs| ==> ProcJustified(s, d))
  }

  lemma OneMoveKeepsJustified(cfg: Config, s: State, t: State, d: nat)
    requires Justified(cfg, s) && d < |s.procs| && s.procs[d].copy < |s.copies| && OnlyMoves(s, t, d)
    requires forall e :: e in s.events ==> e in t.events
    requires CopyJustified(cfg, t, s.procs[d].copy) && ProcJustified(t, d)
    ensures Justified(cfg, t)
  {
    forall i | 0 <= i < |t.copies| ensures CopyJustified(cfg, t, i) {
      assert CopyJustified(cfg, s, i);
    }
    forall e | 0 <= e < |t.procs| ensures ProcJustified(t, e) {
      assert ProcJustified(s, e);
    }
  }

  /** A process whose copy stays where it is. */
  lemma ThoughtKeepsJustified(cfg: Config, s: State, t: State, d: nat)
    requires Justified(cfg, s) && d < |s.procs| && s.procs[d].copy < |s.copies|
    requires t.copies == s.copies && |t.procs| == |s.procs|
    requires t.procs == s.procs[d := s.procs[d].(pc := t.procs[d].pc)]
    requires forall e :: e in s.events ==> e in t.events
    requires t.procs[d].pc == Acking(true) ==> Ran(OrigOf(s, d), true) in t.events
    requires t.procs[d].pc == Rejecting ==> Refused(OrigOf(s, d)) in t.events
    ensures Justified(cfg, t)
  {
    assert CopyJustified(cfg, s, s.procs[d].copy);
    OneMoveKeepsJustified(cfg, s, t, d);
  }

  lemma ThinkingKeepsJustified(cfg: Config, s: State, step: Step)
    requires Sound(cfg, s) && Justified(cfg, s) && Enabled(cfg, s, step)
    requires step.Judge? || step.Filter? || step.Run? || step.Resume?
    ensures Justified(cfg, Apply(cfg, s, step))
  {
    hide Justified;
    var d := step.d;
    assert ProcPlaced(s, d);
    ThoughtKeepsJustified(cfg, s, Apply(cfg, s, step), d);
  }

  lemma LoseKeepsJustified(cfg: Config, s: State, d: nat)
    requires Sound(cfg, s) && Justified(cfg, s) && Enabled(cfg, s, Lose(d))
    ensures Justified(cfg, Apply(cfg, s, Lose(d)))
  {
    SettlingOnlyMoves(cfg, s, Lose(d));
    assert ProcJustified(s, d);
    OneMoveKeepsJustified(cfg, s, Apply(cfg, s, Lose(d)), d);
  }

  lemma SettleKeepsJustified(cfg: Config, s: State, d: nat)
    requires Sound(cfg, s) && Justified(cfg, s) && Enabled(cfg, s, Settle(d))
    ensures Justified(cfg, Apply(cfg, s, Settle(d)))
  {
    var t := Apply(cfg, s, Settle(d));
    SettlingOnlyMoves(cfg, s, Settle(d));
    assert ProcJustified(s, d) && CopyJustified(cfg, s, s.procs[d].copy);
    if s.procs[d].live {
      LiveSettlement(cfg, s, d);
    }
    assert t.procs[d].pc == Settled;
    OneMoveKeepsJustified(cfg, s, t, d);
  }

  lemma OtherKeepsJustified(cfg: Config, s: State, step: Step)
    requires Sound(cfg, s) && Justified(cfg, s) && Enabled(cfg, s, step) && !Moving(step)
    ensures Justified(cfg, Apply(cfg, s, step))
  {
    var t := Apply(cfg, s, step);
    assert forall e :: e in s.events ==> e in t.events;
    forall i | 0 <= i < |t.copies| ensures CopyJustified(cfg, t, i) {
      if i < |s.copies| {
        assert CopyJustified(cfg, s, i);
      }
    }
    forall d | 0 <= d < |t.procs| ensures ProcJustified(t, d) {
      if d < |s.procs| {
        assert ProcJustified(s, d) && ProcPlaced(s, d);
      }
    }
  }

  lemma StepKeepsJustified(cfg: Config, s: State, step: Step)
    requires Sound(cfg, s) && Justified(cfg, s) && Enabled(cfg, s, step)
    ensures Justified(cfg, Apply(cfg, s, step))
  {
    if step.Lose? {
      LoseKeepsJustified(cfg, s, step.d);
    } else if step.Settle? {
      SettleKeepsJustified(cfg, s, step.d);
    } else if Moving(step) {
      ThinkingKeepsJustified(cfg, s, step);
    } else {
      OtherKeepsJustified(cfg, s, step);
    }
  }

  // ---- Every run ----

  ghost predicate Inv(cfg: Config, s: State) {
    Sound(cfg, s) && Conserved(s) && Justified(cfg, s)
  }

  lemma InitHolds(cfg: Config)
    ensures Inv(cfg, INIT)
  {
    forall o: nat ensures ConservedFor(INIT, o) {
      assert Stakes(INIT, o) == [];
    }
  }

  lemma {:induction false} RunKeepsInv(cfg: Config, steps: seq<Step>)
    requires Exec(cfg, INIT, steps).Some?
    ensures Inv(cfg, Exec(cfg, INIT, steps).value)
    decreases |steps|
  {
    if steps == [] {
      InitHolds(cfg);
    } else {
      var front, step := steps[..|steps| - 1], steps[|steps| - 1];
      RunKeepsInv(cfg, front);
      var s := Exec(cfg, INIT, front).value;
      StepKeepsSound(cfg, s, step);
      StepConserves(cfg, s, step);
      StepKeepsJustified(cfg, s, step);
    }
  }

  /** At least once: over any run, with connections lost at any point, a message that arrived has a
      copy in the target queue, unacknowledged, in the requeue queue or in the dead queue, unless `fn`
      returned nil for it and a copy was acked, or policy or middleware refused it and the sink has no
      dead letter. */
  lemma {:induction false} NothingIsLost(cfg: Config, steps: seq<Step>, o: nat)
    requires Exec(cfg, INIT, steps).Some? && Arrived(Exec(cfg, INIT, steps).value, o)
    ensures var s := Exec(cfg, INIT, steps).value;
            exists i :: 0 <= i < |s.copies| && s.copies[i].orig == o
                        && (var loc := s.copies[i].loc;
                            || loc == InTarget || loc.Unacked? || loc == InRequeue
                            || (loc == Dead && Refused(o) in s.events && cfg.deadLetter)
                            || (loc == Consumed && Ran(o, true) in s.events)
                            || (loc == Dropped && Refused(o) in s.events && !cfg.deadLetter))
  {
    RunKeepsInv(cfg, steps);
    var s := Exec(cfg, INIT, steps).value;
    assert ConservedFor(s, o);
    PositiveTerm(Stakes(s, o));
    var i :| 0 <= i < |s.copies| && Stakes(s, o)[i] > 0;
    assert CopyJustified(cfg, s, i);
  }

  /** Exactly once without forks: the copies that stand for a message are one, plus one per fork. */
  lemma {:induction false} CopiesAreOnePlusForks(cfg: Config, steps: seq<Step>, o: nat, i: nat, j: nat)
    requires Exec(cfg, INIT, steps).Some? && Arrived(Exec(cfg, INIT, steps).value, o)
    ensures var s := Exec(cfg, INIT, steps).value;
            && Sum(Stakes(s, o)) == 1 + s.events[Forked(o)]
            && (s.events[Forked(o)] == 0 && i < |s.copies| && j < |s.copies| ==>
                  (Stake(s, o, i) == 1 && Stake(s, o, j) == 1 ==> i == j))
  {
    RunKeepsInv(cfg, steps);
    var s := Exec(cfg, INIT, steps).value;
    assert ConservedFor(s, o);
    if i < j < |s.copies| {
      TwoTermsBelowSum(Stakes(s, o), i, j);
    } else if j < i < |s.copies| {
      TwoTermsBelowSum(Stakes(s, o), j, i);
    }
  }
}
