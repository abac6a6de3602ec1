/** The third law of the delivery cycle, over every run: each delivery is settled once.

    The calls of Ack and Nack a sink makes are read off the run: they are its `Settle` steps. */
module Settlements {
  import opened Delivery
  import opened Headers
  import Conservation
  import Handshake

  datatype Kind = Ack | NackRequeue | NackDrop

  /** One call of `Ack` or `Nack` by process `d`; `ok` tells whether it returned nil, as it does while the
      connection of the delivery is up. */
  datatype Settlement = Settlement(d: nat, kind: Kind, ok: bool)

  /** Which call a process makes from where it stands. */
  function KindOf(pc: Pc): Kind {
    match pc
    case Rejecting => NackDrop
    case Acking(_) => Ack
    case _ => NackRequeue
  }

  /** The call of sink `k` in one step, if it makes one. */
  function Made(s: State, step: Step, k: nat): seq<Settlement> {
    if step.Settle? && step.d < |s.procs| && s.procs[step.d].owner == k
    then [Settlement(step.d, KindOf(s.procs[step.d].pc), s.procs[step.d].live)] else []
  }

  /** The calls of sink `k` in a run, in order. */
  function Settling(cfg: Config, steps: seq<Step>, k: nat): seq<Settlement>
    requires Exec(cfg, INIT, steps).Some?
    decreases |steps|
  {
    if steps == [] then []
    else
      var front := steps[..|steps| - 1];
      Settling(cfg, front, k) + Made(Exec(cfg, INIT, front).value, steps[|steps| - 1], k)
  }

  /** The processes of sink `k`, in the order it took their deliveries from the stream. */
  function Owned(procs: seq<Proc>, k: nat): seq<nat>
    decreases |procs|
  {
    if procs == [] then []
    else
      var d := |procs| - 1;
      Owned(procs[..d], k) + if procs[d].owner == k then [d] else []
  }

  /** The processes settled, in order. */
  function Ids(settlements: seq<Settlement>): (ids: seq<nat>)
    ensures |ids| == |settlements|
  {
    if settlements == [] then []
    else Ids(settlements[..|settlements| - 1]) + [settlements[|settlements| - 1].d]
  }

  function TimesSettled(settlements: seq<Settlement>, d: nat): nat {
    if settlements == [] then 0
    else
      TimesSettled(settlements[..|settlements| - 1], d)
      + if settlements[|settlements| - 1].d == d then 1 else 0
  }

  /** How many of the steps settle process `d`, whoever owns it. */
  function SettleSteps(steps: seq<Step>, d: nat): nat
    decreases |steps|
  {
    if steps == [] then 0
    else SettleSteps(steps[..|steps| - 1], d) + if steps[|steps| - 1] == Settle(d) then 1 else 0
  }

  lemma {:induction false} IdsSnoc(settlements: seq<Settlement>, x: Settlement)
    ensures Ids(settlements + [x]) == Ids(settlements) + [x.d]
  {
    assert (settlements + [x])[..|settlements|] == settlements;
  }

  lemma {:induction false} TimesSnoc(settlements: seq<Settlement>, x: Settlement, d: nat)
    ensures TimesSettled(settlements + [x], d) == TimesSettled(settlements, d) + if x.d == d then 1 else 0
  {
    assert (settlements + [x])[..|settlements|] == settlements;
  }

  /** A call of process `d` is in the list if and only if the count says so. */
  lemma {:induction false} TimesIsMembership(settlements: seq<Settlement>, d: nat)
    ensures TimesSettled(settlements, d) > 0 <==> d in Ids(settlements)
    decreases |settlements|
  {
    if settlements != [] {
      TimesIsMembership(settlements[..|settlements| - 1], d);
    }
  }

  lemma {:induction false} OwnedSnoc(procs: seq<Proc>, p: Proc, k: nat)
    ensures Owned(procs + [p], k) == Owned(procs, k) + if p.owner == k then [|procs|] else []
  {
    assert (procs + [p])[..|procs|] == procs;
  }

  lemma {:induction false} OwnedByOwners(ps: seq<Proc>, qs: seq<Proc>, k: nat)
    requires |ps| == |qs| && forall d :: 0 <= d < |ps| ==> ps[d].owner == qs[d].owner
    ensures Owned(ps, k) == Owned(qs, k)
    decreases |ps|
  {
    if ps != [] {
      OwnedByOwners(ps[..|ps| - 1], qs[..|qs| - 1], k);
    }
  }

  /** `Owned` is what its name says: exactly the sink's processes, each once, the earlier first. */
  lemma {:induction false} OwnedExactly(procs: seq<Proc>, k: nat)
    ensures forall d :: d in Owned(procs, k) <==> 0 <= d < |procs| && procs[d].owner == k
    ensures forall i, j :: 0 <= i < j < |Owned(procs, k)| ==> Owned(procs, k)[i] < Owned(procs, k)[j]
    decreases |procs|
  {
    if procs != [] {
      var front := Owned(procs[..|procs| - 1], k);
      OwnedExactly(procs[..|procs| - 1], k);
      forall i | 0 <= i < |front| ensures front[i] < |procs| - 1 {
        assert front[i] in front;
      }
    }
  }

  /** A process keeps its owner; only a delivery adds one. */
  lemma OwnedAfter(cfg: Config, s: State, step: Step, k: nat)
    requires Sound(cfg, s) && Enabled(cfg, s, step)
    ensures Owned(Apply(cfg, s, step).procs, k)
            == Owned(s.procs, k) + if step.Deliver? && step.owner == k then [|s.procs|] else []
  {
    var t := Apply(cfg, s, step);
    if step.Deliver? {
      OwnedSnoc(s.procs, Proc(step.c, true, Judging, step.owner), k);
    } else {
      if Moving(step) {
        MovingStepOnlyMoves(cfg, s, step);
      }
      OwnedByOwners(s.procs, t.procs, k);
    }
  }

  predicate Done(s: State, d: nat) {
    At(s, d, Settled)
  }

  /** A settlement ends its process, and nothing else ends one or revives it. */
  lemma OnlySettlingSettles(cfg: Config, s: State, step: Step, d: nat)
    requires Sound(cfg, s) && Enabled(cfg, s, step)
    ensures Done(Apply(cfg, s, step), d) <==> Done(s, d) || step == Settle(d)
    ensures step == Settle(d) ==> d < |s.procs| && !Done(s, d)
    ensures d < |s.procs| ==> d < |Apply(cfg, s, step).procs|
                              && Apply(cfg, s, step).procs[d].owner == s.procs[d].owner
  {
    if Moving(step) {
      MovingStepOnlyMoves(cfg, s, step);
    }
  }

  /** Over every run a process is settled by exactly one step if it is settled, and by none otherwise:
      one attempt of Ack or Nack, whatever policy, middleware, `fn` and requeue returned. */
  lemma {:induction false} SettledOnce(cfg: Config, steps: seq<Step>, d: nat)
    requires Exec(cfg, INIT, steps).Some?
    ensures SettleSteps(steps, d) == if Done(Exec(cfg, INIT, steps).value, d) then 1 else 0
    decreases |steps|
  {
    if steps != [] {
      var front := steps[..|steps| - 1];
      SettledOnce(cfg, front, d);
      Conservation.RunKeepsInv(cfg, front);
      OnlySettlingSettles(cfg, Exec(cfg, INIT, front).value, steps[|steps| - 1], d);
    }
  }

  /** So in the calls of a sink each of its settled processes occurs exactly once, and nobody else. */
  lemma {:induction false} EachOnce(cfg: Config, steps: seq<Step>, k: nat, d: nat)
    requires Exec(cfg, INIT, steps).Some?
    ensures var s := Exec(cfg, INIT, steps).value;
            TimesSettled(Settling(cfg, steps, k), d) == if Done(s, d) && s.procs[d].owner == k then 1 else 0
    decreases |steps|
  {
    if steps != [] {
      var front, step := steps[..|steps| - 1], steps[|steps| - 1];
      EachOnce(cfg, front, k, d);
      Conservation.RunKeepsInv(cfg, front);
      var s := Exec(cfg, INIT, front).value;
      OnlySettlingSettles(cfg, s, step, d);
      var calls := Settling(cfg, front, k);
      if Made(s, step, k) == [] {
        assert calls + [] == calls;
      } else {
        TimesSnoc(calls, Made(s, step, k)[0], d);
      }
    }
  }

  lemma IdsAreTheSettled(cfg: Config, steps: seq<Step>, k: nat, d: nat)
    requires Exec(cfg, INIT, steps).Some?
    ensures var s := Exec(cfg, INIT, steps).value;
            d in Ids(Settling(cfg, steps, k)) <==> Done(s, d) && s.procs[d].owner == k
  {
    EachOnce(cfg, steps, k, d);
    TimesIsMembership(Settling(cfg, steps, k), d);
  }

  /** Why a settlement was made: an Ack after `fn` returned nil or the requeue was accepted, a Nack
      without requeue after a refusal. */
  ghost predicate Reasoned(s: State, c: Settlement) {
    && c.d < |s.procs| && s.procs[c.d].copy < |s.copies|
    && (c.kind == Ack ==> Ran(OrigOf(s, c.d), true) in s.events || c.d in s.copyOf)
    && (c.kind == NackDrop ==> Refused(OrigOf(s, c.d)) in s.events)
  }

  lemma EventLasts(cfg: Config, s: State, step: Step, e: Event)
    requires Enabled(cfg, s, step) && e in s.events
    ensures e in Apply(cfg, s, step).events
  {
    hide Handshake.Apply, Handshake.Enabled, Keep, Redelivery, Expire;
    var t := Apply(cfg, s, step);
    match step
    case Lose(d) => assert t.events == PutBack(s, d, Lost(OrigOf(s, d))).events;
    case Settle(d) => assert t.events == s.events || t.events == PutBack(s, d, Returned(OrigOf(s, d))).events;
    case _ =>
  }

  lemma AcceptanceLasts(cfg: Config, s: State, step: Step, d: nat)
    requires Enabled(cfg, s, step) && d in s.copyOf
    ensures d in Apply(cfg, s, step).copyOf
  {
  }

  lemma OriginsLast(cfg: Config, s: State, step: Step, d: nat)
    requires Sound(cfg, s) && Enabled(cfg, s, step) && d < |s.procs| && s.procs[d].copy < |s.copies|
    ensures var t := Apply(cfg, s, step);
            d < |t.procs| && t.procs[d].copy < |t.copies| && OrigOf(t, d) == OrigOf(s, d)
  {
    if Moving(step) {
      MovingStepOnlyMoves(cfg, s, step);
    }
  }

  lemma ReasonsLast(cfg: Config, s: State, step: Step, c: Settlement)
    requires Sound(cfg, s) && Enabled(cfg, s, step) && Reasoned(s, c)
    ensures Reasoned(Apply(cfg, s, step), c)
  {
    hide Sound, Apply, Enabled;
    OriginsLast(cfg, s, step, c.d);
    var o := OrigOf(s, c.d);
    if Ran(o, true) in s.events {
      EventLasts(cfg, s, step, Ran(o, true));
    }
    if Refused(o) in s.events {
      EventLasts(cfg, s, step, Refused(o));
    }
    if c.d in s.copyOf {
      AcceptanceLasts(cfg, s, step, c.d);
    }
  }

  lemma NewCallIsReasoned(cfg: Config, s: State, d: nat)
    requires Conservation.Inv(cfg, s) && Enabled(cfg, s, Settle(d))
    ensures d < |s.procs| && Reasoned(s, Settlement(d, KindOf(s.procs[d].pc), s.procs[d].live))
  {
    assert ProcPlaced(s, d) && RequestHolds(cfg, s, d) && Conservation.ProcJustified(s, d);
  }

  lemma {:induction false} EveryCallIsReasoned(cfg: Config, steps: seq<Step>, k: nat, c: Settlement)
    requires Exec(cfg, INIT, steps).Some? && c in Settling(cfg, steps, k)
    ensures Reasoned(Exec(cfg, INIT, steps).value, c)
    decreases |steps|
  {
    if steps != [] {
      var front, step := steps[..|steps| - 1], steps[|steps| - 1];
      var s := Exec(cfg, INIT, front).value;
      Conservation.RunKeepsInv(cfg, front);
      if c in Settling(cfg, front, k) {
        EveryCallIsReasoned(cfg, front, k, c);
      } else {
        NewCallIsReasoned(cfg, s, step.d);
      }
      ReasonsLast(cfg, s, step, c);
    }
  }
}
