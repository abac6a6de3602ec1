/** Why copies fork, over every run: only a lost connection or a Nack with requeue can be the cause, and
    each of them of one fork at most. */
module Forks {
  import opened Weights
  import opened Delivery
  import opened Conservation
  import Handshake

  /** A process whose copy was put back, and which may still have its own requeue accepted. */
  function Debt(s: State, o: nat, d: nat): nat
    requires d < |s.procs|
  {
    var p := s.procs[d];
    if !p.live && d !in s.copyOf && p.copy < |s.copies| && s.copies[p.copy].orig == o
       && (p.pc != Settled || d in s.bodies) then 1 else 0
  }

  function Debts(s: State, o: nat): seq<nat> {
    seq(|s.procs|, d requires 0 <= d < |s.procs| => Debt(s, o, d))
  }

  /** Each fork so far, and each that may follow, has a loss or a return of its own. */
  ghost predicate Paid(s: State, o: nat) {
    s.events[Forked(o)] + Sum(Debts(s, o)) <= s.events[Lost(o)] + s.events[Event.Returned(o)]
  }

  lemma {:induction false} DebtMovesAt(s: State, t: State, o: nat, d: nat)
    requires |t.procs| == |s.procs| && d < |s.procs|
    requires forall e :: 0 <= e < |s.procs| && e != d ==> Debt(t, o, e) == Debt(s, o, e)
    ensures Sum(Debts(t, o)) + Debt(s, o, d) == Sum(Debts(s, o)) + Debt(t, o, d)
  {
    assert Debts(t, o) == Debts(s, o)[d := Debt(t, o, d)];
    SumOfUpdated(Debts(s, o), d, Debt(t, o, d));
  }

  lemma SameDebts(cfg: Config, s: State, t: State, o: nat)
    requires Sound(cfg, s) && t.procs == s.procs && |s.copies| <= |t.copies|
    requires forall i :: 0 <= i < |s.copies| ==> t.copies[i].orig == s.copies[i].orig
    requires t.copyOf == s.copyOf && t.bodies == s.bodies
    ensures Debts(t, o) == Debts(s, o)
  {
    forall d | 0 <= d < |s.procs| ensures Debt(t, o, d) == Debt(s, o, d) {
      assert ProcPlaced(s, d);
    }
  }

  lemma DeliverStaysPaid(cfg: Config, s: State, c: nat, k: nat, o: nat)
    requires Sound(cfg, s) && Paid(s, o) && Enabled(cfg, s, Deliver(c, k))
    ensures Paid(Apply(cfg, s, Deliver(c, k)), o)
  {
    var t := Apply(cfg, s, Deliver(c, k));
    forall d | 0 <= d < |s.procs| ensures Debt(t, o, d) == Debt(s, o, d) {
      assert ProcPlaced(s, d);
    }
    assert Debts(t, o) == Debts(s, o) + [0];
    SumOfLonger(Debts(s, o), 0);
  }

  /** A move of process `d` changes its own debt only. */
  lemma OtherDebtsStay(cfg: Config, s: State, step: Step, o: nat)
    requires Sound(cfg, s) && Enabled(cfg, s, step) && Moving(step)
    ensures var t := Apply(cfg, s, step);
            && step.d < |s.procs| == |t.procs|
            && Sum(Debts(t, o)) + Debt(s, o, step.d) == Sum(Debts(s, o)) + Debt(t, o, step.d)
  {
    var t := Apply(cfg, s, step);
    MovingStepOnlyMoves(cfg, s, step);
    DebtMovesAt(s, t, o, step.d);
  }

  lemma LoseStaysPaid(cfg: Config, s: State, d: nat, o: nat)
    requires Sound(cfg, s) && Paid(s, o) && Enabled(cfg, s, Lose(d))
    ensures Paid(Apply(cfg, s, Lose(d)), o)
  {
    OtherDebtsStay(cfg, s, Lose(d), o);
  }

  lemma SettleStaysPaid(cfg: Config, s: State, d: nat, o: nat)
    requires Sound(cfg, s) && Paid(s, o) && Enabled(cfg, s, Settle(d))
    ensures Paid(Apply(cfg, s, Settle(d)), o)
  {
    OtherDebtsStay(cfg, s, Settle(d), o);
    assert RequestHolds(cfg, s, d);
    hide Sound, Debts;
  }

  lemma ThinkingStaysPaid(cfg: Config, s: State, step: Step, o: nat)
    requires Sound(cfg, s) && Paid(s, o) && Enabled(cfg, s, step)
    requires step.Judge? || step.Filter? || step.Run? || step.Resume?
    ensures Paid(Apply(cfg, s, step), o)
  {
    hide Sound, Debts;
    OtherDebtsStay(cfg, s, step, o);
  }

  lemma PublishStaysPaid(cfg: Config, s: State, k: nat, o: nat)
    requires Sound(cfg, s) && Paid(s, o) && Enabled(cfg, s, Requeuer(Handshake.Publish(k, true)))
    ensures Paid(Apply(cfg, s, Requeuer(Handshake.Publish(k, true))), o)
  {
    var t := Apply(cfg, s, Requeuer(Handshake.Publish(k, true)));
    var r := s.hs.responders[k].r;
    FirstPublish(cfg, s, k);
    forall d | 0 <= d < |s.procs| && d != r ensures Debt(t, o, d) == Debt(s, o, d) {
      assert ProcPlaced(s, d);
    }
    DebtMovesAt(s, t, o, r);
  }

  lemma StepStaysPaid(cfg: Config, s: State, step: Step, o: nat)
    requires Sound(cfg, s) && Paid(s, o) && Enabled(cfg, s, step)
    ensures Paid(Apply(cfg, s, step), o)
  {
    match step
    case Arrive(_) => SameDebts(cfg, s, Apply(cfg, s, step), o);
    case Expiry(_) => SameDebts(cfg, s, Apply(cfg, s, step), o);
    case Deliver(c, k) => DeliverStaysPaid(cfg, s, c, k, o);
    case Lose(d) => LoseStaysPaid(cfg, s, d, o);
    case Settle(d) => SettleStaysPaid(cfg, s, d, o);
    case Requeuer(st) =>
      if st.Publish? && st.ok {
        PublishStaysPaid(cfg, s, st.k, o);
      } else {
        SameDebts(cfg, s, Apply(cfg, s, step), o);
      }
    case _ => ThinkingStaysPaid(cfg, s, step, o);
  }

  /** In every run a message has no more forks than lost connections and Nacks with requeue. */
  lemma {:induction false} ForksHaveCauses(cfg: Config, steps: seq<Step>, o: nat)
    requires Exec(cfg, INIT, steps).Some?
    ensures var e := Exec(cfg, INIT, steps).value.events;
            e[Forked(o)] <= e[Lost(o)] + e[Event.Returned(o)]
    ensures Paid(Exec(cfg, INIT, steps).value, o)
    decreases |steps|
  {
    if steps == [] {
      assert Debts(INIT, o) == [];
    } else {
      var front := steps[..|steps| - 1];
      ForksHaveCauses(cfg, front, o);
      Conservation.RunKeepsInv(cfg, front);
      StepStaysPaid(cfg, Exec(cfg, INIT, front).value, steps[|steps| - 1], o);
    }
  }
}
