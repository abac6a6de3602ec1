/** How sharp the bound of module RetryBound is, and when the limit of `Retries` is a limit. */
module RetryLimit {
  import opened Channels
  import opened Headers
  import opened Weights
  import opened Delivery
  import opened RetryBound
  import opened RetryRuns
  import opened RetryHealth

  // ---- Using up what the headers allow ----

  /** The calls of `fn` for message `o` that copy `c` still allows, when nothing is under way. */
  function RestCall(cfg: Config, c: Copy, o: nat): nat {
    if c.orig != o then 0
    else
      match c.loc
      case InTarget => Fresh(cfg, c.headers)
      case InRequeue => Left(cfg, c.headers)
      case _ => 0
  }

  function RestCalls(cfg: Config, copies: seq<Copy>, o: nat): seq<nat> {
    seq(|copies|, i requires 0 <= i < |copies| => RestCall(cfg, copies[i], o))
  }

  function Budget(cfg: Config, copies: seq<Copy>, o: nat): nat {
    Sum(RestCalls(cfg, copies, o))
  }

  lemma {:induction false} BudgetMovesAt(cfg: Config, copies: seq<Copy>, c: nat, x: Copy, o: nat)
    requires c < |copies|
    ensures Budget(cfg, copies[c := x], o) + RestCall(cfg, copies[c], o)
            == Budget(cfg, copies, o) + RestCall(cfg, x, o)
  {
    assert RestCalls(cfg, copies[c := x], o) == RestCalls(cfg, copies, o)[c := RestCall(cfg, x, o)];
    SumOfUpdated(RestCalls(cfg, copies, o), c, RestCall(cfg, x, o));
  }

  lemma {:induction false} BudgetOfNewCopy(cfg: Config, copies: seq<Copy>, x: Copy, o: nat)
    ensures Budget(cfg, copies + [x], o) == Budget(cfg, copies, o) + RestCall(cfg, x, o)
  {
    assert RestCalls(cfg, copies + [x], o) == RestCalls(cfg, copies, o) + [RestCall(cfg, x, o)];
    SumOfLonger(RestCalls(cfg, copies, o), RestCall(cfg, x, o));
  }

  /** A requeued copy allows what is left of the copy it replaces. */
  lemma RequeuedAllowsTheRest(cfg: Config, s: State, c: nat)
    requires cfg.limit >= 0 && c < |s.copies|
    ensures RestCall(cfg, Requeued(s, c), s.copies[c].orig) == Left(cfg, s.copies[c].headers)
  {
    LastErrorKeepsDeaths(s.copies[c].headers, "", cfg.requeueName);
  }

  predicate SameTrouble(s: State, t: State, o: nat) {
    && t.events[Lost(o)] == s.events[Lost(o)] && t.events[Forked(o)] == s.events[Forked(o)]
    && t.events[Event.Returned(o)] == s.events[Event.Returned(o)]
  }

  /** A copy that waits in the requeue queue comes out of it and allows as much as before. */
  lemma Surface(cfg: Config, s: State, c: nat, o: nat, healthy: bool) returns (t: State)
    requires Limited(cfg) && Reachable(cfg, s, healthy) && Rest(s)
    requires c < |s.copies| && RestCall(cfg, s.copies[c], o) > 0
    ensures Reachable(cfg, t, healthy) && Rest(t) && t.events == s.events
    ensures Budget(cfg, t.copies, o) == Budget(cfg, s.copies, o)
    ensures c < |t.copies| && t.copies[c].orig == o && Admissible(cfg, t, c)
  {
    if s.copies[c].loc == InTarget {
      t := s;
    } else {
      ReachableIsSound(cfg, s, healthy);
      assert CopyPlaced(cfg, s, c);
      ExpireCountsUp(s.copies[c].headers, cfg.requeueName);
      t := ExpireOnce(cfg, s, c, healthy);
      BudgetMovesAt(cfg, s.copies, c, t.copies[c], o);
    }
  }

  /** One of the allowed calls is made. */
  lemma SpendOne(cfg: Config, s: State, o: nat, healthy: bool) returns (t: State)
    requires Limited(cfg) && cfg.requeue && Reachable(cfg, s, healthy) && Rest(s)
    requires Budget(cfg, s.copies, o) > 0
    ensures Reachable(cfg, t, healthy) && Rest(t) && SameTrouble(s, t, o)
    ensures Attempts(t, o) == Attempts(s, o) + 1
    ensures Budget(cfg, t.copies, o) == Budget(cfg, s.copies, o) - 1
  {
    hide Reachable, Rest, Left, Redelivery;
    PositiveTerm(RestCalls(cfg, s.copies, o));
    var c: nat :| c < |s.copies| && RestCalls(cfg, s.copies, o)[c] > 0;
    var u := Surface(cfg, s, c, o, healthy);
    t := RequeueOnce(cfg, u, c, healthy);
    var x := u.copies[c].(loc := Superseded);
    RequeuedAllowsTheRest(cfg, u, c);
    BudgetMovesAt(cfg, u.copies, c, x, o);
    BudgetOfNewCopy(cfg, u.copies[c := x], Requeued(u, c), o);
  }

  lemma {:induction false} SpendAll(cfg: Config, s: State, o: nat, healthy: bool) returns (t: State)
    requires Limited(cfg) && cfg.requeue && Reachable(cfg, s, healthy) && Rest(s)
    ensures Reachable(cfg, t, healthy) && Rest(t) && SameTrouble(s, t, o)
    ensures Attempts(t, o) == Attempts(s, o) + Budget(cfg, s.copies, o)
    decreases Budget(cfg, s.copies, o)
  {
    hide Reachable, Rest, RestCalls, Attempts;
    t := s;
    if Budget(cfg, s.copies, o) > 0 {
      var u := SpendOne(cfg, s, o, healthy);
      t := SpendAll(cfg, u, o, healthy);
    }
  }

  lemma FirstBudget(cfg: Config)
    requires cfg.limit >= 0
    ensures Budget(cfg, [Copy(0, map[], InTarget)], 0) == cfg.limit + 1
  {
    var copies := [Copy(0, map[], InTarget)];
    assert RestCalls(cfg, copies, 0) == [] + [cfg.limit + 1];
    SumOfLonger([], cfg.limit + 1);
  }

  /** The limit is attained: for every limit some healthy run calls `fn` exactly limit + 1 times. */
  lemma LimitIsAttained(cfg: Config)
    requires Limited(cfg) && cfg.requeue
    ensures exists s :: Reachable(cfg, s, true) && Attempts(s, 0) == cfg.limit + 1
                        && s.events[Lost(0)] == s.events[Forked(0)] == s.events[Event.Returned(0)] == 0
  {
    var s := FirstArrival(cfg, true);
    FirstBudget(cfg);
    s := SpendAll(cfg, s, 0, true);
  }

  // ---- When the limit is none ----

  /** Policy lets the message back in however often it failed: `n` failures, nothing else. */
  ghost predicate Again(cfg: Config, s: State, c: nat, n: nat) {
    && Reachable(cfg, s, true) && Rest(s) && Admissible(cfg, s, c)
    && s.copies[c].orig == 0 && Attempts(s, 0) == n && s.events[Lost(0)] == s.events[Forked(0)] == 0
  }

  lemma FailAgain(cfg: Config, s: State, c: nat, n: nat) returns (t: State, c': nat)
    requires (!cfg.requeue || cfg.expired == Decides) && Again(cfg, s, c, n)
    ensures Again(cfg, t, c', n + 1)
  {
    hide Reachable;
    if cfg.requeue {
      var u := RequeueOnce(cfg, s, c, true);
      c' := |s.copies|;
      t := ExpireOnce(cfg, u, c', true);
    } else {
      t := ReturnOnce(cfg, s, c, true);
      c' := c;
    }
  }

  lemma {:induction false} FailAnyNumberOfTimes(cfg: Config, n: nat) returns (t: State, c: nat)
    requires cfg.limit >= 0 && (!cfg.requeue || cfg.expired == Decides)
    ensures Again(cfg, t, c, n)
  {
    if n == 0 {
      t := FirstArrival(cfg, true);
      c := 0;
    } else {
      t, c := FailAnyNumberOfTimes(cfg, n - 1);
      t, c := FailAgain(cfg, t, c, n - 1);
    }
  }

  ghost predicate WithinLimit(cfg: Config, steps: seq<Step>, o: nat) {
    Exec(cfg, INIT, steps).Some? ==> Attempts(Exec(cfg, INIT, steps).value, o) <= cfg.limit + 1
  }

  /** `Retries` limits the calls of `fn` in every healthy run if and only if the sink has a requeue queue
      and no expiry handler that may let messages through. Without a requeue queue a failing message
      comes back by Nack with its headers unchanged, and its count never rises. */
  lemma LimitHoldsExactly(cfg: Config)
    requires cfg.limit >= 0
    ensures (forall steps, o: nat :: Healthy(steps) ==> WithinLimit(cfg, steps, o))
            <==> cfg.requeue && cfg.expired != Decides
  {
    if cfg.requeue && cfg.expired != Decides {
      forall steps, o: nat | Healthy(steps) ensures WithinLimit(cfg, steps, o) {
        if Exec(cfg, INIT, steps).Some? {
          HealthyAttempts(cfg, steps, o);
        }
      }
    } else {
      var s, c := FailAnyNumberOfTimes(cfg, cfg.limit + 2);
      var steps :| Exec(cfg, INIT, steps) == Some(s) && Healthy(steps);
      assert !WithinLimit(cfg, steps, 0);
    }
  }

  /** Where it does not hold there is no other limit either. */
  lemma OrElseNoLimit(cfg: Config, n: nat)
    requires cfg.limit >= 0 && !(cfg.requeue && cfg.expired != Decides)
    ensures exists s :: Reachable(cfg, s, true) && Attempts(s, 0) == n
                        && s.events[Lost(0)] == s.events[Forked(0)] == 0
  {
    var s, c := FailAnyNumberOfTimes(cfg, n);
  }

  // ---- The bound, with everything that can go wrong ----

  /** Message 0 still has its first copy in the target queue; with the calls its copies allow the bound
      for so many forks, returns and losses is used up. */
  ghost predicate Ledger(cfg: Config, s: State, forks: nat, returned: nat, lost: nat) {
    && cfg.limit >= 0 && Reachable(cfg, s, false) && Rest(s)
    && s.copies != [] && s.copies[0] == Copy(0, map[], InTarget)
    && s.events[Forked(0)] == forks && s.events[Event.Returned(0)] == returned && s.events[Lost(0)] == lost
    && Attempts(s, 0) + Budget(cfg, s.copies, 0) == cfg.limit + 1 + cfg.limit * forks + returned + lost
  }

  /** The copy forked off message 0 allows a whole limit of calls. */
  lemma ForkedCopy(cfg: Config, s: State, t: State)
    requires cfg.limit >= 0 && s.copies != [] && s.copies[0] == Copy(0, map[], InTarget)
    requires t.copies == s.copies + [Requeued(s, 0)]
    ensures Budget(cfg, t.copies, 0) == Budget(cfg, s.copies, 0) + cfg.limit && t.copies[0] == s.copies[0]
  {
    RequeuedAllowsTheRest(cfg, s, 0);
    BudgetOfNewCopy(cfg, s.copies, Requeued(s, 0), 0);
  }

  lemma LoseMore(cfg: Config, s: State, f: nat, r: nat, l: nat, fork: bool) returns (t: State)
    requires Limited(cfg) && cfg.requeue && Ledger(cfg, s, f, r, l)
    ensures Ledger(cfg, t, if fork then f + 1 else f, r, l + 1)
  {
    hide Reachable, Rest, Budget;
    if fork {
      t := ForkByLoss(cfg, s, 0);
      ForkedCopy(cfg, s, t);
      OneMoreFork(cfg.limit, f);
    } else {
      t := LoseOnce(cfg, s, 0);
    }
  }

  lemma ReturnMore(cfg: Config, s: State, f: nat, r: nat, l: nat) returns (t: State)
    requires Limited(cfg) && cfg.requeue && Ledger(cfg, s, f, r, l)
    ensures Ledger(cfg, t, f, r + 1, l)
  {
    hide Reachable, Budget;
    t := ReturnOnce(cfg, s, 0, false);
  }

  lemma ReturnAndFork(cfg: Config, s: State, f: nat, r: nat, l: nat) returns (t: State)
    requires Limited(cfg) && cfg.requeue && Ledger(cfg, s, f, r, l) && s.hs.globalDone
    ensures Ledger(cfg, t, f + 1, r + 1, l) && t.hs.globalDone
  {
    hide Reachable, Rest, Budget;
    t := ForkByReturn(cfg, s, 0);
    ForkedCopy(cfg, s, t);
    OneMoreFork(cfg.limit, f);
  }

  lemma EndMore(cfg: Config, s: State, f: nat, r: nat, l: nat) returns (t: State)
    requires Ledger(cfg, s, f, r, l)
    ensures Ledger(cfg, t, f, r, l) && t.hs.globalDone
  {
    hide Reachable, Rest, Budget;
    t := EndContext(cfg, s);
  }

  lemma FirstLedger(cfg: Config) returns (t: State)
    requires cfg.limit >= 0
    ensures Ledger(cfg, t, 0, 0, 0)
  {
    hide Reachable, Rest, Budget;
    t := FirstArrival(cfg, false);
    FirstBudget(cfg);
  }

  /** As many losses, of which some fork, and returns as wanted. */
  lemma {:induction false} Disturb(cfg: Config, forks: nat, returned: nat, lost: nat) returns (t: State)
    requires Limited(cfg) && cfg.requeue && forks <= lost
    ensures Ledger(cfg, t, forks, returned, lost)
    decreases returned + lost
  {
    hide Ledger;
    if returned > 0 {
      t := Disturb(cfg, forks, returned - 1, lost);
      t := ReturnMore(cfg, t, forks, returned - 1, lost);
    } else if lost > 0 {
      t := Disturb(cfg, if forks > 0 then forks - 1 else 0, 0, lost - 1);
      t := LoseMore(cfg, t, if forks > 0 then forks - 1 else 0, 0, lost - 1, forks > 0);
    } else {
      t := FirstLedger(cfg);
    }
  }

  /** And as many returns that fork, once the context has ended. */
  lemma {:induction false} DisturbAtTheEnd(cfg: Config, forks: nat, returned: nat, lost: nat, more: nat)
    returns (t: State)
    requires Limited(cfg) && cfg.requeue && forks <= lost
    ensures Ledger(cfg, t, forks + more, returned + more, lost) && t.hs.globalDone
    decreases more
  {
    hide Ledger;
    if more == 0 {
      var s := Disturb(cfg, forks, returned, lost);
      t := EndMore(cfg, s, forks, returned, lost);
    } else {
      var s := DisturbAtTheEnd(cfg, forks, returned, lost, more - 1);
      t := ReturnAndFork(cfg, s, forks + more - 1, returned + more - 1, lost);
    }
  }

  /** The bound of `AttemptsAreBounded` is attained for every limit and all numbers of forks, returns and
      losses a run can have: by `ForksHaveCauses` no run has more forks than returns and losses. */
  lemma BoundIsAttained(cfg: Config, forks: nat, returned: nat, lost: nat)
    requires Limited(cfg) && cfg.requeue && forks <= returned + lost
    ensures exists s :: Reachable(cfg, s, false)
                        && s.events[Forked(0)] == forks && s.events[Event.Returned(0)] == returned
                        && s.events[Lost(0)] == lost
                        && Attempts(s, 0) == cfg.limit + 1 + cfg.limit * forks + returned + lost
  {
    hide Reachable, Rest, Budget;
    var byLoss := if forks <= lost then forks else lost;
    var byReturn := forks - byLoss;
    var s := DisturbAtTheEnd(cfg, byLoss, returned - byReturn, lost, byReturn);
    assert Ledger(cfg, s, forks, returned, lost);
    s := SpendAll(cfg, s, 0, false);
  }
}
