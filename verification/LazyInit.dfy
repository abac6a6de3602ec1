/** Lazy initialisation of `MessageQueue` (`initOnce`, internal/message_queue.go) by any number of
    threads, each performing one queue operation, under sequential consistency.

    `initOnce` looks at `notify` without the lock, and sets `notify` before `messages`; the operations
    read `messages` only under the lock. */
module LazyInit {
  import opened Channels

  datatype Op = PutOp(m: nat) | CommitOp | ReadOp

  /** `initOnce`: the unlocked check, waiting for the lock, the second check, the two assignments, the
      deferred unlock; then the operation: waiting for its lock, the access, the unlock, and for `Put`
      the offer to `notify`. */
  datatype Pc =
    | FirstCheck
    | WantInit
    | SecondCheck
    | SetNotify
    | SetMessages
    | UnlockInit
    | WantOp
    | Access
    | UnlockOp
    | Offering
    | Finished

  datatype Thread = Thread(op: Op, pc: Pc)

  datatype Lock = Free | Writing(t: nat) | Reading(ts: set<nat>)

  /** `lists` are all lists ever created, `messages` says which one the queue uses; `channels` counts
      the notification channels created. `puts` and `removed` are histories. */
  datatype State = State(
    notify: bool,
    messages: Option<nat>,
    lists: seq<seq<nat>>,
    channels: nat,
    lock: Lock,
    threads: map<nat, Thread>,
    panicked: bool,
    missedOffers: nat,
    puts: seq<nat>,
    removed: seq<nat>)

  datatype Step = Spawn(t: nat, op: Op) | Advance(t: nat)

  const INIT := State(false, None, [], 0, Free, map[], false, 0, [], [])

  predicate CanLock(s: State, op: Op) {
    s.lock == Free || (op.ReadOp? && s.lock.Reading?)
  }

  predicate Enabled(s: State, step: Step) {
    && !s.panicked
    && match step
       case Spawn(t, _) => t !in s.threads
       case Advance(t) =>
         && t in s.threads && s.threads[t].pc != Finished
         && (s.threads[t].pc == WantInit ==> s.lock == Free)
         && (s.threads[t].pc == WantOp ==> CanLock(s, s.threads[t].op))
  }

  function Move(s: State, t: nat, pc: Pc): State
    requires t in s.threads
  {
    s.(threads := s.threads[t := s.threads[t].(pc := pc)])
  }

  function Acquire(s: State, t: nat, op: Op): Lock {
    if !op.ReadOp? then Writing(t)
    else if s.lock.Reading? then Reading(s.lock.ts + {t}) else Reading({t})
  }

  function Release(s: State, t: nat): Lock {
    if s.lock.Reading? && s.lock.ts - {t} != {} then Reading(s.lock.ts - {t}) else Free
  }

  /** The access to the list; a nil list is a nil dereference. */
  function Touch(s: State, op: Op): State {
    if s.messages.None? || s.messages.value >= |s.lists| then s.(panicked := true)
    else
      var l := s.messages.value;
      match op
      case PutOp(m) => s.(lists := s.lists[l := s.lists[l] + [m]], puts := s.puts + [m])
      case CommitOp =>
        if s.lists[l] == [] then s
        else s.(lists := s.lists[l := s.lists[l][1..]], removed := s.removed + [s.lists[l][0]])
      case ReadOp => s
  }

  function ApplyAdvance(s: State, t: nat): State
    requires t in s.threads
  {
    var op := s.threads[t].op;
    match s.threads[t].pc
    case FirstCheck => Move(s, t, if s.notify then WantOp else WantInit)
    case WantInit => Move(s, t, SecondCheck).(lock := Writing(t))
    case SecondCheck => Move(s, t, if s.notify then UnlockInit else SetNotify)
    case SetNotify => Move(s, t, SetMessages).(notify := true, channels := s.channels + 1)
    case SetMessages => Move(s, t, UnlockInit).(messages := Some(|s.lists|), lists := s.lists + [[]])
    case UnlockInit => Move(s, t, WantOp).(lock := Free)
    case WantOp => Move(s, t, Access).(lock := Acquire(s, t, op))
    case Access => Move(Touch(s, op), t, UnlockOp)
    case UnlockOp => Move(s, t, if op.PutOp? then Offering else Finished).(lock := Release(s, t))
    case Offering => Move(s, t, Finished).(missedOffers := s.missedOffers + if s.notify then 0 else 1)
    case Finished => s
  }

  function Apply(s: State, step: Step): State
    requires Enabled(s, step)
  {
    match step
    case Spawn(t, op) => s.(threads := s.threads[t := Thread(op, FirstCheck)])
    case Advance(t) => ApplyAdvance(s, t)
  }

  function Exec(s: State, steps: seq<Step>): Option<State>
    decreases |steps|
  {
    if steps == [] then Some(s)
    else
      match Exec(s, steps[..|steps| - 1])
      case None => None
      case Some(t) =>
        var step := steps[|steps| - 1];
        if Enabled(t, step) then Some(Apply(t, step)) else None
  }

  // ---- Invariant ----

  predicate InInit(pc: Pc) {
    pc == SecondCheck || pc == SetNotify || pc == SetMessages || pc == UnlockInit
  }

  predicate HoldsWrite(th: Thread) {
    InInit(th.pc) || (!th.op.ReadOp? && (th.pc == Access || th.pc == UnlockOp))
  }

  predicate HoldsRead(th: Thread) {
    th.op.ReadOp? && (th.pc == Access || th.pc == UnlockOp)
  }

  ghost predicate LockHeld(s: State) {
    && (forall t :: t in s.threads ==> (HoldsWrite(s.threads[t]) <==> s.lock == Writing(t)))
    && (forall t :: t in s.threads ==> (HoldsRead(s.threads[t]) <==> s.lock.Reading? && t in s.lock.ts))
    && (s.lock.Writing? ==> s.lock.t in s.threads)
    && (s.lock.Reading? ==> s.lock.ts != {} && forall t :: t in s.lock.ts ==> t in s.threads)
  }

  /** Between the two assignments the initialising thread holds the lock. */
  ghost predicate Initialised(s: State) {
    && (s.messages.Some? ==> s.notify)
    && (s.notify && s.messages.None? ==>
          s.lock.Writing? && s.lock.t in s.threads && s.threads[s.lock.t].pc == SetMessages)
    && |s.lists| == (if s.messages.Some? then 1 else 0)
    && (s.messages.Some? ==> s.messages.value == 0)
    && s.channels == (if s.notify then 1 else 0)
  }

  ghost predicate ThreadSees(s: State, th: Thread) {
    && (th.pc == SetNotify ==> !s.notify)
    && (th.pc == SetMessages ==> s.notify && s.messages.None?)
    && (th.pc == UnlockInit ==> s.messages.Some?)
    && (th.pc == WantOp || th.pc == Offering || th.pc == Finished ==> s.notify)
    && (th.pc == Access || th.pc == UnlockOp ==> s.messages.Some?)
  }

  ghost predicate Inv(s: State) {
    && !s.panicked
    && LockHeld(s)
    && Initialised(s)
    && (forall t :: t in s.threads ==> ThreadSees(s, s.threads[t]))
    && s.missedOffers == 0
    && s.puts == s.removed + if s.messages.Some? then s.lists[0] else []
  }

  lemma SpawnKeepsInv(s: State, t: nat, op: Op)
    requires Inv(s) && Enabled(s, Spawn(t, op))
    ensures Inv(Apply(s, Spawn(t, op)))
  {
  }

  lemma CheckKeepsInv(s: State, t: nat)
    requires Inv(s) && Enabled(s, Advance(t))
    requires s.threads[t].pc == FirstCheck || s.threads[t].pc == SecondCheck
    ensures Inv(Apply(s, Advance(t)))
  {
    hide CanLock, Acquire, Release, Touch;
  }

  lemma InitLockKeepsInv(s: State, t: nat)
    requires Inv(s) && Enabled(s, Advance(t))
    requires s.threads[t].pc == WantInit || s.threads[t].pc == UnlockInit
    ensures Inv(Apply(s, Advance(t)))
  {
    hide CanLock, Acquire, Release, Touch;
  }

  lemma AssignKeepsInv(s: State, t: nat)
    requires Inv(s) && Enabled(s, Advance(t))
    requires s.threads[t].pc == SetNotify || s.threads[t].pc == SetMessages
    ensures Inv(Apply(s, Advance(t)))
  {
    hide CanLock, Acquire, Release, Touch;
  }

  lemma LockKeepsInv(s: State, t: nat)
    requires Inv(s) && Enabled(s, Advance(t))
    requires s.threads[t].pc == WantOp || s.threads[t].pc == Offering
    ensures Inv(Apply(s, Advance(t)))
  {
  }

  /** A reader that leaves takes only itself out of the readers; the last one frees the lock. */
  lemma UnlockKeepsInv(s: State, t: nat)
    requires Inv(s) && Enabled(s, Advance(t)) && s.threads[t].pc == UnlockOp
    ensures Inv(Apply(s, Advance(t)))
  {
    if s.lock.Reading? {
      var left := s.lock.ts - {t};
      forall u | u in s.threads && u != t
        ensures HoldsRead(s.threads[u]) <==> Release(s, t).Reading? && u in Release(s, t).ts
      {
        assert u in s.lock.ts <==> u in left;
      }
    }
  }

  lemma AccessKeepsInv(s: State, t: nat)
    requires Inv(s) && Enabled(s, Advance(t)) && s.threads[t].pc == Access
    ensures Inv(Apply(s, Advance(t)))
  {
  }

  lemma {:induction false} RunKeepsInv(steps: seq<Step>)
    requires Exec(INIT, steps).Some?
    ensures Inv(Exec(INIT, steps).value)
    decreases |steps|
  {
    if steps != [] {
      var front, step := steps[..|steps| - 1], steps[|steps| - 1];
      RunKeepsInv(front);
      var s := Exec(INIT, front).value;
      match step
      case Spawn(t, op) => SpawnKeepsInv(s, t, op);
      case Advance(t) =>
        match s.threads[t].pc
        case Access => AccessKeepsInv(s, t);
        case WantOp => LockKeepsInv(s, t);
        case UnlockOp => UnlockKeepsInv(s, t);
        case Offering => LockKeepsInv(s, t);
        case WantInit => InitLockKeepsInv(s, t);
        case UnlockInit => InitLockKeepsInv(s, t);
        case SetNotify => AssignKeepsInv(s, t);
        case SetMessages => AssignKeepsInv(s, t);
        case _ => CheckKeepsInv(s, t);
    }
  }

  /** Over any interleaving the list and the channel are created at most once, the list is never nil
      when it is accessed, every offer finds the channel, and no message put is lost to a second
      initialisation: the puts are the removed messages followed by the one list's contents. */
  lemma {:induction false} InitialisedOnce(steps: seq<Step>, t: nat)
    requires Exec(INIT, steps).Some?
    ensures var s := Exec(INIT, steps).value;
            && !s.panicked && |s.lists| <= 1 && s.channels <= 1 && s.missedOffers == 0
            && (t in s.threads && s.threads[t].pc == Access ==> s.messages == Some(0) && |s.lists| == 1)
            && (t in s.threads && s.threads[t].pc == Offering ==> s.notify)
            && s.puts == s.removed + if |s.lists| == 1 then s.lists[0] else []
  {
    RunKeepsInv(steps);
  }
}
