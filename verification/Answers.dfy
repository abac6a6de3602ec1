/** What the callers of a publisher see (writer.go), over every run of the whole client: which messages
    were accepted by the broker, given what `TrySend`, `PublishWait` and the channel of `Send` tell. */
module Answers {
  import opened Channels
  import opened SendLog
  import Outbox
  import System

  /** A Go error that is nil or not. */
  datatype Error = Nil | NotNil

  /** What `TrySend` returns: it has no error for a message that middleware refused. */
  function TrySendError(r: Outbox.Result): Error {
    match r
    case Rejected => Nil
    case Completed => Nil
    case PublishFailed => NotNil
    case ContextDone => NotNil
  }

  /** What `PublishWait` returns. */
  function PublishWaitError(r: Outbox.Result): Error {
    match r
    case Completed => Nil
    case _ => NotNil
  }

  /** The channel `Send` returned is closed: from the start if middleware refused the message. */
  predicate SendClosed(box: Outbox.State, p: nat) {
    && p in box.calls && box.calls[p].kind.DoneKind?
    && (box.calls[p].pc == Outbox.Returned(Outbox.Rejected) || (p in box.dones && box.dones[p].closed))
  }

  predicate Refused(box: Outbox.State, p: nat) {
    Outbox.CallAt(box, p, Outbox.Returned(Outbox.Rejected))
  }

  /** Nil from `TrySend`: accepted, and in its only attempt, if and only if middleware passed the message;
      otherwise it was not even sent. */
  lemma {:induction false} NilFromTrySend(cfg: System.Config, steps: seq<System.Step>, p: nat)
    requires System.Exec(cfg, System.INIT, steps).Some?
    ensures var box := System.Exec(cfg, System.INIT, steps).value.box;
            var m := Msg(p, TryKind);
            p in box.calls && box.calls[p].kind.TryKind? && box.calls[p].pc.Returned?
            && TrySendError(box.calls[p].pc.result) == Nil ==>
              && (TimesAccepted(box.wire, m) == 1 <==> !Refused(box, p))
              && (if Refused(box, p) then Times(box.wire, m) == TimesAccepted(box.wire, m) == 0
                  else Times(box.wire, m) == 1)
  {
    System.RunKeepsInv(cfg, steps);
    var box := System.Exec(cfg, System.INIT, steps).value.box;
    if Refused(box, p) {
      Outbox.RejectedIsNeverSent(box, p);
    } else if p in box.calls && box.calls[p].kind.TryKind? && box.calls[p].pc == Outbox.Returned(Outbox.Completed) {
      Outbox.CallersLearnTheTruth(box, p);
      assert Outbox.CallServed(box, box.calls[p].slot);
      Outbox.FateOfSlot(box, box.calls[p].slot);
    }
  }

  /** An error from `TrySend`: the global context ended, or the only attempt was made and failed; and in
      every other case of a return there is none. */
  lemma {:induction false} ErrorFromTrySend(cfg: System.Config, steps: seq<System.Step>, p: nat)
    requires System.Exec(cfg, System.INIT, steps).Some?
    ensures var box := System.Exec(cfg, System.INIT, steps).value.box;
            var m := Msg(p, TryKind);
            p in box.calls && box.calls[p].kind.TryKind? && box.calls[p].pc.Returned? ==>
              (TrySendError(box.calls[p].pc.result) == NotNil <==>
                 || box.calls[p].pc.result == Outbox.ContextDone
                 || (Times(box.wire, m) == 1 && TimesAccepted(box.wire, m) == 0))
  {
    System.RunKeepsInv(cfg, steps);
    var box := System.Exec(cfg, System.INIT, steps).value.box;
    if p in box.calls && box.calls[p].kind.TryKind? && box.calls[p].pc.Returned? {
      if Refused(box, p) {
        Outbox.RejectedIsNeverSent(box, p);
      } else {
        Outbox.CallersLearnTheTruth(box, p);
      }
    }
  }

  /** A closed channel from `Send`: accepted exactly once if and only if middleware passed the message;
      otherwise it was not even sent. */
  lemma {:induction false} ClosedFromSend(cfg: System.Config, steps: seq<System.Step>, p: nat)
    requires System.Exec(cfg, System.INIT, steps).Some?
    ensures var box := System.Exec(cfg, System.INIT, steps).value.box;
            var m := Msg(p, DoneKind);
            SendClosed(box, p) ==>
              && (TimesAccepted(box.wire, m) == 1 <==> !Refused(box, p))
              && (Refused(box, p) ==> Times(box.wire, m) == TimesAccepted(box.wire, m) == 0)
  {
    System.RunKeepsInv(cfg, steps);
    var box := System.Exec(cfg, System.INIT, steps).value.box;
    if Refused(box, p) {
      Outbox.RejectedIsNeverSent(box, p);
    } else if SendClosed(box, p) {
      Outbox.CallersLearnTheTruth(box, p);
    }
  }

  /** Nil from `PublishWait` needs no condition: it means accepted exactly once. An error means that
      middleware refused the message, and then it was not sent, or that the caller's context ended. */
  lemma {:induction false} NilFromPublishWait(cfg: System.Config, steps: seq<System.Step>, p: nat)
    requires System.Exec(cfg, System.INIT, steps).Some?
    ensures var box := System.Exec(cfg, System.INIT, steps).value.box;
            p in box.calls && box.calls[p].kind.DoneKind? && box.calls[p].pc.Returned?
            && PublishWaitError(box.calls[p].pc.result) == Nil ==>
              TimesAccepted(box.wire, Msg(p, DoneKind)) == 1
    ensures var box := System.Exec(cfg, System.INIT, steps).value.box;
            p in box.calls && box.calls[p].kind.DoneKind? && box.calls[p].pc.Returned? ==>
              (PublishWaitError(box.calls[p].pc.result) == NotNil <==>
                 || (Refused(box, p) && Times(box.wire, Msg(p, DoneKind)) == 0)
                 || box.calls[p].pc.result == Outbox.ContextDone)
  {
    System.RunKeepsInv(cfg, steps);
    var box := System.Exec(cfg, System.INIT, steps).value.box;
    if p in box.calls {
      Outbox.CallersLearnTheTruth(box, p);
      if Refused(box, p) {
        Outbox.RejectedIsNeverSent(box, p);
      }
    }
  }

  /** Runs in which they mislead: one refused call each, nil and a closed channel, nothing sent. */
  lemma RefusedLooksSent(cfg: System.Config, kind: Kind)
    ensures exists steps :: System.Exec(cfg, System.INIT, steps).Some?
                            && var box := System.Exec(cfg, System.INIT, steps).value.box;
                               Refused(box, 0) && box.wire == []
                               && (kind.TryKind? ==> TrySendError(box.calls[0].pc.result) == Nil)
                               && (kind.DoneKind? ==> SendClosed(box, 0))
  {
    var step := System.Box(Outbox.Reject(0, kind));
    assert [step][..0] == [];
    assert System.Exec(cfg, System.INIT, []) == Some(System.INIT);
    var s := System.Exec(cfg, System.INIT, [step]);
    assert s.Some? && Refused(s.value.box, 0);
  }

  // ---- Completion ----

  /** In every run: `Done` is closed exactly when the message is settled, or just before its `Commit`;
      and it was accepted exactly when that is so or the close is the consumer's next step. */
  lemma {:induction false} DoneIsClosedExactly(cfg: System.Config, steps: seq<System.Step>, i: nat)
    requires System.Exec(cfg, System.INIT, steps).Some?
    ensures var box := System.Exec(cfg, System.INIT, steps).value.box;
            i < |box.puts| && box.puts[i].kind.DoneKind? ==>
              var p := box.puts[i].id;
              && p in box.dones
              && (box.dones[p].closed <==>
                    i < |box.settled| || (i == |box.settled| && Outbox.Head(box).DroppingDone?))
              && (TimesAccepted(box.wire, box.puts[i]) == 1 <==>
                    box.dones[p].closed || (i == |box.settled| && Outbox.Head(box).ClosingDone?))
  {
    System.RunKeepsInv(cfg, steps);
    var box := System.Exec(cfg, System.INIT, steps).value.box;
    if i < |box.puts| && box.puts[i].kind.DoneKind? {
      Outbox.DoneIsClosedExactly(box, i);
    }
  }

  /** In every run: a settled `Try` is closed, and its one outcome is in the channel or with the caller. */
  lemma {:induction false} TryIsAnsweredExactly(cfg: System.Config, steps: seq<System.Step>, i: nat)
    requires System.Exec(cfg, System.INIT, steps).Some?
    ensures var box := System.Exec(cfg, System.INIT, steps).value.box;
            i < |box.puts| && box.puts[i].kind.TryKind? ==>
              var p := box.puts[i].id;
              && p in box.tries && p in box.calls
              && (box.tries[p].closed <==>
                    i < |box.settled| || (i == |box.settled| && Outbox.Head(box).DroppingTry?))
              && (i < |box.settled| ==>
                    if box.calls[p].pc.Returned? && box.calls[p].pc.result != Outbox.ContextDone
                    then box.tries[p].buf == []
                         && box.calls[p].pc.result
                            == if box.settled[i].ok then Outbox.Completed else Outbox.PublishFailed
                    else box.tries[p].buf == [box.settled[i].ok])
  {
    System.RunKeepsInv(cfg, steps);
    var box := System.Exec(cfg, System.INIT, steps).value.box;
    if i < |box.puts| && box.puts[i].kind.TryKind? {
      Outbox.TryIsAnsweredExactly(box, i);
    }
  }
}
