/** What a single sequential sender may put on the wire: the reference the outbox is compared to.

    The sender walks an append-only log. A `Done` message is sent again until it succeeds, a `Try`
    message is sent once. The log's messages are told apart by the channel their caller waits on. */
module SendLog {
  import opened Channels

  datatype Kind = DoneKind | TryKind

  datatype Msg = Msg(id: nat, kind: Kind)

  /** One call of `ch.Publish` and whether it returned a nil error. */
  datatype Attempt = Attempt(msg: Msg, ok: bool)

  /** The attempt after which the sender moves on. */
  predicate Final(a: Attempt) {
    a.ok || a.msg.kind.TryKind?
  }

  /** How far a sequential sender of `log` has come after the attempts of `wire`; None if no
      sequential sender makes these attempts. */
  function Cursor(log: seq<Msg>, wire: seq<Attempt>): Option<nat>
    decreases |wire|
  {
    if wire == [] then Some(0)
    else
      var last := wire[|wire| - 1];
      match Cursor(log, wire[..|wire| - 1])
      case None => None
      case Some(c) =>
        if c < |log| && last.msg == log[c] then Some(if Final(last) then c + 1 else c) else None
  }

  function Finals(wire: seq<Attempt>): seq<Attempt>
    decreases |wire|
  {
    if wire == [] then []
    else
      var last := wire[|wire| - 1];
      Finals(wire[..|wire| - 1]) + if Final(last) then [last] else []
  }

  /** The messages the broker accepted, in the order it accepted them. */
  function Accepted(wire: seq<Attempt>): seq<Msg>
    decreases |wire|
  {
    if wire == [] then []
    else
      var last := wire[|wire| - 1];
      Accepted(wire[..|wire| - 1]) + if last.ok then [last.msg] else []
  }

  function Msgs(wire: seq<Attempt>): (r: seq<Msg>)
    ensures |r| == |wire|
    ensures forall j :: 0 <= j < |r| ==> r[j] == wire[j].msg
  {
    seq(|wire|, j requires 0 <= j < |wire| => wire[j].msg)
  }

  function Times(wire: seq<Attempt>, m: Msg): nat
    decreases |wire|
  {
    if wire == [] then 0
    else Times(wire[..|wire| - 1], m) + if wire[|wire| - 1].msg == m then 1 else 0
  }

  function TimesAccepted(wire: seq<Attempt>, m: Msg): nat
    decreases |wire|
  {
    if wire == [] then 0
    else TimesAccepted(wire[..|wire| - 1], m) + if wire[|wire| - 1] == Attempt(m, true) then 1 else 0
  }

  predicate DistinctIds(log: seq<Msg>) {
    forall i, j :: 0 <= i < j < |log| ==> log[i].id != log[j].id
  }

  /** The turns that have ended are those of the log's prefix, in log order. */
  lemma {:induction false} EndedTurnsAreAPrefix(log: seq<Msg>, wire: seq<Attempt>)
    requires Cursor(log, wire).Some?
    ensures Cursor(log, wire).value == |Finals(wire)| <= |log|
    ensures Msgs(Finals(wire)) == log[..|Finals(wire)|]
    decreases |wire|
  {
    if wire != [] {
      EndedTurnsAreAPrefix(log, wire[..|wire| - 1]);
    }
  }

  /** Growing the log at its end disturbs nothing that was sent. */
  lemma {:induction false} CursorOfLongerLog(log: seq<Msg>, more: seq<Msg>, wire: seq<Attempt>)
    requires Cursor(log, wire).Some?
    ensures Cursor(log + more, wire) == Cursor(log, wire)
    decreases |wire|
  {
    if wire != [] {
      CursorOfLongerLog(log, more, wire[..|wire| - 1]);
    }
  }

  /** The broker's log is the ended turns without the failed `Try` messages. */
  lemma {:induction false} AcceptedAreEndedTurns(wire: seq<Attempt>)
    ensures Accepted(wire) == Accepted(Finals(wire))
    decreases |wire|
  {
    if wire != [] {
      var front, last := wire[..|wire| - 1], wire[|wire| - 1];
      AcceptedAreEndedTurns(front);
      var ended := Finals(front);
      if Final(last) {
        assert (ended + [last])[..|ended + [last]| - 1] == ended;
      } else {
        assert ended + [] == ended;
      }
    }
  }

  /** How often the message in slot `i` was attempted and accepted: ended turns have exactly one
      acceptance for a `Done` message and exactly one attempt for a `Try` message, the current turn
      only failures, and later messages nothing. */
  lemma {:induction false} AttemptsOfSlot(log: seq<Msg>, wire: seq<Attempt>, i: nat)
    requires DistinctIds(log) && Cursor(log, wire).Some? && i < |log|
    ensures var c := Cursor(log, wire).value;
            && (i < c ==> |Finals(wire)| == c && Finals(wire)[i].msg == log[i]
                          && TimesAccepted(wire, log[i]) == (if Finals(wire)[i].ok then 1 else 0))
            && (i < c && log[i].kind.DoneKind? ==> TimesAccepted(wire, log[i]) == 1)
            && (i < c && log[i].kind.TryKind? ==> Times(wire, log[i]) == 1)
            && (i >= c ==> TimesAccepted(wire, log[i]) == 0)
            && (i >= c && log[i].kind.TryKind? ==> Times(wire, log[i]) == 0)
            && (i > c ==> Times(wire, log[i]) == 0)
            && (i == c && (wire == [] || Final(wire[|wire| - 1])) ==> Times(wire, log[i]) == 0)
    decreases |wire|
  {
    if wire != [] {
      var front := wire[..|wire| - 1];
      AttemptsOfSlot(log, front, i);
      EndedTurnsAreAPrefix(log, front);
    }
  }

  /** A sequential sender sends nothing that is not in its log. */
  lemma {:induction false} OnlyTheLogIsSent(log: seq<Msg>, wire: seq<Attempt>, m: Msg)
    requires Cursor(log, wire).Some? && m !in log
    ensures Times(wire, m) == 0 && TimesAccepted(wire, m) == 0
    decreases |wire|
  {
    if wire != [] {
      OnlyTheLogIsSent(log, wire[..|wire| - 1], m);
    }
  }
}
