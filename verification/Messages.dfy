/** Messages as values: what the sender publishes, what the broker delivers, and what one pass through
    the requeue queue does to them. */
module Messages {
  import opened Channels
  import opened Headers

  /** The properties `Requeue` copies besides the headers. A Go string is its bytes. */
  datatype Content = Content(
    messageId: Bytes,
    body: Bytes,
    correlationId: string,
    replyTo: string,
    contentType: string,
    contentEncoding: string,
    timestamp: int,
    kind: string)

  /** `headers` may be nil. `expiration` is in milliseconds; `persistent` is the delivery mode. */
  datatype Message = Message(content: Content, headers: Option<Headers>, expiration: Option<int>, persistent: bool)

  /** A message object, whose headers middleware and `RequeueWithError` write to. */
  class Envelope {
    var msg: Message

    constructor (msg: Message)
      ensures this.msg == msg
    {
      this.msg := msg;
    }
  }

  /** A nil table has no entries. */
  function Entries(m: Message): Headers {
    if m.headers.Some? then m.headers.value else map[]
  }

  /** `RequeueWithError` before it hands over: a non-nil error is noted in the headers. */
  function Noted(m: Message, err: Option<string>): Message {
    if err.Some? then m.(headers := Some(Entries(m)[LAST_ERROR := Text(err.value)])) else m
  }

  const MILLISECOND := 1_000_000

  /** A duration in whole milliseconds, cut off toward zero as Go's division does. */
  function Millis(nanos: int): (ms: int)
    ensures nanos >= 0 ==> 0 <= ms && ms * MILLISECOND <= nanos < (ms + 1) * MILLISECOND
    ensures nanos < 0 ==> ms <= 0 && (ms - 1) * MILLISECOND < nanos <= ms * MILLISECOND
  {
    if nanos >= 0 then nanos / MILLISECOND else -(-nanos / MILLISECOND)
  }

  /** The publishing `Requeue` builds: no delivery mode, and its own expiration. */
  function CopyOf(m: Message, timeout: int): Message {
    Message(m.content, m.headers, Some(Millis(timeout)), false)
  }

  /** The copy expires in the requeue queue and the broker moves it to the target queue. By the broker
      assumption of module Headers it then has an `x-death` entry; its expiration is dropped. */
  function Expired(m: Message, queue: string): Message {
    m.(headers := Some(Expire(Entries(m), queue)), expiration := None)
  }

  /** One cycle: a consumer requeues the message, with an error or without. */
  datatype Cycle = Cycle(err: Option<string>, timeout: int, queue: string)

  function Cycled(m: Message, c: Cycle): Message {
    Expired(CopyOf(Noted(m, c.err), c.timeout), c.queue)
  }

  function AllCycled(m: Message, cycles: seq<Cycle>): Message
    decreases |cycles|
  {
    if cycles == [] then m else Cycled(AllCycled(m, cycles[..|cycles| - 1]), cycles[|cycles| - 1])
  }

  lemma {:induction false} CyclesKeepContent(m: Message, cycles: seq<Cycle>)
    ensures AllCycled(m, cycles).content == m.content
    decreases |cycles|
  {
    if cycles != [] {
      CyclesKeepContent(m, cycles[..|cycles| - 1]);
    }
  }

  predicate Failing(cycles: seq<Cycle>) {
    exists i :: 0 <= i < |cycles| && cycles[i].err.Some?
  }

  lemma FailingSnoc(cycles: seq<Cycle>, c: Cycle)
    ensures Failing(cycles + [c]) <==> Failing(cycles) || c.err.Some?
  {
    var all := cycles + [c];
    assert all[|cycles|] == c;
    if Failing(cycles) {
      var i :| 0 <= i < |cycles| && cycles[i].err.Some?;
      assert all[i] == cycles[i];
    }
    if Failing(all) && !c.err.Some? {
      var i :| 0 <= i < |all| && all[i].err.Some?;
      assert cycles[i] == all[i];
    }
  }

  predicate SameHeader(h: Headers, t: Headers, name: string) {
    (name in t <==> name in h) && (name in h ==> t[name] == h[name])
  }

  lemma CycleAndHeader(m: Message, c: Cycle, name: string)
    ensures var h, t := Entries(m), Entries(Cycled(m, c));
            && (name == DEATH ==> name in t && t[name].Array?)
            && (name == LAST_ERROR && c.err.Some? ==> name in t && t[name] == Text(c.err.value))
            && (name != DEATH && !(name == LAST_ERROR && c.err.Some?) ==> SameHeader(h, t, name))
  {
    var copy := CopyOf(Noted(m, c.err), c.timeout);
    if name != DEATH {
      ExpireKeepsOthers(Entries(copy), c.queue, name);
    }
  }

  /** What any number of cycles does to one header: `x-death` is the broker's, the last error is the
      sink's, every other header arrives as it was sent. */
  lemma {:induction false} CyclesAndHeaders(m: Message, cycles: seq<Cycle>, name: string)
    ensures var t := Entries(AllCycled(m, cycles));
            && (name != DEATH && !(name == LAST_ERROR && Failing(cycles)) ==> SameHeader(Entries(m), t, name))
            && (name == DEATH && cycles != [] ==> name in t && t[name].Array?)
            && (name == LAST_ERROR && Failing(cycles) ==> name in t && IsLastError(cycles, t[name]))
    decreases |cycles|
  {
    hide Cycled, Expire;
    if cycles != [] {
      var front, c := cycles[..|cycles| - 1], cycles[|cycles| - 1];
      assert cycles == front + [c];
      CyclesAndHeaders(m, front, name);
      CycleAndHeader(AllCycled(m, front), c, name);
      FailingSnoc(front, c);
      if name == LAST_ERROR && Failing(cycles) {
        LastErrorSnoc(front, c, Entries(AllCycled(m, cycles))[name]);
      }
    }
  }

  /** `v` is the text of the last error noted in the cycles. */
  ghost predicate IsLastError(cycles: seq<Cycle>, v: Value) {
    exists i :: 0 <= i < |cycles| && cycles[i].err.Some? && v == Text(cycles[i].err.value)
                && forall j :: i < j < |cycles| ==> cycles[j].err.None?
  }

  lemma LastErrorSnoc(cycles: seq<Cycle>, c: Cycle, v: Value)
    requires if c.err.Some? then v == Text(c.err.value) else IsLastError(cycles, v)
    ensures IsLastError(cycles + [c], v)
  {
    var all := cycles + [c];
    if c.err.Some? {
      assert all[|cycles|] == c;
    } else {
      var i :| 0 <= i < |cycles| && cycles[i].err.Some? && v == Text(cycles[i].err.value)
               && forall j :: i < j < |cycles| ==> cycles[j].err.None?;
      assert all[i] == cycles[i];
    }
  }

  /** After n cycles through one requeue queue the count that `getRedelivery` reads has risen by n, whatever
      errors were noted; the copy is neither persistent nor does it expire in the target queue. */
  lemma {:induction false} CyclesAreCounted(m: Message, cycles: seq<Cycle>, queue: string)
    requires forall i :: 0 <= i < |cycles| ==> cycles[i].queue == queue
    ensures var t := AllCycled(m, cycles);
            && Expiries(Entries(t), queue) == Expiries(Entries(m), queue) + |cycles|
            && (cycles != [] ==>
                  Redelivery(Entries(t)) == Expiries(Entries(t), queue) && t.expiration == None && !t.persistent)
    decreases |cycles|
  {
    if cycles != [] {
      var front, c := cycles[..|cycles| - 1], cycles[|cycles| - 1];
      assert forall i :: 0 <= i < |front| ==> front[i] == cycles[i];
      CyclesAreCounted(m, front, queue);
      CycleCounts(AllCycled(m, front), c);
    }
  }

  lemma CycleCounts(m: Message, c: Cycle)
    ensures var t := Cycled(m, c);
            && Expiries(Entries(t), c.queue) == Redelivery(Entries(t)) == Expiries(Entries(m), c.queue) + 1
            && t.expiration == None && !t.persistent
  {
    if c.err.Some? {
      LastErrorKeepsDeaths(Entries(m), c.err.value, c.queue);
    }
    ExpireCountsUp(Entries(CopyOf(Noted(m, c.err), c.timeout)), c.queue);
  }
}
