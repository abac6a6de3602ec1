/** Message headers: what sink.go reads of them, and what the broker does to `x-death`. */
module Headers {
  import opened Channels

  newtype byte = x: int | 0 <= x < 256

  type Bytes = seq<byte>

  /** The header values the source distinguishes by type assertion. */
  datatype Value =
    | Int64(i: int)
    | Text(text: string)
    | Binary(bytes: Bytes)
    | Array(items: seq<Value>)
    | Table(fields: map<string, Value>)
    | Other

  type Headers = map<string, Value>

  const DEATH := "x-death"
  const LAST_ERROR := "x-fluent-amqp-last-message-error"
  const EXPIRED := Text("expired")

  /** The int64 `count` of an x-death entry, 0 when there is none. */
  function CountOf(entry: Value): int {
    if entry.Table? && "count" in entry.fields && entry.fields["count"].Int64?
    then entry.fields["count"].i else 0
  }

  function Deaths(h: Headers): seq<Value> {
    if DEATH in h && h[DEATH].Array? then h[DEATH].items else []
  }

  /** `getRedelivery`: the count of the first entry, whatever queue and reason it is for. */
  function Redelivery(h: Headers): int {
    if Deaths(h) == [] then 0 else CountOf(Deaths(h)[0])
  }

  /** What is read: the int64 `count` of the first entry of an `x-death` array, for whatever queue and reason
      it was written; without one, 0. */
  lemma RedeliveryIsTheFirstCount(h: Headers)
    ensures forall first, rest, n ::
              DEATH in h && h[DEATH] == Array([first] + rest) && IsCounted(first, n) ==> Redelivery(h) == n
    ensures Redelivery(h) != 0 ==>
              exists first, rest, n ::
                DEATH in h && h[DEATH] == Array([first] + rest) && IsCounted(first, n) && n == Redelivery(h)
  {
    if Redelivery(h) != 0 {
      var items := h[DEATH].items;
      assert items == [items[0]] + items[1..];
      assert IsCounted(items[0], Redelivery(h));
    }
  }

  predicate IsCounted(entry: Value, n: int) {
    entry.Table? && "count" in entry.fields && entry.fields["count"] == Int64(n)
  }

  predicate IsExpiry(entry: Value, queue: string) {
    && entry.Table?
    && "queue" in entry.fields && entry.fields["queue"] == Text(queue)
    && "reason" in entry.fields && entry.fields["reason"] == EXPIRED
  }

  function FindExpiry(items: seq<Value>, queue: string): (r: Option<nat>)
    ensures r.Some? ==> r.value < |items| && IsExpiry(items[r.value], queue)
    ensures r.Some? ==> forall j :: 0 <= j < r.value ==> !IsExpiry(items[j], queue)
    ensures r.None? ==> forall j :: 0 <= j < |items| ==> !IsExpiry(items[j], queue)
  {
    if items == [] then None
    else if IsExpiry(items[0], queue) then Some(0)
    else
      match FindExpiry(items[1..], queue)
      case None =>
        assert forall j :: 1 <= j < |items| ==> items[j] == items[1..][j - 1];
        None
      case Some(j) =>
        assert forall i :: 1 <= i < |items| ==> items[i] == items[1..][i - 1];
        Some(j + 1)
  }

  /** How often the message expired in `queue`, by its headers. */
  function Expiries(h: Headers, queue: string): int {
    match FindExpiry(Deaths(h), queue)
    case None => 0
    case Some(j) => CountOf(Deaths(h)[j])
  }

  /** The broker's entry for one more expiry in `queue`. */
  function NextEntry(h: Headers, queue: string): Value {
    var n := Int64(Expiries(h, queue) + 1);
    match FindExpiry(Deaths(h), queue)
    case None => Table(map["queue" := Text(queue), "reason" := EXPIRED, "count" := n])
    case Some(j) => Table(Deaths(h)[j].fields["count" := n])
  }

  /** Broker assumption: a message that expires in `queue` gets the entry for that queue and reason
      incremented, or added, and moved to the front; an `x-death` that is no array is replaced. */
  function Expire(h: Headers, queue: string): Headers {
    var items := Deaths(h);
    var rest := match FindExpiry(items, queue)
                case None => items
                case Some(j) => items[..j] + items[j + 1..];
    h[DEATH := Array([NextEntry(h, queue)] + rest)]
  }

  /** After an expiry `getRedelivery` reads the number of expiries, whatever it read before. */
  lemma ExpireCountsUp(h: Headers, queue: string)
    ensures Redelivery(Expire(h, queue)) == Expiries(h, queue) + 1
    ensures Expiries(Expire(h, queue), queue) == Expiries(h, queue) + 1
  {
    var t := Expire(h, queue);
    assert Deaths(t)[0] == NextEntry(h, queue);
    assert IsExpiry(Deaths(t)[0], queue);
  }

  /** No other header is touched. */
  lemma ExpireKeepsOthers(h: Headers, queue: string, name: string)
    requires name != DEATH
    ensures name in Expire(h, queue) <==> name in h
    ensures name in h ==> Expire(h, queue)[name] == h[name]
  {
  }

  /** Recording the last error does not disturb the death count. */
  lemma LastErrorKeepsDeaths(h: Headers, err: string, queue: string)
    ensures var t := h[LAST_ERROR := Text(err)];
            Redelivery(t) == Redelivery(h) && Expiries(t, queue) == Expiries(h, queue)
  {
    assert Deaths(h[LAST_ERROR := Text(err)]) == Deaths(h);
  }
}
