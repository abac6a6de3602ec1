/** Message signing (certs.go) in the sender's middleware chain (writer.go), and its validation after any
    number of passes through the requeue queue. Keys are abstract: a signing and a checking function. */
module Signing {
  import opened Channels
  import opened Headers
  import opened Messages

  /** RSASSA-PKCS1-v1_5 of section 8.2 of RFC 8017 over a hash, or any other scheme: `sign` may fail. */
  datatype Scheme = Scheme(hash: Bytes -> Bytes, sign: Bytes -> Option<Bytes>, check: (Bytes, Bytes) -> bool)

  /** The certificate belongs to the private key: every signature made is accepted. */
  ghost predicate Correct(k: Scheme) {
    forall digest :: k.sign(digest).Some? ==> k.check(digest, k.sign(digest).value)
  }

  /** `sign`: the signature is over the digest of the data. */
  function Sign(k: Scheme, data: Bytes): Option<Bytes> {
    k.sign(k.hash(data))
  }

  /** `CheckSignature` over the same hash. */
  predicate Verifies(k: Scheme, data: Bytes, signature: Bytes) {
    k.check(k.hash(data), signature)
  }

  function SignedData(m: Message): Bytes {
    m.content.messageId + m.content.body
  }

  /** What a sender's middleware makes of a message. */
  datatype Verdict = Passed(msg: Message) | Rejected | Panicked

  datatype Handler = Signer(header: string, key: Scheme) | Custom(f: Message -> Verdict)

  function SignerVerdict(header: string, key: Scheme, m: Message): Verdict {
    match Sign(key, SignedData(m))
    case None => Panicked
    case Some(signature) => Passed(m.(headers := Some(Entries(m)[header := Binary(signature)])))
  }

  function HandlerVerdict(h: Handler, m: Message): Verdict {
    match h
    case Signer(header, key) => SignerVerdict(header, key, m)
    case Custom(f) => f(m)
  }

  /** `processMessage`: the handlers in order, up to the first that does not pass the message on. */
  function Process(chain: seq<Handler>, m: Message): Verdict
    decreases |chain|
  {
    if chain == [] then Passed(m)
    else
      match HandlerVerdict(chain[0], m)
      case Passed(t) => Process(chain[1..], t)
      case other => other
  }

  predicate Accepts(header: string, key: Scheme, m: Message) {
    && header in Entries(m)
    && Entries(m)[header].Binary?
    && Verifies(key, SignedData(m), Entries(m)[header].bytes)
  }

  // ---- The code ----

  /** Go's `copy` of `src` to `dst[at:]`: as much as fits. */
  method Copy(dst: array<byte>, at: nat, src: Bytes) returns (n: nat)
    requires at <= dst.Length
    modifies dst
    ensures n == if |src| <= dst.Length - at then |src| else dst.Length - at
    ensures dst[..] == old(dst[..at]) + src[..n] + old(dst[at + n..])
  {
    n := 0;
    while n < |src| && at + n < dst.Length
      invariant 0 <= n <= |src| && at + n <= dst.Length
      invariant dst[..at] == old(dst[..at])
      invariant dst[at..at + n] == src[..n]
      invariant dst[at + n..] == old(dst[at + n..])
    {
      dst[at + n] := src[n];
      n := n + 1;
    }
    assert dst[..] == dst[..at] + dst[at..at + n] + dst[at + n..];
  }

  /** The buffer both handlers fill: the message id, then the body. */
  method Data(m: Message) returns (data: array<byte>)
    ensures fresh(data) && data[..] == m.content.messageId + m.content.body == SignedData(m)
  {
    var id, body := m.content.messageId, m.content.body;
    data := new byte[|id| + |body|];
    var n := Copy(data, 0, id);
    assert data[..|id|] == id;
    n := Copy(data, |id|, body);
  }

  class MessageSigner {
    const header: string
    const key: Scheme

    constructor (header: string, key: Scheme)
      ensures this.header == header && this.key == key
    {
      this.header, this.key := header, key;
    }

    /** Signs and writes the header, making the table if there is none; a signing error is a panic. */
    method Handle(e: Envelope) returns (panicked: bool)
      modifies e
      ensures var signature := key.sign(key.hash(old(e.msg).content.messageId + old(e.msg).content.body));
              && (panicked <==> signature.None?)
              && (!panicked ==>
                    && e.msg.headers.Some? && e.msg == old(e.msg).(headers := e.msg.headers)
                    && e.msg.headers.value == (match old(e.msg).headers
                                               case None => map[]
                                               case Some(h) => h)[header := Binary(signature.value)])
      ensures SignerVerdict(header, key, old(e.msg)) == if panicked then Panicked else Passed(e.msg)
      ensures panicked ==> e.msg == old(e.msg)
    {
      var data := Data(e.msg);
      var signature := Sign(key, data[..]);
      if signature.None? {
        return true;
      }
      if e.msg.headers.None? {
        e.msg := e.msg.(headers := Some(map[]));
      }
      e.msg := e.msg.(headers := Some(e.msg.headers.value[header := Binary(signature.value)]));
      panicked := false;
    }
  }

  class MessageValidator {
    const header: string
    const key: Scheme

    constructor (header: string, key: Scheme)
      ensures this.header == header && this.key == key
    {
      this.header, this.key := header, key;
    }

    method Handle(m: Message) returns (ok: bool)
      ensures ok <==>
                && m.headers.Some? && header in m.headers.value && m.headers.value[header].Binary?
                && key.check(key.hash(m.content.messageId + m.content.body), m.headers.value[header].bytes)
      ensures ok == Accepts(header, key, m)
    {
      if m.headers.None? {
        return false;
      }
      if header !in m.headers.value {
        return false;
      }
      var raw := m.headers.value[header];
      if !raw.Binary? {
        return false;
      }
      var data := Data(m);
      ok := Verifies(key, data[..], raw.bytes);
    }
  }

  /** Handler `h` hands message `m` on as `t`: a custom one says so, a signer writes its signature. */
  predicate HandsOn(h: Handler, m: Message, t: Message) {
    match h
    case Custom(f) => f(m) == Passed(t)
    case Signer(header, key) =>
      var signature := key.sign(key.hash(m.content.messageId + m.content.body));
      && signature.Some? && t.headers.Some? && t == m.(headers := t.headers)
      && t.headers.value == (match m.headers
                             case None => map[]
                             case Some(h) => h)[header := Binary(signature.value)]
  }

  /** `ms` are the message before and after each of the first `|ms| - 1` handlers. */
  ghost predicate Path(chain: seq<Handler>, m: Message, ms: seq<Message>) {
    && 0 < |ms| <= |chain| + 1 && ms[0] == m
    && forall i :: 0 <= i < |ms| - 1 ==> HandsOn(chain[i], ms[i], ms[i + 1])
  }

  /** Some handler is reached by a path and refuses, or panics. */
  ghost predicate Refuses(chain: seq<Handler>, m: Message) {
    exists ms :: Path(chain, m, ms) && |ms| <= |chain|
                 && chain[|ms| - 1].Custom? && chain[|ms| - 1].f(ms[|ms| - 1]).Rejected?
  }

  ghost predicate Panics(chain: seq<Handler>, m: Message) {
    exists ms :: Path(chain, m, ms) && |ms| <= |chain|
                 && var h, t := chain[|ms| - 1], ms[|ms| - 1];
                    match h
                    case Custom(f) => f(t).Panicked?
                    case Signer(_, key) => key.sign(key.hash(t.content.messageId + t.content.body)).None?
  }

  ghost predicate HandsThrough(chain: seq<Handler>, m: Message, t: Message) {
    exists ms :: Path(chain, m, ms) && |ms| == |chain| + 1 && ms[|chain|] == t
  }

  lemma {:induction false} PathsAgree(chain: seq<Handler>, m: Message, ms: seq<Message>, ns: seq<Message>, i: nat)
    requires Path(chain, m, ms) && Path(chain, m, ns) && i < |ms| && i < |ns|
    ensures ms[i] == ns[i]
    decreases i
  {
    if i > 0 {
      PathsAgree(chain, m, ms, ns, i - 1);
      assert HandsOn(chain[i - 1], ms[i - 1], ms[i]) && HandsOn(chain[i - 1], ns[i - 1], ns[i]);
    }
  }

  /** Where a path ends it cannot go on otherwise: the three outcomes exclude each other. */
  lemma OneOutcome(chain: seq<Handler>, m: Message)
    ensures !(Refuses(chain, m) && Panics(chain, m))
    ensures forall t :: HandsThrough(chain, m, t) ==> !Refuses(chain, m) && !Panics(chain, m)
    ensures forall t, u :: HandsThrough(chain, m, t) && HandsThrough(chain, m, u) ==> t == u
  {
    forall ms, ns | Path(chain, m, ms) && Path(chain, m, ns) && |ms| <= |ns|
      ensures ms[|ms| - 1] == ns[|ms| - 1]
      ensures |ms| < |ns| ==> HandsOn(chain[|ms| - 1], ms[|ms| - 1], ns[|ms|])
    {
      PathsAgree(chain, m, ms, ns, |ms| - 1);
    }
  }

  lemma ExtendPath(chain: seq<Handler>, m: Message, ms: seq<Message>, t: Message)
    requires Path(chain, m, ms) && |ms| <= |chain| && HandsOn(chain[|ms| - 1], ms[|ms| - 1], t)
    ensures Path(chain, m, ms + [t])
  {
  }

  /** `processMessage`: true if and only if every handler in turn hands the message on, and then the message
      is what the last one made of it; false if and only if a handler that is reached refuses it. */
  method ProcessMessage(chain: seq<Handler>, e: Envelope) returns (ok: bool, panicked: bool)
    modifies e
    ensures ok && !panicked <==> exists t :: HandsThrough(chain, old(e.msg), t)
    ensures ok && !panicked ==> HandsThrough(chain, old(e.msg), e.msg)
    ensures !ok && !panicked <==> Refuses(chain, old(e.msg))
    ensures panicked <==> Panics(chain, old(e.msg))
    ensures match Process(chain, old(e.msg))
            case Passed(m) => ok && !panicked && e.msg == m
            case Rejected => !ok && !panicked
            case Panicked => panicked
  {
    OneOutcome(chain, e.msg);
    ghost var ms := [e.msg];
    var i := 0;
    while i < |chain|
      invariant 0 <= i <= |chain|
      invariant Process(chain, old(e.msg)) == Process(chain[i..], e.msg)
      invariant Path(chain, old(e.msg), ms) && |ms| == i + 1 && ms[i] == e.msg
    {
      match chain[i] {
        case Signer(header, key) =>
          var signer := new MessageSigner(header, key);
          var failed := signer.Handle(e);
          if failed {
            return false, true;
          }
        case Custom(f) =>
          match f(e.msg) {
            case Passed(m) => e.msg := m;
            case Rejected => return false, false;
            case Panicked => return false, true;
          }
      }
      assert chain[i..][1..] == chain[i + 1..];
      ExtendPath(chain, old(e.msg), ms, e.msg);
      ms := ms + [e.msg];
      i := i + 1;
    }
    assert HandsThrough(chain, old(e.msg), e.msg);
    return true, false;
  }

  // ---- What holds of it ----

  /** The handler leaves the message id, the body and one header as they are. */
  ghost predicate Keeps(h: Handler, header: string) {
    forall m :: HandlerVerdict(h, m).Passed? ==> SameSigned(m, HandlerVerdict(h, m).msg, header)
  }

  predicate SameSigned(m: Message, t: Message, header: string) {
    && SignedData(t) == SignedData(m)
    && (header in Entries(m) ==> header in Entries(t) && Entries(t)[header] == Entries(m)[header])
  }

  /** A second signer with a header of its own leaves the first signature alone. */
  lemma OtherSignersKeep(header: string, other: string, key: Scheme)
    requires other != header
    ensures Keeps(Signer(other, key), header)
  {
  }

  lemma {:induction false} ChainKeeps(chain: seq<Handler>, m: Message, header: string)
    requires forall h :: h in chain ==> Keeps(h, header)
    requires Process(chain, m).Passed?
    ensures SameSigned(m, Process(chain, m).msg, header)
    decreases |chain|
  {
    if chain != [] {
      assert chain[0] in chain;
      ChainKeeps(chain[1..], HandlerVerdict(chain[0], m).msg, header);
    }
  }

  /** What comes before the signer does not matter. */
  lemma {:induction false} ProcessConcat(first: seq<Handler>, second: seq<Handler>, m: Message)
    ensures Process(first + second, m)
            == match Process(first, m)
               case Passed(t) => Process(second, t)
               case other => other
    decreases |first|
  {
    if first == [] {
      assert first + second == second;
    } else {
      assert (first + second)[1..] == first[1..] + second;
      match HandlerVerdict(first[0], m)
      case Passed(t) => ProcessConcat(first[1..], second, t);
      case _ =>
    }
  }

  /** A message signed anywhere in the chain leaves it with a valid signature. */
  lemma SenderSigns(before: seq<Handler>, header: string, key: Scheme, after: seq<Handler>, m: Message)
    requires Correct(key) && (forall h :: h in after ==> Keeps(h, header))
    requires Process(before + [Signer(header, key)] + after, m).Passed?
    ensures Accepts(header, key, Process(before + [Signer(header, key)] + after, m).msg)
  {
    var signer := [Signer(header, key)];
    ProcessConcat(before + signer, after, m);
    ProcessConcat(before, signer, m);
    var t := Process(before, m).msg;
    assert Process(signer, t) == SignerVerdict(header, key, t);
    ChainKeeps(after, Process(signer, t).msg, header);
  }

  /** The header survives the requeue queue: it is not the broker's, and not the sink's once that wrote. */
  predicate HeaderSurvives(header: string, cycles: seq<Cycle>) {
    !(header == DEATH && cycles != []) && !(header == LAST_ERROR && Failing(cycles))
  }

  /** Requeueing any number of times changes the validator's verdict on no message whose signature header
      survives, and makes it reject every message whose header does not. */
  lemma CyclesAndVerdict(header: string, key: Scheme, m: Message, cycles: seq<Cycle>)
    ensures Accepts(header, key, AllCycled(m, cycles)) <==> HeaderSurvives(header, cycles) && Accepts(header, key, m)
  {
    CyclesKeepContent(m, cycles);
    CyclesAndHeaders(m, cycles, header);
  }

  /** A message that left the sender's chain, requeued any number of times, is accepted if and only if
      the signature header is neither `x-death` nor, once an error was noted, the last-error header. */
  lemma SignatureSurvivesRequeueing(before: seq<Handler>, header: string, key: Scheme, after: seq<Handler>,
                                    m: Message, cycles: seq<Cycle>)
    requires Correct(key) && (forall h :: h in after ==> Keeps(h, header))
    requires Process(before + [Signer(header, key)] + after, m).Passed?
    ensures var sent := Process(before + [Signer(header, key)] + after, m).msg;
            Accepts(header, key, AllCycled(sent, cycles)) <==> HeaderSurvives(header, cycles)
  {
    SenderSigns(before, header, key, after, m);
    CyclesAndVerdict(header, key, Process(before + [Signer(header, key)] + after, m).msg, cycles);
  }

  /** No signature stands for two different pieces of data. */
  ghost predicate Binding(k: Scheme) {
    forall x, y, signature ::
      k.check(k.hash(x), signature) && k.check(k.hash(y), signature) ==> x == y
  }

  /** Nothing is accepted, after any number of requeue cycles, without a signature in the header it was
      given, bytes which the key accepts for this id and body. */
  lemma AcceptedMeansVerified(header: string, key: Scheme, m: Message, cycles: seq<Cycle>)
    requires Accepts(header, key, AllCycled(m, cycles))
    ensures && m.headers.Some? && header in m.headers.value && m.headers.value[header].Binary?
            && key.check(key.hash(m.content.messageId + m.content.body), m.headers.value[header].bytes)
  {
    CyclesAndVerdict(header, key, m, cycles);
  }

  /** A message `n` that bears the signature of a message that left the sender's chain is accepted, after any
      number of requeue cycles, if and only if its id and body put together are those that were signed. */
  lemma TamperingIsDetected(before: seq<Handler>, header: string, key: Scheme, after: seq<Handler>,
                            m: Message, n: Message, cycles: seq<Cycle>)
    requires Correct(key) && Binding(key) && (forall h :: h in after ==> Keeps(h, header))
    requires Process(before + [Signer(header, key)] + after, m).Passed?
    requires var sent := Process(before + [Signer(header, key)] + after, m).msg;
             header in Entries(sent) && header in Entries(n) && Entries(n)[header] == Entries(sent)[header]
    ensures var sent := Process(before + [Signer(header, key)] + after, m).msg;
            Accepts(header, key, AllCycled(n, cycles)) <==>
              HeaderSurvives(header, cycles)
              && n.content.messageId + n.content.body == sent.content.messageId + sent.content.body
  {
    SenderSigns(before, header, key, after, m);
    CyclesAndVerdict(header, key, n, cycles);
  }

  /** Among messages whose ids have one length the signed data identifies both the id and the body. */
  lemma SignedDataIdentifies(m: Message, n: Message)
    requires |m.content.messageId| == |n.content.messageId|
    ensures SignedData(m) == SignedData(n) <==>
              m.content.messageId == n.content.messageId && m.content.body == n.content.body
  {
    var k := |m.content.messageId|;
    assert SignedData(m)[..k] == m.content.messageId && SignedData(m)[k..] == m.content.body;
    assert SignedData(n)[..k] == n.content.messageId && SignedData(n)[k..] == n.content.body;
  }
}
