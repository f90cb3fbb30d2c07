/** Newline-delimited framing of JSON-RPC messages, and the mutex around the writer.

    A message is its JSON encoding, a byte sequence. */
module Transport {
  import opened Text

  newtype byte = b: int | 0 <= b < 256

  type Bytes = seq<byte>

  const NEWLINE: byte := 10
  const CARRIAGE_RETURN: byte := 13

  /** Encodings the framing can carry. */
  predicate Framable(m: Bytes) {
    m != [] && NEWLINE !in m && m[|m| - 1] != CARRIAGE_RETURN
  }

  function Frames(messages: seq<Bytes>): Bytes
    decreases |messages|
  {
    if messages == [] then [] else messages[0] + [NEWLINE] + Frames(messages[1..])
  }

  // ---- Reading ----

  /** Length of the first line without its newline; `ReadBytes` fails when there is none. */
  function LineLength(stream: Bytes): (n: Option<nat>)
    ensures n.Some? ==> n.value < |stream| && stream[n.value] == NEWLINE && NEWLINE !in stream[..n.value]
    ensures n.None? ==> NEWLINE !in stream
    decreases |stream|
  {
    if stream == [] then None
    else if stream[0] == NEWLINE then Some(0)
    else
      match LineLength(stream[1..])
      case None => None
      case Some(k) =>
        assert stream[..k + 1] == [stream[0]] + stream[1..][..k];
        Some(k + 1)
  }

  function StripCarriageReturn(line: Bytes): Bytes {
    if line != [] && line[|line| - 1] == CARRIAGE_RETURN then line[..|line| - 1] else line
  }

  datatype Read = EndOfStream | Got(message: Bytes, rest: Bytes)

  /** One call of `ReadMessage`: empty lines are skipped, an unfinished line is an error. */
  function ReadOne(stream: Bytes): (r: Read)
    ensures r.Got? ==> |r.rest| < |stream| && r.message != [] && NEWLINE !in r.message
    decreases |stream|
  {
    match LineLength(stream)
    case None => EndOfStream
    case Some(n) =>
      var line, rest := StripCarriageReturn(stream[..n]), stream[n + 1..];
      if line == [] then ReadOne(rest) else Got(line, rest)
  }

  function ReadAll(stream: Bytes): (messages: seq<Bytes>)
    ensures forall m :: m in messages ==> m != [] && NEWLINE !in m
    decreases |stream|
  {
    match ReadOne(stream)
    case EndOfStream => []
    case Got(message, rest) => [message] + ReadAll(rest)
  }

  /** The reading side: a position that only moves forward. */
  class Reader {
    const stream: Bytes
    var position: nat

    constructor (stream: Bytes)
      ensures this.stream == stream && position == 0
    {
      this.stream := stream;
      position := 0;
    }

    /** `bufio.Reader.ReadBytes('\n')`; on failure the unfinished line is consumed too. */
    method ReadLine() returns (line: Option<Bytes>)
      requires position <= |stream|
      modifies this
      ensures old(position) <= position <= |stream|
      ensures match LineLength(stream[old(position)..]) {
                case None => line == None && position == |stream|
                case Some(n) =>
                  line == Some(stream[old(position)..][..n + 1]) && stream[position..] == stream[old(position)..][n + 1..]
              }
    {
      ghost var here := stream[position..];
      var start := position;
      while position < |stream| && stream[position] != NEWLINE
        invariant start <= position <= |stream|
        invariant NEWLINE !in stream[start..position]
        modifies this
      {
        assert stream[start..position + 1] == stream[start..position] + [stream[position]];
        position := position + 1;
      }
      if position == |stream| {
        assert here == stream[start..position];
        return None;
      }
      ghost var n := position - start;
      assert here[n] == NEWLINE && here[..n] == stream[start..position];
      FirstLine(here, n);
      position := position + 1;
      line := Some(stream[start..position]);
      assert stream[position..] == here[n + 1..];
      assert stream[start..position] == here[..n + 1];
    }

    /** `ReadMessage`: `None` is the error at the end of the stream. */
    method ReadMessage() returns (message: Option<Bytes>)
      requires position <= |stream|
      modifies this
      ensures position <= |stream|
      ensures match ReadOne(stream[old(position)..]) {
                case EndOfStream => message == None
                case Got(m, rest) => message == Some(m) && stream[position..] == rest
              }
      decreases |stream| - position
    {
      ghost var here := stream[position..];
      var read := ReadLine();
      if read.None? {
        return None;
      }
      var line := read.value;
      Chop(here, LineLength(here).value);
      if |line| > 0 && line[|line| - 1] == NEWLINE {
        line := line[..|line| - 1];
      }
      if |line| > 0 && line[|line| - 1] == CARRIAGE_RETURN {
        line := line[..|line| - 1];
      }
      assert line == StripCarriageReturn(here[..LineLength(here).value]);
      if |line| == 0 {
        message := ReadMessage();
        return;
      }
      return Some(line);
    }
  }

  lemma Chop(bytes: Bytes, n: nat)
    requires n < |bytes|
    ensures bytes[..n + 1][..n] == bytes[..n]
  {
  }

  lemma {:induction false} FirstLine(stream: Bytes, n: nat)
    requires n < |stream| && stream[n] == NEWLINE && NEWLINE !in stream[..n]
    ensures LineLength(stream) == Some(n)
    decreases n
  {
    if n > 0 {
      assert stream[0] == stream[..n][0];
      assert stream[1..][..n - 1] == stream[..n][1..];
      FirstLine(stream[1..], n - 1);
    }
  }

  // ---- What comes back ----

  /** What reading yields for newline-free messages, whatever they end in. */
  function Received(messages: seq<Bytes>): seq<Bytes>
    decreases |messages|
  {
    if messages == [] then []
    else
      var line := StripCarriageReturn(messages[0]);
      (if line == [] then [] else [line]) + Received(messages[1..])
  }

  lemma {:induction false} ReadFrames(messages: seq<Bytes>)
    requires forall m :: m in messages ==> NEWLINE !in m
    ensures ReadAll(Frames(messages)) == Received(messages)
    decreases |messages|
  {
    if messages != [] {
      var m, tail := messages[0], Frames(messages[1..]);
      var stream := m + [NEWLINE] + tail;
      assert stream[|m|] == NEWLINE && stream[..|m|] == m && stream[|m| + 1..] == tail;
      FirstLine(stream, |m|);
      ReadFrames(messages[1..]);
    }
  }

  function Size(messages: seq<Bytes>): nat
    decreases |messages|
  {
    if messages == [] then 0 else |messages[0]| + Size(messages[1..])
  }

  lemma {:induction false} ReceivedIsNoLarger(messages: seq<Bytes>)
    ensures Size(Received(messages)) <= Size(messages)
    ensures (exists m :: m in messages && m != [] && m[|m| - 1] == CARRIAGE_RETURN)
            ==> Size(Received(messages)) < Size(messages)
    decreases |messages|
  {
    if messages != [] {
      ReceivedIsNoLarger(messages[1..]);
      var line := StripCarriageReturn(messages[0]);
      assert [line][1..] + Received(messages[1..]) == Received(messages[1..]);
      assert line != [] ==> Received(messages)[1..] == Received(messages[1..]);
      assert line == [] ==> Received(messages) == Received(messages[1..]);
    }
  }

  lemma {:induction false} FramableIsReceived(messages: seq<Bytes>)
    requires forall m :: m in messages ==> Framable(m)
    ensures Received(messages) == messages
    decreases |messages|
  {
    if messages != [] {
      FramableIsReceived(messages[1..]);
      assert Framable(messages[0]);
      assert messages == [messages[0]] + messages[1..];
    }
  }

  /** Reading undoes writing exactly for messages that are non-empty, newline-free and do
      not end in a carriage return. */
  lemma RoundTripIffFramable(messages: seq<Bytes>)
    ensures ReadAll(Frames(messages)) == messages <==> forall m :: m in messages ==> Framable(m)
  {
    if forall m :: m in messages ==> Framable(m) {
      ReadFrames(messages);
      FramableIsReceived(messages);
    } else if ReadAll(Frames(messages)) == messages {
      ReadFrames(messages);
      ReceivedIsNoLarger(messages);
      assert false;
    }
  }

  /** The writing side, between taking and releasing the mutex. */
  class Writer {
    var stream: Bytes
    ghost var sent: seq<Bytes>

    ghost predicate Valid()
      reads this
    {
      stream == Frames(sent)
    }

    constructor ()
      ensures Valid() && sent == []
    {
      stream, sent := [], [];
    }

    method WriteMessage(data: Bytes)
      requires Valid()
      modifies this
      ensures Valid() && sent == old(sent) + [data]
    {
      FramesAppend(sent, data);
      stream := stream + data;
      stream := stream + [NEWLINE];
      sent := sent + [data];
    }
  }

  // ---- Concurrent writers ----

  type WriterId = nat

  /** A writer inside `WriteMessage`: waiting for the mutex, holding it, body written. */
  datatype WriterPc = Waiting(data: Bytes) | Locked(data: Bytes) | BodyWritten(data: Bytes) | Unlocking | Idle

  /** `order` is the history of messages by the moment their writer took the mutex. */
  datatype Wire = Wire(stream: Bytes, owner: Option<WriterId>, writers: map<WriterId, WriterPc>, order: seq<Bytes>)

  const SILENT := Wire([], None, map[], [])

  datatype Action = Call(w: WriterId, data: Bytes) | Lock(w: WriterId) | WriteBody(w: WriterId) | WriteNewline(w: WriterId) | Unlock(w: WriterId)

  predicate Enabled(s: Wire, a: Action) {
    match a
    case Call(w, _) => w in s.writers ==> s.writers[w].Idle?
    case Lock(w) => w in s.writers && s.writers[w].Waiting? && s.owner.None?
    case WriteBody(w) => w in s.writers && s.writers[w].Locked?
    case WriteNewline(w) => w in s.writers && s.writers[w].BodyWritten?
    case Unlock(w) => w in s.writers && s.writers[w].Unlocking?
  }

  function Apply(s: Wire, a: Action): Wire
    requires Enabled(s, a)
  {
    match a
    case Call(w, data) => s.(writers := s.writers[w := Waiting(data)])
    case Lock(w) =>
      var data := s.writers[w].data;
      s.(owner := Some(w), writers := s.writers[w := Locked(data)], order := s.order + [data])
    case WriteBody(w) =>
      s.(stream := s.stream + s.writers[w].data, writers := s.writers[w := BodyWritten(s.writers[w].data)])
    case WriteNewline(w) =>
      s.(stream := s.stream + [NEWLINE], writers := s.writers[w := Unlocking])
    case Unlock(w) => s.(owner := None, writers := s.writers[w := Idle])
  }

  predicate IsRun(s: Wire, actions: seq<Action>)
    decreases |actions|
  {
    actions == [] || (Enabled(s, actions[0]) && IsRun(Apply(s, actions[0]), actions[1..]))
  }

  function Final(s: Wire, actions: seq<Action>): Wire
    requires IsRun(s, actions)
    decreases |actions|
  {
    if actions == [] then s else Final(Apply(s, actions[0]), actions[1..])
  }

  predicate Holding(pc: WriterPc) { pc.Locked? || pc.BodyWritten? || pc.Unlocking? }

  /** Only the owner is inside. */
  ghost predicate OwnerOk(s: Wire) {
    forall w :: s.owner == Some(w) <==> w in s.writers && Holding(s.writers[w])
  }

  /** The stream is the framed order up to what the owner still has to write. */
  ghost predicate StreamOk(s: Wire)
    requires OwnerOk(s)
  {
    match s.owner
    case None => s.stream == Frames(s.order)
    case Some(w) =>
      && s.order != []
      && var done, last := s.order[..|s.order| - 1], s.order[|s.order| - 1];
         match s.writers[w]
         case Locked(data) => data == last && s.stream == Frames(done)
         case BodyWritten(data) => data == last && s.stream == Frames(done) + last
         case _ => s.stream == Frames(s.order)
  }

  ghost predicate WireOk(s: Wire) { OwnerOk(s) && StreamOk(s) }

  lemma {:induction false} FramesAppend(messages: seq<Bytes>, m: Bytes)
    ensures Frames(messages + [m]) == Frames(messages) + m + [NEWLINE]
    decreases |messages|
  {
    if messages == [] {
      assert [m][1..] == [];
      assert Frames([m]) == m + [NEWLINE] + [];
    } else {
      FramesAppend(messages[1..], m);
      assert (messages + [m])[1..] == messages[1..] + [m];
    }
  }

  /** Only the owner's program counter moves, and the lock with it. */
  lemma StepKeepsOwner(s: Wire, a: Action)
    requires OwnerOk(s) && Enabled(s, a)
    ensures OwnerOk(Apply(s, a))
  {
  }

  lemma LockKeepsStream(s: Wire, w: WriterId)
    requires OwnerOk(s) && StreamOk(s) && Enabled(s, Lock(w))
    ensures OwnerOk(Apply(s, Lock(w))) && StreamOk(Apply(s, Lock(w)))
  {
    ShortenBack(s.order, s.writers[w].data);
  }

  lemma ShortenBack(order: seq<Bytes>, data: Bytes)
    ensures (order + [data])[..|order|] == order
  {
  }

  lemma NewlineKeepsStream(s: Wire, w: WriterId)
    requires OwnerOk(s) && StreamOk(s) && Enabled(s, WriteNewline(w))
    ensures OwnerOk(Apply(s, WriteNewline(w))) && StreamOk(Apply(s, WriteNewline(w)))
  {
    assert s.owner == Some(w);
    var done, last := s.order[..|s.order| - 1], s.order[|s.order| - 1];
    FramesAppend(done, last);
    assert done + [last] == s.order;
  }

  lemma StepKeepsWire(s: Wire, a: Action)
    requires WireOk(s) && Enabled(s, a)
    ensures WireOk(Apply(s, a))
  {
    StepKeepsOwner(s, a);
    match a
    case Lock(w) => LockKeepsStream(s, w);
    case WriteNewline(w) => NewlineKeepsStream(s, w);
    case WriteBody(w) => assert s.owner == Some(w);
    case Unlock(w) => assert s.owner == Some(w);
    case Call(w, data) =>
  }

  lemma {:induction false} RunKeepsWire(s: Wire, actions: seq<Action>)
    requires WireOk(s) && IsRun(s, actions)
    ensures WireOk(Final(s, actions))
    decreases |actions|
  {
    if actions != [] {
      StepKeepsWire(s, actions[0]);
      RunKeepsWire(Apply(s, actions[0]), actions[1..]);
    }
  }

  /** A line without its end yields nothing yet. */
  lemma {:induction false} ReadUnfinished(messages: seq<Bytes>, part: Bytes)
    requires (forall m :: m in messages ==> NEWLINE !in m) && NEWLINE !in part
    ensures ReadAll(Frames(messages) + part) == Received(messages)
    decreases |messages|
  {
    if messages == [] {
      assert Frames(messages) + part == part;
      assert LineLength(part).None?;
    } else {
      var m, tail := messages[0], Frames(messages[1..]) + part;
      var stream := Frames(messages) + part;
      assert stream == m + [NEWLINE] + tail;
      assert stream[|m|] == NEWLINE && stream[..|m|] == m && stream[|m| + 1..] == tail;
      FirstLine(stream, |m|);
      ReadUnfinished(messages[1..], part);
    }
  }

  /** The messages whose frames are complete: all but the one the mutex holder is writing. */
  function Complete(s: Wire): seq<Bytes> {
    if s.order != [] && s.owner.Some? && s.owner.value in s.writers
       && (s.writers[s.owner.value].Locked? || s.writers[s.owner.value].BodyWritten?)
    then s.order[..|s.order| - 1] else s.order
  }

  /** At every moment of every interleaving the stream reads back as the messages completed so
      far, in the order their writers took the mutex; a frame half written is not seen. */
  lemma StreamReadsBack(actions: seq<Action>)
    requires IsRun(SILENT, actions)
    requires forall m :: m in Final(SILENT, actions).order ==> Framable(m)
    ensures ReadAll(Final(SILENT, actions).stream) == Complete(Final(SILENT, actions))
  {
    RunKeepsWire(SILENT, actions);
    var s := Final(SILENT, actions);
    if s.owner.Some? && s.writers[s.owner.value].BodyWritten? {
      var done, last := s.order[..|s.order| - 1], s.order[|s.order| - 1];
      assert last in s.order && Framable(last);
      assert forall m | m in done :: m in s.order && Framable(m);
      ReadUnfinished(done, last);
      FramableIsReceived(done);
    } else {
      RoundTripIffFramable(Complete(s));
    }
  }

  /** Once the mutex is free that is every message. */
  lemma ConcurrentWritesReadBack(actions: seq<Action>)
    requires IsRun(SILENT, actions) && Final(SILENT, actions).owner.None?
    requires forall m :: m in Final(SILENT, actions).order ==> Framable(m)
    ensures ReadAll(Final(SILENT, actions).stream) == Final(SILENT, actions).order
  {
    StreamReadsBack(actions);
  }

  /** A frame that ends in a carriage return and a newline reads back as the message before
      them, whatever follows. */
  lemma CarriageReturnIsDropped(m: Bytes, rest: Bytes)
    requires Framable(m)
    ensures ReadOne(m + [CARRIAGE_RETURN, NEWLINE] + rest) == Got(m, rest)
  {
    var stream, n := m + [CARRIAGE_RETURN, NEWLINE] + rest, |m| + 1;
    assert stream[n] == NEWLINE && stream[..n] == m + [CARRIAGE_RETURN] && stream[n + 1..] == rest;
    FirstLine(stream, n);
    assert (m + [CARRIAGE_RETURN])[..|m|] == m;
  }
}
