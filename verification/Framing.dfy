/** Newline-delimited messages over a byte stream that arrives in arbitrary chunks. */
module Framing {
  type Byte = bv8

  const NEWLINE: Byte := 10

  /** The bytes that `bytes.strip` removes. */
  predicate IsSpaceByte(b: Byte) {
    9 <= b <= 13 || b == 32
  }

  predicate IsBlank(line: seq<Byte>) {
    forall i | 0 <= i < |line| :: IsSpaceByte(line[i])
  }

  predicate NoNewline(line: seq<Byte>) {
    forall i | 0 <= i < |line| :: line[i] != NEWLINE
  }

  // ------------------------------------------------------------------ what a stream says

  /** Everything after the last newline: the message that is still being received. */
  function Tail(stream: seq<Byte>): (t: seq<Byte>)
    ensures NoNewline(t) && |t| <= |stream|
  {
    if stream == [] then []
    else
      var b := stream[|stream| - 1];
      if b == NEWLINE then [] else Tail(stream[..|stream| - 1]) + [b]
  }

  /** The non-blank lines that are complete, in order. */
  function Messages(stream: seq<Byte>): (m: seq<seq<Byte>>)
    ensures forall i | 0 <= i < |m| :: NoNewline(m[i]) && !IsBlank(m[i])
  {
    if stream == [] then []
    else
      var before := stream[..|stream| - 1];
      if stream[|stream| - 1] != NEWLINE || IsBlank(Tail(before)) then Messages(before)
      else Messages(before) + [Tail(before)]
  }

  /** Receiving more only adds messages, and only the tail matters for what is added. */
  lemma {:induction false} Receive(a: seq<Byte>, b: seq<Byte>)
    ensures Tail(a + b) == Tail(Tail(a) + b)
    ensures Messages(a + b) == Messages(a) + Messages(Tail(a) + b)
  {
    if b == [] {
      assert a + b == a && Tail(a) + b == Tail(a);
      NoNewlineNoMessage(Tail(a));
    } else {
      var c := b[..|b| - 1];
      Receive(a, c);
      assert (a + b)[..|a + b| - 1] == a + c;
      assert (Tail(a) + b)[..|Tail(a) + b| - 1] == Tail(a) + c;
    }
  }

  lemma {:induction false} NoNewlineNoMessage(line: seq<Byte>)
    requires NoNewline(line)
    ensures Tail(line) == line && Messages(line) == []
  {
    if line != [] {
      NoNewlineNoMessage(line[..|line| - 1]);
    }
  }

  /** One complete line at the front of a stream. */
  lemma {:induction false} FirstLine(line: seq<Byte>, rest: seq<Byte>)
    requires NoNewline(line)
    ensures Tail(line + [NEWLINE] + rest) == Tail(rest)
    ensures Messages(line + [NEWLINE] + rest) == (if IsBlank(line) then [] else [line]) + Messages(rest)
  {
    var framed := line + [NEWLINE];
    assert framed[..|line|] == line;
    NoNewlineNoMessage(line);
    Receive(framed, rest);
    assert [] + rest == rest;
  }

  function Flatten(chunks: seq<seq<Byte>>): seq<Byte> {
    if chunks == [] then [] else Flatten(chunks[..|chunks| - 1]) + chunks[|chunks| - 1]
  }

  // ------------------------------------------------------------------ the reading loops

  /** What one `recv` yields. */
  datatype Received = Chunk(bytes: seq<Byte>) | WouldBlock | ReadError

  /** The outcomes of one call up to the one that ends its loop; an empty chunk is the end of the stream. */
  predicate IsCall(received: seq<Received>) {
    && received != []
    && (forall i | 0 <= i < |received| - 1 :: received[i].Chunk? && received[i].bytes != [])
    && var last := received[|received| - 1];
       (last.Chunk? ==> last.bytes == [])
  }

  /** The bytes that a call takes in. */
  function BytesOf(received: seq<Received>): seq<Byte> {
    if received == [] then []
    else
      var r := received[|received| - 1];
      BytesOf(received[..|received| - 1]) + (if r.Chunk? then r.bytes else [])
  }

  /** The call ends because the peer is gone. */
  predicate Disconnects(received: seq<Received>)
    requires IsCall(received)
  {
    !received[|received| - 1].WouldBlock?
  }

  /** The index of the first newline, or the length. */
  function NewlineIndex(buffer: seq<Byte>): (i: nat)
    ensures i <= |buffer| && NoNewline(buffer[..i])
    ensures i < |buffer| ==> buffer[i] == NEWLINE
  {
    if buffer == [] || buffer[0] == NEWLINE then 0
    else
      var i := 1 + NewlineIndex(buffer[1..]);
      assert buffer[..i] == [buffer[0]] + buffer[1..][..i - 1];
      i
  }

  /** The first complete line of a buffer, and the rest. */
  lemma {:induction false} FirstLineOf(buffer: seq<Byte>, line: seq<Byte>, rest: seq<Byte>)
    requires buffer == line + [NEWLINE] + rest && NoNewline(line)
    ensures Tail(buffer) == Tail(rest)
    ensures Messages(buffer) == (if IsBlank(line) then [] else [line]) + Messages(rest)
  {
    FirstLine(line, rest);
  }

  lemma {:induction false} NewlineFound(buffer: seq<Byte>)
    requires NEWLINE in buffer
    ensures NewlineIndex(buffer) < |buffer|
  {
    assert buffer[..|buffer|] == buffer;
  }

  lemma SplitAtNewline(buffer: seq<Byte>, cut: nat)
    requires cut < |buffer| && buffer[cut] == NEWLINE
    ensures buffer == buffer[..cut] + [NEWLINE] + buffer[cut + 1..]
  {
  }

  /** One round of the inner loop: what has been taken and what is still to come make up the same messages. */
  lemma {:induction false} TakeOne(
    taken: seq<seq<Byte>>, buffer: seq<Byte>, line: seq<Byte>, rest: seq<Byte>, all: seq<seq<Byte>>)
    requires buffer == line + [NEWLINE] + rest && NoNewline(line)
    requires taken + Messages(buffer) == all
    ensures Tail(buffer) == Tail(rest)
    ensures (if IsBlank(line) then taken else taken + [line]) + Messages(rest) == all
  {
    FirstLineOf(buffer, line, rest);
    Regroup(taken, if IsBlank(line) then [] else [line], Messages(rest));
  }

  lemma Regroup(a: seq<seq<Byte>>, b: seq<seq<Byte>>, c: seq<seq<Byte>>)
    ensures a + (b + c) == (if b == [] then a else a + b) + c
  {
  }

  /** The inner loop: takes the complete lines off the front of the buffer. */
  method TakeLines(received: seq<Byte>) returns (messages: seq<seq<Byte>>, buffer: seq<Byte>)
    ensures messages == Messages(received)
    ensures buffer == Tail(received)
  {
    messages, buffer := [], received;
    while NEWLINE in buffer
      invariant messages + Messages(buffer) == Messages(received)
      invariant Tail(buffer) == Tail(received)
      decreases |buffer|
    {
      var cut := NewlineIndex(buffer);
      NewlineFound(buffer);
      SplitAtNewline(buffer, cut);
      TakeOne(messages, buffer, buffer[..cut], buffer[cut + 1..], Messages(received));
      var line := buffer[..cut];
      buffer := buffer[cut + 1..];
      if IsBlank(line) {
        continue;
      }
      messages := messages + [line];
    }
    assert NoNewline(buffer);
    NoNewlineNoMessage(buffer);
  }

  /** The daemon's end of the socket: `SessionSocketServer`, once it listens. */
  class SessionSocketServer {
    var connected: bool
    var buffer: seq<Byte>

    /** Between calls the buffer holds no complete line, and nothing without a connection. */
    ghost predicate Valid()
      reads this
    {
      NoNewline(buffer) && (!connected ==> buffer == [])
    }

    constructor ()
      ensures Valid() && !connected
    {
      connected, buffer := false, [];
    }

    /** `accept_pending`: a client is taken only while there is none. */
    method AcceptPending(waiting: bool) returns (accepted: bool)
      requires Valid()
      modifies this
      ensures Valid()
      ensures accepted == (!old(connected) && waiting)
      ensures connected == (old(connected) || waiting)
      ensures buffer == old(buffer)
    {
      if connected || !waiting {
        return false;
      }
      connected, buffer := true, [];
      return true;
    }

    method CloseClient()
      requires Valid()
      modifies this
      ensures Valid() && !connected
    {
      if connected {
        connected, buffer := false, [];
      }
    }

    /** `read_messages`, given what each `recv` yields. */
    method ReadMessages(received: seq<Received>) returns (messages: seq<seq<Byte>>, disconnected: bool)
      requires Valid() && IsCall(received)
      modifies this
      ensures Valid()
      ensures !old(connected) ==> messages == [] && !disconnected && !connected
      ensures old(connected) ==>
        && messages == Messages(old(buffer) + BytesOf(received))
        && disconnected == Disconnects(received) && connected == !disconnected
        && (connected ==> buffer == Tail(old(buffer) + BytesOf(received)))
    {
      messages, disconnected := [], false;
      if !connected {
        return;
      }
      ghost var stream := buffer;
      assert buffer + BytesOf(received[..0]) == buffer;
      NoNewlineNoMessage(buffer);
      for i := 0 to |received| - 1
        invariant connected && NoNewline(buffer)
        invariant messages == Messages(stream + BytesOf(received[..i]))
        invariant buffer == Tail(stream + BytesOf(received[..i]))
      {
        messages, buffer := TakeMore(messages, buffer, received, i, stream);
      }
      LastReceived(received);
      if received[|received| - 1] != WouldBlock {
        disconnected := true;
        CloseClient();
      }
    }
  }

  /** The session's end of the socket: `SessionSocketClient`. */
  class SessionSocketClient {
    var connected: bool
    var buffer: seq<Byte>

    ghost predicate Valid()
      reads this
    {
      NoNewline(buffer) && (!connected ==> buffer == [])
    }

    constructor ()
      ensures Valid() && !connected
    {
      connected, buffer := false, [];
    }

    /** `connect`, when the socket can be reached: the buffer is not cleared here, it is empty already. */
    method Connect()
      requires Valid()
      modifies this
      ensures Valid() && connected && buffer == old(buffer)
      ensures !old(connected) ==> buffer == []
    {
      if connected {
        return;
      }
      connected := true;
    }

    method Close()
      requires Valid()
      modifies this
      ensures Valid() && !connected
    {
      if connected {
        connected, buffer := false, [];
      }
    }

    /** `read_messages`: the same loop, but being unconnected counts as disconnected. */
    method ReadMessages(received: seq<Received>) returns (messages: seq<seq<Byte>>, disconnected: bool)
      requires Valid() && IsCall(received)
      modifies this
      ensures Valid()
      ensures !old(connected) ==> messages == [] && disconnected && !connected
      ensures old(connected) ==>
        && messages == Messages(old(buffer) + BytesOf(received))
        && disconnected == Disconnects(received) && connected == !disconnected
        && (connected ==> buffer == Tail(old(buffer) + BytesOf(received)))
    {
      messages, disconnected := [], false;
      if !connected {
        return [], true;
      }
      ghost var stream := buffer;
      assert buffer + BytesOf(received[..0]) == buffer;
      NoNewlineNoMessage(buffer);
      for i := 0 to |received| - 1
        invariant connected && NoNewline(buffer)
        invariant messages == Messages(stream + BytesOf(received[..i]))
        invariant buffer == Tail(stream + BytesOf(received[..i]))
      {
        messages, buffer := TakeMore(messages, buffer, received, i, stream);
      }
      LastReceived(received);
      if received[|received| - 1] != WouldBlock {
        disconnected := true;
        Close();
      }
    }
  }

  /** One round of the outer loop: appends a chunk to the buffer and takes the complete lines off it. */
  method TakeMore(
    messages: seq<seq<Byte>>, buffer: seq<Byte>, received: seq<Received>, i: nat, ghost stream: seq<Byte>)
    returns (messages': seq<seq<Byte>>, buffer': seq<Byte>)
    requires i < |received| && received[i].Chunk?
    requires messages == Messages(stream + BytesOf(received[..i]))
    requires buffer == Tail(stream + BytesOf(received[..i]))
    ensures messages' == Messages(stream + BytesOf(received[..i + 1]))
    ensures buffer' == Tail(stream + BytesOf(received[..i + 1])) && NoNewline(buffer')
  {
    assert received[..i + 1][..i] == received[..i];
    var chunk := received[i].bytes;
    Receive(stream + BytesOf(received[..i]), chunk);
    assert stream + BytesOf(received[..i + 1]) == stream + BytesOf(received[..i]) + chunk;
    var taken;
    taken, buffer' := TakeLines(buffer + chunk);
    messages' := messages + taken;
  }

  lemma {:induction false} LastReceived(received: seq<Received>)
    requires IsCall(received)
    ensures BytesOf(received) == BytesOf(received[..|received| - 1])
  {
    assert BytesOf(received[..|received| - 1]) + [] == BytesOf(received[..|received| - 1]);
  }

  // ------------------------------------------------------------------ chunking does not matter

  /** The messages of several reads in a row on one connection, and the buffer that is left. */
  function ReadAll(buffer: seq<Byte>, calls: seq<seq<Byte>>): (seq<seq<Byte>>, seq<Byte>) {
    if calls == [] then ([], buffer)
    else
      var (messages, left) := ReadAll(buffer, calls[..|calls| - 1]);
      var stream := left + calls[|calls| - 1];
      (messages + Messages(stream), Tail(stream))
  }

  /**
   * However a stream is cut into reads, the messages are the non-blank lines of the whole
   * stream, in order, and the buffer is its unfinished tail.
   */
  lemma {:induction false} ChunkingIndependence(calls: seq<seq<Byte>>)
    ensures ReadAll([], calls) == (Messages(Flatten(calls)), Tail(Flatten(calls)))
  {
    if calls != [] {
      var before := calls[..|calls| - 1];
      ChunkingIndependence(before);
      Receive(Flatten(before), calls[|calls| - 1]);
    }
  }

  /** `encode_message`, for a message whose JSON text is given. */
  function Encoded(text: seq<Byte>): seq<Byte> {
    text + [NEWLINE]
  }

  function EncodedAll(texts: seq<seq<Byte>>): seq<Byte> {
    if texts == [] then [] else EncodedAll(texts[..|texts| - 1]) + Encoded(texts[|texts| - 1])
  }

  lemma EncodedOne(text: seq<Byte>)
    requires NoNewline(text) && !IsBlank(text)
    ensures Messages(Encoded(text)) == [text] && Tail(Encoded(text)) == []
  {
    assert Encoded(text) + [] == Encoded(text);
    FirstLine(text, []);
  }

  lemma {:induction false} AppendEncoded(stream: seq<Byte>, texts: seq<seq<Byte>>, text: seq<Byte>)
    requires NoNewline(text) && !IsBlank(text)
    requires Messages(stream) == texts && Tail(stream) == []
    ensures Messages(stream + Encoded(text)) == texts + [text] && Tail(stream + Encoded(text)) == []
  {
    Receive(stream, Encoded(text));
    assert [] + Encoded(text) == Encoded(text);
    EncodedOne(text);
  }

  /**
   * Encoding, any fragmentation on the way and reading give back the messages, in order, with
   * nothing left over. Compact JSON text has no newline in it (section 7 of RFC 8259) and is not blank.
   */
  lemma {:induction false} EncodedStream(texts: seq<seq<Byte>>)
    requires forall i | 0 <= i < |texts| :: NoNewline(texts[i]) && !IsBlank(texts[i])
    ensures Messages(EncodedAll(texts)) == texts && Tail(EncodedAll(texts)) == []
  {
    if texts != [] {
      var before, text := texts[..|texts| - 1], texts[|texts| - 1];
      EncodedStream(before);
      assert before + [text] == texts;
      AppendEncoded(EncodedAll(before), before, text);
    }
  }

  lemma {:induction false} FragmentedMessagesArrive(texts: seq<seq<Byte>>, calls: seq<seq<Byte>>)
    requires forall i | 0 <= i < |texts| :: NoNewline(texts[i]) && !IsBlank(texts[i])
    requires Flatten(calls) == EncodedAll(texts)
    ensures ReadAll([], calls) == (texts, [])
  {
    ChunkingIndependence(calls);
    EncodedStream(texts);
  }
}
