// The plugin's end of the connection: frames over a socket that takes and gives
// bytes in pieces of any size.
module WebSocketClient {
  import opened ByteText
  import opened WordBytes
  import opened FrameBits
  import opened WebSocketFrames

  // ------------------------------------------------------- what a stream holds

  datatype Received = Text(payload: seq<bv8>, rest: seq<bv8>) | Lost | FrameTooLarge | Closed | Fragmented

  /** The next text of a stream of frames; pings, pongs and unknown frames are passed over. */
  function Receive(s: seq<bv8>): Received
    decreases |s|
  {
    match ReadFrame(s)
    case Starved => Lost
    case TooLarge => FrameTooLarge
    case Found(f, size) =>
      if f.opcode == CLOSE then Closed
      else if f.opcode != TEXT then Receive(s[size..])
      else if f.final then Text(f.payload, s[size..])
      else Fragmented
  }

  function Receipts(s: seq<bv8>): seq<seq<bv8>>
    decreases |s|
  {
    match Receive(s)
    case Text(payload, rest) => ReceiptsShrink(s); [payload] + Receipts(rest)
    case _ => []
  }

  lemma {:induction false} ReceiptsShrink(s: seq<bv8>)
    ensures Receive(s).Text? ==> |Receive(s).rest| < |s|
    decreases |s|
  {
    match ReadFrame(s)
    case Found(f, size) =>
      if f.opcode != CLOSE && f.opcode != TEXT {
        ReceiptsShrink(s[size..]);
      }
    case _ =>
  }

  function Wire(frames: seq<Frame>): seq<bv8> {
    if frames == [] then [] else Encoded(frames[0]) + Wire(frames[1..])
  }

  function Texts(frames: seq<Frame>): seq<seq<bv8>> {
    if frames == [] then [] else OwnText(frames[0]) + Texts(frames[1..])
  }

  /** A whole text, or a frame that is neither text nor close; in either case at most 1 MiB. */
  predicate Acceptable(f: Frame) {
    WellFormed(f) && |f.payload| <= MAX_INBOUND_FRAME_BYTES && f.opcode != CLOSE && (f.opcode == TEXT ==> f.final)
  }

  lemma FrameIsReceived(f: Frame, rest: seq<bv8>)
    requires Acceptable(f)
    ensures Receive(Encoded(f) + rest) == if f.opcode == TEXT then Text(f.payload, rest) else Receive(rest)
  {
    FrameReadsBack(f, rest);
    assert (Encoded(f) + rest)[|Encoded(f)|..] == rest;
  }

  /** The texts of a stream arrive whole and in order, whatever other frames stand between them. */
  lemma {:induction false} TextsArriveInOrder(frames: seq<Frame>, rest: seq<bv8>)
    requires forall i :: 0 <= i < |frames| ==> Acceptable(frames[i])
    ensures Receipts(Wire(frames) + rest) == Texts(frames) + Receipts(rest)
    decreases |frames|
  {
    if frames == [] {
      assert Wire(frames) + rest == rest;
    } else {
      var f, more := frames[0], Wire(frames[1..]) + rest;
      TextsArriveInOrder(frames[1..], rest);
      FirstFrameArrives(f, more);
      Together(Encoded(f), Wire(frames[1..]), rest);
      Together(OwnText(f), Texts(frames[1..]), Receipts(rest));
    }
  }

  function OwnText(f: Frame): seq<seq<bv8>> {
    if f.opcode == TEXT then [f.payload] else []
  }

  lemma FirstFrameArrives(f: Frame, more: seq<bv8>)
    requires Acceptable(f)
    ensures Receipts(Encoded(f) + more) == OwnText(f) + Receipts(more)
  {
    FrameIsReceived(f, more);
    if f.opcode != TEXT {
      SkippedReceipts(Encoded(f) + more, more);
    }
  }

  lemma Together<T>(a: seq<T>, b: seq<T>, c: seq<T>)
    ensures a + b + c == a + (b + c)
    ensures a == [] ==> a + b == b && a + (b + c) == b + c
  {}

  lemma SkippedReceipts(s: seq<bv8>, more: seq<bv8>)
    requires Receive(s) == Receive(more)
    ensures Receipts(s) == Receipts(more)
  {}

  // ---------------------------------------------------------------- the client

  datatype Failing = NotConnected | ConnectionLost | TooLong | PeerClosed | FragmentedText
  datatype Outcome = Got(payload: seq<bv8>) | Failed(why: Failing)

  /** What receiving comes to on a stream. */
  function OutcomeOf(r: Received): Outcome {
    match r
    case Text(payload, _) => Got(payload)
    case Lost => Failed(ConnectionLost)
    case FrameTooLarge => Failed(TooLong)
    case Closed => Failed(PeerClosed)
    case Fragmented => Failed(FragmentedText)
  }

  /** What receiving from a stream must come to: its next text, or the fault that
      comes first; and only a text leaves the connection up. */
  predicate IsOutcome(s: seq<bv8>, r: Outcome, connected: bool, left: seq<bv8>) {
    r == OutcomeOf(Receive(s)) && connected == r.Got? && (r.Got? ==> left == Receive(s).rest)
  }

  /** What a new connection is sent first. */
  function Greeting(hello: seq<bv8>, mask: Mask): seq<bv8> {
    if hello == [] then [] else Encoded(Frame(true, TEXT, mask, hello))
  }

  class WebSocketClient {
    /** What the client says of itself on a new connection; nothing when it has no identity. */
    const hello: seq<bv8>
    var connected: bool
    /** The bytes still to arrive before the connection ends or breaks. */
    var incoming: seq<bv8>
    /** The bytes the socket has taken. */
    var outgoing: seq<bv8>

    /** The socket gives some of what is there, at most `limit` bytes; nothing at the end. */
    method RecvSocket(limit: nat) returns (chunk: seq<bv8>)
      requires limit > 0
      modifies `incoming
      ensures |chunk| <= limit && old(incoming) == chunk + incoming
      ensures chunk == [] <==> old(incoming) == []
    {
      if incoming == [] {
        return [];
      }
      var n: nat :| 1 <= n <= limit && n <= |incoming|;
      chunk := incoming[..n];
      incoming := incoming[n..];
    }

    method RecvExact(size: nat) returns (ok: bool, data: seq<bv8>)
      modifies this
      ensures ok <==> size == 0 || (old(connected) && size <= |old(incoming)|)
      ensures ok ==> data == old(incoming)[..size] && incoming == old(incoming)[size..] && connected == old(connected)
      ensures !ok ==> !connected
      ensures outgoing == old(outgoing)
    {
      data := [];
      while |data| < size
        invariant |data| <= size && old(incoming) == data + incoming
        invariant connected == old(connected) && (data != [] ==> connected)
        invariant outgoing == old(outgoing)
      {
        if !connected {
          return false, [];
        }
        var left := size - |data|;
        var chunk := RecvSocket(if left < CHUNK then left else CHUNK);
        if chunk == [] {
          connected := false;
          return false, [];
        }
        data := data + chunk;
      }
      ok := true;
    }

    method ReceiveLength(second: bv8) returns (ok: bool, size: nat)
      requires connected
      modifies this
      ensures outgoing == old(outgoing)
      ensures match ReadLength([second] + old(incoming))
              case Cut => !ok && !connected
              case Length(n, taken) => ok && connected && size == n && incoming == old(incoming)[taken - 1..]
    {
      ghost var s := [second] + incoming;
      var extended;
      var low := Low7(second);
      size := low as nat;
      if low == 126 {
        ok, extended := RecvExact(2);
        if ok {
          assert s[1..3] == extended;
          size := ReadU16(extended);
        }
      } else if low == 127 {
        ok, extended := RecvExact(8);
        if ok {
          assert s[1..9] == extended;
          size := ReadU64(extended);
        }
      } else {
        ok := true;
      }
    }

    method ReceiveBody(first: bv8, second: bv8, size: nat, ghost at: nat) returns (ok: bool, f: Frame)
      requires connected
      modifies this
      ensures outgoing == old(outgoing)
      ensures match ReadBody(first, second, old(incoming), size, at)
              case Found(frame, taken) => ok && connected && f == frame && incoming == old(incoming)[taken - at..]
              case _ => !ok && !connected
    {
      f := Frame(false, 0, [], []);
      var mask, data := [], [];
      if MaskBit(second) {
        ok, mask := RecvExact(4);
        if !ok {
          return;
        }
      }
      ok, data := RecvExact(size);
      if !ok {
        return;
      }
      data := Unmask(mask, data);
      f := Frame(FinalBit(first), Opcode(first), mask, data);
    }

    /** One frame off the socket; none when the connection is lost, nothing but the fact when it is too long. */
    method ReceiveFrame() returns (ok: bool, tooLong: bool, f: Frame)
      requires connected
      modifies this
      ensures outgoing == old(outgoing)
      ensures match ReadFrame(old(incoming))
              case Starved => !ok && !tooLong && !connected
              case TooLarge => !ok && tooLong && !connected
              case Found(frame, size) => ok && f == frame && connected && incoming == old(incoming)[size..]
    {
      tooLong, f := false, Frame(false, 0, [], []);
      ghost var s := incoming;
      var header, size;
      ok, header := RecvExact(2);
      if !ok {
        return;
      }
      assert [header[1]] + incoming == s[1..];
      ok, size := ReceiveLength(header[1]);
      if !ok {
        return;
      }
      ghost var at := |s| - |incoming|;
      assert incoming == s[at..];
      if size > MAX_INBOUND_FRAME_BYTES {
        connected := false;
        return false, true, f;
      }
      ok, f := ReceiveBody(header[0], header[1], size, at);
    }

    /** A client that is not connected dials; `dial` is what a new connection
        brings, when one is made. The hello goes out before anything else. */
    method Connect(dial: Option<seq<bv8>>, mask: Mask) returns (ok: bool)
      requires |hello| < Power256(8)
      modifies this
      ensures ok == connected
      ensures old(connected) ==> ok && incoming == old(incoming) && outgoing == old(outgoing)
      ensures !old(connected) && ok ==> dial == Some(incoming) && outgoing == Greeting(hello, mask)
      ensures !old(connected) && !ok ==> dial.None? || hello != []
    {
      if connected {
        return true;
      }
      if dial.None? {
        return false;
      }
      connected, incoming, outgoing := true, dial.value, [];
      ok := true;
      if hello != [] {
        ok := SendText(hello, mask);
      }
    }

    /** The next text, of the connection there is or of a new one. */
    method ReceiveText(dial: Option<seq<bv8>>, mask: Mask) returns (r: Outcome)
      requires |hello| < Power256(8)
      modifies this
      ensures old(connected) ==> IsOutcome(old(incoming), r, connected, incoming) && outgoing == old(outgoing)
      ensures !old(connected) && r != Failed(NotConnected) ==>
                dial.Some? && IsOutcome(dial.value, r, connected, incoming) && outgoing == Greeting(hello, mask)
      ensures !old(connected) && r == Failed(NotConnected) ==> !connected && (dial.None? || hello != [])
    {
      var ok := Connect(dial, mask);
      if !ok {
        return Failed(NotConnected);
      }
      r := ReceiveHere();
    }

    /** The next text of the connection there is. */
    method ReceiveHere() returns (r: Outcome)
      requires connected
      modifies this
      ensures IsOutcome(old(incoming), r, connected, incoming) && outgoing == old(outgoing)
    {
      while true
        invariant connected && Receive(incoming) == Receive(old(incoming)) && outgoing == old(outgoing)
        decreases |incoming|
      {
        var ok, tooLong, f := ReceiveFrame();
        if !ok {
          return Failed(if tooLong then TooLong else ConnectionLost);
        }
        if f.opcode == CLOSE {
          connected := false;
          return Failed(PeerClosed);
        }
        if f.opcode == TEXT {
          if !f.final {
            connected := false;
            return Failed(FragmentedText);
          }
          return Got(f.payload);
        }
      }
    }

    /** The socket takes the bytes in pieces of at most CHUNK; it may break after any of them. */
    method SendAll(data: seq<bv8>) returns (ok: bool)
      modifies `outgoing
      ensures ok ==> outgoing == old(outgoing) + data
      ensures !ok ==> exists n :: 0 <= n < |data| && outgoing == old(outgoing) + data[..n]
    {
      var sent := 0;
      assert data[..0] == [];
      while sent < |data|
        invariant sent <= |data| && outgoing == old(outgoing) + data[..sent]
      {
        var left := |data| - sent;
        var n: nat :| n <= left && n <= CHUNK;
        if n == 0 {
          return false;
        }
        assert data[..sent + n] == data[..sent] + data[sent..sent + n];
        outgoing := outgoing + data[sent..sent + n];
        sent := sent + n;
      }
      assert data[..sent] == data;
      ok := true;
    }

    method SendText(payload: seq<bv8>, mask: Mask) returns (ok: bool)
      requires |payload| < Power256(8)
      modifies this
      ensures ok ==>
                outgoing == old(outgoing) + Encoded(Frame(true, TEXT, mask, payload)) && connected == old(connected)
      ensures !ok ==> !connected
      ensures incoming == old(incoming)
    {
      var frame := [FirstByte(true, TEXT)];
      if |payload| <= 125 {
        frame := frame + [SecondByte(true, |payload| as bv7)];
      } else if |payload| <= 0xFFFF {
        frame := frame + [SecondByte(true, 126)];
        frame := AppendNumber(frame, |payload|, 2);
      } else {
        frame := frame + [SecondByte(true, 127)];
        frame := AppendNumber(frame, |payload|, 8);
      }
      assert frame == [FirstByte(true, TEXT)] + LengthForm(true, |payload|);
      frame := frame + mask;
      frame := AppendMasked(frame, mask, payload);
      ok := SendAll(frame);
      if !ok {
        connected := false;
      }
    }
  }

  // ------------------------------------------------------------ byte by byte

  method ReadU16(data: seq<bv8>) returns (value: nat)
    requires |data| == 2
    ensures value == Number(data)
  {
    var high := data[..1];
    assert Number(high[..0]) == 0 && high[0] == data[0];
    assert Number(high) == data[0] as nat;
    value := data[0] as nat * 256 + data[1] as nat;
  }

  method ReadU64(data: seq<bv8>) returns (value: nat)
    requires |data| == 8
    ensures value == Number(data)
  {
    value := 0;
    for i := 0 to 8
      invariant value == Number(data[..i])
    {
      assert data[..i + 1][..i] == data[..i];
      value := value * 256 + data[i] as nat;
    }
    assert data[..8] == data;
  }

  /** A number shifted right by so many bytes. */
  function ShiftedBytes(n: nat, bytes: nat): nat {
    if bytes == 0 then n else ShiftedBytes(n / 256, bytes - 1)
  }

  lemma {:induction false} ShiftedOnce(n: nat, bytes: nat)
    ensures ShiftedBytes(n, bytes + 1) == ShiftedBytes(n, bytes) / 256
  {
    if bytes > 0 {
      ShiftedOnce(n / 256, bytes - 1);
    }
  }

  /** The bytes of a number from the highest shift down. */
  method AppendNumber(before: seq<bv8>, value: nat, size: nat) returns (out: seq<bv8>)
    ensures out == before + BigEndian(value, size)
  {
    out := before;
    var done := 0;
    while done < size
      invariant done <= size
      invariant out == before + BigEndian(ShiftedBytes(value, size - done), done)
    {
      ShiftedOnce(value, size - done - 1);
      out := out + [(ShiftedBytes(value, size - done - 1) % 256) as bv8];
      done := done + 1;
    }
  }

  method AppendMasked(before: seq<bv8>, mask: Mask, payload: seq<bv8>) returns (out: seq<bv8>)
    ensures out == before + Masked(mask, payload)
  {
    out := before;
    for i := 0 to |payload|
      invariant out == before + Masked(mask, payload)[..i]
    {
      out := out + [Xor(payload[i], mask[i % 4])];
    }
    assert Masked(mask, payload)[..|payload|] == Masked(mask, payload);
  }

  method Unmask(mask: seq<bv8>, data: seq<bv8>) returns (r: seq<bv8>)
    ensures r == Masked(mask, data)
  {
    r := data;
    if |mask| == 4 {
      for i := 0 to |data|
        invariant |r| == |data|
        invariant forall k :: 0 <= k < |data| ==> r[k] == if k < i then Masked(mask, data)[k] else data[k]
      {
        r := r[i := Xor(r[i], mask[i % 4])];
      }
    }
  }
}
