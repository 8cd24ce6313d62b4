/**
 The frame of a managed Bridge request, its one-shot decoder, and the reader that is fed it in chunks.
 What the payload means is a parameter.
 */
module IpcFrames {
  import opened Common

  type Byte = n: nat | n < 256

  type Bytes = seq<Byte>

  const MAX_FRAME_BYTES: nat := 64 * 1024

  datatype Code = MultipleFrames | EmptyFrame | FrameTooLarge | TruncatedFrame | BadPayload

  datatype Verdict<+R> = Waiting | Got(request: R) | Failed(code: Code)

  /** Four bytes, the most significant first. */
  function Header(n: nat): (b: Bytes)
    requires n < 0x1_0000_0000
    ensures |b| == 4 && Declared(b) == n
    ensures b == [n / 0x100_0000, n / 0x1_0000 % 0x100, n / 0x100 % 0x100, n % 0x100]
  {
    var a := n / 256;
    var c := a / 256;
    [c / 256, c % 256, a % 256, n % 256]
  }

  function Declared(b: Bytes): nat
    requires |b| >= 4
  {
    var w: nat, x: nat, y: nat, z: nat := b[0], b[1], b[2], b[3];
    ((w * 256 + x) * 256 + y) * 256 + z
  }

  function LengthError(declared: nat): Option<Code> {
    if declared == 0 then Some(EmptyFrame)
    else if declared > MAX_FRAME_BYTES then Some(FrameTooLarge)
    else None
  }

  function Encode(payload: Bytes): Bytes
    requires LengthError(|payload|) == None
  {
    Header(|payload|) + payload
  }

  function Parsed<R>(parse: Bytes -> Option<R>, payload: Bytes): Verdict<R> {
    var r := parse(payload);
    if r.Some? then Got(r.value) else Failed(BadPayload)
  }

  /** decodeManagedBridgeIpcRequest. */
  function Decode<R>(parse: Bytes -> Option<R>, frame: Bytes): Verdict<R> {
    if |frame| < 4 then Failed(TruncatedFrame)
    else
      var error := LengthError(Declared(frame));
      if error.Some? then Failed(error.value)
      else if |frame| < 4 + Declared(frame) then Failed(TruncatedFrame)
      else if |frame| > 4 + Declared(frame) then Failed(MultipleFrames)
      else Parsed(parse, frame[4..])
  }

  /** A frame is four bytes of length, the first worth most, between one byte and 64 KiB, and just so many more. */
  lemma FramesExactly<R>(parse: Bytes -> Option<R>, frame: Bytes)
    ensures Decode(parse, frame) == Failed(TruncatedFrame) <==>
      || |frame| < 4
      || (|frame| - 4 < WorthOf(frame) && 0 < WorthOf(frame) <= 65_536)
    ensures |frame| >= 4 ==>
      && (Decode(parse, frame) == Failed(EmptyFrame) <==> WorthOf(frame) == 0)
      && (Decode(parse, frame) == Failed(FrameTooLarge) <==> WorthOf(frame) > 65_536)
      && (Decode(parse, frame) == Failed(MultipleFrames) <==>
            |frame| - 4 > WorthOf(frame) && 0 < WorthOf(frame) <= 65_536)
      && (Decode(parse, frame) == Failed(BadPayload) <==>
            |frame| - 4 == WorthOf(frame) && 0 < WorthOf(frame) <= 65_536 && parse(frame[4..]) == None)
    ensures Decode(parse, frame).Got? <==>
      && |frame| >= 4 && |frame| - 4 == WorthOf(frame) && 0 < WorthOf(frame) <= 65_536
      && parse(frame[4..]).Some?
    ensures Decode(parse, frame).Got? ==> parse(frame[4..]) == Some(Decode(parse, frame).request)
  {
  }

  /** The length that the first four bytes declare. */
  function WorthOf(frame: Bytes): nat {
    if |frame| < 4 then 0
    else frame[0] as nat * 16_777_216 + frame[1] as nat * 65_536 + frame[2] as nat * 256 + frame[3] as nat
  }

  /** What the reader says of all the bytes so far. */
  function Classify<R>(parse: Bytes -> Option<R>, received: Bytes): Verdict<R> {
    if Decode(parse, received) == Failed(TruncatedFrame) then Waiting else Decode(parse, received)
  }

  class FrameReader<R> {
    const parse: Bytes -> Option<R>
    var buffer: Bytes
    var expected: Option<nat>
    var complete: bool

    predicate Valid()
      reads this
    {
      expected.Some? ==>
        |buffer| >= 4 && expected.value == 4 + Declared(buffer) && LengthError(Declared(buffer)) == None
    }

    constructor (parse: Bytes -> Option<R>)
      ensures Valid() && buffer == [] && !complete && this.parse == parse
    {
      this.parse, buffer, expected, complete := parse, [], None, false;
    }

    /** Once complete, any further chunk fails, even an empty one. */
    method Push(chunk: Bytes) returns (r: Verdict<R>)
      requires Valid()
      modifies this
      ensures Valid()
      ensures if old(complete) then r == Failed(MultipleFrames) && complete && buffer == old(buffer)
              else && buffer == old(buffer) + chunk && complete == r.Got?
                   && r == if chunk == [] then Waiting else Classify(parse, buffer)
    {
      if complete {
        return Failed(MultipleFrames);
      }
      if chunk == [] {
        assert buffer + chunk == buffer;
        return Waiting;
      }
      assert |buffer| >= 4 ==> Declared(buffer + chunk) == Declared(buffer);
      buffer := buffer + chunk;
      if |buffer| >= 4 && expected == None {
        var error := LengthError(Declared(buffer));
        if error.Some? {
          return Failed(error.value);
        }
        expected := Some(4 + Declared(buffer));
      }
      if expected == None {
        return Waiting;
      }
      if |buffer| > expected.value {
        return Failed(MultipleFrames);
      }
      if |buffer| < expected.value {
        return Waiting;
      }
      r := Decode(parse, buffer);
      complete := r.Got?;
    }

    method End() returns (error: Option<Code>)
      ensures error == if complete then None else Some(TruncatedFrame)
    {
      return if complete then None else Some(TruncatedFrame);
    }
  }

  function Concat(chunks: seq<Bytes>): Bytes {
    if chunks == [] then [] else chunks[0] + Concat(chunks[1..])
  }

  /** The first verdict on a connection that delivers these chunks and then ends. */
  function Fed<R>(parse: Bytes -> Option<R>, received: Bytes, chunks: seq<Bytes>): Verdict<R>
    decreases |chunks|
  {
    if chunks == [] then Failed(TruncatedFrame)
    else
      var now := received + chunks[0];
      var verdict := if chunks[0] == [] then Waiting else Classify(parse, now);
      if verdict.Waiting? then Fed(parse, now, chunks[1..]) else verdict
  }

  /** A connection served chunk by chunk until the reader has a verdict. */
  method Serve<R>(parse: Bytes -> Option<R>, chunks: seq<Bytes>) returns (r: Verdict<R>)
    ensures r == Fed(parse, [], chunks)
  {
    var reader := new FrameReader<R>(parse);
    for i := 0 to |chunks|
      invariant reader.Valid() && !reader.complete && reader.parse == parse && fresh(reader)
      invariant Fed(parse, [], chunks) == Fed(parse, reader.buffer, chunks[i..])
    {
      assert chunks[i..][0] == chunks[i] && chunks[i..][1..] == chunks[i + 1..];
      r := reader.Push(chunks[i]);
      if !r.Waiting? {
        return;
      }
    }
    var error := reader.End();
    return Failed(error.value);
  }

  /** One-shot decoding is the reader fed a single chunk. */
  lemma OneChunk<R>(parse: Bytes -> Option<R>, frame: Bytes)
    requires frame != []
    ensures Fed(parse, [], [frame]) == Decode(parse, frame)
  {
    assert [] + frame == frame;
    assert [frame][1..] == [];
  }

  lemma FramePrefix<R>(parse: Bytes -> Option<R>, payload: Bytes, received: Bytes, more: Bytes)
    requires LengthError(|payload|) == None && received + more == Encode(payload)
    ensures Classify(parse, received) == if more == [] then Parsed(parse, payload) else Waiting
  {
    var frame := Encode(payload);
    assert frame[4..] == payload && frame[..4] == Header(|payload|);
    assert received == frame[..|received|];
    assert Declared(frame) == Declared(Header(|payload|));
    if |received| >= 4 {
      assert Declared(received) == Declared(frame);
    }
    if more == [] {
      assert received == frame;
    }
  }

  /**
   However a valid frame is cut, nothing is yielded before its last byte, and then exactly its request;
   any proper part of it ends truncated.
   */
  lemma {:induction false} AnyCut<R>(parse: Bytes -> Option<R>, payload: Bytes, received: Bytes,
    chunks: seq<Bytes>, missing: Bytes)
    requires LengthError(|payload|) == None && parse(payload).Some?
    requires received + Concat(chunks) + missing == Encode(payload)
    requires received != Encode(payload)
    ensures Fed(parse, received, chunks) ==
      if missing == [] then Got(parse(payload).value) else Failed(TruncatedFrame)
    decreases |chunks|
  {
    if chunks != [] {
      var now, rest := received + chunks[0], Concat(chunks[1..]);
      assert received + Concat(chunks) + missing == now + (rest + missing);
      FramePrefix(parse, payload, now, rest + missing);
      if chunks[0] == [] || rest + missing != [] {
        assert now + rest + missing == Encode(payload);
        AnyCut(parse, payload, now, chunks[1..], missing);
      } else {
        assert missing == [];
      }
    } else {
      assert received + [] + missing == received + missing;
    }
  }

  /** Some cut falls exactly at this length. */
  predicate CutsAt(received: Bytes, chunks: seq<Bytes>, length: nat)
    decreases |chunks|
  {
    chunks != [] && (|received + chunks[0]| == length || CutsAt(received + chunks[0], chunks[1..], length))
  }

  /**
   Bytes after a valid frame fail it, unless a cut falls just between: then the request has been yielded,
   and it is the next chunk that fails.
   */
  lemma {:induction false} TrailingBytes<R>(
      parse: Bytes -> Option<R>, payload: Bytes, received: Bytes, chunks: seq<Bytes>, extra: Bytes)
    requires LengthError(|payload|) == None && parse(payload).Some? && extra != []
    requires received + Concat(chunks) == Encode(payload) + extra
    requires |received| < |Encode(payload)|
    ensures Fed(parse, received, chunks) ==
      if CutsAt(received, chunks, |Encode(payload)|) then Got(parse(payload).value) else Failed(MultipleFrames)
    decreases |chunks|
  {
    var frame := Encode(payload);
    if chunks != [] {
      var now, rest := received + chunks[0], Concat(chunks[1..]);
      assert received + Concat(chunks) == now + rest;
      if |now| <= |frame| {
        assert now == (frame + extra)[..|now|] == frame[..|now|];
        FramePrefix(parse, payload, now, frame[|now|..]);
        if |now| < |frame| {
          TrailingBytes(parse, payload, now, chunks[1..], extra);
        }
      } else {
        Overfull(parse, payload, now, rest, extra);
        CutsGrow(now, chunks[1..], |frame|);
      }
    }
  }

  lemma Overfull<R>(parse: Bytes -> Option<R>, payload: Bytes, now: Bytes, rest: Bytes, extra: Bytes)
    requires LengthError(|payload|) == None && now + rest == Encode(payload) + extra && |now| > |Encode(payload)|
    ensures Classify(parse, now) == Failed(MultipleFrames)
  {
    var frame := Encode(payload);
    assert frame[..4] == Header(|payload|);
    assert forall k :: 0 <= k < 4 ==> now[k] == (now + rest)[k] == (frame + extra)[k] == frame[k];
    assert Declared(now) == Declared(frame) == Declared(Header(|payload|));
  }

  lemma {:induction false} CutsGrow(received: Bytes, chunks: seq<Bytes>, length: nat)
    requires |received| > length
    ensures !CutsAt(received, chunks, length)
    decreases |chunks|
  {
    if chunks != [] {
      CutsGrow(received + chunks[0], chunks[1..], length);
    }
  }

  /** Behind a complete frame even a chunk of no bytes is refused. */
  method EmptyChunkFails<R>(parse: Bytes -> Option<R>, payload: Bytes) returns (first: Verdict<R>, second: Verdict<R>)
    requires LengthError(|payload|) == None && parse(payload).Some?
    ensures first == Got(parse(payload).value) && second == Failed(MultipleFrames)
  {
    var reader := new FrameReader(parse);
    FramePrefix(parse, payload, Encode(payload), []);
    assert [] + Encode(payload) == Encode(payload);
    first := reader.Push(Encode(payload));
    second := reader.Push([]);
  }
}
