/** The virtual eight-channel acquisition module: a resynchronising request scanner over a
    byte buffer, and the replies to what it finds. */
module VirtualAdc {
  import opened Octets
  import opened RtuCodec
  import opened CrcLaws

  const FRAME: nat := 8
  const CHANNELS: nat := 8
  const ILLEGAL_FUNCTION := 1
  const ILLEGAL_DATA_ADDRESS := 2
  const ILLEGAL_DATA_VALUE := 3

  // ------------------------------------------------------------------ scanning

  /** A window that is a request to this slave. */
  predicate IsRequest(window: Bytes, slave: int) {
    |window| == FRAME && Value(window[0]) == slave && window[1] == READ_INPUT_REGISTERS && VerifyCrc(window)
  }

  predicate RequestAt(rx: Bytes, slave: int, at: nat) {
    at + FRAME <= |rx| && IsRequest(rx[at..at + FRAME], slave)
  }

  datatype Scanned = Scanned(frames: seq<Bytes>, rest: Bytes)

  /** All requests of a buffer, in order, and the bytes that stay in it. */
  function Scan(rx: Bytes, slave: int): Scanned
    decreases |rx|
  {
    if |rx| < FRAME then Scanned([], rx)
    else if IsRequest(rx[..FRAME], slave) then
      var s := Scan(rx[FRAME..], slave);
      Scanned([rx[..FRAME]] + s.frames, s.rest)
    else Scan(rx[1..], slave)
  }

  /** Chunk after chunk into the same buffer. */
  function Fed(rx: Bytes, chunks: seq<Bytes>, slave: int): Scanned
    decreases |chunks|
  {
    if chunks == [] then Scan(rx, slave)
    else
      var s := Scan(rx + chunks[0], slave);
      var t := Fed(s.rest, chunks[1..], slave);
      Scanned(s.frames + t.frames, t.rest)
  }

  function Stream(chunks: seq<Bytes>): Bytes {
    if chunks == [] then [] else chunks[0] + Stream(chunks[1..])
  }

  /** Bytes that arrive later do not change what was found before them. */
  lemma {:induction false} ScanContinues(a: Bytes, b: Bytes, slave: int)
    ensures var s := Scan(a, slave);
            var t := Scan(s.rest + b, slave);
            Scan(a + b, slave) == Scanned(s.frames + t.frames, t.rest)
    decreases |a|
  {
    hide IsRequest;
    if |a| >= FRAME {
      assert (a + b)[..FRAME] == a[..FRAME] && (a + b)[FRAME..] == a[FRAME..] + b && (a + b)[1..] == a[1..] + b;
      if IsRequest(a[..FRAME], slave) {
        ScanContinues(a[FRAME..], b, slave);
        var s := Scan(a[FRAME..], slave);
        var t := Scan(s.rest + b, slave);
        assert [a[..FRAME]] + (s.frames + t.frames) == ([a[..FRAME]] + s.frames) + t.frames;
      } else {
        ScanContinues(a[1..], b, slave);
      }
    } else {
      assert [] + Scan(a + b, slave).frames == Scan(a + b, slave).frames;
    }
  }

  lemma {:induction false} RestScansEmpty(rx: Bytes, slave: int)
    ensures |Scan(rx, slave).rest| < FRAME
    decreases |rx|
  {
    hide IsRequest;
    if |rx| >= FRAME {
      RestScansEmpty(if IsRequest(rx[..FRAME], slave) then rx[FRAME..] else rx[1..], slave);
    }
  }

  /** Feeding chunks one by one gives the frames of the whole stream. */
  lemma {:induction false} FeedingIsScanning(rx: Bytes, chunks: seq<Bytes>, slave: int)
    ensures Fed(rx, chunks, slave) == Scan(rx + Stream(chunks), slave)
    decreases |chunks|
  {
    hide Scan;
    if chunks == [] {
      assert rx + Stream(chunks) == rx;
    } else {
      var s := Scan(rx + chunks[0], slave);
      FeedingIsScanning(s.rest, chunks[1..], slave);
      ScanContinues(rx + chunks[0], Stream(chunks[1..]), slave);
      assert rx + Stream(chunks) == (rx + chunks[0]) + Stream(chunks[1..]);
    }
  }

  /** Confluence: the requests found, and the bytes left over, are the same for every way
      of splitting the byte stream into chunks. */
  lemma ScannerConfluence(rx: Bytes, first: seq<Bytes>, second: seq<Bytes>, slave: int)
    requires Stream(first) == Stream(second)
    ensures Fed(rx, first, slave) == Fed(rx, second, slave)
  {
    hide Fed, Stream;
    FeedingIsScanning(rx, first, slave);
    FeedingIsScanning(rx, second, slave);
  }

  /** The first request of a buffer is the head of its scan. */
  lemma {:induction false} ScanFindsFirst(rx: Bytes, slave: int, at: nat)
    requires RequestAt(rx, slave, at) && forall j :: 0 <= j < at ==> !RequestAt(rx, slave, j)
    ensures var s := Scan(rx[at + FRAME..], slave);
            Scan(rx, slave) == Scanned([rx[at..at + FRAME]] + s.frames, s.rest)
    decreases at
  {
    hide IsRequest;
    if at == 0 {
      assert rx[0..FRAME] == rx[..FRAME];
    } else {
      assert rx[0..FRAME] == rx[..FRAME] && !RequestAt(rx, slave, 0);
      Slide(rx, slave, at);
      ScanFindsFirst(rx[1..], slave, at - 1);
      assert rx[1..][at - 1..at - 1 + FRAME] == rx[at..at + FRAME] && rx[1..][at - 1 + FRAME..] == rx[at + FRAME..];
    }
  }

  lemma Slide(rx: Bytes, slave: int, at: nat)
    requires |rx| >= FRAME && (forall j :: 0 <= j < at ==> !RequestAt(rx, slave, j))
    requires at > 0
    ensures forall j :: 0 <= j < at - 1 ==> !RequestAt(rx[1..], slave, j)
    ensures RequestAt(rx, slave, at) ==> RequestAt(rx[1..], slave, at - 1)
  {
    hide IsRequest;
    forall j | 0 <= j < at - 1 ensures !RequestAt(rx[1..], slave, j) {
      assert !RequestAt(rx, slave, j + 1);
      if j + 1 + FRAME <= |rx| {
        assert rx[1..][j..j + FRAME] == rx[j + 1..j + 1 + FRAME];
      }
    }
    if at + FRAME <= |rx| {
      assert rx[1..][at - 1..at - 1 + FRAME] == rx[at..at + FRAME];
    }
  }

  /** Without any request the scan finds nothing and keeps the last seven bytes. */
  lemma {:induction false} ScanFindsNone(rx: Bytes, slave: int)
    requires forall j :: 0 <= j < |rx| ==> !RequestAt(rx, slave, j)
    ensures Scan(rx, slave) == Scanned([], if |rx| < FRAME then rx else rx[|rx| - (FRAME - 1)..])
    decreases |rx|
  {
    hide IsRequest;
    if |rx| >= FRAME {
      assert rx[0..FRAME] == rx[..FRAME] && !RequestAt(rx, slave, 0);
      Slide(rx, slave, |rx|);
      ScanFindsNone(rx[1..], slave);
    }
  }

  /** Whatever a master asks of function 04 under this address is found as soon as it is
      complete, and nothing is left over. */
  lemma RequestFound(payload: Bytes, slave: int)
    requires |payload| == 6 && Value(payload[0]) == slave && payload[1] == 0x04
    ensures Scan(AppendCrc(payload), slave) == Scanned([AppendCrc(payload)], [])
  {
    hide VerifyCrc, Crc, Low, High, Value;
    AppendVerifies(payload);
    var frame := AppendCrc(payload);
    assert frame[..FRAME] == frame && frame[FRAME..] == [];
    assert Scan([], slave) == Scanned([], []);
  }

  // ------------------------------------------------------------------ replies

  datatype Reply = Silent | Answer(frame: Bytes) | Failure(error: CodecError)

  /** What a buffer slice from `start` of length `count` is in Python. */
  function Slice(values: seq<int>, start: nat, count: nat): seq<int> {
    if start >= |values| then []
    else if start + count <= |values| then values[start..start + count]
    else values[start..]
  }

  function Served(slave: int, values: seq<int>): Reply {
    match Response(slave, values)
    case Ok(frame) => Answer(frame)
    case Err(error) => Failure(error)
  }

  function Handled(frame: Bytes, slave: int, raw: seq<int>): Reply {
    if |frame| != FRAME || !VerifyCrc(frame) || Value(frame[0]) != slave then Silent
    else if frame[1] != READ_INPUT_REGISTERS then Answer(BuildException(slave, frame[1], ILLEGAL_FUNCTION))
    else
      var start, count := Word(frame[2], frame[3]), Word(frame[4], frame[5]);
      if count == 0 || count > CHANNELS then Answer(BuildException(slave, frame[1], ILLEGAL_DATA_VALUE))
      else if start >= CHANNELS || start + count > CHANNELS then
        Answer(BuildException(slave, frame[1], ILLEGAL_DATA_ADDRESS))
      else Served(slave, Slice(raw, start, count))
  }

  function HandledAll(frames: seq<Bytes>, slave: int, raw: seq<int>): seq<Reply> {
    if frames == [] then [] else [Handled(frames[0], slave, raw)] + HandledAll(frames[1..], slave, raw)
  }

  predicate RegisterBank(raw: seq<int>) {
    |raw| == CHANNELS && forall i :: 0 <= i < |raw| ==> IsRegister(raw[i])
  }

  lemma ExceptionVerifies(slave: int, request: bv8, code: int)
    ensures var f := BuildException(slave, request, code);
            VerifyCrc(f) && |f| == 5 && f[1] == request | 0x80 && f[2] == Byte(code)
  {
    hide VerifyCrc, Crc, Low, High, Byte;
    AppendVerifies([Byte(slave), request | 0x80, Byte(code)]);
  }

  /** Every request found is answered with a valid frame.  An in-range one decodes to
      exactly the requested registers; a bad count or address gets its exception code. */
  lemma RequestAnswered(frame: Bytes, slave: int, raw: seq<int>)
    requires IsRequest(frame, slave) && RegisterBank(raw)
    ensures var r := Handled(frame, slave, raw);
            var start := 256 * Value(frame[2]) + Value(frame[3]);
            var count := 256 * Value(frame[4]) + Value(frame[5]);
            && r.Answer? && VerifyCrc(r.frame)
            && (0 < count && start + count <= CHANNELS ==>
                  Decoded(r.frame, slave) == Some(raw[start..start + count]))
            && (count == 0 || count > CHANNELS ==>
                  r.frame[1] == 0x84 && r.frame[2] == Byte(ILLEGAL_DATA_VALUE))
            && (0 < count <= CHANNELS && start + count > CHANNELS ==>
                  r.frame[1] == 0x84 && r.frame[2] == Byte(ILLEGAL_DATA_ADDRESS))
  {
    hide VerifyCrc, BuildException, Byte, Value, Decoded, Response;
    var start, count := Word(frame[2], frame[3]), Word(frame[4], frame[5]);
    ExceptionVerifies(slave, frame[1], ILLEGAL_DATA_VALUE);
    ExceptionVerifies(slave, frame[1], ILLEGAL_DATA_ADDRESS);
    if 0 < count && start + count <= CHANNELS {
      ResponseRoundTrip(slave, raw[start..start + count]);
    }
  }

  /** A whole, undamaged frame for this slave. */
  predicate Addressed(frame: Bytes, slave: int) {
    |frame| == FRAME && VerifyCrc(frame) && Value(frame[0]) == slave
  }

  lemma AnswerAddressed(frame: Bytes, slave: int, raw: seq<int>)
    requires RegisterBank(raw) && Addressed(frame, slave)
    ensures var r := Handled(frame, slave, raw);
            && r.Answer? && VerifyCrc(r.frame) && Value(r.frame[0]) == slave
            && (r.frame[1] == frame[1] || r.frame[1] == frame[1] | 0x80)
            && (frame[1] != READ_INPUT_REGISTERS ==>
                  |r.frame| == 5 && r.frame[1] == frame[1] | 0x80 && r.frame[2] == Byte(ILLEGAL_FUNCTION)
                  && Decoded(r.frame, slave) == None)
  {
    hide VerifyCrc, BuildException, Byte, Value, Word, Response;
    ByteRoundTrip(slave);
    ExceptionAddressed(slave, frame[1], ILLEGAL_FUNCTION);
    ExceptionAddressed(slave, frame[1], ILLEGAL_DATA_VALUE);
    ExceptionAddressed(slave, frame[1], ILLEGAL_DATA_ADDRESS);
    if frame[1] == READ_INPUT_REGISTERS {
      RequestAnswered(frame, slave, raw);
      ServedAddressed(frame, slave, raw);
    } else {
      ExceptionUndecoded(slave, frame[1], ILLEGAL_FUNCTION);
    }
  }

  /** Exactly the valid frames for this slave, whatever their function and contents, are
      answered; the answer is valid and under the address they were sent to; and only a
      function 04 request gets one that a master can decode, any other the exception for
      its function. */
  lemma AddressedAnswered(frame: Bytes, slave: int, raw: seq<int>)
    requires RegisterBank(raw)
    ensures Handled(frame, slave, raw) != Silent <==> Addressed(frame, slave)
    ensures var r := Handled(frame, slave, raw);
            r != Silent ==>
              && r.Answer? && VerifyCrc(r.frame) && Value(r.frame[0]) == slave
              && (r.frame[1] == frame[1] || r.frame[1] == frame[1] | 0x80)
              && (frame[1] != READ_INPUT_REGISTERS ==>
                    |r.frame| == 5 && r.frame[1] == frame[1] | 0x80 && r.frame[2] == Byte(ILLEGAL_FUNCTION)
                    && Decoded(r.frame, slave) == None)
  {
    hide VerifyCrc, BuildException, Byte, Value, Word, Response, Decoded;
    if Addressed(frame, slave) {
      AnswerAddressed(frame, slave, raw);
    }
  }

  lemma ExceptionAddressed(slave: int, request: bv8, code: int)
    ensures var f := BuildException(slave, request, code);
            VerifyCrc(f) && |f| == 5 && f[0] == Byte(slave) && f[1] == request | 0x80 && f[2] == Byte(code)
  {
    hide VerifyCrc, Crc, Low, High, Byte;
    ExceptionVerifies(slave, request, code);
  }

  /** An exception is never mistaken for a response: its function has the high bit set. */
  lemma ExceptionUndecoded(slave: int, request: bv8, code: int)
    ensures Decoded(BuildException(slave, request, code), slave) == None
  {
    hide VerifyCrc, Crc, Low, High, Byte, Value, BuildException;
    ExceptionVerifies(slave, request, code);
    HighBitDiffers(request);
  }

  lemma HighBitDiffers(request: bv8)
    ensures request | 0x80 != READ_INPUT_REGISTERS
  {
  }

  lemma ServedAddressed(frame: Bytes, slave: int, raw: seq<int>)
    requires IsRequest(frame, slave) && RegisterBank(raw) && Handled(frame, slave, raw).Answer?
    ensures var f := Handled(frame, slave, raw).frame;
            |f| >= 2 && f[0] == Byte(slave) && (f[1] == frame[1] || f[1] == frame[1] | 0x80)
  {
    hide VerifyCrc, Crc, Low, High, Byte, Value, Word, RegisterBytes, FirstBad;
    ExceptionAddressed(slave, frame[1], ILLEGAL_DATA_VALUE);
    ExceptionAddressed(slave, frame[1], ILLEGAL_DATA_ADDRESS);
  }

  /** Everything a scan produces is a request. */
  lemma {:induction false} ScannedAreRequests(rx: Bytes, slave: int)
    ensures forall f :: f in Scan(rx, slave).frames ==> IsRequest(f, slave)
    decreases |rx|
  {
    hide IsRequest;
    if |rx| >= FRAME {
      ScannedAreRequests(if IsRequest(rx[..FRAME], slave) then rx[FRAME..] else rx[1..], slave);
    }
  }

  // ------------------------------------------------------------------ the module

  class AdcModule {
    var rx: Bytes
    const slave: int
    const raw: seq<int>

    constructor (slave: int, raw: seq<int>)
      ensures rx == [] && this.slave == slave && this.raw == raw
    {
      this.slave, this.raw := slave, raw;
      rx := [];
    }

    /** The next valid request, sliding over noise: the first valid window is returned and
        consumed exactly up to its end; without one, fewer than eight bytes stay. */
    method PopNextRequestFrame() returns (frame: Option<Bytes>)
      modifies `rx
      ensures frame.Some? ==> exists at: nat ::
                && RequestAt(old(rx), slave, at) && (forall j :: 0 <= j < at ==> !RequestAt(old(rx), slave, j))
                && frame.value == old(rx)[at..at + FRAME] && rx == old(rx)[at + FRAME..]
      ensures frame.None? ==>
                && (forall j :: 0 <= j < |old(rx)| ==> !RequestAt(old(rx), slave, j))
                && rx == (if |old(rx)| < FRAME then old(rx) else old(rx)[|old(rx)| - (FRAME - 1)..])
    {
      hide IsRequest;
      ghost var at: nat := 0;
      while |rx| >= FRAME
        invariant at <= |old(rx)| && rx == old(rx)[at..] && (at > 0 ==> |rx| >= FRAME - 1)
        invariant forall j :: 0 <= j < at ==> !RequestAt(old(rx), slave, j)
        decreases |rx|
      {
        var window := rx[..FRAME];
        assert window == old(rx)[at..at + FRAME];
        RequestMeans(window, slave);
        if Value(window[0]) == slave && window[1] == READ_INPUT_REGISTERS && VerifyCrc(window) {
          rx := rx[FRAME..];
          assert RequestAt(old(rx), slave, at);
          return Some(window);
        }
        rx := rx[1..];
        at := at + 1;
      }
      return None;
    }

    /** One pass of the service loop: take in a chunk, answer every request in it. */
    method Receive(chunk: Bytes) returns (requests: seq<Bytes>, replies: seq<Reply>)
      modifies `rx
      ensures Scanned(requests, rx) == Scan(old(rx) + chunk, slave)
      ensures replies == HandledAll(requests, slave, raw)
    {
      hide Scan, Handled, IsRequest;
      rx := rx + chunk;
      requests, replies := [], [];
      ghost var all := Scan(rx, slave);
      while true
        invariant all.frames == requests + Scan(rx, slave).frames && all.rest == Scan(rx, slave).rest
        invariant replies == HandledAll(requests, slave, raw)
        decreases |rx|
      {
        ghost var before := rx;
        var frame := PopNextRequestFrame();
        if frame.None? {
          ScanFindsNone(before, slave);
          RestStays(before, rx, slave);
          return;
        }
        ghost var at: nat :| RequestAt(before, slave, at) && (forall j :: 0 <= j < at ==> !RequestAt(before, slave, j))
                             && frame.value == before[at..at + FRAME] && rx == before[at + FRAME..];
        ScanFindsFirst(before, slave, at);
        AnswersGrow(requests, frame.value, slave, raw);
        requests := requests + [frame.value];
        replies := replies + [HandleRequest(frame.value)];
      }
    }

    /** The service loop over a finite stream of chunks, from a buffer without a full frame:
        however the stream is split, the requests answered are those of the whole stream. */
    method Serve(chunks: seq<Bytes>) returns (requests: seq<Bytes>, replies: seq<Reply>)
      requires |rx| < FRAME
      modifies `rx
      ensures Scanned(requests, rx) == Scan(old(rx) + Stream(chunks), slave)
      ensures replies == HandledAll(requests, slave, raw)
    {
      hide Scan, Handled, HandledAll, Stream, Fed;
      ghost var all := Fed(rx, chunks, slave);
      FeedingIsScanning(rx, chunks, slave);
      requests, replies := [], [];
      NothingHandled(slave, raw);
      for i := 0 to |chunks|
        invariant |rx| < FRAME && replies == HandledAll(requests, slave, raw)
        invariant all == After(requests, Fed(rx, chunks[i..], slave))
      {
        OneMoreChunk(requests, rx, chunks, i, slave);
        RestScansEmpty(rx + chunks[i], slave);
        var found, answers := Receive(chunks[i]);
        AnswersJoin(requests, found, slave, raw);
        requests, replies := requests + found, replies + answers;
      }
      NoMoreChunks(requests, rx, chunks[|chunks|..], slave);
    }

    /** Decode one request and build its reply. */
    function HandleRequest(frame: Bytes): Reply
    {
      Handled(frame, slave, raw)
    }
  }

  /** What is found later, after these frames. */
  function After(frames: seq<Bytes>, later: Scanned): Scanned {
    Scanned(frames + later.frames, later.rest)
  }

  lemma OneMoreChunk(frames: seq<Bytes>, rx: Bytes, chunks: seq<Bytes>, i: nat, slave: int)
    requires i < |chunks|
    ensures var s := Scan(rx + chunks[i], slave);
            After(frames, Fed(rx, chunks[i..], slave)) == After(frames + s.frames, Fed(s.rest, chunks[i + 1..], slave))
  {
    hide Scan;
    assert chunks[i..][1..] == chunks[i + 1..];
    var s := Scan(rx + chunks[i], slave);
    var t := Fed(s.rest, chunks[i + 1..], slave);
    assert frames + (s.frames + t.frames) == (frames + s.frames) + t.frames;
  }

  lemma NoMoreChunks(frames: seq<Bytes>, rx: Bytes, chunks: seq<Bytes>, slave: int)
    requires |rx| < FRAME && chunks == []
    ensures After(frames, Fed(rx, chunks, slave)) == Scanned(frames, rx)
  {
    assert frames + [] == frames;
  }

  lemma NothingHandled(slave: int, raw: seq<int>)
    ensures HandledAll([], slave, raw) == []
  {
  }

  lemma {:induction false} AnswersJoin(first: seq<Bytes>, rest: seq<Bytes>, slave: int, raw: seq<int>)
    ensures HandledAll(first + rest, slave, raw) == HandledAll(first, slave, raw) + HandledAll(rest, slave, raw)
    decreases |first|
  {
    hide Handled;
    if first == [] {
      assert first + rest == rest;
    } else {
      assert (first + rest)[0] == first[0] && (first + rest)[1..] == first[1..] + rest;
      AnswersJoin(first[1..], rest, slave, raw);
    }
  }

  lemma RequestMeans(window: Bytes, slave: int)
    requires |window| == FRAME
    ensures IsRequest(window, slave) <==>
              Value(window[0]) == slave && window[1] == READ_INPUT_REGISTERS && VerifyCrc(window)
  {
  }

  lemma RestStays(rx: Bytes, rest: Bytes, slave: int)
    requires rest == (if |rx| < FRAME then rx else rx[|rx| - (FRAME - 1)..])
    ensures Scan(rest, slave) == Scanned([], rest)
  {
  }

  lemma {:induction false} AnswersGrow(frames: seq<Bytes>, frame: Bytes, slave: int, raw: seq<int>)
    ensures HandledAll(frames + [frame], slave, raw) == HandledAll(frames, slave, raw) + [Handled(frame, slave, raw)]
    decreases |frames|
  {
    hide Handled;
    if frames == [] {
      assert frames + [frame] == [frame];
    } else {
      assert (frames + [frame])[1..] == frames[1..] + [frame];
      AnswersGrow(frames[1..], frame, slave, raw);
    }
  }
}
