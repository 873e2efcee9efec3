/** TCPTransport.data_received_callback: frames cut out of a byte stream. */
module TcpStream {
  import opened Bytes
  import opened KnxIpFrame
  import opened RoutingBodies
  import CoreBodies
  import Dibs = DescriptionInformationBlocks
  import ParseLoops

  /** A parser of one frame from the front of some data: the frame and the rest. */
  type FrameParser<!F> = Bytes -> Result<(F, Bytes)>

  /**
   What leaves the callback: the two errors of its own making, or what the parser raised and the
   callback does not catch.
   */
  datatype Exception =
    | UnboundLocal
    | Recursion
    | FromParser(error: Error)
      /**
       The call never returns: a list loop in a body that never ends or, with unlimited recursion, a
       header with length zero.
       */
    | Endless

  /**
   What one callback does: the frames it hands on, the octets it keeps, and the exception
   that leaves it, if any.
   */
  datatype Received<F> = Received(frames: seq<F>, buffer: Bytes, raised: Option<Exception>)

  /**
   A frame that cannot be parsed leaves the callback with an UnboundLocalError: the rest of the
   data is only bound when from_knx returns.
   */
  function OnError<F>(e: Error, raw: Bytes): Received<F> {
    if e == IncompleteKNXIPFrame then Received([], raw, None)
    else if e == Diverges then Received([], [], Some(Endless))
    else if e == CouldNotParseKNXIP || e == KNXSecureValidationError then Received([], [], Some(UnboundLocal))
    else Received([], [], Some(FromParser(e)))
  }

  function Deliver<F>(f: F, r: Received<F>): Received<F> {
    Received([f] + r.frames, r.buffer, r.raised)
  }

  /**
   The callback for `raw` with an empty buffer. It calls itself for what follows a frame, and
   `levels` is the number of nested calls for which the interpreter's stack has room.
   */
  function Callback<F>(parse: FrameParser<F>, levels: nat, raw: Bytes): Received<F>
    decreases levels
  {
    if levels == 0 then Received([], [], Some(Recursion))
    else if raw == [] then Received([], [], None)
    else
      match parse(raw)
      case Err(e) => OnError(e, raw)
      case Ok((f, rest)) =>
        if rest == [] then Received([f], [], None) else Deliver(f, Callback(parse, levels - 1, rest))
  }

  class TcpTransport {
    var buffer: Bytes
    /** The frames passed to handle_knxipframe so far. */
    var handled: seq<Frame>

    constructor ()
      ensures buffer == [] && handled == []
    {
      buffer, handled := [], [];
    }

    method DataReceived(levels: nat, chunk: Bytes) returns (raised: Option<Exception>)
      requires levels > 0
      modifies this
      ensures buffer == Callback(FrameFromKnx, levels, old(buffer) + chunk).buffer
      ensures handled == old(handled) + Callback(FrameFromKnx, levels, old(buffer) + chunk).frames
      ensures raised == Callback(FrameFromKnx, levels, old(buffer) + chunk).raised
    {
      raised := Handle(FrameFromKnx, levels, chunk);
    }

    /** data_received_callback, given KNXIPFrame.from_knx. */
    method Handle(parse: FrameParser<Frame>, levels: nat, chunk: Bytes) returns (raised: Option<Exception>)
      requires levels > 0
      modifies this
      ensures buffer == Callback(parse, levels, old(buffer) + chunk).buffer
      ensures handled == old(handled) + Callback(parse, levels, old(buffer) + chunk).frames
      ensures raised == Callback(parse, levels, old(buffer) + chunk).raised
      decreases levels
    {
      var raw := chunk;
      assert buffer == [] ==> buffer + chunk == chunk;
      if buffer != [] {
        raw := buffer + raw;
        buffer := [];
      }
      assert raw == old(buffer) + chunk;
      if raw == [] {
        return None;
      }
      var parsed := parse(raw);
      if parsed.Err? {
        if parsed.error == IncompleteKNXIPFrame {
          buffer := raw;
          return None;
        }
        return OnError<Frame>(parsed.error, raw).raised;
      }
      var (f, rest) := parsed.value;
      handled := handled + [f];
      if rest == [] {
        return None;
      }
      if levels == 1 {
        return Some(Recursion);
      }
      assert buffer + rest == rest;
      raised := Handle(parse, levels - 1, rest);
    }
  }

  // ------------------------------------------------------- with room for every call

  /** The callback on an unlimited stack. A header with length zero is parsed from the same octets for ever. */
  function Drain<F>(parse: FrameParser<F>, raw: Bytes): Received<F>
    decreases |raw|
  {
    if raw == [] then Received([], [], None)
    else
      match parse(raw)
      case Err(e) => OnError(e, raw)
      case Ok((f, rest)) =>
        if |rest| >= |raw| then Received([f], [], Some(Endless))
        else Deliver(f, Drain(parse, rest))
  }

  /** How many nested calls that takes, if it ends. */
  function Depth<F>(parse: FrameParser<F>, raw: Bytes): Option<nat>
    decreases |raw|
  {
    if raw == [] || parse(raw).Err? || parse(raw).value.1 == [] then Some(1)
    else if |parse(raw).value.1| >= |raw| then None
    else
      match Depth(parse, parse(raw).value.1)
      case None => None
      case Some(n) => Some(n + 1)
  }

  /** What a parser leaves is less than what it got, or the same. */
  ghost predicate Shortens<F(!new)>(parse: FrameParser<F>) {
    forall raw: Bytes :: raw != [] && parse(raw).Ok? ==> |parse(raw).value.1| < |raw| || parse(raw).value.1 == raw
  }

  predicate HasRoom(depth: Option<nat>, levels: nat) {
    depth.Some? && depth.value <= levels
  }

  /** Where the stack has room the callback does what it would do on an unlimited one. */
  lemma {:induction false} CallbackWithRoom<F>(parse: FrameParser<F>, levels: nat, raw: Bytes)
    requires HasRoom(Depth(parse, raw), levels)
    ensures Callback(parse, levels, raw) == Drain(parse, raw)
    decreases levels
  {
    if raw != [] && parse(raw).Ok? {
      var (f, rest) := parse(raw).value;
      if rest == [] {
        assert Deliver(f, Drain(parse, rest)) == Received([f], [], None) by {
          assert [f] + [] == [f];
        }
      } else {
        CallbackWithRoom(parse, levels - 1, rest);
      }
    }
  }

  /**
   Where it has none, one frame is handled on every level, nothing is kept, and RecursionError
   leaves the callback.
   */
  lemma {:induction false} CallbackWithoutRoom<F(!new)>(parse: FrameParser<F>, levels: nat, raw: Bytes)
    requires Shortens(parse) && !HasRoom(Depth(parse, raw), levels)
    ensures var r := Callback(parse, levels, raw);
            |r.frames| == levels && r.buffer == [] && r.raised == Some(Recursion)
    decreases levels
  {
    if levels > 0 {
      var rest := parse(raw).value.1;
      if |rest| >= |raw| {
        assert rest == raw;
      }
      CallbackWithoutRoom(parse, levels - 1, rest);
    }
  }

  lemma {:induction false} DrainNeverOverflows<F>(parse: FrameParser<F>, raw: Bytes)
    ensures Drain(parse, raw).raised != Some(Recursion)
    decreases |raw|
  {
    if raw != [] && parse(raw).Ok? && |parse(raw).value.1| < |raw| {
      DrainNeverOverflows(parse, parse(raw).value.1);
    }
  }

  // -------------------------------------------------------------- when it raises

  /** The data is whole frames and then nothing or the beginning of one. */
  predicate Clean<F>(parse: FrameParser<F>, raw: Bytes)
    decreases |raw|
  {
    || raw == []
    || (parse(raw).Err? && parse(raw).error == IncompleteKNXIPFrame)
    || (parse(raw).Ok? && |parse(raw).value.1| < |raw| && Clean(parse, parse(raw).value.1))
  }

  lemma {:induction false} CleanIffDrained<F>(parse: FrameParser<F>, raw: Bytes)
    ensures Clean(parse, raw) <==> Drain(parse, raw).raised == None
    ensures Clean(parse, raw) && raw != [] ==>
              var r := Drain(parse, raw); Depth(parse, raw) == Some(|r.frames| + if r.buffer != [] then 1 else 0)
    decreases |raw|
  {
    if raw != [] && parse(raw).Ok? && |parse(raw).value.1| < |raw| {
      CleanIffDrained(parse, parse(raw).value.1);
    }
  }

  /**
   The callback raises nothing exactly when the data is whole frames and at most the beginning
   of one, and the stack has room for a call for each of them.
   */
  lemma RaisesNothingIff<F(!new)>(parse: FrameParser<F>, levels: nat, raw: Bytes)
    requires Shortens(parse) && levels > 0
    ensures Callback(parse, levels, raw).raised == None <==> Clean(parse, raw) && HasRoom(Depth(parse, raw), levels)
    ensures Callback(parse, levels, raw).raised == Some(Recursion) <==> !HasRoom(Depth(parse, raw), levels)
    ensures Clean(parse, raw) && raw != [] ==>
              var r := Drain(parse, raw);
              HasRoom(Depth(parse, raw), levels) <==> |r.frames| + (if r.buffer != [] then 1 else 0) <= levels
  {
    CleanIffDrained(parse, raw);
    DrainNeverOverflows(parse, raw);
    if HasRoom(Depth(parse, raw), levels) {
      CallbackWithRoom(parse, levels, raw);
    } else {
      CallbackWithoutRoom(parse, levels, raw);
    }
  }

  lemma FrameParserShortens()
    ensures Shortens(FrameFromKnx)
  {
  }

  // ------------------------------------------------------------------ chunking

  /** Octets that arrive later change neither a parsed frame nor a failure. */
  ghost predicate Stable<F(!new)>(parse: FrameParser<F>) {
    forall data: Bytes, more: Bytes {:trigger parse(data + more)} :: data != [] && parse(data) != Err(IncompleteKNXIPFrame) ==>
      parse(data + more) == match parse(data)
                            case Ok(p) => Ok((p.0, p.1 + more))
                            case Err(e) => Err(e)
  }

  lemma FrameParserIsStable()
    ensures Stable(FrameFromKnx)
  {
    forall data: Bytes, more: Bytes | data != [] && FrameFromKnx(data) != Err(IncompleteKNXIPFrame)
      ensures FrameFromKnx(data).Ok? ==>
                FrameFromKnx(data + more) == Ok((FrameFromKnx(data).value.0, FrameFromKnx(data).value.1 + more))
      ensures FrameFromKnx(data).Err? ==> FrameFromKnx(data + more) == FrameFromKnx(data)
    {
      if FrameFromKnx(data).Ok? {
        ParsedFrameIsStable(data, more);
      } else {
        FailureIsStable(data, more);
      }
    }
  }

  /** What the callback keeps for the next chunk is never a complete frame. */
  lemma {:induction false} BufferIsIncomplete<F>(parse: FrameParser<F>, raw: Bytes)
    ensures Drain(parse, raw).buffer == [] || parse(Drain(parse, raw).buffer) == Err(IncompleteKNXIPFrame)
    decreases |raw|
  {
    if raw != [] && parse(raw).Ok? && |parse(raw).value.1| < |raw| {
      BufferIsIncomplete(parse, parse(raw).value.1);
    }
  }

  /** The frames of r1 and then those of r2. */
  function Then<F>(r1: Received<F>, r2: Received<F>): Received<F> {
    Received(r1.frames + r2.frames, r2.buffer, r2.raised)
  }

  lemma ThenDeliver<F>(f: F, r1: Received<F>, r2: Received<F>)
    ensures Then(Deliver(f, r1), r2) == Deliver(f, Then(r1, r2))
    ensures Then(Received([], r1.buffer, None), r2) == r2
  {
    assert [f] + r1.frames + r2.frames == [f] + (r1.frames + r2.frames);
    assert [] + r2.frames == r2.frames;
  }

  /** Splitting the data into two callbacks changes nothing, as long as the first one raises nothing. */
  lemma {:induction false} DrainInTwo<F(!new)>(parse: FrameParser<F>, first: Bytes, second: Bytes)
    requires Stable(parse) && Drain(parse, first).raised == None
    ensures Drain(parse, first + second) == Then(Drain(parse, first), Drain(parse, Drain(parse, first).buffer + second))
    decreases |first|
  {
    var r1 := Drain(parse, first);
    var r2 := Drain(parse, r1.buffer + second);
    if first == [] {
      assert [] + second == second;
      assert [] + r2.frames == r2.frames;
    } else if parse(first).Err? {
      assert [] + r2.frames == r2.frames;
    } else {
      var (f, rest) := parse(first).value;
      assert parse(first + second) == Ok((f, rest + second));
      DrainInTwo(parse, rest, second);
      ThenDeliver(f, Drain(parse, rest), r2);
    }
  }

  /** If the whole raises nothing, neither does any beginning of it. */
  lemma {:induction false} DrainOfPrefix<F(!new)>(parse: FrameParser<F>, first: Bytes, second: Bytes)
    requires Stable(parse) && Drain(parse, first + second).raised == None
    ensures Drain(parse, first).raised == None
    decreases |first|
  {
    if first != [] && parse(first) != Err(IncompleteKNXIPFrame) {
      assert parse(first + second).Ok? == parse(first).Ok?;
      if parse(first).Ok? {
        var (f, rest) := parse(first).value;
        assert parse(first + second) == Ok((f, rest + second));
        DrainOfPrefix(parse, rest, second);
      }
    }
  }

  /** The transport fed with one chunk after the other. */
  function FeedAll<F>(parse: FrameParser<F>, buffer: Bytes, chunks: seq<Bytes>): Received<F>
    decreases |chunks|
  {
    if chunks == [] then Received([], buffer, None)
    else
      var r := Drain(parse, buffer + chunks[0]);
      if r.raised.Some? then r else Then(r, FeedAll(parse, r.buffer, chunks[1..]))
  }

  /** The same with limited room on the stack in each callback. */
  function FeedWithin<F>(parse: FrameParser<F>, levels: nat, buffer: Bytes, chunks: seq<Bytes>): Received<F>
    decreases |chunks|
  {
    if chunks == [] then Received([], buffer, None)
    else
      var r := Callback(parse, levels, buffer + chunks[0]);
      if r.raised.Some? then r else Then(r, FeedWithin(parse, levels, r.buffer, chunks[1..]))
  }

  /** The stack has room for what every chunk completes. */
  predicate RoomForAll<F>(parse: FrameParser<F>, levels: nat, buffer: Bytes, chunks: seq<Bytes>)
    decreases |chunks|
  {
    chunks == [] ||
    (&& HasRoom(Depth(parse, buffer + chunks[0]), levels)
     && RoomForAll(parse, levels, Drain(parse, buffer + chunks[0]).buffer, chunks[1..]))
  }

  /** Where an unlimited stack would raise nothing, a limited one makes no difference exactly when it has room. */
  lemma {:induction false} FeedWithinIff<F(!new)>(parse: FrameParser<F>, levels: nat, buffer: Bytes, chunks: seq<Bytes>)
    requires Shortens(parse) && FeedAll(parse, buffer, chunks).raised == None
    ensures FeedWithin(parse, levels, buffer, chunks) == FeedAll(parse, buffer, chunks) <==> RoomForAll(parse, levels, buffer, chunks)
    ensures !RoomForAll(parse, levels, buffer, chunks) ==> FeedWithin(parse, levels, buffer, chunks).raised == Some(Recursion)
    decreases |chunks|
  {
    if chunks != [] {
      var raw := buffer + chunks[0];
      if HasRoom(Depth(parse, raw), levels) {
        CallbackWithRoom(parse, levels, raw);
        FeedWithinIff(parse, levels, Drain(parse, raw).buffer, chunks[1..]);
      } else {
        CallbackWithoutRoom(parse, levels, raw);
      }
    }
  }

  function Joined(chunks: seq<Bytes>): Bytes {
    if chunks == [] then [] else chunks[0] + Joined(chunks[1..])
  }

  /** However data is cut into chunks, the frames and the kept tail are those of the data as a whole. */
  lemma {:induction false} ChunkingIsIrrelevant<F(!new)>(parse: FrameParser<F>, buffer: Bytes, chunks: seq<Bytes>)
    requires Stable(parse)
    requires buffer == [] || parse(buffer) == Err(IncompleteKNXIPFrame)
    requires Drain(parse, buffer + Joined(chunks)).raised == None
    ensures FeedAll(parse, buffer, chunks) == Drain(parse, buffer + Joined(chunks))
    decreases |chunks|
  {
    if chunks == [] {
      assert buffer + [] == buffer;
    } else {
      var first, rest := buffer + chunks[0], Joined(chunks[1..]);
      assert buffer + Joined(chunks) == first + rest;
      DrainOfPrefix(parse, first, rest);
      DrainInTwo(parse, first, rest);
      BufferIsIncomplete(parse, first);
      ChunkingIsIrrelevant(parse, Drain(parse, first).buffer, chunks[1..]);
    }
  }

  // ------------------------------------------------ streams of serialised frames

  function Stream(frames: seq<Frame>): Bytes
    requires forall f :: f in frames ==> ValidFrame(f)
  {
    if frames == [] then [] else FrameToKnx(frames[0]) + Stream(frames[1..])
  }

  /** A frame and its octets as the parser reads them: with anything behind, and not before they are complete. */
  ghost predicate Reads<F(!new)>(parse: FrameParser<F>, part: (F, Bytes)) {
    && part.1 != []
    && (forall tail: Bytes :: parse(part.1 + tail) == Ok((part.0, tail)))
    && (forall n :: 0 < n < |part.1| ==> parse(part.1[..n]) == Err(IncompleteKNXIPFrame))
  }

  function Octets<F>(parts: seq<(F, Bytes)>): Bytes {
    if parts == [] then [] else parts[0].1 + Octets(parts[1..])
  }

  function Frames<F>(parts: seq<(F, Bytes)>): seq<F> {
    seq(|parts|, i requires 0 <= i < |parts| => parts[i].0)
  }

  /** Whole frames are handed on whatever follows them, and then that is what counts. */
  lemma {:induction false} DrainPartsThen<F(!new)>(parse: FrameParser<F>, parts: seq<(F, Bytes)>, tail: Bytes)
    requires forall i :: 0 <= i < |parts| ==> Reads(parse, parts[i])
    ensures Drain(parse, Octets(parts) + tail) == Then(Received(Frames(parts), [], None), Drain(parse, tail))
    decreases |parts|
  {
    var r := Drain(parse, tail);
    if parts == [] {
      assert [] + tail == tail && Frames(parts) + r.frames == r.frames;
    } else {
      var rest := Octets(parts[1..]) + tail;
      assert Octets(parts) + tail == parts[0].1 + rest;
      assert Reads(parse, parts[0]);
      DrainPartsThen(parse, parts[1..], tail);
      assert Frames(parts) + r.frames == [parts[0].0] + (Frames(parts[1..]) + r.frames);
    }
  }

  /** The beginning of a stream that ends inside a frame yields the frames before it. */
  lemma DrainParts<F(!new)>(parse: FrameParser<F>, parts: seq<(F, Bytes)>, partial: Bytes)
    requires forall i :: 0 <= i < |parts| ==> Reads(parse, parts[i])
    requires partial == [] || parse(partial) == Err(IncompleteKNXIPFrame)
    ensures Drain(parse, Octets(parts) + partial) == Received(Frames(parts), partial, None)
  {
    DrainPartsThen(parse, parts, partial);
    assert Frames(parts) + [] == Frames(parts);
  }

  /** Every cut of a stream lies after some number of whole frames, inside the next one or at its start. */
  lemma {:induction false} CutPoint<F(!new)>(parse: FrameParser<F>, parts: seq<(F, Bytes)>, n: nat) returns (k: nat, partial: Bytes)
    requires forall i :: 0 <= i < |parts| ==> Reads(parse, parts[i])
    requires n <= |Octets(parts)|
    ensures k <= |parts| && Octets(parts)[..n] == Octets(parts[..k]) + partial
    ensures if k == |parts| then partial == [] else |partial| < |parts[k].1|
    ensures partial == [] || parse(partial) == Err(IncompleteKNXIPFrame)
    decreases |parts|
  {
    if parts == [] {
      k, partial := 0, [];
    } else {
      var head := parts[0].1;
      assert Reads(parse, parts[0]);
      if n < |head| {
        k, partial := 0, head[..n];
        assert Octets(parts)[..n] == partial;
        assert [] + partial == partial;
      } else {
        var j;
        j, partial := CutPoint(parse, parts[1..], n - |head|);
        k := j + 1;
        assert parts[..k] == [parts[0]] + parts[1..][..j];
        assert parts[..k][1..] == parts[1..][..j];
        assert Octets(parts)[..n] == head + Octets(parts[1..])[..n - |head|];
        assert head + (Octets(parts[1..][..j]) + partial) == Octets(parts[..k]) + partial;
      }
    }
  }

  function Parts(frames: seq<Frame>): (r: seq<(Frame, Bytes)>)
    requires forall f :: f in frames ==> ValidFrame(f)
    ensures |r| == |frames| && forall i :: 0 <= i < |frames| ==> r[i] == (frames[i], FrameToKnx(frames[i]))
  {
    seq(|frames|, i requires 0 <= i < |frames| => (assert frames[i] in frames; (frames[i], FrameToKnx(frames[i]))))
  }

  lemma {:induction false} StreamIsParts(frames: seq<Frame>)
    requires forall f :: f in frames ==> ValidFrame(f)
    ensures Stream(frames) == Octets(Parts(frames))
  {
    if frames != [] {
      assert Parts(frames)[1..] == Parts(frames[1..]);
      StreamIsParts(frames[1..]);
    }
  }

  lemma FrameReads(f: Frame)
    requires ValidFrame(f)
    ensures |FrameToKnx(f)| == f.header.totalLength
    ensures Reads(FrameFromKnx, (f, FrameToKnx(f)))
  {
    forall tail: Bytes ensures FrameFromKnx(FrameToKnx(f) + tail) == Ok((f, tail)) {
      FrameRoundTrip(f, tail);
    }
    forall n | 0 < n < |FrameToKnx(f)| ensures FrameFromKnx(FrameToKnx(f)[..n]) == Err(IncompleteKNXIPFrame) {
      ProperPrefixIsIncomplete(f, n);
    }
  }

  lemma PartsRead(frames: seq<Frame>)
    requires forall f :: f in frames ==> ValidFrame(f)
    ensures forall i :: 0 <= i < |frames| ==> Reads(FrameFromKnx, Parts(frames)[i])
  {
    forall i | 0 <= i < |frames| ensures Reads(FrameFromKnx, Parts(frames)[i]) {
      assert frames[i] in frames;
      FrameReads(frames[i]);
    }
  }

  /** k whole frames and then `partial`, an unfinished part of the next frame. */
  ghost predicate CutAfter(frames: seq<Frame>, data: Bytes, k: nat, partial: Bytes)
    requires forall f :: f in frames ==> ValidFrame(f)
  {
    && k <= |frames|
    && (forall f :: f in frames[..k] ==> ValidFrame(f))
    && data == Stream(frames[..k]) + partial
    && (if k == |frames| then partial == [] else |partial| < frames[k].header.totalLength)
  }

  lemma PartsArrive<F(!new)>(parse: FrameParser<F>, parts: seq<(F, Bytes)>, chunks: seq<Bytes>) returns (k: nat, partial: Bytes)
    requires Stable(parse) && forall i :: 0 <= i < |parts| ==> Reads(parse, parts[i])
    requires Joined(chunks) <= Octets(parts)
    ensures k <= |parts| && Joined(chunks) == Octets(parts[..k]) + partial
    ensures if k == |parts| then partial == [] else |partial| < |parts[k].1|
    ensures FeedAll(parse, [], chunks) == Received(Frames(parts[..k]), partial, None)
  {
    k, partial := CutPoint(parse, parts, |Joined(chunks)|);
    assert Octets(parts)[..|Joined(chunks)|] == Joined(chunks);
    DrainParts(parse, parts[..k], partial);
    assert [] + Joined(chunks) == Joined(chunks);
    ChunkingIsIrrelevant(parse, [], chunks);
  }

  lemma FirstParts(frames: seq<Frame>, k: nat)
    requires (forall f :: f in frames ==> ValidFrame(f)) && k <= |frames|
    ensures forall f :: f in frames[..k] ==> ValidFrame(f)
    ensures Octets(Parts(frames)[..k]) == Stream(frames[..k]) && Frames(Parts(frames)[..k]) == frames[..k]
  {
    assert forall f :: f in frames[..k] ==> f in frames;
    assert Parts(frames)[..k] == Parts(frames[..k]);
    StreamIsParts(frames[..k]);
    assert Frames(Parts(frames)[..k]) == frames[..k];
  }

  /**
   Serialised frames sent through TCP and cut at any positions arrive as exactly those frames,
   in order, and an unfinished frame stays in the buffer, octet for octet, exactly when the
   stack has room for the frames that each chunk completes.
   */
  lemma StreamArrives(frames: seq<Frame>, chunks: seq<Bytes>, levels: nat) returns (k: nat, partial: Bytes)
    requires forall f :: f in frames ==> ValidFrame(f)
    requires Joined(chunks) <= Stream(frames)
    ensures CutAfter(frames, Joined(chunks), k, partial)
    ensures FeedAll(FrameFromKnx, [], chunks) == Received(frames[..k], partial, None)
    ensures FeedWithin(FrameFromKnx, levels, [], chunks) == Received(frames[..k], partial, None)
       <==> RoomForAll(FrameFromKnx, levels, [], chunks)
  {
    FrameParserIsStable();
    FrameParserShortens();
    PartsRead(frames);
    StreamIsParts(frames);
    k, partial := PartsArrive<Frame>(FrameFromKnx, Parts(frames), chunks);
    FirstParts(frames, k);
    if k < |frames| {
      FrameReads(frames[k]);
    }
    FeedWithinIff<Frame>(FrameFromKnx, levels, [], chunks);
  }

  // ------------------------------------------------------ frames that do not parse

  /**
   Octets that the parser refuses raise out of the callback: UnboundLocalError when they are no
   frame or one without a body class, and else what the parser raised itself. The frames before
   them are handed on, the octets behind them are lost, and nothing is kept.
   */
  lemma RefusedFrameLosesTheRest(frames: seq<Frame>, bad: Bytes, rest: Bytes)
    requires forall f :: f in frames ==> ValidFrame(f)
    requires bad != [] && FrameFromKnx(bad).Err? && FrameFromKnx(bad).error != IncompleteKNXIPFrame
    ensures var e := FrameFromKnx(bad).error;
            Drain(FrameFromKnx, Stream(frames) + (bad + rest)) ==
              Received(frames, [], Some(if e in {CouldNotParseKNXIP, KNXSecureValidationError} then UnboundLocal
                                        else if e == Diverges then Endless
                                        else FromParser(e)))
  {
    PartsRead(frames);
    StreamIsParts(frames);
    DrainPartsThen<Frame>(FrameFromKnx, Parts(frames), bad + rest);
    FailureIsStable(bad, rest);
    RefusedAlone(bad, rest);
    assert Frames(Parts(frames)) == frames;
    assert frames + [] == frames;
  }

  lemma RefusedAlone(bad: Bytes, rest: Bytes)
    requires bad != [] && FrameFromKnx(bad + rest) == FrameFromKnx(bad)
    requires FrameFromKnx(bad).Err? && FrameFromKnx(bad).error != IncompleteKNXIPFrame
    ensures Drain(FrameFromKnx, bad + rest) == Received([], [], OnError<Frame>(FrameFromKnx(bad).error, bad).raised)
  {
  }

  /** A frame of a service type without a body class, such as ROUTING_SYSTEM_BROADCAST, is such octets. */
  lemma UnsupportedServiceIsRefused()
    ensures FrameFromKnx([6, 16, 5, 0x33, 0, 6]) == Err(CouldNotParseKNXIP)
  {
    var raw: Bytes := [6, 16, 5, 0x33, 0, 6];
    assert Word(raw[2], raw[3]) == 0x0533 && Word(raw[4], raw[5]) == 6;
  }

  /** A whole description response whose list of blocks never ends: the callback does not return. */
  lemma EndlessDescription(data: Bytes, levels: nat)
    requires ParseHeader(data) == Ok(Header(CoreBodies.DESCRIPTION_RESPONSE, |data|)) && |data| >= 6 && levels > 0
    requires !ParseLoops.LoopEnds(Dibs.DibFromKnx, data[6..])
    ensures Callback(FrameFromKnx, levels, data) == Received([], [], Some(Endless))
  {
    Dibs.DibLoopTerminatesIff(data[6..]);
    assert data[6..|data|] == data[6..];
    DescriptionDiverges(data[6..|data|]);
  }

  lemma DescriptionDiverges(raw: Bytes)
    requires Dibs.ParseDibs(raw) == Err(Diverges)
    ensures BodyFromKnx(CoreBodies.DESCRIPTION_RESPONSE, raw) == Err(Diverges)
  {
  }

  // -------------------------------------------------------------- length zero

  /** `n` times the same. */
  function Repeat<F>(f: F, n: nat): seq<F> {
    seq(n, i => f)
  }

  lemma {:induction false} NoProgressRepeats<F>(parse: FrameParser<F>, levels: nat, raw: Bytes)
    requires raw != [] && parse(raw).Ok? && parse(raw).value.1 == raw
    ensures Depth(parse, raw) == None
    ensures Callback(parse, levels, raw) == Received(Repeat(parse(raw).value.0, levels), [], Some(Recursion))
    decreases levels
  {
    if levels > 0 {
      NoProgressRepeats(parse, levels - 1, raw);
      var f := parse(raw).value.0;
      assert [f] + Repeat(f, levels - 1) == Repeat(f, levels);
    }
  }

  /**
   A frame whose header announces no octets at all is handled again on every level of the
   recursion, until RecursionError.
   */
  lemma ZeroLengthHeaderRepeats(raw: Bytes, levels: nat)
    requires FrameFromKnx(raw).Ok? && raw[4] == 0 && raw[5] == 0
    ensures Callback(FrameFromKnx, levels, raw) == Received(Repeat(FrameFromKnx(raw).value.0, levels), [], Some(Recursion))
  {
    RestShrinksIff(raw);
    assert FrameFromKnx(raw).value.1 == raw;
    NoProgressRepeats<Frame>(FrameFromKnx, levels, raw);
  }

  const WITHOUT_LENGTH: Bytes := [6, 16, 5, 0x30, 0, 0]

  lemma RoutingIndicationBody(raw: Bytes)
    ensures BodyFromKnx(ROUTING_INDICATION, raw) == Ok(Routing(RoutingIndication(raw)))
  {
  }

  lemma HeaderWithoutLength(raw: Bytes)
    requires |raw| == 6 && raw[0] == 6 && raw[1] == 16 && raw[2] == 5 && raw[3] == 0x30 && raw[4] == 0 && raw[5] == 0
    ensures ParseHeader(raw) == Ok(Header(ROUTING_INDICATION, 0))
  {
    assert Word(raw[2], raw[3]) == 0x0530 && Word(raw[4], raw[5]) == 0;
  }

  lemma FrameOfHeader(data: Bytes, h: Header, body: Body)
    requires ParseHeader(data) == Ok(h) && h.totalLength == 0 && BodyFromKnx(h.serviceType, []) == Ok(body)
    ensures FrameFromKnx(data) == Ok((Frame(h, body), data))
  {
    assert data[0..] == data;
  }

  /** For example a routing indication without any length. */
  lemma RoutingIndicationWithoutLength()
    ensures FrameFromKnx(WITHOUT_LENGTH) == Ok((Frame(Header(ROUTING_INDICATION, 0), Routing(RoutingIndication([]))), WITHOUT_LENGTH))
  {
    RoutingIndicationBody([]);
    HeaderWithoutLength(WITHOUT_LENGTH);
    FrameOfHeader(WITHOUT_LENGTH, Header(ROUTING_INDICATION, 0), Routing(RoutingIndication([])));
  }

  lemma ZeroLengthRoutingIndication(levels: nat)
    ensures Callback(FrameFromKnx, levels, WITHOUT_LENGTH)
         == Received(Repeat(Frame(Header(ROUTING_INDICATION, 0), Routing(RoutingIndication([]))), levels), [], Some(Recursion))
  {
    RoutingIndicationWithoutLength();
    NoProgressRepeats<Frame>(FrameFromKnx, levels, WITHOUT_LENGTH);
  }
}
