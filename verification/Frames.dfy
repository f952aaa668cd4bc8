/**
 Length-delimited frames: the sender's `encodeDelimited`, the plugin's incremental
 `DelimitedFrameDecoder`, and `read_frame`, which the daemon has for its sockets
 (src/daemon/mod.rs:1366-1384) and once more for a blocking stream (src/rpc.rs:1140-1154).
 */
module Frames {

  import opened Sequences
  import opened Wrappers
  import opened Varints

  const MAX_REQUEST_BYTES := 32 * 1024 * 1024

  type Bytes = seq<Byte>

  datatype FrameError = BadHeader | DeclaredTooLarge(declared: nat) | TruncatedHeader | TruncatedFrame

  /** The frames that stand complete at the front of some bytes, and what follows them: bytes to be
      kept, or the error of a header that is refused. */
  datatype Drained = Drained(frames: seq<Bytes>, end: Result<Bytes, FrameError>)

  /** Everything that can be taken from the front of `bs`. */
  function Drain(bs: Bytes, max: nat): Drained
    decreases |bs|
  {
    match ReadHeader(bs)
    case Incomplete => Drained([], Ok(bs))
    case Malformed => Drained([], Err(BadHeader))
    case Header(value, next) =>
      if value > max then Drained([], Err(DeclaredTooLarge(value)))
      else if next + value > |bs| then Drained([], Ok(bs))
      else Prepend([bs[next..next + value]], Drain(bs[next + value..], max))
  }

  function Prepend(frames: seq<Bytes>, d: Drained): Drained
  {
    Drained(frames + d.frames, d.end)
  }

  lemma PrependPrepend(a: seq<Bytes>, b: seq<Bytes>, d: Drained)
    ensures Prepend(a, Prepend(b, d)) == Prepend(a + b, d)
    ensures Prepend([], d) == d
  {
    assert a + (b + d.frames) == a + b + d.frames;
    assert [] + d.frames == d.frames;
  }

  /** A buffer from which nothing more can be taken. */
  predicate Waiting(buffered: Bytes, max: nat)
  {
    Drain(buffered, max) == Drained([], Ok(buffered))
  }

  lemma DrainUnfolds(bs: Bytes, max: nat)
    ensures Drain(bs, max) == match ReadHeader(bs)
                              case Incomplete => Drained([], Ok(bs))
                              case Malformed => Drained([], Err(BadHeader))
                              case Header(value, next) =>
                                if value > max then Drained([], Err(DeclaredTooLarge(value)))
                                else if next + value > |bs| then Drained([], Ok(bs))
                                else Prepend([bs[next..next + value]], Drain(bs[next + value..], max))
  {
  }

  /** One turn of the decoder's loop. */
  lemma DrainTakesFrame(bs: Bytes, offset: nat, value: nat, next: nat, frames: seq<Bytes>, max: nat)
    requires offset <= next <= next + value <= |bs| && value <= max
    requires ReadHeader(bs[offset..]) == Header(value, next - offset)
    ensures Prepend(frames, Drain(bs[offset..], max))
            == Prepend(frames + [bs[next..next + value]], Drain(bs[next + value..], max))
  {
    hide Drain, Prepend;
    var tail, end := bs[offset..], next + value;
    DrainUnfolds(tail, max);
    assert tail[next - offset..end - offset] == bs[next..end];
    assert tail[end - offset..] == bs[end..];
    PrependPrepend(frames, [bs[next..end]], Drain(bs[end..], max));
  }

  /** The loop ends where nothing more can be taken. */
  lemma DrainStops(bs: Bytes, offset: nat, frames: seq<Bytes>, max: nat)
    requires offset <= |bs|
    requires match ReadHeader(bs[offset..])
             case Incomplete => true
             case Malformed => false
             case Header(value, next) => value <= max && offset + next + value > |bs|
    ensures Prepend(frames, Drain(bs[offset..], max)) == Drained(frames, Ok(bs[offset..]))
    ensures |bs| - offset < max + 10
    ensures offset == 0 ==> bs[offset..] == bs
  {
    KeptBytesAreFew(bs[offset..], max);
    assert frames + [] == frames;
  }

  class DelimitedFrameDecoder {
    const maxFrameBytes: nat
    var buffered: Bytes

    constructor (maxFrameBytes: nat)
      ensures this.maxFrameBytes == maxFrameBytes && buffered == []
    {
      this.maxFrameBytes := maxFrameBytes;
      buffered := [];
    }

    /** `push`.  The final size check of the source is kept: it cannot fire. */
    method Push(chunk: Bytes) returns (r: Result<seq<Bytes>, FrameError>)
      modifies this
      ensures chunk == [] ==> r == Ok([]) && buffered == old(buffered)
      ensures chunk != [] ==>
        var d := Drain(old(buffered) + chunk, maxFrameBytes);
        match d.end
        case Ok(rest) => r == Ok(d.frames) && buffered == rest
        case Err(e) => r == Err(e) && buffered == old(buffered) + chunk
    {
      hide Drain;
      if chunk == [] {
        return Ok([]);
      }
      buffered := buffered + chunk;
      ghost var combined := buffered;
      var frames: seq<Bytes> := [];
      var offset := 0;
      PrependPrepend([], [], Drain(combined, maxFrameBytes));
      assert combined[0..] == combined;
      while offset < |buffered|
        invariant buffered == combined && offset <= |combined|
        invariant Drain(combined, maxFrameBytes) == Prepend(frames, Drain(combined[offset..], maxFrameBytes))
      {
        var header := ReadVarint(buffered, offset);
        if header.Malformed? {
          DrainUnfolds(combined[offset..], maxFrameBytes);
          return Err(BadHeader);
        }
        if header.Incomplete? {
          break;
        }
        if header.value > maxFrameBytes {
          DrainUnfolds(combined[offset..], maxFrameBytes);
          return Err(DeclaredTooLarge(header.value));
        }
        var frameEnd := header.next + header.value;
        if frameEnd > |buffered| {
          break;
        }
        var frame := buffered[header.next..frameEnd];
        DrainTakesFrame(combined, offset, header.value, header.next, frames, maxFrameBytes);
        frames := frames + [frame];
        offset := frameEnd;
      }
      DrainStops(combined, offset, frames, maxFrameBytes);
      if offset > 0 {
        buffered := buffered[offset..];
      }
      if |buffered| > maxFrameBytes + 10 {
        assert false;
      }
      return Ok(frames);
    }
  }

  /** The unfinished suffix always stays below the size check at the end of `push`. */
  lemma KeptBytesAreFew(bs: Bytes, max: nat)
    requires Waiting(bs, max)
    ensures |bs| < max + 10
  {
    hide Drain;
    DrainUnfolds(bs, max);
  }

  // ---------------------------------------------------------------- chunking

  /** Taking what a prefix yields and resuming with the rest is taking all at once. */
  lemma {:induction false} DrainAppend(a: Bytes, b: Bytes, max: nat)
    ensures Drain(a + b, max) == var d := Drain(a, max);
                                 match d.end
                                 case Ok(rest) => Prepend(d.frames, Drain(rest + b, max))
                                 case Err(_) => d
    decreases |a|
  {
    hide Drain, ReadHeader;
    DrainUnfolds(a, max);
    DrainUnfolds(a + b, max);
    PrependPrepend([], [], Drain(a + b, max));
    match ReadHeader(a)
    case Incomplete =>
    case Malformed => ReadHeaderStable(a, b);
    case Header(value, next) =>
      ReadHeaderStable(a, b);
      var end := next + value;
      if value <= max && end <= |a| {
        DrainAppend(a[end..], b, max);
        assert (a + b)[next..end] == a[next..end];
        assert (a + b)[end..] == a[end..] + b;
        var d := Drain(a[end..], max);
        if d.end.Ok? {
          PrependPrepend([a[next..end]], d.frames, Drain(d.end.value + b, max));
        }
      }
  }

  /** What remains after a successful drain is a waiting buffer. */
  lemma {:induction false} DrainRests(bs: Bytes, max: nat)
    requires Drain(bs, max).end.Ok?
    ensures Waiting(Drain(bs, max).end.value, max)
    decreases |bs|
  {
    var h := ReadHeader(bs);
    if h.Header? && h.next + h.value <= |bs| {
      DrainRests(bs[h.next + h.value..], max);
    }
  }

  /** One `push`: a push that throws delivers no frame, not even those it had completed. */
  function PushOnce(buffered: Bytes, chunk: Bytes, max: nat): Drained
  {
    if chunk == [] then Drained([], Ok(buffered))
    else
      var d := Drain(buffered + chunk, max);
      Drained(if d.end.Ok? then d.frames else [], d.end)
  }

  /** A run of pushes, up to the first one that throws: the frames that are delivered, in order, and
      the bytes kept or the error thrown. */
  function Feed(buffered: Bytes, chunks: seq<Bytes>, max: nat): Drained
    decreases |chunks|
  {
    if chunks == [] then Drained([], Ok(buffered))
    else
      var d := PushOnce(buffered, chunks[0], max);
      match d.end
      case Ok(rest) => Prepend(d.frames, Feed(rest, chunks[1..], max))
      case Err(_) => d
  }

  /** How many of the pushes go through before one throws. */
  function Passed(buffered: Bytes, chunks: seq<Bytes>, max: nat): (n: nat)
    ensures n <= |chunks|
    decreases |chunks|
  {
    if chunks == [] then 0
    else
      match PushOnce(buffered, chunks[0], max).end
      case Ok(rest) => 1 + Passed(rest, chunks[1..], max)
      case Err(_) => 0
  }

  function Flatten(chunks: seq<Bytes>): Bytes
  {
    if chunks == [] then [] else chunks[0] + Flatten(chunks[1..])
  }

  /** Where the last complete frame of a byte stream ends. */
  function FramesEnd(bs: Bytes, max: nat): (n: nat)
    ensures n <= |bs|
    decreases |bs|
  {
    var h := ReadHeader(bs);
    if h.Header? && h.value <= max && h.next + h.value <= |bs| then
      h.next + h.value + FramesEnd(bs[h.next + h.value..], max)
    else 0
  }

  lemma FirstChunk(buffered: Bytes, chunks: seq<Bytes>)
    requires chunks != []
    ensures buffered + Flatten(chunks) == (buffered + chunks[0]) + Flatten(chunks[1..])
  {
    ConcatAssociates(buffered, chunks[0], Flatten(chunks[1..]));
  }

  /** The run of pushes ends as the whole stream ends, and has delivered the frames that were complete
      when the last push before the throw returned. */
  lemma {:induction false} FeedIsDrain(buffered: Bytes, chunks: seq<Bytes>, max: nat)
    requires Waiting(buffered, max)
    ensures var fed, n := Feed(buffered, chunks, max), Passed(buffered, chunks, max);
            && fed.end == Drain(buffered + Flatten(chunks), max).end
            && (fed.end.Ok? <==> n == |chunks|)
            && Drain(buffered + Flatten(chunks[..n]), max).end.Ok?
            && fed.frames == Drain(buffered + Flatten(chunks[..n]), max).frames
    decreases |chunks|
  {
    hide Drain;
    assert buffered + [] == buffered;
    assert chunks[..0] == [];
    if chunks != [] {
      var first, n := buffered + chunks[0], Passed(buffered, chunks, max);
      assert chunks[0] == [] ==> first == buffered;
      var d := Drain(first, max);
      FirstChunk(buffered, chunks);
      DrainAppend(first, Flatten(chunks[1..]), max);
      if d.end.Ok? {
        DrainRests(first, max);
        FeedIsDrain(d.end.value, chunks[1..], max);
        assert chunks[..n][1..] == chunks[1..][..n - 1];
        FirstChunk(buffered, chunks[..n]);
        DrainAppend(first, Flatten(chunks[1..][..n - 1]), max);
      }
    }
  }

  lemma {:induction false} FlattenSplit(chunks: seq<Bytes>, n: nat)
    requires n <= |chunks|
    ensures Flatten(chunks) == Flatten(chunks[..n]) + Flatten(chunks[n..])
  {
    assert chunks[..0] == [] && chunks[0..] == chunks;
    if n > 0 {
      FlattenSplit(chunks[1..], n - 1);
      assert chunks[..n][1..] == chunks[1..][..n - 1];
      assert chunks[n..] == chunks[1..][n - 1..];
      ConcatAssociates(chunks[0], Flatten(chunks[..n][1..]), Flatten(chunks[n..]));
    }
  }

  /** Frames that end within a prefix are those the prefix delivers. */
  lemma {:induction false} FramesWithin(a: Bytes, b: Bytes, max: nat)
    requires Drain(a, max).end.Ok?
    ensures var whole, part := Drain(a + b, max).frames, Drain(a, max).frames;
            part <= whole && (part == whole <==> FramesEnd(a + b, max) <= |a|)
    decreases |a|
  {
    hide Drain, ReadHeader, FramesEnd;
    DrainUnfolds(a, max);
    DrainUnfolds(a + b, max);
    FramesEndUnfolds(a + b, max);
    if ReadHeader(a).Incomplete? {
      HeaderBeyond(a, b);
    } else {
      ReadHeaderStable(a, b);
      var h := ReadHeader(a);
      var end := h.next + h.value;
      if end <= |a| {
        assert (a + b)[h.next..end] == a[h.next..end];
        assert (a + b)[end..] == a[end..] + b;
        FramesWithin(a[end..], b, max);
        PrefixGrows(a[h.next..end], Drain(a[end..], max).frames, Drain(a[end..] + b, max).frames);
      }
    }
  }

  lemma PrefixGrows(p: Bytes, a: seq<Bytes>, b: seq<Bytes>)
    ensures a <= b <==> [p] + a <= [p] + b
    ensures a == b <==> [p] + a == [p] + b
  {
    assert ([p] + a)[1..] == a && ([p] + b)[1..] == b;
  }

  lemma FramesEndUnfolds(bs: Bytes, max: nat)
    ensures FramesEnd(bs, max) == var h := ReadHeader(bs);
                                  if h.Header? && h.value <= max && h.next + h.value <= |bs| then
                                    h.next + h.value + FramesEnd(bs[h.next + h.value..], max)
                                  else 0
  {
  }

  lemma HeaderBeyond(a: Bytes, b: Bytes)
    requires ReadHeader(a).Incomplete?
    ensures ReadHeader(a + b).Header? ==> ReadHeader(a + b).next > |a|
  {
    LeadAppend(a, b);
  }

  /** Chunking, for every byte stream and every way of cutting it.  The end is always the same: the
      same kept suffix or the same error.  The frames delivered are a prefix of the complete frames of
      the stream, and they are all of them exactly when the last of these ends before the push that
      throws begins; so always, when none throws. */
  lemma ChunkingIndependence(buffered: Bytes, chunks: seq<Bytes>, max: nat)
    requires Waiting(buffered, max)
    ensures var fed, whole := Feed(buffered, chunks, max), Drain(buffered + Flatten(chunks), max);
            && fed.end == whole.end
            && fed.frames <= whole.frames
            && (fed.frames == whole.frames <==>
                FramesEnd(buffered + Flatten(chunks), max)
                <= |buffered + Flatten(chunks[..Passed(buffered, chunks, max)])|)
            && (fed.end.Ok? ==> fed == whole)
  {
    hide *;
    var n := Passed(buffered, chunks, max);
    FeedIsDrain(buffered, chunks, max);
    FlattenSplit(chunks, n);
    var before, after := buffered + Flatten(chunks[..n]), Flatten(chunks[n..]);
    ConcatAssociates(buffered, Flatten(chunks[..n]), after);
    FramesWithin(before, after, max);
    assert chunks[..|chunks|] == chunks;
  }

  /** What a throw costs depends on the cutting: a frame that arrives in one push with a refused
      header behind it is not delivered, and is when a cut stands between the two. */
  lemma ThrowLosesFrames(p: Bytes, bad: Bytes, max: nat)
    requires |p| <= max && |p| <= MAX_SAFE_INTEGER
    requires Drain(bad, max).end.Err?
    ensures Feed([], [Delimited(p) + bad], max) == Drained([], Drain(bad, max).end)
    ensures Feed([], [Delimited(p), bad], max) == Drained([p], Drain(bad, max).end)
  {
    hide Drain, Delimited;
    var d := Delimited(p);
    DrainOfWholeFrame(p, bad, max);
    DrainOfWholeFrame(p, [], max);
    DrainUnfolds([], max);
    assert [] + bad == bad && [] + d == d && d + [] == d && [] + (d + bad) == d + bad;
    assert bad != [] && d != [];
    FeedOne([], d + bad, max);
    FeedOne([], bad, max);
    assert [d, bad][1..] == [bad];
  }

  lemma FeedOne(buffered: Bytes, chunk: Bytes, max: nat)
    ensures Feed(buffered, [chunk], max) == PushOnce(buffered, chunk, max)
  {
    var d := PushOnce(buffered, chunk, max);
    assert d.frames + [] == d.frames;
    assert [chunk][1..] == [];
  }

  // ---------------------------------------------------------------- round trip

  /** `encodeDelimited`. */
  function Delimited(payload: Bytes): Bytes
  {
    Varint(|payload|) + payload
  }

  method EncodeDelimited(payload: Bytes) returns (r: Result<Bytes, VarintError>)
    ensures r == if |payload| <= MAX_SAFE_INTEGER then Ok(Delimited(payload)) else Err(InvalidFrameLength)
  {
    var header := EncodeVarint(|payload|);
    if header.Err? {
      return Err(header.error);
    }
    return Ok(header.value + payload);
  }

  function Stream(payloads: seq<Bytes>): Bytes
  {
    if payloads == [] then [] else Delimited(payloads[0]) + Stream(payloads[1..])
  }

  predicate Sendable(payloads: seq<Bytes>, max: nat)
  {
    forall p <- payloads :: |p| <= max && |p| <= MAX_SAFE_INTEGER
  }

  /** How many of the frames lie wholly within the first k bytes of their stream. */
  function Complete(payloads: seq<Bytes>, k: nat): (n: nat)
    ensures n <= |payloads|
  {
    if payloads == [] || k < |Delimited(payloads[0])| then 0
    else 1 + Complete(payloads[1..], k - |Delimited(payloads[0])|)
  }

  /** A prefix of a stream is its complete frames and a proper prefix of the next frame. */
  lemma {:induction false} PrefixSplits(payloads: seq<Bytes>, k: nat) returns (part: nat)
    requires k <= |Stream(payloads)|
    ensures var n := Complete(payloads, k);
            && part == k - |Stream(payloads[..n])|
            && if n < |payloads| then part < |Delimited(payloads[n])|
                                 && Stream(payloads)[..k] == Stream(payloads[..n]) + Delimited(payloads[n])[..part]
               else part == 0 && Stream(payloads)[..k] == Stream(payloads[..n])
    decreases |payloads|
  {
    assert payloads[..0] == [];
    if payloads == [] || k < |Delimited(payloads[0])| {
      part := k;
    } else {
      var frame, tail := Delimited(payloads[0]), payloads[1..];
      var j := k - |frame|;
      part := PrefixSplits(tail, j);
      var n := Complete(tail, j);
      assert payloads[..n + 1][1..] == tail[..n];
      assert Stream(payloads)[..k] == frame + Stream(tail)[..j];
    }
  }

  lemma {:induction false} DrainOfStreamThen(payloads: seq<Bytes>, rest: Bytes, max: nat)
    requires Sendable(payloads, max)
    ensures Drain(Stream(payloads) + rest, max) == Prepend(payloads, Drain(rest, max))
    decreases |payloads|
  {
    if payloads == [] {
      assert [] + rest == rest;
      PrependPrepend([], [], Drain(rest, max));
    } else {
      hide Drain, Prepend, Delimited, ReadHeader;
      var p, tail := payloads[0], payloads[1..];
      assert p in payloads;
      DrainOfStreamThen(tail, rest, max);
      ConcatAssociates(Delimited(p), Stream(tail), rest);
      DrainOfWholeFrame(p, Stream(tail) + rest, max);
      PrependPrepend([p], tail, Drain(rest, max));
      HeadTail(payloads);
    }
  }

  /** A decoder that has received any prefix of a stream has emitted exactly the complete payloads,
      in order, and kept exactly the unfinished suffix. */
  lemma DrainOfPrefix(payloads: seq<Bytes>, k: nat, max: nat)
    requires Sendable(payloads, max) && k <= |Stream(payloads)|
    ensures var n := Complete(payloads, k);
            |Stream(payloads[..n])| <= k
            && Drain(Stream(payloads)[..k], max)
               == Drained(payloads[..n], Ok(Stream(payloads)[|Stream(payloads[..n])|..k]))
  {
    var n := Complete(payloads, k);
    var part := PrefixSplits(payloads, k);
    var kept := if n < |payloads| then Delimited(payloads[n])[..part] else [];
    var done := Stream(payloads[..n]);
    assert Stream(payloads)[..k] == done + kept;
    assert Stream(payloads)[|done|..k] == kept by {
      assert Stream(payloads)[|done|..k] == Stream(payloads)[..k][|done|..];
    }
    DrainOfStreamThen(payloads[..n], kept, max);
    if n < |payloads| {
      assert payloads[n] in payloads;
      DrainOfPartialFrame(payloads[n], part, max);
    } else {
      assert ReadHeader(kept) == Incomplete;
    }
    assert payloads[..n] + [] == payloads[..n];
  }

  lemma DrainOfPartialFrame(p: Bytes, k: nat, max: nat)
    requires |p| <= max && |p| <= MAX_SAFE_INTEGER && k < |Delimited(p)|
    ensures Drain(Delimited(p)[..k], max) == Drained([], Ok(Delimited(p)[..k]))
  {
    hide Drain;
    var v := Varint(|p|);
    DrainUnfolds(Delimited(p)[..k], max);
    if k < |v| {
      ReadHeaderOfPartialVarint(|p|, k);
      assert Delimited(p)[..k] == v[..k];
    } else {
      ReadHeaderOfVarint(|p|, p[..k - |v|]);
      assert Delimited(p)[..k] == v + p[..k - |v|];
    }
  }

  lemma DrainOfWholeFrame(p: Bytes, rest: Bytes, max: nat)
    requires |p| <= max && |p| <= MAX_SAFE_INTEGER
    ensures Drain(Delimited(p) + rest, max) == Prepend([p], Drain(rest, max))
  {
    hide Drain;
    var v := Varint(|p|);
    var bs := Delimited(p) + rest;
    DrainUnfolds(bs, max);
    assert bs == v + (p + rest);
    ReadHeaderOfVarint(|p|, p + rest);
    assert bs[|v|..|v| + |p|] == p;
    assert bs[|v| + |p|..] == rest;
  }

  /** Round trip: for every list of payloads within the limit and every way of cutting any prefix of
      their encoding into pushes. */
  lemma RoundTrip(payloads: seq<Bytes>, chunks: seq<Bytes>, k: nat, max: nat)
    requires Sendable(payloads, max)
    requires k <= |Stream(payloads)| && Flatten(chunks) == Stream(payloads)[..k]
    ensures var n := Complete(payloads, k);
            |Stream(payloads[..n])| <= k
            && Feed([], chunks, max)
               == Drained(payloads[..n], Ok(Stream(payloads)[|Stream(payloads[..n])|..k]))
  {
    EmptyWaits();
    ChunkingIndependence([], chunks, max);
    assert [] + Flatten(chunks) == Flatten(chunks);
    DrainOfPrefix(payloads, k, max);
  }

  /** Once the whole stream has arrived, every payload has been emitted and nothing is kept. */
  lemma {:induction false} CompleteAtEnd(payloads: seq<Bytes>)
    ensures Complete(payloads, |Stream(payloads)|) == |payloads|
  {
    if payloads != [] {
      CompleteAtEnd(payloads[1..]);
    }
  }

  // ---------------------------------------------------------------- the Rust reader

  /** `read_frame`: the next frame with the bytes it takes, or None at a clean end of input. */
  function RustFrame(bs: Bytes): (r: Result<Option<(Bytes, nat)>, FrameError>)
    ensures r.Ok? && r.value.Some? ==> 0 < r.value.value.1 <= |bs|
  {
    match RustHeader(bs)
    case Err(InvalidFrameLength) => Err(BadHeader)
    case Err(TruncatedFrameLength) => Err(TruncatedHeader)
    case Ok(None) => Ok(None)
    case Ok(Some(header)) =>
      var (length, next) := header;
      if length > MAX_REQUEST_BYTES then Err(DeclaredTooLarge(length))
      else if next + length > |bs| then Err(TruncatedFrame)
      else Ok(Some((bs[next..next + length], next + length)))
  }

  method ReadFrame(input: Bytes) returns (r: Result<Option<(Bytes, nat)>, FrameError>)
    ensures r == RustFrame(input)
  {
    var header := ReadVarintRust(input);
    if header.Err? {
      return Err(if header.error == InvalidFrameLength then BadHeader else TruncatedHeader);
    }
    if header.value.None? {
      return Ok(None);
    }
    var (length, next) := header.value.value;
    if !(length <= MAX_REQUEST_BYTES) {
      return Err(DeclaredTooLarge(length));
    }
    if |input| - next < length {
      return Err(TruncatedFrame);
    }
    return Ok(Some((input[next..next + length], next + length)));
  }

  /** The frames that a loop over `read_frame` reads, and what ends it: the clean end of the input, None, or
      an error. */
  datatype Reading = Reading(frames: seq<Bytes>, end: Option<FrameError>)

  function Following(frame: Bytes, r: Reading): Reading
  {
    Reading([frame] + r.frames, r.end)
  }

  function RustFrames(bs: Bytes): Reading
    decreases |bs|
  {
    var r := RustFrame(bs);
    if r.Err? then Reading([], Some(r.error))
    else if r.value.None? then Reading([], None)
    else Following(r.value.value.0, RustFrames(bs[r.value.value.1..]))
  }

  /** Across languages: what the plugin delimits, the daemon reads back whole, exactly up to the
      size limit. */
  lemma DelimitedCrosses(payload: Bytes, rest: Bytes)
    requires |payload| <= MAX_SAFE_INTEGER
    ensures RustFrame(Delimited(payload) + rest)
            == if |payload| <= MAX_REQUEST_BYTES then Ok(Some((payload, |Delimited(payload)|)))
               else Err(DeclaredTooLarge(|payload|))
  {
    assert Delimited(payload) + rest == Varint(|payload|) + (payload + rest);
    RustHeaderOfVarint(|payload|, payload + rest);
  }

  /** Every header that the Rust reader takes on its way spells a number that fits 64 bits, and one that is
      cut off at the end spells a safe integer so far. */
  predicate HeadersFit(bs: Bytes)
    decreases |bs|
  {
    match RustHeader(bs)
    case Ok(Some(header)) =>
      && 0 < header.1 <= |bs| && Weight(bs[..header.1]) < TWO_64
      && (header.0 <= MAX_REQUEST_BYTES && header.1 + header.0 <= |bs| ==> HeadersFit(bs[header.1 + header.0..]))
    case Ok(None) => true
    case Err(TruncatedFrameLength) => Weight(bs) <= MAX_SAFE_INTEGER
    case Err(InvalidFrameLength) => true
  }

  /** The two ways in which a decoder ends mean the same: nothing kept and a clean end, something kept and
      a truncation, an error and a refused header. */
  predicate SameEnd(end: Result<Bytes, FrameError>, rust: Option<FrameError>)
  {
    match end
    case Ok(rest) => if rest == [] then rust == None else rust == Some(TruncatedHeader) || rust == Some(TruncatedFrame)
    case Err(_) => rust.Some? && (rust.value == BadHeader || rust.value.DeclaredTooLarge?)
  }

  lemma RustFramesUnfolds(bs: Bytes)
    ensures RustFrames(bs) == var r := RustFrame(bs);
                              if r.Err? then Reading([], Some(r.error))
                              else if r.value.None? then Reading([], None)
                              else Following(r.value.value.0, RustFrames(bs[r.value.value.1..]))
  {
  }

  lemma HeadersFitUnfolds(bs: Bytes)
    ensures HeadersFit(bs) <==>
            match RustHeader(bs)
            case Ok(Some(header)) =>
              && 0 < header.1 <= |bs| && Weight(bs[..header.1]) < TWO_64
              && (header.0 <= MAX_REQUEST_BYTES && header.1 + header.0 <= |bs| ==> HeadersFit(bs[header.1 + header.0..]))
            case Ok(None) => true
            case Err(TruncatedFrameLength) => Weight(bs) <= MAX_SAFE_INTEGER
            case Err(InvalidFrameLength) => true
  {
  }

  /** When two decoders agree, for every byte stream, finished or not: as long as the headers fit they take
      the same frames and end in the same way, and otherwise the incremental decoder refuses one. */
  lemma {:induction false} DecodersAgree(bs: Bytes)
    ensures var d, r := Drain(bs, MAX_REQUEST_BYTES), RustFrames(bs);
            if HeadersFit(bs) then d.frames == r.frames && SameEnd(d.end, r.end) else d.end.Err?
    decreases |bs|
  {
    hide Drain, RustFrames, HeadersFit, Weight, Weight64, Lead;
    DrainUnfolds(bs, MAX_REQUEST_BYTES);
    RustFramesUnfolds(bs);
    HeadersFitUnfolds(bs);
    HeadersAgree(bs);
    var r := RustHeader(bs);
    if r.Ok? && r.value.Some? {
      var (length, next) := r.value.value;
      if length <= MAX_REQUEST_BYTES && next + length <= |bs| {
        DecodersAgree(bs[next + length..]);
      }
    }
  }

  /** So a stream is consumed without remainder exactly when Rust reads it to a clean end and its headers
      fit; and something is kept exactly when Rust finds it truncated and its headers fit. */
  lemma KeptMeansTruncated(bs: Bytes)
    ensures var d, r := Drain(bs, MAX_REQUEST_BYTES), RustFrames(bs);
            && (d.end == Ok([]) <==> r.end == None && HeadersFit(bs))
            && (d.end.Ok? && d.end.value != [] <==>
                (r.end == Some(TruncatedHeader) || r.end == Some(TruncatedFrame)) && HeadersFit(bs))
            && (d.end.Ok? ==> d.frames == r.frames)
  {
    DecodersAgree(bs);
    hide Drain, RustFrames, HeadersFit;
  }

  /** The condition is needed: the ten bytes that spell 2^64 are an empty frame to the Rust reader
      and malformed to the incremental one. */
  lemma OverflowDivides(zeros: Bytes)
    requires |zeros| == 9 && forall k :: 0 <= k < 9 ==> zeros[k] == 128
    ensures RustFrames(zeros + [2]) == Reading([[]], None) && !HeadersFit(zeros + [2])
    ensures Drain(zeros + [2], MAX_REQUEST_BYTES) == Drained([], Err(BadHeader))
  {
    hide Weight, Weight64, Lead, ReadHeader, Drain, RustHeader, HeadersFit;
    var bs := zeros + [2];
    RustAcceptsOverflow(zeros);
    assert bs[10..10] == [] && bs[10..] == [] && bs[..10] == bs;
    assert RustFrame(bs) == Ok(Some(([], 10)));
    HeadersAgree(bs);
    EmptyWaits();
    RustFramesUnfolds(bs);
    RustFramesUnfolds([]);
    var none: seq<Bytes> := [];
    assert RustFrames([]) == Reading(none, None);
    assert [bs[10..]] + none == [[]];
    HeadersFitUnfolds(bs);
    DrainUnfolds(bs, MAX_REQUEST_BYTES);
  }

  lemma EmptyWaits()
    ensures ReadHeader([]) == Incomplete && RustHeader([]) == Ok(None)
  {
    assert Lead([]) == 0;
  }

  /** The two readers on the first header of any bytes. */
  lemma HeadersAgree(bs: Bytes)
    ensures var h, r := ReadHeader(bs), RustHeader(bs);
            match r
            case Err(InvalidFrameLength) => h.Malformed?
            case Err(TruncatedFrameLength) => bs != [] && if Weight(bs) <= MAX_SAFE_INTEGER then h.Incomplete? else h.Malformed?
            case Ok(None) => bs == [] && h.Incomplete?
            case Ok(Some(header)) =>
              && 0 < header.1 <= |bs|
              && if Weight(bs[..header.1]) <= MAX_SAFE_INTEGER then h == Header(header.0, header.1)
                 else h.Malformed? && (Weight(bs[..header.1]) < TWO_64 ==> header.0 > MAX_SAFE_INTEGER)
  {
    hide Weight, Weight64;
    EmptyWaits();
    var h, r := ReadHeader(bs), RustHeader(bs);
    if r.Ok? && r.value.Some? {
      RustHeaderFaithful(bs);
      ReadersAgree(bs, r.value.value.0, r.value.value.1);
    }
  }
}
