/**
 The benchmark client's reading of a server-sent event stream that arrives in chunks:
 frames end at a blank line, written with LF or CRLF.
 */
module SseFrames {
  import opened Basics

  const CR: Byte := 13
  const LF: Byte := 10

  datatype Boundary = Boundary(end: nat, width: nat)

  predicate CrlfAt(s: seq<Byte>, i: nat) {
    i + 4 <= |s| && s[i] == CR && s[i + 1] == LF && s[i + 2] == CR && s[i + 3] == LF
  }

  predicate LfAt(s: seq<Byte>, i: nat) { i + 2 <= |s| && s[i] == LF && s[i + 1] == LF }

  predicate BlankAt(s: seq<Byte>, i: nat) { CrlfAt(s, i) || LfAt(s, i) }

  /** `b` is the first blank line in `s`. */
  predicate IsBoundary(s: seq<Byte>, b: Boundary) {
    && BlankAt(s, b.end) && b.width == (if CrlfAt(s, b.end) then 4 else 2)
    && forall j :: 0 <= j < b.end ==> !BlankAt(s, j)
  }

  ghost predicate NoBoundary(s: seq<Byte>) { forall j: nat :: !BlankAt(s, j) }

  method FrameBoundary(buffer: seq<Byte>) returns (b: Option<Boundary>)
    ensures b.Some? ==> IsBoundary(buffer, b.value) && b.value.end + b.value.width <= |buffer| && 0 < b.value.width
    ensures b.None? ==> NoBoundary(buffer)
  {
    for index := 0 to |buffer|
      invariant forall j :: 0 <= j < index ==> !BlankAt(buffer, j)
    {
      if CrlfAt(buffer, index) {
        return Some(Boundary(index, 4));
      }
      if LfAt(buffer, index) {
        return Some(Boundary(index, 2));
      }
    }
    return None;
  }

  lemma BlankSurvives(s: seq<Byte>, t: seq<Byte>, i: nat)
    requires BlankAt(s, i)
    ensures BlankAt(s + t, i) && (CrlfAt(s, i) <==> CrlfAt(s + t, i))
  {
  }

  /** Appended bytes complete no blank line before one that is already there, not even across a split CRLFCRLF. */
  lemma NothingEarlierAppears(s: seq<Byte>, t: seq<Byte>, i: nat, j: nat)
    requires BlankAt(s, i) && j < i && BlankAt(s + t, j)
    ensures BlankAt(s, j)
  {
  }

  /** A boundary found in a buffer is the boundary of every extension. */
  lemma BoundaryIsStable(s: seq<Byte>, t: seq<Byte>, b: Boundary)
    requires IsBoundary(s, b)
    ensures IsBoundary(s + t, b)
  {
    BlankSurvives(s, t, b.end);
    forall j | 0 <= j < b.end ensures !BlankAt(s + t, j) {
      if BlankAt(s + t, j) {
        NothingEarlierAppears(s, t, b.end, j);
      }
    }
  }

  // ----- Splitting a whole stream -----

  datatype Splitting = Splitting(frames: seq<seq<Byte>>, rest: seq<Byte>)

  function FirstBlank(s: seq<Byte>, from: nat): (b: Option<Boundary>)
    requires from <= |s| && forall j :: 0 <= j < from ==> !BlankAt(s, j)
    ensures b.Some? ==> IsBoundary(s, b.value) && b.value.end + b.value.width <= |s|
    ensures b.None? ==> NoBoundary(s)
    decreases |s| - from
  {
    if from == |s| then None
    else if CrlfAt(s, from) then Some(Boundary(from, 4))
    else if LfAt(s, from) then Some(Boundary(from, 2))
    else FirstBlank(s, from + 1)
  }

  /** All complete frames of a stream, and the bytes after the last blank line. */
  function Split(s: seq<Byte>): Splitting
    decreases |s|
  {
    var b := FirstBlank(s, 0);
    if b.None? then Splitting([], s)
    else
      var tail := Split(s[b.value.end + b.value.width..]);
      Splitting([s[..b.value.end]] + tail.frames, tail.rest)
  }

  lemma BoundaryIsUnique(s: seq<Byte>, b: Boundary)
    requires IsBoundary(s, b)
    ensures FirstBlank(s, 0) == Some(b)
  {
    var c := FirstBlank(s, 0);
    assert BlankAt(s, b.end);
    assert c.value.end == b.end;
  }

  lemma SplitNone(s: seq<Byte>)
    requires FirstBlank(s, 0).None?
    ensures Split(s) == Splitting([], s)
  {
  }

  lemma SplitStep(s: seq<Byte>, b: Boundary)
    requires IsBoundary(s, b) && b.end + b.width <= |s|
    ensures var tail := Split(s[b.end + b.width..]);
            Split(s) == Splitting([s[..b.end]] + tail.frames, tail.rest)
  {
    BoundaryIsUnique(s, b);
  }

  lemma SplitInTwoStep(s: seq<Byte>, t: seq<Byte>, b: Boundary)
    requires IsBoundary(s, b) && IsBoundary(s + t, b) && b.end + b.width <= |s|
    requires var tail := s[b.end + b.width..]; var a := Split(tail); var z := Split(a.rest + t);
             Split(tail + t) == Splitting(a.frames + z.frames, z.rest)
    ensures var a := Split(s); var z := Split(a.rest + t);
            Split(s + t) == Splitting(a.frames + z.frames, z.rest)
  {
    hide Split, IsBoundary;
    SplitStep(s, b);
    SplitStep(s + t, b);
    var n := b.end + b.width;
    assert (s + t)[n..] == s[n..] + t;
    assert (s + t)[..b.end] == s[..b.end];
    var a := Split(s[n..]);
    Regroup([s[..b.end]], a.frames, Split(a.rest + t).frames);
  }

  /** Splitting a stream is splitting a front part and going on with what it left over. */
  lemma {:induction false} SplitInTwo(s: seq<Byte>, t: seq<Byte>)
    ensures var a := Split(s); var z := Split(a.rest + t);
            Split(s + t) == Splitting(a.frames + z.frames, z.rest)
    decreases |s|
  {
    hide Split, IsBoundary, NoBoundary;
    var b := FirstBlank(s, 0);
    if b.None? {
      SplitNone(s);
      assert [] + Split(s + t).frames == Split(s + t).frames;
    } else {
      BoundaryIsStable(s, t, b.value);
      SplitInTwo(s[b.value.end + b.value.width..], t);
      SplitInTwoStep(s, t, b.value);
    }
  }

  // ----- Writing a stream -----

  /** A frame as servers write it: lines ended by LF alone, none of them empty, and no line end after the last. */
  predicate IsFrame(f: seq<Byte>) {
    && 13 !in f && (f != [] ==> f[|f| - 1] != 10)
    && forall i :: 0 < i < |f| ==> f[i - 1] != 10 || f[i] != 10
  }

  /** A blank line, written the one way or the other. */
  function BlankLine(crlf: bool): seq<Byte> { if crlf then [13, 10, 13, 10] else [10, 10] }

  /** Every frame with a blank line after it. */
  function Written(frames: seq<seq<Byte>>, crlf: seq<bool>): seq<Byte>
    requires |crlf| == |frames|
  {
    if frames == [] then [] else frames[0] + BlankLine(crlf[0]) + Written(frames[1..], crlf[1..])
  }

  lemma FrameEndsAtItsBlankLine(f: seq<Byte>, crlf: bool, more: seq<Byte>)
    requires IsFrame(f)
    ensures IsBoundary(f + BlankLine(crlf) + more, Boundary(|f|, |BlankLine(crlf)|))
  {
    var s := f + BlankLine(crlf) + more;
    assert s[|f|..|f| + |BlankLine(crlf)|] == BlankLine(crlf);
    assert s[|f|] == BlankLine(crlf)[0] && s[|f| + 1] == BlankLine(crlf)[1];
    assert crlf ==> s[|f| + 2] == 13 && s[|f| + 3] == 10;
    forall j | 0 <= j < |f| ensures !BlankAt(s, j) {
      assert s[j] == f[j] && (j + 1 < |f| ==> s[j + 1] == f[j + 1]);
    }
  }

  /** Whatever was written frame by frame, with either kind of blank line, is read back frame by frame. */
  lemma {:induction false} SplitInvertsWritten(frames: seq<seq<Byte>>, crlf: seq<bool>)
    requires |crlf| == |frames| && forall i :: 0 <= i < |frames| ==> IsFrame(frames[i])
    ensures Split(Written(frames, crlf)) == Splitting(frames, [])
  {
    hide Split, IsBoundary, IsFrame, BlankLine;
    if frames == [] {
      SplitEmpty();
    } else {
      var f, blank, more := frames[0], BlankLine(crlf[0]), Written(frames[1..], crlf[1..]);
      var s := f + blank + more;
      FrameEndsAtItsBlankLine(f, crlf[0], more);
      SplitStep(s, Boundary(|f|, |blank|));
      assert s[|f| + |blank|..] == more && s[..|f|] == f;
      SplitInvertsWritten(frames[1..], crlf[1..]);
    }
  }

  lemma SplitEmpty()
    ensures Split([]) == Splitting([], [])
  {
  }

  function Concat(chunks: seq<seq<Byte>>): seq<Byte> {
    if chunks == [] then [] else Concat(chunks[..|chunks| - 1]) + chunks[|chunks| - 1]
  }

  // ----- The client -----

  /** What the client makes of one frame: how many tokens it counts, and whether the frame ends the request. */
  datatype Verdict = GoOn | Done | Bad

  datatype FrameOutcome = FrameOutcome(tokens: nat, verdict: Verdict)

  datatype ReadError = BadFrame | NoDoneMarker

  /** Frame after frame until one ends the request. */
  function ReadAll(frames: seq<seq<Byte>>, handle: seq<Byte> -> FrameOutcome, counted: nat): Result<nat, ReadError>
    decreases |frames|
  {
    if frames == [] then Err(NoDoneMarker)
    else
      var o := handle(frames[0]);
      match o.verdict
      case Done => Ok(counted + o.tokens)
      case Bad => Err(BadFrame)
      case GoOn => ReadAll(frames[1..], handle, counted + o.tokens)
  }

  /** All of `frames` let the reading go on. */
  predicate AllGoOn(frames: seq<seq<Byte>>, handle: seq<Byte> -> FrameOutcome) {
    forall i :: 0 <= i < |frames| ==> handle(frames[i]).verdict == GoOn
  }

  function Count(frames: seq<seq<Byte>>, handle: seq<Byte> -> FrameOutcome): nat {
    if frames == [] then 0 else Count(frames[..|frames| - 1], handle) + handle(frames[|frames| - 1]).tokens
  }

  lemma {:induction false} ReadPast(frames: seq<seq<Byte>>, more: seq<seq<Byte>>, handle: seq<Byte> -> FrameOutcome,
                                    counted: nat)
    requires AllGoOn(frames, handle)
    ensures ReadAll(frames + more, handle, counted) == ReadAll(more, handle, counted + Count(frames, handle))
    decreases |frames|
  {
    if frames == [] {
      assert frames + more == more;
    } else {
      var n := |frames| - 1;
      ReadPast(frames[..n], [frames[n]] + more, handle, counted);
      assert frames + more == frames[..n] + ([frames[n]] + more);
      assert ([frames[n]] + more)[1..] == more;
    }
  }

  /** The request is what the first frame with a verdict makes of it, with the tokens counted up to there. */
  lemma FirstVerdictDecides(frames: seq<seq<Byte>>, handle: seq<Byte> -> FrameOutcome, k: nat)
    requires k <= |frames| && AllGoOn(frames[..k], handle) && (k < |frames| ==> handle(frames[k]).verdict != GoOn)
    ensures ReadAll(frames, handle, 0)
            == if k == |frames| then Err(NoDoneMarker)
               else if handle(frames[k]).verdict.Done? then Ok(Count(frames[..k + 1], handle))
               else Err(BadFrame)
  {
    hide AllGoOn, Count, ReadAll;
    ReadPast(frames[..k], frames[k..], handle, 0);
    assert frames == frames[..k] + frames[k..];
    if k < |frames| {
      FirstOfRest(frames[k..], handle, Count(frames[..k], handle));
      OneMoreCounted(frames, handle, k);
    } else {
      assert frames[k..] == [];
      FirstOfRest(frames[k..], handle, Count(frames[..k], handle));
    }
  }

  lemma FirstOfRest(rest: seq<seq<Byte>>, handle: seq<Byte> -> FrameOutcome, counted: nat)
    ensures rest == [] ==> ReadAll(rest, handle, counted) == Err(NoDoneMarker)
    ensures rest != [] && handle(rest[0]).verdict.Done? ==>
              ReadAll(rest, handle, counted) == Ok(counted + handle(rest[0]).tokens)
    ensures rest != [] && handle(rest[0]).verdict.Bad? ==> ReadAll(rest, handle, counted) == Err(BadFrame)
  {
  }

  lemma OneMoreCounted(frames: seq<seq<Byte>>, handle: seq<Byte> -> FrameOutcome, k: nat)
    requires k < |frames|
    ensures Count(frames[..k + 1], handle) == Count(frames[..k], handle) + handle(frames[k]).tokens
  {
    assert frames[..k + 1][..k] == frames[..k];
  }

  /** The bytes read so far are the frames handled plus the buffer. */
  predicate Accounted(read: seq<Byte>, frames: seq<seq<Byte>>, buffer: seq<Byte>) {
    Split(read) == Splitting(frames + Split(buffer).frames, Split(buffer).rest)
  }

  lemma ChunkArrives(read: seq<Byte>, frames: seq<seq<Byte>>, buffer: seq<Byte>, chunk: seq<Byte>)
    requires Accounted(read, frames, buffer) && NoBoundary(buffer)
    ensures Accounted(read + chunk, frames, buffer + chunk)
  {
    assert FirstBlank(buffer, 0).None?;
    assert Split(read) == Splitting(frames, buffer) by {
      assert frames + [] == frames;
    }
    SplitInTwo(read, chunk);
  }

  lemma FrameLeaves(read: seq<Byte>, frames: seq<seq<Byte>>, buffer: seq<Byte>, b: Boundary)
    requires Accounted(read, frames, buffer) && IsBoundary(buffer, b) && b.end + b.width <= |buffer|
    ensures Accounted(read, frames + [buffer[..b.end]], buffer[b.end + b.width..])
    ensures Split(buffer).frames == [buffer[..b.end]] + Split(buffer[b.end + b.width..]).frames
  {
    hide Split, IsBoundary;
    SplitStep(buffer, b);
    Regroup(frames, [buffer[..b.end]], Split(buffer[b.end + b.width..]).frames);
  }

  /** The first frame left in `buffer` ends the request with `r`. */
  ghost predicate Decided(frames: seq<seq<Byte>>, buffer: seq<Byte>, handle: seq<Byte> -> FrameOutcome,
                          r: Result<nat, ReadError>)
  {
    && Split(buffer).frames != []
    && var o := handle(Split(buffer).frames[0]);
       match o.verdict
       case Done => r == Ok(Count(frames, handle) + o.tokens)
       case Bad => r == Err(BadFrame)
       case GoOn => false
  }

  /** What was decided on a part of the stream holds for the whole stream. */
  lemma DecidedEarly(chunks: seq<seq<Byte>>, i: nat, frames: seq<seq<Byte>>, buffer: seq<Byte>,
                     handle: seq<Byte> -> FrameOutcome, r: Result<nat, ReadError>)
    requires i <= |chunks| && Accounted(Concat(chunks[..i]), frames, buffer) && AllGoOn(frames, handle)
    requires Decided(frames, buffer, handle, r)
    ensures ReadAll(Split(Concat(chunks)).frames, handle, 0) == r
  {
    hide *;
    var rest := ConcatSuffix(chunks, i);
    var more := FramesToCome(Concat(chunks[..i]), rest, frames, buffer);
    ReadPast(frames, more, handle, 0);
    Decides(frames, buffer, more, handle, r);
  }

  lemma Decides(frames: seq<seq<Byte>>, buffer: seq<Byte>, more: seq<seq<Byte>>, handle: seq<Byte> -> FrameOutcome,
                r: Result<nat, ReadError>)
    requires Decided(frames, buffer, handle, r) && Split(buffer).frames <= more
    ensures ReadAll(more, handle, 0 + Count(frames, handle)) == r
  {
    hide Split;
  }

  lemma FramesToCome(read: seq<Byte>, rest: seq<Byte>, frames: seq<seq<Byte>>, buffer: seq<Byte>)
    returns (more: seq<seq<Byte>>)
    requires Accounted(read, frames, buffer)
    ensures Split(read + rest).frames == frames + more && Split(buffer).frames <= more
  {
    hide Split;
    SplitInTwo(read, rest);
    var tail := Split(Split(read).rest + rest).frames;
    Regroup(frames, Split(buffer).frames, tail);
    more := Split(buffer).frames + tail;
  }

  lemma {:induction false} ConcatSuffix(chunks: seq<seq<Byte>>, i: nat) returns (rest: seq<Byte>)
    requires i <= |chunks|
    ensures Concat(chunks) == Concat(chunks[..i]) + rest
    decreases |chunks|
  {
    if i == |chunks| {
      assert chunks[..i] == chunks;
      rest := [];
    } else {
      var n := |chunks| - 1;
      rest := ConcatSuffix(chunks[..n], i);
      assert chunks[..n][..i] == chunks[..i];
      rest := rest + chunks[n];
    }
  }

  lemma NothingRead()
    ensures Accounted(Concat([]), [], [])
  {
  }

  lemma OneMoreChunk(chunks: seq<seq<Byte>>, i: nat)
    requires i < |chunks|
    ensures Concat(chunks[..i + 1]) == Concat(chunks[..i]) + chunks[i]
  {
    assert chunks[..i + 1][..i] == chunks[..i];
  }

  lemma OneMoreFrame(frames: seq<seq<Byte>>, frame: seq<Byte>, handle: seq<Byte> -> FrameOutcome)
    requires AllGoOn(frames, handle) && handle(frame).verdict == GoOn
    ensures AllGoOn(frames + [frame], handle)
    ensures Count(frames + [frame], handle) == Count(frames, handle) + handle(frame).tokens
  {
    assert (frames + [frame])[..|frames|] == frames;
  }

  /** The stream ended and no frame in it ended the request. */
  lemma StreamEnds(read: seq<Byte>, frames: seq<seq<Byte>>, buffer: seq<Byte>, handle: seq<Byte> -> FrameOutcome)
    requires Accounted(read, frames, buffer) && NoBoundary(buffer) && AllGoOn(frames, handle)
    ensures ReadAll(Split(read).frames, handle, 0) == Err(NoDoneMarker)
  {
    assert FirstBlank(buffer, 0).None?;
    assert Split(read).frames == frames + [];
    ReadPast(frames, [], handle, 0);
  }

  /** Handle every complete frame in the buffer, unless one ends the request. */
  method Drain(start: seq<Byte>, before: nat, handle: seq<Byte> -> FrameOutcome, ghost read: seq<Byte>,
               ghost handled: seq<seq<Byte>>)
    returns (buffer: seq<Byte>, counted: nat, end: Option<Result<nat, ReadError>>, ghost frames: seq<seq<Byte>>)
    requires Accounted(read, handled, start) && AllGoOn(handled, handle) && before == Count(handled, handle)
    ensures Accounted(read, frames, buffer) && AllGoOn(frames, handle) && counted == Count(frames, handle)
    ensures if end.Some? then Decided(frames, buffer, handle, end.value) else NoBoundary(buffer)
  {
    hide Accounted, Split, AllGoOn, Count, NoBoundary, IsBoundary;
    buffer, counted, end, frames := start, before, None, handled;
    var boundary := FrameBoundary(buffer);
    while boundary.Some?
      invariant Accounted(read, frames, buffer) && AllGoOn(frames, handle) && counted == Count(frames, handle)
      invariant boundary.Some? ==>
                  IsBoundary(buffer, boundary.value)
                  && boundary.value.end + boundary.value.width <= |buffer| && 0 < boundary.value.width
      invariant boundary.None? ==> NoBoundary(buffer)
      decreases |buffer|
    {
      var frame := buffer[..boundary.value.end];
      FrameLeaves(read, frames, buffer, boundary.value);
      var outcome := handle(frame);
      match outcome.verdict
      case Done =>
        end := Some(Ok(counted + outcome.tokens));
        return;
      case Bad =>
        end := Some(Err(BadFrame));
        return;
      case GoOn =>
        OneMoreFrame(frames, frame, handle);
        buffer := buffer[boundary.value.end + boundary.value.width..];
        counted := counted + outcome.tokens;
        frames := frames + [frame];
        boundary := FrameBoundary(buffer);
    }
  }

  /** Whatever the cutting into chunks, the request reads the frames of the whole stream. */
  method ReadStream(chunks: seq<seq<Byte>>, handle: seq<Byte> -> FrameOutcome) returns (r: Result<nat, ReadError>)
    ensures r == ReadAll(Split(Concat(chunks)).frames, handle, 0)
  {
    var buffer: seq<Byte> := [];
    var counted := 0;
    ghost var frames: seq<seq<Byte>> := [];
    assert NoBoundary([]) && AllGoOn(frames, handle) && Count(frames, handle) == 0;
    NothingRead();
    hide Accounted, Split, Concat, ReadAll, AllGoOn, Count, NoBoundary, IsBoundary, Decided;
    assert chunks[..0] == [];
    for i := 0 to |chunks|
      invariant Accounted(Concat(chunks[..i]), frames, buffer) && NoBoundary(buffer)
      invariant AllGoOn(frames, handle) && counted == Count(frames, handle)
    {
      ChunkArrives(Concat(chunks[..i]), frames, buffer, chunks[i]);
      OneMoreChunk(chunks, i);
      var end;
      buffer, counted, end, frames := Drain(buffer + chunks[i], counted, handle, Concat(chunks[..i + 1]), frames);
      if end.Some? {
        DecidedEarly(chunks, i + 1, frames, buffer, handle, end.value);
        return end.value;
      }
    }
    assert chunks[..|chunks|] == chunks;
    StreamEnds(Concat(chunks), frames, buffer, handle);
    return Err(NoDoneMarker);
  }
}
