/** The streaming transducers: re-emission as server-sent events with an end-of-stream action
    (gateway/streaming/sse.py) and the one-chunk lookahead that strips repeated usage
    (gateway/providers/gemini.py). Both are generators that a consumer pulls and may close at any
    yield: `patience` is how many times it comes back for more before it closes. */
module Streaming {
  import opened Prelude

  datatype Usage = Usage(totalTokens: Option<int>)

  /** The `usage` key of a chunk: missing, present but falsy (such as null), or a usage object. */
  datatype Field = Missing | Falsy | Reported(usage: Usage)

  datatype Chunk = Chunk(content: string, usage: Field)

  datatype Ending = Exhausted | Broken

  /** What a generator has to give: some chunks, and then its end or an error. */
  datatype Upstream = Upstream(chunks: seq<Chunk>, ending: Ending)

  datatype Frame = Data(chunk: Chunk) | Done

  /** How the consumer's side of a generator ended: it ran to its end, failed, or was closed. */
  datatype Exit = Returned | Raised | Closed

  /** What happens after the last frame, in order. */
  datatype Effect = CloseUpstream | Finish(usage: Option<Usage>, completed: bool)

  datatype Trace = Trace(frames: seq<Frame>, effects: seq<Effect>, exit: Exit)

  /** `chunk.get("usage") or usage` */
  function Tap(c: Chunk, usage: Option<Usage>): Option<Usage> {
    if c.usage.Reported? then Some(c.usage.usage) else usage
  }

  function LastUsage(chunks: seq<Chunk>): Option<Usage> {
    if chunks == [] then None else Tap(chunks[|chunks| - 1], LastUsage(chunks[..|chunks| - 1]))
  }

  function Framed(chunks: seq<Chunk>): (frames: seq<Frame>)
    ensures |frames| == |chunks|
  {
    if chunks == [] then [] else Framed(chunks[..|chunks| - 1]) + [Data(chunks[|chunks| - 1])]
  }

  lemma {:induction false} FramedAppend(chunks: seq<Chunk>, c: Chunk)
    ensures Framed(chunks + [c]) == Framed(chunks) + [Data(c)]
  {
    assert (chunks + [c])[..|chunks|] == chunks;
  }

  function Given(first: Option<Chunk>, rest: Upstream): Upstream {
    if first.Some? then Upstream([first.value] + rest.chunks, rest.ending) else rest
  }

  /** All that a patient consumer gets. */
  function Whole(up: Upstream): seq<Frame> {
    Framed(up.chunks) + if up.ending == Exhausted then [Done] else []
  }

  function AtMost(n: nat, k: nat): nat {
    if n <= k then n else k
  }

  /** What a started stream does: a prefix of the frames, then one end-of-stream action, which is
      told of the usage only when the consumer came back after the terminator. */
  function Emitted(up: Upstream, patience: nat): Trace {
    var all := Whole(up);
    var exit := if patience < |all| then Closed else if up.ending == Exhausted then Returned else Raised;
    var completed := exit == Returned;
    Trace(all[..AtMost(|all|, patience + 1)],
          [CloseUpstream, Finish(if completed then LastUsage(up.chunks) else None, completed)], exit)
  }

  lemma {:induction false} LastUsageAppend(chunks: seq<Chunk>, c: Chunk)
    ensures LastUsage(chunks + [c]) == Tap(c, LastUsage(chunks))
  {
    assert (chunks + [c])[..|chunks|] == chunks;
  }

  /** The usage kept is that of the last chunk that reports one. */
  lemma {:induction false} LastReportWins(before: seq<Chunk>, c: Chunk, after: seq<Chunk>)
    requires c.usage.Reported? && forall i | 0 <= i < |after| :: !after[i].usage.Reported?
    ensures LastUsage(before + [c] + after) == Some(c.usage.usage)
  {
    if after == [] {
      LastUsageAppend(before, c);
      assert before + [c] + after == before + [c];
    } else {
      var n := |after| - 1;
      LastReportWins(before, c, after[..n]);
      LastUsageAppend(before + [c] + after[..n], after[n]);
      assert before + [c] + after == before + [c] + after[..n] + [after[n]];
    }
  }

  lemma {:induction false} FramedPrefix(chunks: seq<Chunk>, n: nat)
    requires n <= |chunks|
    ensures Framed(chunks[..n]) == Framed(chunks)[..n]
  {
    if n < |chunks| {
      var less := chunks[..|chunks| - 1];
      FramedPrefix(less, n);
      assert less[..n] == chunks[..n];
    } else {
      assert chunks[..n] == chunks;
    }
  }

  function Ended(frames: seq<Frame>, usage: Option<Usage>, completed: bool, exit: Exit): Trace {
    Trace(frames, [CloseUpstream, Finish(usage, completed)], exit)
  }

  lemma {:induction false} TakeOfSum(xs: seq<Frame>, ys: seq<Frame>, n: nat)
    requires n <= |xs|
    ensures (xs + ys)[..n] == xs[..n]
  {
  }

  lemma {:induction false} WholePrefix(up: Upstream, n: nat)
    requires n <= |up.chunks|
    ensures n <= |Whole(up)| && Whole(up)[..n] == Framed(up.chunks[..n])
  {
    FramedPrefix(up.chunks, n);
    TakeOfSum(Framed(up.chunks), if up.ending == Exhausted then [Done] else [], n);
  }

  lemma {:induction false} ClosedEarly(up: Upstream, sent: seq<Chunk>, left: seq<Chunk>, patience: nat)
    requires up.chunks == sent + left && |sent| == patience + 1
    ensures Emitted(up, patience) == Ended(Framed(sent), None, false, Closed)
  {
    WholePrefix(up, patience + 1);
    assert up.chunks[..patience + 1] == sent;
  }

  lemma {:induction false} ClosedLate(up: Upstream, patience: nat)
    requires |up.chunks| <= patience
    ensures Emitted(up, patience)
            == if up.ending == Broken then Ended(Framed(up.chunks), None, false, Raised)
               else if |up.chunks| == patience then Ended(Framed(up.chunks) + [Done], None, false, Closed)
               else Ended(Framed(up.chunks) + [Done], LastUsage(up.chunks), true, Returned)
  {
  }

  /** Where the body of the generator can leave off, having sent some chunks with some left. */
  predicate LeftOff(up: Upstream, patience: nat, sent: seq<Chunk>, left: seq<Chunk>,
                    frames: seq<Frame>, usage: Option<Usage>, completed: bool, exit: Exit)
  {
    && up.chunks == sent + left
    && if exit == Closed && |sent| == patience + 1 then !completed && frames == Framed(sent)
       else
         && left == [] && |sent| <= patience
         && if up.ending == Broken then exit == Raised && !completed && frames == Framed(sent)
            else
              && frames == Framed(sent) + [Done] && usage == LastUsage(sent)
              && completed == (exit == Returned) == (|sent| < patience) && exit != Raised
  }

  lemma {:induction false} LeftOffEmits(up: Upstream, patience: nat, sent: seq<Chunk>, left: seq<Chunk>,
                     frames: seq<Frame>, usage: Option<Usage>, completed: bool, exit: Exit)
    requires LeftOff(up, patience, sent, left, frames, usage, completed, exit)
    ensures Ended(frames, if completed then usage else None, completed, exit) == Emitted(up, patience)
  {
    if |sent| == patience + 1 {
      ClosedEarly(up, sent, left, patience);
    } else {
      assert up.chunks == sent;
      ClosedLate(up, patience);
    }
  }

  lemma {:induction false} OneMoreSent(sent: seq<Chunk>, chunks: seq<Chunk>, i: nat)
    requires i < |chunks|
    ensures sent + chunks[i..] == sent + [chunks[i]] + chunks[i + 1..]
  {
  }

  /** The body of the try block. A yield delivers a frame and is either resumed or, once the
      consumer's patience is used up, closed. */
  method Generate(first: Option<Chunk>, rest: Upstream, patience: nat)
    returns (frames: seq<Frame>, usage: Option<Usage>, completed: bool, exit: Exit,
             ghost sent: seq<Chunk>, ghost left: seq<Chunk>)
    ensures LeftOff(Given(first, rest), patience, sent, left, frames, usage, completed, exit)
  {
    frames, usage, completed, exit := [], None, false, Closed;
    ghost var up := Given(first, rest);
    sent, left := [], up.chunks;
    if first.Some? {
      usage := Tap(first.value, usage);
      frames := [Data(first.value)];
      sent, left := [first.value], rest.chunks;
      if |frames| > patience {
        return;
      }
    }
    for i := 0 to |rest.chunks|
      invariant exit == Closed && !completed && |frames| == |sent| <= patience
      invariant up.chunks == sent + left && left == rest.chunks[i..]
      invariant frames == Framed(sent) && usage == LastUsage(sent)
    {
      var chunk := rest.chunks[i];
      usage := Tap(chunk, usage);
      frames := frames + [Data(chunk)];
      OneMoreSent(sent, rest.chunks, i);
      LastUsageAppend(sent, chunk);
      FramedAppend(sent, chunk);
      sent, left := sent + [chunk], rest.chunks[i + 1..];
      if |frames| > patience {
        return;
      }
    }
    if rest.ending == Broken {
      exit := Raised;
      return;
    }
    frames := frames + [Done];
    if |frames| > patience {
      return;
    }
    completed, exit := true, Returned;
  }

  /** However the body ends, the finally block closes the upstream and accounts once. */
  method StreamSse(first: Option<Chunk>, rest: Upstream, patience: nat) returns (t: Trace)
    ensures t == Emitted(Given(first, rest), patience)
  {
    var frames, usage, completed, exit, sent, left := Generate(first, rest, patience);
    LeftOffEmits(Given(first, rest), patience, sent, left, frames, usage, completed, exit);
    t := Trace(frames, [CloseUpstream, Finish(if completed then usage else None, completed)], exit);
  }

  // ---------------------------------------------------------------- the lookahead

  function WithoutUsage(c: Chunk): Chunk {
    c.(usage := Missing)
  }

  function AllWithoutUsage(chunks: seq<Chunk>): (r: seq<Chunk>)
    ensures |r| == |chunks|
    ensures forall i | 0 <= i < |r| :: r[i] == WithoutUsage(chunks[i])
  {
    seq(|chunks|, i requires 0 <= i < |chunks| => WithoutUsage(chunks[i]))
  }

  /** A chunk is passed on only when the next one or the end has come, and only the last one
      before the end keeps its usage. */
  function Lookahead(up: Upstream): Upstream {
    var m := |up.chunks|;
    if m == 0 then up
    else Upstream(AllWithoutUsage(up.chunks[..m - 1])
                  + if up.ending == Exhausted then [up.chunks[m - 1]] else [], up.ending)
  }

  lemma {:induction false} PassedOn(up: Upstream, n: nat)
    requires n < |up.chunks|
    ensures n <= |Lookahead(up).chunks|
    ensures Lookahead(up).chunks[..n] == AllWithoutUsage(up.chunks[..n])
    ensures AllWithoutUsage(up.chunks[..n]) + [WithoutUsage(up.chunks[n])] == AllWithoutUsage(up.chunks[..n + 1])
  {
  }

  method StreamGemini(up: Upstream, patience: nat) returns (given: seq<Chunk>, exit: Exit)
    ensures var all := Lookahead(up);
            && given == all.chunks[..AtMost(|all.chunks|, patience + 1)]
            && exit == if patience < |all.chunks| then Closed else if up.ending == Exhausted then Returned else Raised
  {
    given := [];
    var prev: Option<Chunk> := None;
    for i := 0 to |up.chunks|
      invariant prev == if i == 0 then None else Some(up.chunks[i - 1])
      invariant given == AllWithoutUsage(up.chunks[..if i == 0 then 0 else i - 1])
      invariant |given| <= patience
    {
      if prev.Some? {
        PassedOn(up, i - 1);
        PassedOn(up, i);
        given := given + [WithoutUsage(prev.value)];
        if |given| > patience {
          return given, Closed;
        }
      }
      prev := Some(up.chunks[i]);
    }
    if up.ending == Broken {
      return given, Raised;
    }
    if prev.Some? {
      given := given + [prev.value];
      if |given| > patience {
        return given, Closed;
      }
    }
    return given, Returned;
  }

  /** The lookahead keeps the chunk sequence: contents and order, with usage on the last chunk
      alone. A provider that fails after m chunks has had all but the last passed on. */
  lemma {:induction false} LookaheadKeepsContent(up: Upstream)
    ensures var m, r := |up.chunks|, Lookahead(up);
            && r.ending == up.ending
            && |r.chunks| == (if up.ending == Exhausted then m else if m == 0 then 0 else m - 1)
            && (forall i | 0 <= i < |r.chunks| :: r.chunks[i].content == up.chunks[i].content)
            && (forall i | 0 <= i < |r.chunks| && i != m - 1 :: r.chunks[i].usage == Missing)
            && (up.ending == Exhausted && m > 0 ==> r.chunks[m - 1] == up.chunks[m - 1])
  {
  }

  lemma {:induction false} NoUsage(chunks: seq<Chunk>)
    requires forall c | c in chunks :: !c.usage.Reported?
    ensures LastUsage(chunks) == None
  {
    if chunks != [] {
      NoUsage(chunks[..|chunks| - 1]);
    }
  }

  /** The usage that comes through is what the last chunk reports, whatever earlier ones said. */
  lemma {:induction false} UsageOfLastChunk(up: Upstream)
    requires up.ending == Exhausted
    ensures LastUsage(Lookahead(up).chunks)
            == if up.chunks != [] && up.chunks[|up.chunks| - 1].usage.Reported?
               then Some(up.chunks[|up.chunks| - 1].usage.usage) else None
  {
    if up.chunks != [] {
      var n := |up.chunks| - 1;
      NoUsage(AllWithoutUsage(up.chunks[..n]));
      LastUsageAppend(AllWithoutUsage(up.chunks[..n]), up.chunks[n]);
    }
  }

  /** What comes of the executor's peek. A stream that is over at once has opened without a first
      chunk; one that fails before its first chunk has not opened: the executor records a failure
      and falls back, nothing is re-emitted, and there is no end-of-stream action. */
  datatype Peeked = Opened(first: Option<Chunk>, rest: Upstream) | NotOpened

  function Peek(up: Upstream): Peeked {
    if up.chunks != [] then Opened(Some(up.chunks[0]), Upstream(up.chunks[1..], up.ending))
    else if up.ending == Exhausted then Opened(None, up)
    else NotOpened
  }

  lemma {:induction false} PeekLosesNothing(up: Upstream)
    ensures Peek(up).Opened? ==> Given(Peek(up).first, Peek(up).rest) == up
  {
  }

  function FrameCount(up: Upstream): nat {
    if up.ending == Exhausted then |up.chunks| + 1 else if up.chunks == [] then 0 else |up.chunks| - 1
  }

  /** What the client sees of any stream. */
  lemma {:induction false} EmittedFrames(up: Upstream, patience: nat)
    ensures var frames := Emitted(up, patience).frames;
            && |frames| == AtMost(|up.chunks| + if up.ending == Exhausted then 1 else 0, patience + 1)
            && forall i | 0 <= i < |frames| :: frames[i] == if i < |up.chunks| then Data(up.chunks[i]) else Done
  {
    forall i | 0 <= i < |up.chunks|
      ensures Framed(up.chunks)[i] == Data(up.chunks[i])
    {
      FramedAt(up.chunks, i);
    }
  }

  /** The usage the pipeline should report: that of the last chunk of a stream that came to its end. */
  function FinalUsage(up: Upstream): Option<Usage> {
    if up.chunks != [] && up.chunks[|up.chunks| - 1].usage.Reported?
    then Some(up.chunks[|up.chunks| - 1].usage.usage) else None
  }

  /** The whole pipeline, lookahead, peek and re-emission, closed by the client at any point. It
      does not open exactly when the provider fails before its second chunk. Otherwise there is
      exactly one end-of-stream action, told of a usage only when the client came back after the
      terminator, and then of the last chunk's; and a prefix of the provider's contents. */
  lemma {:induction false} PipelineUnderAbort(up: Upstream, patience: nat)
    ensures Peek(Lookahead(up)).NotOpened? <==> up.ending == Broken && |up.chunks| <= 1
    ensures match Peek(Lookahead(up))
            case NotOpened => true
            case Opened(first, rest) =>
              var t := Emitted(Given(first, rest), patience);
              var completed := up.ending == Exhausted && patience > |up.chunks|;
              && t.effects == [CloseUpstream, Finish(if completed then FinalUsage(up) else None, completed)]
              && |t.frames| == AtMost(FrameCount(up), patience + 1)
              && (forall i | 0 <= i < |t.frames| ::
                    if i < |up.chunks| then t.frames[i].Data? && t.frames[i].chunk.content == up.chunks[i].content
                    else t.frames[i] == Done)
  {
    var r := Lookahead(up);
    PeekLosesNothing(r);
    LookaheadKeepsContent(up);
    EmittedFrames(r, patience);
    if up.ending == Exhausted {
      UsageOfLastChunk(up);
    }
  }

  lemma {:induction false} FramedAt(chunks: seq<Chunk>, i: nat)
    requires i < |chunks|
    ensures Framed(chunks)[i] == Data(chunks[i])
  {
    if i < |chunks| - 1 {
      FramedAt(chunks[..|chunks| - 1], i);
    }
  }
}
