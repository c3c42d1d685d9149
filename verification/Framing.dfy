/** Server-sent events as text: what `stream_sse` writes and what the adapters' line loop reads
    (gateway/streaming/sse.py, gateway/providers/openai_compat.py). JSON is a pair of functions
    that the framing relies on for no more than `GoodCodec` says. */
module Framing {
  import opened Prelude
  import opened Streaming

  datatype Json<T> = Object(value: T) | NotObject

  type Encoder<!T> = T -> string

  /** None stands for text that is not JSON. */
  type Decoder<T> = string -> Option<Json<T>>

  /** The characters that `str.strip` removes. */
  predicate IsSpace(c: char) {
    || '\t' <= c <= '\r' || '\U{1C}' <= c <= ' ' || c == '\U{85}' || c == '\U{A0}' || c == '\U{1680}'
    || '\U{2000}' <= c <= '\U{200A}' || c == '\U{2028}' || c == '\U{2029}' || c == '\U{202F}' || c == '\U{205F}'
    || c == '\U{3000}'
  }

  /** Encoded objects are on one line, are braced, and decode to themselves. */
  ghost predicate GoodCodec<T(!new)>(enc: Encoder<T>, dec: Decoder<T>) {
    forall c :: Braced(enc(c)) && dec(enc(c)) == Some(Object(c))
  }

  predicate Braced(s: string) {
    |s| >= 2 && s[0] == '{' && s[|s| - 1] == '}' && '\n' !in s
  }

  // ---------------------------------------------------------------- writing

  const DONE_EVENT := "data: [DONE]\n\n"

  function Event<T>(enc: Encoder<T>, c: T): string {
    "data: " + enc(c) + "\n\n"
  }

  function TextOf(enc: Encoder<Chunk>, frames: seq<Frame>): string {
    if frames == [] then ""
    else (if frames[0].Done? then DONE_EVENT else Event(enc, frames[0].chunk)) + TextOf(enc, frames[1..])
  }

  // ---------------------------------------------------------------- reading

  function LineEnd(text: string): (n: nat)
    ensures n <= |text| && '\n' !in text[..n] && (n < |text| ==> text[n] == '\n')
  {
    if text == "" || text[0] == '\n' then 0 else 1 + LineEnd(text[1..])
  }

  function Lines(text: string): seq<string> {
    if text == "" then []
    else
      var n := LineEnd(text);
      [text[..n]] + if n < |text| then Lines(text[n + 1..]) else []
  }

  function StripLeft(s: string): string {
    if s != "" && IsSpace(s[0]) then StripLeft(s[1..]) else s
  }

  function StripRight(s: string): string {
    if s != "" && IsSpace(s[|s| - 1]) then StripRight(s[..|s| - 1]) else s
  }

  function Strip(s: string): string {
    StripRight(StripLeft(s))
  }

  datatype Parsed<T> = Nothing | Terminator | Value(json: Json<T>)

  const PREFIX := "data:"

  function ParseLine<T>(dec: Decoder<T>, line: string): Parsed<T> {
    if !(PREFIX <= line) then Nothing
    else
      var data := Strip(line[|PREFIX|..]);
      if data == "" then Nothing
      else if data == "[DONE]" then Terminator
      else
        match dec(data)
        case None => Nothing
        case Some(json) => Value(json)
  }

  /** The chunks in a list of lines, up to the terminator. */
  function Read<T>(dec: Decoder<T>, lines: seq<string>): seq<T> {
    if lines == [] then []
    else
      match ParseLine(dec, lines[0])
      case Terminator => []
      case Value(Object(c)) => [c] + Read(dec, lines[1..])
      case _ => Read(dec, lines[1..])
  }

  method ReadLines<T>(dec: Decoder<T>, lines: seq<string>) returns (chunks: seq<T>)
    ensures chunks == Read(dec, lines)
  {
    chunks := [];
    for i := 0 to |lines|
      invariant chunks + Read(dec, lines[i..]) == Read(dec, lines)
    {
      var chunk := ParseLine(dec, lines[i]);
      assert lines[i..][1..] == lines[i + 1..];
      if chunk.Terminator? {
        return;
      }
      if chunk.Value? && chunk.json.Object? {
        chunks := chunks + [chunk.json.value];
      }
    }
  }

  // ---------------------------------------------------------------- round trip

  lemma {:induction false} LineEndAt(x: string, rest: string)
    requires '\n' !in x
    ensures LineEnd(x + "\n" + rest) == |x|
  {
    if x != "" {
      LineEndAt(x[1..], rest);
      assert (x + "\n" + rest)[1..] == x[1..] + "\n" + rest;
      assert x[0] in x;
    }
  }

  lemma {:induction false} LinesOfLine(x: string, rest: string)
    requires '\n' !in x
    ensures Lines(x + "\n" + rest) == [x] + Lines(rest)
  {
    var text := x + "\n" + rest;
    LineEndAt(x, rest);
    assert text[..|x|] == x && text[|x| + 1..] == rest;
  }

  /** A text that is cut off still ends with a line. */
  lemma {:induction false} LastLine(x: string)
    requires x != "" && '\n' !in x
    ensures Lines(x) == [x]
  {
    assert forall i | 0 <= i < |x| :: x[i] != '\n';
    assert LineEnd(x) == |x| && x[..|x|] == x;
  }

  lemma {:induction false} Regrouped<T>(a: seq<T>, b: seq<T>, c: seq<T>)
    ensures a + b + c == a + (b + c)
  {
  }

  lemma {:induction false} TwoBreaks(x: string, rest: string)
    ensures x + "\n\n" + rest == x + "\n" + ("" + "\n" + rest)
  {
    assert "\n\n" == "\n" + "\n";
    assert "" + "\n" + rest == "\n" + rest;
  }

  lemma {:induction false} TwoLines(x: string, y: string, lines: seq<string>)
    ensures [x] + ([y] + lines) == [x, y] + lines
  {
  }

  /** An event is its line and an empty one. */
  lemma {:induction false} LinesOfEvent(x: string, rest: string)
    requires '\n' !in x
    ensures Lines(x + "\n\n" + rest) == [x, ""] + Lines(rest)
  {
    var tail := "" + "\n" + rest;
    TwoBreaks(x, rest);
    LinesOfLine(x, tail);
    LinesOfLine("", rest);
    TwoLines(x, "", Lines(rest));
  }

  lemma {:induction false} StripOne(x: string)
    requires x != "" && !IsSpace(x[0]) && !IsSpace(x[|x| - 1])
    ensures Strip(" " + x) == x
  {
    assert (" " + x)[1..] == x;
    assert StripLeft(" " + x) == StripLeft(x) == x;
  }

  lemma {:induction false} ParseEvent<T(!new)>(enc: Encoder<T>, dec: Decoder<T>, c: T)
    requires GoodCodec(enc, dec)
    ensures ParseLine(dec, "data: " + enc(c)) == Value(Object(c))
  {
    var x := enc(c);
    assert Braced(x);
    StripOne(x);
    assert ("data: " + x)[5..] == " " + x;
    assert PREFIX <= "data: " + x;
  }

  lemma {:induction false} ParseDone<T>(dec: Decoder<T>)
    ensures ParseLine(dec, "data: [DONE]") == Terminator
  {
    StripOne("[DONE]");
    assert "data: [DONE]"[5..] == " " + "[DONE]";
  }

  lemma {:induction false} ParseEmpty<T>(dec: Decoder<T>)
    ensures ParseLine(dec, "") == Nothing
  {
  }

  lemma {:induction false} ReadTwo<T>(dec: Decoder<T>, first: string, second: string, c: T, rest: seq<string>)
    requires ParseLine(dec, first) == Value(Object(c)) && ParseLine(dec, second).Nothing?
    ensures Read(dec, [first, second] + rest) == [c] + Read(dec, rest)
  {
    assert ([first, second] + rest)[1..] == [second] + rest;
    assert ([second] + rest)[1..] == rest;
  }

  lemma {:induction false} ReadEvent<T(!new)>(enc: Encoder<T>, dec: Decoder<T>, c: T, rest: string)
    requires GoodCodec(enc, dec)
    ensures Read(dec, Lines(Event(enc, c) + rest)) == [c] + Read(dec, Lines(rest))
  {
    var x := "data: " + enc(c);
    assert Braced(enc(c)) && '\n' !in x;
    LinesOfEvent(x, rest);
    ParseEvent(enc, dec, c);
    ParseEmpty(dec);
    ReadTwo(dec, x, "", c, Lines(rest));
    assert Event(enc, c) + rest == x + "\n\n" + rest;
  }

  lemma {:induction false} ReadDone<T>(dec: Decoder<T>, rest: string)
    ensures Read(dec, Lines(DONE_EVENT + rest)) == []
  {
    var x := "data: [DONE]";
    LinesOfEvent(x, rest);
    ParseDone(dec);
    assert DONE_EVENT + rest == x + "\n\n" + rest;
  }

  /** Reading back what was written gives the chunks, and stops at the terminator whatever
      follows it. */
  lemma {:induction false} RoundTrip(enc: Encoder<Chunk>, dec: Decoder<Chunk>, chunks: seq<Chunk>, after: string)
    requires GoodCodec(enc, dec)
    ensures Read(dec, Lines(TextOf(enc, Framed(chunks)) + DONE_EVENT + after)) == chunks
  {
    TextOfChunks(enc, dec, chunks, DONE_EVENT + after);
    ReadDone(dec, after);
    Regrouped(TextOf(enc, Framed(chunks)), DONE_EVENT, after);
  }

  lemma {:induction false} FramedCons(c: Chunk, chunks: seq<Chunk>)
    ensures Framed([c] + chunks) == [Data(c)] + Framed(chunks)
  {
    forall i | 0 <= i < |chunks| + 1
      ensures Framed([c] + chunks)[i] == ([Data(c)] + Framed(chunks))[i]
    {
      FramedAt([c] + chunks, i);
      if i > 0 {
        FramedAt(chunks, i - 1);
      }
    }
  }

  lemma {:induction false} TextOfCons(enc: Encoder<Chunk>, c: Chunk, chunks: seq<Chunk>)
    ensures TextOf(enc, Framed([c] + chunks)) == Event(enc, c) + TextOf(enc, Framed(chunks))
  {
    FramedCons(c, chunks);
    assert ([Data(c)] + Framed(chunks))[1..] == Framed(chunks);
  }

  lemma {:induction false} ReadCons(enc: Encoder<Chunk>, dec: Decoder<Chunk>, c: Chunk, tail: string, rest: string,
                 less: seq<Chunk>, more: seq<Chunk>)
    requires GoodCodec(enc, dec) && Read(dec, Lines(tail + rest)) == less + more
    ensures Read(dec, Lines(Event(enc, c) + tail + rest)) == [c] + less + more
  {
    ReadEvent(enc, dec, c, tail + rest);
    Regrouped(Event(enc, c), tail, rest);
  }

  lemma {:induction false} TextOfChunks(enc: Encoder<Chunk>, dec: Decoder<Chunk>, chunks: seq<Chunk>, rest: string)
    requires GoodCodec(enc, dec)
    ensures Read(dec, Lines(TextOf(enc, Framed(chunks)) + rest)) == chunks + Read(dec, Lines(rest))
  {
    if chunks == [] {
      assert TextOf(enc, Framed(chunks)) + rest == rest;
    } else {
      var c, less := chunks[0], chunks[1..];
      assert chunks == [c] + less;
      TextOfCons(enc, c, less);
      TextOfChunks(enc, dec, less, rest);
      ReadCons(enc, dec, c, TextOf(enc, Framed(less)), rest, less, Read(dec, Lines(rest)));
    }
  }

  /** A client that reads what it was sent, closing at any point, has a prefix of the chunks: all
      of them if the stream came to its end, or to its last chunk before an error. */
  lemma {:induction false} ClientReadsPrefix(enc: Encoder<Chunk>, dec: Decoder<Chunk>, up: Upstream, patience: nat)
    requires GoodCodec(enc, dec)
    ensures Read(dec, Lines(TextOf(enc, Emitted(up, patience).frames)))
            == up.chunks[..AtMost(|up.chunks|, patience + 1)]
  {
    var frames, n := Emitted(up, patience).frames, AtMost(|up.chunks|, patience + 1);
    var chunks := up.chunks[..n];
    EmittedFrames(up, patience);
    forall i | 0 <= i < n
      ensures Framed(chunks)[i] == Data(chunks[i])
    {
      FramedAt(chunks, i);
    }
    if |frames| == n {
      assert frames == Framed(chunks);
      TextOfChunks(enc, dec, chunks, "");
      assert TextOf(enc, frames) + "" == TextOf(enc, frames);
    } else {
      assert frames == Framed(chunks) + [Done];
      TextOfAppend(enc, Framed(chunks), Done);
      RoundTrip(enc, dec, chunks, "");
      assert TextOf(enc, frames) == TextOf(enc, Framed(chunks)) + DONE_EVENT + "";
    }
  }

  lemma {:induction false} TextOfFirst(enc: Encoder<Chunk>, f: Frame, rest: seq<Frame>)
    ensures TextOf(enc, [f] + rest) == (if f.Done? then DONE_EVENT else Event(enc, f.chunk)) + TextOf(enc, rest)
  {
    assert ([f] + rest)[1..] == rest;
  }

  lemma {:induction false} TextOfAppend(enc: Encoder<Chunk>, frames: seq<Frame>, f: Frame)
    ensures TextOf(enc, frames + [f]) == TextOf(enc, frames) + if f.Done? then DONE_EVENT else Event(enc, f.chunk)
  {
    var last := if f.Done? then DONE_EVENT else Event(enc, f.chunk);
    if frames == [] {
      TextOfFirst(enc, f, []);
      assert frames + [f] == [f] + [] && last + "" == last;
    } else {
      var head, rest := frames[0], frames[1..];
      TextOfAppend(enc, rest, f);
      TextOfFirst(enc, head, rest);
      TextOfFirst(enc, head, rest + [f]);
      assert frames == [head] + rest && frames + [f] == [head] + (rest + [f]);
      Regrouped(if head.Done? then DONE_EVENT else Event(enc, head.chunk), TextOf(enc, rest), last);
    }
  }

  // ---------------------------------------------------------------- what each line means

  const SPACES: set<char> := {
    '\t', '\n', '\U{0B}', '\U{0C}', '\r', '\U{1C}', '\U{1D}', '\U{1E}', '\U{1F}', ' ', '\U{85}', '\U{A0}',
    '\U{1680}', '\U{2000}', '\U{2001}', '\U{2002}', '\U{2003}', '\U{2004}', '\U{2005}', '\U{2006}', '\U{2007}',
    '\U{2008}', '\U{2009}', '\U{200A}', '\U{2028}', '\U{2029}', '\U{202F}', '\U{205F}', '\U{3000}'}

  lemma {:induction false} SpacesAre(c: char)
    ensures IsSpace(c) <==> c in SPACES
  {
    assert '\t' <= c <= '\r' ==> c as int in {9, 10, 11, 12, 13};
    assert '\U{1C}' <= c <= ' ' ==> c as int in {28, 29, 30, 31, 32};
    assert '\U{2000}' <= c <= '\U{200A}' ==> 8192 <= c as int <= 8202;
  }

  predicate Blank(s: string) {
    forall i | 0 <= i < |s| :: IsSpace(s[i])
  }

  predicate Trimmed(s: string) {
    s != "" ==> !IsSpace(s[0]) && !IsSpace(s[|s| - 1])
  }

  /** A data line with its payload between white space. */
  predicate Carries(line: string, left: string, payload: string, right: string) {
    line == "data:" + (left + payload + right) && Blank(left) && Blank(right) && Trimmed(payload)
  }

  lemma {:induction false} StripLeftOf(left: string, rest: string)
    requires Blank(left) && (rest != "" ==> !IsSpace(rest[0]))
    ensures StripLeft(left + rest) == rest
  {
    if left == "" {
      assert left + rest == rest;
    } else {
      assert IsSpace(left[0]) && (left + rest)[0] == left[0];
      assert (left + rest)[1..] == left[1..] + rest;
      StripLeftOf(left[1..], rest);
    }
  }

  lemma {:induction false} StripRightOf(rest: string, right: string)
    requires Blank(right) && (rest != "" ==> !IsSpace(rest[|rest| - 1]))
    ensures StripRight(rest + right) == rest
  {
    if right == "" {
      assert rest + right == rest;
    } else {
      var n := |right| - 1;
      assert IsSpace(right[n]) && (rest + right)[|rest + right| - 1] == right[n];
      assert (rest + right)[..|rest + right| - 1] == rest + right[..n];
      StripRightOf(rest, right[..n]);
    }
  }

  lemma {:induction false} StripOf(left: string, payload: string, right: string)
    requires Blank(left) && Blank(right) && Trimmed(payload)
    ensures Strip(left + payload + right) == payload
  {
    if payload == "" {
      var all := left + right;
      assert left + payload + right == all + "" && Blank(all);
      StripLeftOf(all, "");
    } else {
      assert left + payload + right == left + (payload + right) && (payload + right)[0] == payload[0];
      StripLeftOf(left, payload + right);
      StripRightOf(payload, right);
    }
  }

  lemma {:induction false} ParseOf<T>(dec: Decoder<T>, line: string, left: string, payload: string, right: string)
    requires Carries(line, left, payload, right)
    ensures ParseLine(dec, line) ==
            if payload == "" then Nothing
            else if payload == "[DONE]" then Terminator
            else if dec(payload).None? then Nothing
            else Value(dec(payload).value)
  {
    StripOf(left, payload, right);
    assert line[|PREFIX|..] == left + payload + right;
  }

  lemma {:induction false} StripLeftParts(s: string) returns (left: string, rest: string)
    ensures s == left + rest && Blank(left) && (rest != "" ==> !IsSpace(rest[0]))
  {
    if s != "" && IsSpace(s[0]) {
      left, rest := StripLeftParts(s[1..]);
      left := [s[0]] + left;
    } else {
      left, rest := "", s;
    }
  }

  lemma {:induction false} StripRightParts(s: string) returns (rest: string, right: string)
    ensures s == rest + right && Blank(right) && (rest != "" ==> !IsSpace(rest[|rest| - 1]))
  {
    if s != "" && IsSpace(s[|s| - 1]) {
      rest, right := StripRightParts(s[..|s| - 1]);
      right := right + [s[|s| - 1]];
      assert s == s[..|s| - 1] + [s[|s| - 1]];
    } else {
      rest, right := s, "";
    }
  }

  /** Every data line has a payload. */
  lemma {:induction false} PayloadOf(line: string) returns (left: string, payload: string, right: string)
    requires "data:" <= line
    ensures Carries(line, left, payload, right)
  {
    var rest;
    left, rest := StripLeftParts(line[5..]);
    payload, right := StripRightParts(rest);
    if payload != "" {
      assert payload[0] == rest[0];
    }
    assert line == "data:" + line[5..] && line[5..] == left + payload + right;
  }

  /** A line without the prefix, a blank payload, a payload that is not JSON, or JSON that is not an
      object. */
  ghost predicate Noise<T>(dec: Decoder<T>, line: string) {
    || !("data:" <= line)
    || exists left, payload, right ::
         && Carries(line, left, payload, right)
         && (payload == ""
             || (payload != "[DONE]" && (dec(payload).None? || dec(payload).value.NotObject?)))
  }

  ghost predicate IsTerminator(line: string) {
    exists left, right :: Carries(line, left, "[DONE]", right)
  }

  ghost predicate IsChunk<T>(dec: Decoder<T>, line: string, c: T) {
    exists left, payload, right ::
      && Carries(line, left, payload, right)
      && payload != "" && payload != "[DONE]" && dec(payload) == Some(Object(c))
  }

  /** Every line is one of the three. */
  lemma {:induction false} EveryLine<T>(dec: Decoder<T>, line: string)
    ensures Noise(dec, line) || IsTerminator(line) || exists c :: IsChunk(dec, line, c)
  {
    if "data:" <= line {
      var left, payload, right := PayloadOf(line);
      if payload != "" && payload != "[DONE]" && dec(payload).Some? && dec(payload).value.Object? {
        assert IsChunk(dec, line, dec(payload).value.value);
      }
    }
  }

  lemma {:induction false} ParseNoise<T>(dec: Decoder<T>, line: string)
    requires Noise(dec, line)
    ensures var p := ParseLine(dec, line); p.Nothing? || (p.Value? && p.json.NotObject?)
  {
    if "data:" <= line {
      var left, payload, right :| Carries(line, left, payload, right) && (payload == ""
        || (payload != "[DONE]" && (dec(payload).None? || dec(payload).value.NotObject?)));
      ParseOf(dec, line, left, payload, right);
    }
  }

  lemma {:induction false} ReadFirst<T>(dec: Decoder<T>, line: string, lines: seq<string>)
    ensures Noise(dec, line) ==> Read(dec, [line] + lines) == Read(dec, lines)
    ensures IsTerminator(line) ==> Read(dec, [line] + lines) == []
    ensures forall c :: IsChunk(dec, line, c) ==> Read(dec, [line] + lines) == [c] + Read(dec, lines)
  {
    assert ([line] + lines)[1..] == lines;
    if Noise(dec, line) {
      ParseNoise(dec, line);
    }
    if IsTerminator(line) {
      var left, right :| Carries(line, left, "[DONE]", right);
      ParseOf(dec, line, left, "[DONE]", right);
    }
    forall c | IsChunk(dec, line, c)
      ensures Read(dec, [line] + lines) == [c] + Read(dec, lines)
    {
      var left, payload, right :| Carries(line, left, payload, right)
        && payload != "" && payload != "[DONE]" && dec(payload) == Some(Object(c));
      ParseOf(dec, line, left, payload, right);
    }
  }

  ghost predicate Terminated(lines: seq<string>) {
    exists i :: 0 <= i < |lines| && IsTerminator(lines[i])
  }

  lemma {:induction false} TerminatedFirst(line: string, rest: seq<string>)
    ensures Terminated([line] + rest) <==> IsTerminator(line) || Terminated(rest)
  {
    var all := [line] + rest;
    assert all[0] == line && forall i | 0 <= i < |rest| :: all[i + 1] == rest[i];
  }

  /** What a line that is no terminator yields, whatever follows it. */
  lemma {:induction false} LineYields<T>(dec: Decoder<T>, line: string, rest: seq<string>, rest': seq<string>)
    returns (head: seq<T>)
    requires !IsTerminator(line)
    ensures Read(dec, [line] + rest) == head + Read(dec, rest)
    ensures Read(dec, [line] + rest') == head + Read(dec, rest')
  {
    EveryLine(dec, line);
    ReadFirst(dec, line, rest);
    ReadFirst(dec, line, rest');
    if Noise(dec, line) {
      head := [];
    } else {
      var c :| IsChunk(dec, line, c);
      head := [c];
    }
  }

  /** Reading stops at a terminator, whatever follows; before one, nothing but noise is lost. */
  lemma {:induction false} ReadJoins<T>(dec: Decoder<T>, before: seq<string>, after: seq<string>)
    ensures Read(dec, before + after)
            == if Terminated(before) then Read(dec, before) else Read(dec, before) + Read(dec, after)
  {
    if before == [] {
      assert before + after == after;
    } else {
      var line, rest := before[0], before[1..];
      ReadJoins(dec, rest, after);
      assert before == [line] + rest && before + after == [line] + (rest + after);
      TerminatedFirst(line, rest);
      if IsTerminator(line) {
        ReadFirst(dec, line, rest);
        ReadFirst(dec, line, rest + after);
      } else {
        var head := LineYields(dec, line, rest, rest + after);
        assert head + Read(dec, rest) + Read(dec, after) == head + (Read(dec, rest) + Read(dec, after));
      }
    }
  }

  /** A line of noise can be taken out anywhere. */
  lemma {:induction false} NoiseIsSkipped<T>(dec: Decoder<T>, before: seq<string>, line: string, after: seq<string>)
    requires Noise(dec, line)
    ensures Read(dec, before + [line] + after) == Read(dec, before + after)
  {
    var rest := [line] + after;
    Regrouped(before, [line], after);
    ReadFirst(dec, line, after);
    ReadJoins(dec, before, rest);
    ReadJoins(dec, before, after);
  }

  /** A chunk line yields its chunk, in its place, unless a terminator precedes it. */
  lemma {:induction false} ChunkIsRead<T>(dec: Decoder<T>, before: seq<string>, line: string, after: seq<string>, c: T)
    requires IsChunk(dec, line, c) && forall i | 0 <= i < |before| :: !IsTerminator(before[i])
    ensures Read(dec, before + [line] + after) == Read(dec, before) + [c] + Read(dec, after)
  {
    var rest, xs, ys := [line] + after, Read(dec, before), Read(dec, after);
    Regrouped(before, [line], after);
    ReadFirst(dec, line, after);
    ReadJoins(dec, before, rest);
    assert !Terminated(before);
    Regrouped(xs, [c], ys);
  }

  /** Reading stops exactly at the first terminator. */
  lemma {:induction false} ReadingStops<T>(dec: Decoder<T>, before: seq<string>, line: string, after: seq<string>)
    requires IsTerminator(line)
    ensures Read(dec, before + [line] + after) == Read(dec, before)
  {
    ReadJoins(dec, before, [line] + after);
    ReadFirst(dec, line, after);
    assert before + [line] + after == before + ([line] + after);
  }

  // ---------------------------------------------------------------- a codec

  function Escape(s: string): string {
    if s == "" then ""
    else (if s[0] == '\n' then "\\n" else if s[0] == '\\' then "\\\\" else [s[0]]) + Escape(s[1..])
  }

  function Unescape(s: string): string {
    if s == "" then ""
    else if s[0] == '\\' && |s| > 1 then [if s[1] == 'n' then '\n' else s[1]] + Unescape(s[2..])
    else [s[0]] + Unescape(s[1..])
  }

  lemma {:induction false} UnescapeFirst(head: string, c: char, rest: string)
    requires if c == '\n' then head == "\\n" else if c == '\\' then head == "\\\\" else head == [c]
    ensures Unescape(head + rest) == [c] + Unescape(rest)
  {
    assert (head + rest)[|head|..] == rest;
  }

  lemma {:induction false} EscapeRoundTrip(s: string)
    ensures Unescape(Escape(s)) == s && '\n' !in Escape(s)
  {
    if s != "" {
      EscapeRoundTrip(s[1..]);
      var head := if s[0] == '\n' then "\\n" else if s[0] == '\\' then "\\\\" else [s[0]];
      UnescapeFirst(head, s[0], Escape(s[1..]));
      assert s == [s[0]] + s[1..];
    }
  }

  function Tally(n: nat): (s: string)
    ensures |s| == n && '\n' !in s
  {
    if n == 0 then "" else "1" + Tally(n - 1)
  }

  function Ones(s: string): (n: nat)
    ensures n <= |s|
  {
    if s != "" && s[0] == '1' then 1 + Ones(s[1..]) else 0
  }

  lemma {:induction false} OnesOfTally(n: nat, rest: string)
    requires rest != "" && rest[0] != '1'
    ensures Ones(Tally(n) + rest) == n
  {
    if n == 0 {
      assert Tally(0) + rest == rest;
    } else {
      OnesOfTally(n - 1, rest);
      assert (Tally(n) + rest)[1..] == Tally(n - 1) + rest;
    }
  }

  function Mark(u: Field): (char, nat) {
    match u
    case Missing => ('m', 0)
    case Falsy => ('f', 0)
    case Reported(Usage(None)) => ('n', 0)
    case Reported(Usage(Some(k))) => if k >= 0 then ('p', k) else ('q', -k)
  }

  function Marked(tag: char, n: int): Field {
    match tag
    case 'm' => Missing
    case 'f' => Falsy
    case 'n' => Reported(Usage(None))
    case 'p' => Reported(Usage(Some(n)))
    case _ => Reported(Usage(Some(-n)))
  }

  lemma {:induction false} MarkRoundTrip(u: Field)
    ensures Marked(Mark(u).0, Mark(u).1) == u && Mark(u).0 != '\n'
  {
  }

  function Bracket(tag: char, body: string): string {
    "{" + [tag] + body + "}"
  }

  function Encode(c: Chunk): string {
    Bracket(Mark(c.usage).0, Tally(Mark(c.usage).1) + (";" + Escape(c.content)))
  }

  function DecodeBody(tag: char, body: string): Option<Json<Chunk>> {
    var n := Ones(body);
    if n == |body| then None else Some(Object(Chunk(Unescape(body[n + 1..]), Marked(tag, n))))
  }

  function Decode(s: string): Option<Json<Chunk>> {
    if |s| < 3 then None else DecodeBody(s[1], s[2..|s| - 1])
  }

  lemma {:induction false} BracketRoundTrip(tag: char, body: string)
    requires tag != '\n' && '\n' !in body
    ensures Braced(Bracket(tag, body)) && Decode(Bracket(tag, body)) == DecodeBody(tag, body)
  {
    var s := Bracket(tag, body);
    assert s[2..|s| - 1] == body;
  }

  lemma {:induction false} BodyRoundTrip(tag: char, n: nat, text: string, body: string)
    requires body == Tally(n) + (";" + text)
    ensures DecodeBody(tag, body) == Some(Object(Chunk(Unescape(text), Marked(tag, n))))
  {
    OnesOfTally(n, ";" + text);
    assert body[n + 1..] == text;
  }

  /** What the framing relies on can be met for chunks. */
  lemma {:induction false} GoodCodecExists()
    ensures GoodCodec(Encode, Decode)
  {
    forall c: Chunk
      ensures Braced(Encode(c)) && Decode(Encode(c)) == Some(Object(c))
    {
      var (tag, n) := Mark(c.usage);
      var body := Tally(n) + (";" + Escape(c.content));
      EscapeRoundTrip(c.content);
      MarkRoundTrip(c.usage);
      BracketRoundTrip(tag, body);
      BodyRoundTrip(tag, n, Escape(c.content), body);
    }
  }
}
