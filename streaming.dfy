/** `src/streaming.rs`: the stream handler that accumulates a chunk stream and
    forwards each chunk to its channel, the bounded eviction buffer, and the
    per-chunk text extraction of an event stream. */
module Streaming {
  import opened Common
  import opened Text

  /** The chunks a stream yields before its first error, in order. */
  function OkPrefix(stream: seq<Result<string>>): (p: seq<string>)
    ensures |p| <= |stream|
    ensures forall j :: 0 <= j < |p| ==> stream[j] == Ok(p[j])
    ensures |p| < |stream| ==> stream[|p|].Err?
  {
    if stream == [] || stream[0].Err? then []
    else [stream[0].value] + OkPrefix(stream[1..])
  }

  /** The handler: its unbounded channel, with the sender and the receiver sharing
      one queue of unreceived chunks. */
  class StreamHandler {
    var queue: seq<string>

    constructor ()
      ensures queue == []
    {
      queue := [];
    }

    /** `handle_stream`: appends and forwards every chunk until the stream ends
        or yields an error; the error only stops the loop, the call succeeds. */
    method HandleStream(stream: seq<Result<string>>) returns (r: Result<string>)
      modifies this
      ensures r == Ok(Concat(OkPrefix(stream)))
      ensures queue == old(queue) + OkPrefix(stream)
    {
      ghost var p := OkPrefix(stream);
      var fullResponse := "";
      var i := 0;
      while i < |stream|
        invariant i <= |p|
        invariant fullResponse == Concat(p[..i])
        invariant queue == old(queue) + p[..i]
      {
        match stream[i] {
          case Ok(text) =>
            assert p[..i + 1] == p[..i] + [text];
            ConcatAppend(p[..i], text);
            fullResponse := fullResponse + text;
            queue := queue + [text];
          case Err(_) =>
            break;
        }
        i := i + 1;
      }
      assert p[..|p|] == p;
      r := Ok(fullResponse);
    }

    /** `next_chunk`: the oldest unreceived chunk. The handler owns its sender, so
        the channel never closes and an empty queue would wait forever. */
    method NextChunk() returns (chunk: Option<string>)
      requires queue != []
      modifies this
      ensures chunk == Some(old(queue)[0])
      ensures queue == old(queue)[1..]
    {
      chunk := Some(queue[0]);
      queue := queue[1..];
    }
  }

  /** The buffer after pushing one chunk: the oldest chunk is evicted when the
      buffer is full. */
  function PushValue(buffer: seq<string>, capacity: nat, chunk: string): (r: seq<string>)
    requires capacity > 0
    ensures |buffer| <= capacity ==> |r| == if |buffer| < capacity then |buffer| + 1 else capacity
    ensures |r| > 0 && r[|r| - 1] == chunk
  {
    if |buffer| >= capacity then buffer[1..] + [chunk] else buffer + [chunk]
  }

  /** The buffer after pushing several chunks in order. */
  function PushAll(buffer: seq<string>, capacity: nat, chunks: seq<string>): seq<string>
    requires capacity > 0
    decreases |chunks|
  {
    if chunks == [] then buffer else PushAll(PushValue(buffer, capacity, chunks[0]), capacity, chunks[1..])
  }

  function Min(a: nat, b: nat): nat {
    if a <= b then a else b
  }

  /** The last `n` elements of `s`. */
  function Last(s: seq<string>, n: nat): seq<string>
    requires n <= |s|
  {
    s[|s| - n..]
  }

  lemma LastOfSuffix(s: seq<string>, t: seq<string>, k: nat, n: nat)
    requires k <= |s| && n <= |s| - k
    ensures Last(s[k..] + t, n + |t|) == Last(s + t, n + |t|)
  {
    assert (s + t)[|s| - n..] == s[|s| - n..] + t;
    assert (s[k..] + t)[|s| - k - n..] == s[k..][|s| - k - n..] + t;
  }

  /** One push keeps the newest chunks. */
  lemma PushValueKeepsNewest(buffer: seq<string>, capacity: nat, chunk: string)
    requires capacity > 0 && |buffer| <= capacity
    ensures PushValue(buffer, capacity, chunk) == Last(buffer + [chunk], Min(|buffer| + 1, capacity))
  {
  }

  lemma LastOfLast(s: seq<string>, t: seq<string>, m: nat, n: nat)
    requires m <= |s| && n <= m + |t|
    ensures Last(Last(s, m) + t, n) == Last(s + t, n)
  {
    var u := Last(s, m) + t;
    forall i | 0 <= i < n
      ensures Last(u, n)[i] == Last(s + t, n)[i]
    {
      var j := |u| - n + i;
      if j < m {
        assert u[j] == s[|s| - m + j];
      } else {
        assert u[j] == t[j - m];
      }
    }
  }

  /** After pushing `chunks` onto a buffer that is within its capacity, the buffer
      holds the newest `capacity` of the old contents and the chunks, in push
      order. */
  lemma {:induction false} PushAllKeepsNewest(buffer: seq<string>, capacity: nat, chunks: seq<string>)
    requires capacity > 0 && |buffer| <= capacity
    ensures PushAll(buffer, capacity, chunks)
            == Last(buffer + chunks, Min(|buffer| + |chunks|, capacity))
    decreases |chunks|
  {
    if chunks == [] {
      assert buffer + chunks == buffer;
    } else {
      var next := PushValue(buffer, capacity, chunks[0]);
      var rest := chunks[1..];
      PushAllKeepsNewest(next, capacity, rest);
      PushValueKeepsNewest(buffer, capacity, chunks[0]);
      LastOfLast(buffer + [chunks[0]], rest, Min(|buffer| + 1, capacity), Min(|next| + |rest|, capacity));
      assert (buffer + [chunks[0]]) + rest == buffer + chunks;
    }
  }

  /** From an empty buffer: the last min(n, capacity) chunks. */
  lemma PushAllFromEmpty(capacity: nat, chunks: seq<string>)
    requires capacity > 0
    ensures PushAll([], capacity, chunks) == Last(chunks, Min(|chunks|, capacity))
  {
    PushAllKeepsNewest([], capacity, chunks);
    assert [] + chunks == chunks;
  }

  /** The get_content of a buffer after a push: the chunk is appended, and a full
      buffer first loses the text of its oldest chunk. */
  lemma PushContent(buffer: seq<string>, capacity: nat, chunk: string)
    requires capacity > 0
    ensures Concat(PushValue(buffer, capacity, chunk))
            == (if |buffer| >= capacity then Concat(buffer)[|buffer[0]|..] else Concat(buffer)) + chunk
  {
    var kept := if |buffer| >= capacity then buffer[1..] else buffer;
    ConcatAppend(kept, chunk);
  }

  class StreamBuffer {
    var buffer: seq<string>
    const capacity: nat

    predicate Valid()
      reads this
    {
      |buffer| <= capacity
    }

    /** `new(capacity)` */
    constructor (capacity: nat)
      ensures Valid() && buffer == [] && this.capacity == capacity
    {
      buffer := [];
      this.capacity := capacity;
    }

    /** `push`: with capacity 0 the Rust code removes from an empty vector and
        panics, so a positive capacity is required. */
    method Push(chunk: string)
      requires Valid() && capacity > 0
      modifies this
      ensures Valid()
      ensures buffer == PushValue(old(buffer), capacity, chunk)
    {
      if |buffer| >= capacity {
        buffer := buffer[1..];
      }
      buffer := buffer + [chunk];
    }

    /** `get_content`: the chunks joined with the empty separator. */
    function GetContent(): (c: string)
      reads this
      ensures buffer == [] ==> c == ""
      ensures buffer != [] ==> StartsWith(c, buffer[0]) && EndsWith(c, buffer[|buffer| - 1])
    {
      if buffer == [] then Concat(buffer)
      else
        var n := |buffer| - 1;
        assert buffer == buffer[..n] + [buffer[n]];
        ConcatAppend(buffer[..n], buffer[n]);
        Concat(buffer)
    }

    /** `clear`: empties the buffer; the capacity is a constant. */
    method Clear()
      requires Valid()
      modifies this
      ensures Valid() && buffer == [] && GetContent() == ""
    {
      buffer := [];
    }
  }

  const DataPrefix: string := "data: "
  const DoneMarker: string := "[DONE]"

  /** What one line contributes: the text after `data: `, unless it is `[DONE]`. */
  function LinePayload(line: string): seq<string> {
    if StartsWith(line, DataPrefix) && line[|DataPrefix|..] != DoneMarker then [line[|DataPrefix|..]] else []
  }

  function Payloads(lines: seq<string>): seq<string> {
    if lines == [] then [] else LinePayload(lines[0]) + Payloads(lines[1..])
  }

  lemma {:induction false} PayloadsAppend(lines: seq<string>, line: string)
    ensures Payloads(lines + [line]) == Payloads(lines) + LinePayload(line)
  {
    if lines == [] {
      assert lines + [line] == [line];
    } else {
      assert (lines + [line])[1..] == lines[1..] + [line];
      PayloadsAppend(lines[1..], line);
    }
  }

  /** The text extracted from one decoded chunk of an event stream. */
  function SseText(text: string): string {
    Concat(Payloads(Lines(text)))
  }

  /** The per-chunk body of `process_sse_stream`: a transport error becomes a
      "Stream error" message, otherwise the `data: ` payloads of the chunk's lines
      are concatenated. */
  method ProcessSseChunk(chunk: Result<string>) returns (r: Result<string>)
    ensures chunk.Err? ==> r == Err("Stream error: " + chunk.error)
    ensures chunk.Ok? ==> r == Ok(SseText(chunk.value))
  {
    if chunk.Err? {
      return Err("Stream error: " + chunk.error);
    }
    var lines := Lines(chunk.value);
    var result := "";
    for i := 0 to |lines|
      invariant result == Concat(Payloads(lines[..i]))
    {
      var line := lines[i];
      assert lines[..i + 1] == lines[..i] + [line];
      PayloadsAppend(lines[..i], line);
      if StartsWith(line, DataPrefix) {
        var data := line[|DataPrefix|..];
        if data != DoneMarker {
          ConcatAppend(Payloads(lines[..i]), data);
          result := result + data;
        }
      }
      assert LinePayload(line) == [] ==> Payloads(lines[..i + 1]) == Payloads(lines[..i]);
    }
    assert lines[..|lines|] == lines;
    r := Ok(result);
  }

  /** An event-stream text, one `data: ` line per payload. */
  function Frames(payloads: seq<string>): string {
    if payloads == [] then "" else DataPrefix + payloads[0] + "\n" + Frames(payloads[1..])
  }

  predicate PlainPayload(p: string) {
    NoChar(p, '\n') && NoChar(p, '\r') && p != DoneMarker
  }

  /** Extracting from framed payloads gives back their concatenation. */
  lemma {:induction false} SseTextOfFrames(payloads: seq<string>)
    requires forall p :: p in payloads ==> PlainPayload(p)
    ensures SseText(Frames(payloads)) == Concat(payloads)
  {
    if payloads != [] {
      var p := payloads[0];
      assert p in payloads;
      var line := DataPrefix + p;
      assert DataPrefix + p + "\n" + Frames(payloads[1..]) == line + "\n" + Frames(payloads[1..]);
      assert NoChar(line, '\n') by {
        forall i | 0 <= i < |line| ensures line[i] != '\n' {
          if i >= |DataPrefix| { assert line[i] == p[i - |DataPrefix|]; } else { assert line[i] == DataPrefix[i] && '\n' !in DataPrefix; }
        }
      }
      LinesOfFirstLine(line, Frames(payloads[1..]));
      assert line[|line| - 1] != '\r' by {
        if p != "" { assert line[|line| - 1] == p[|p| - 1]; } else { assert line == DataPrefix; }
      }
      assert StripCR(line) == line;
      assert line[..|DataPrefix|] == DataPrefix && line[|DataPrefix|..] == p;
      SseTextOfFrames(payloads[1..]);
    }
  }

  /** A `[DONE]` line contributes nothing. */
  lemma SseTextSkipsDone(rest: string)
    ensures SseText(DataPrefix + DoneMarker + "\n" + rest) == SseText(rest)
  {
    var line := DataPrefix + DoneMarker;
    assert line == "data: [DONE]" && '\n' !in line;
    LinesOfFirstLine(line, rest);
    assert StripCR(line) == line;
    assert line[..|DataPrefix|] == DataPrefix && line[|DataPrefix|..] == DoneMarker;
    assert LinePayload(line) == [];
    var tail := Lines(rest);
    assert ([line] + tail)[1..] == tail;
    assert Payloads([line] + tail) == LinePayload(line) + Payloads(tail);
    assert [] + Payloads(tail) == Payloads(tail);
  }
}
