/** Server-Sent Events framing for streamed answers: one message per
    event, the event sequence a content stream turns into, collecting a
    stream into one text, and the batching buffer. JSON serialisation is a
    parameter (`Dumps`); the content generator is a finite list of chunks,
    possibly followed by the exception it raised. */
module StreamingUtils {
  import opened Common

  /** `json.dumps` */
  type Dumps = Json -> string

  const EventPrefix: string := "event: "
  const DataPrefix: string := "data: "

  /** `format_sse_message(data, event)`: an "event:" line only when the
      event name is truthy, then the "data:" line, then a blank line. */
  function FormatSse(data: Json, event: Option<string>, dumps: Dumps): (m: string)
    ensures EndsWith(m, "\n\n")
    ensures StartsWith(m, EventPrefix) <==> event.Some? && event.value != []
    ensures event.Some? && event.value != [] ==> StartsWith(m, EventPrefix + event.value + "\n")
    ensures EndsWith(m, DataPrefix + dumps(data) + "\n\n")
  {
    var head := if event.Some? && event.value != [] then EventPrefix + event.value + "\n" else "";
    var m := head + DataPrefix + dumps(data) + "\n\n";
    assert m[|m| - |DataPrefix + dumps(data) + "\n\n"|..] == DataPrefix + dumps(data) + "\n\n";
    assert m[|m| - 2..] == "\n\n";
    assert head == "" ==> m[0] == 'd';
    assert head != "" ==> m[..|head|] == head;
    m
  }

  // ---------------------------------------------------------------------
  // Reading a message back, as an event-stream client does

  /** A message as a client sees it: the event type, if named, and the
      data. */
  datatype SseMessage = SseMessage(event: Option<string>, data: string)

  /** Index of the first line feed of s, or |s| when there is none. */
  function LineEnd(s: string): (n: nat)
    ensures n <= |s|
    ensures forall i :: 0 <= i < n ==> s[i] != '\n'
    ensures n < |s| ==> s[n] == '\n'
  {
    if s == [] || s[0] == '\n' then 0 else 1 + LineEnd(s[1..])
  }

  /** Reads one framed message: an optional "event:" line, one "data:"
      line, and the blank line that ends the message. */
  function ParseSse(m: string): Option<SseMessage> {
    var split :=
      if StartsWith(m, EventPrefix) then
        var body := m[|EventPrefix|..];
        var k := LineEnd(body);
        if k == |body| then None else Some((Some(body[..k]), body[k + 1..]))
      else Some((None, m));
    if split.None? then None
    else
      var rest := split.value.1;
      if |rest| >= |DataPrefix| + 2 && StartsWith(rest, DataPrefix) && EndsWith(rest, "\n\n") &&
         '\n' !in rest[|DataPrefix|..|rest| - 2]
      then Some(SseMessage(split.value.0, rest[|DataPrefix|..|rest| - 2]))
      else None
  }

  lemma LineEndAt(e: string, rest: string)
    requires '\n' !in e
    ensures LineEnd(e + "\n" + rest) == |e|
  {
    var s := e + "\n" + rest;
    assert s[|e|] == '\n';
    assert forall i :: 0 <= i < |e| ==> s[i] == e[i];
  }

  /** Framing then reading gives back the event name (a falsy one is not
      sent) and the serialised data, provided neither holds a line feed;
      `json.dumps` output never does, since it escapes them. */
  lemma FormatThenParse(data: Json, event: Option<string>, dumps: Dumps)
    requires '\n' !in dumps(data)
    requires event.Some? ==> '\n' !in event.value
    ensures ParseSse(FormatSse(data, event, dumps)) ==
      Some(SseMessage(if event.Some? && event.value != [] then event else None, dumps(data)))
  {
    var d := dumps(data);
    var tail := DataPrefix + d + "\n\n";
    DataLine(d);
    if event.Some? && event.value != [] {
      assert FormatSse(data, event, dumps) == EventPrefix + event.value + "\n" + tail;
      ParseNamed(event.value, tail);
    } else {
      assert FormatSse(data, event, dumps) == tail;
      assert !StartsWith(tail, EventPrefix) by {
        assert tail[0] == 'd';
      }
    }
  }

  /** The "data:" line of a message is read back as the data. */
  lemma DataLine(d: string)
    requires '\n' !in d
    ensures var rest := DataPrefix + d + "\n\n";
      |rest| >= |DataPrefix| + 2 && StartsWith(rest, DataPrefix) && EndsWith(rest, "\n\n") &&
      rest[|DataPrefix|..|rest| - 2] == d
  {
    var rest := DataPrefix + d + "\n\n";
    assert rest[..|DataPrefix|] == DataPrefix;
    assert rest[|rest| - 2..] == "\n\n";
    assert rest[|DataPrefix|..|rest| - 2] == d;
  }

  /** An "event:" line is split off at its line feed. */
  lemma ParseNamed(e: string, tail: string)
    requires '\n' !in e
    ensures var m := EventPrefix + e + "\n" + tail;
      StartsWith(m, EventPrefix) &&
      var body := m[|EventPrefix|..];
      LineEnd(body) == |e| < |body| && body[..|e|] == e && body[|e| + 1..] == tail
  {
    var m := EventPrefix + e + "\n" + tail;
    assert m[..|EventPrefix|] == EventPrefix;
    var body := m[|EventPrefix|..];
    assert body == e + "\n" + tail;
    LineEndAt(e, tail);
    assert body[..|e|] == e;
    assert body[|e| + 1..] == tail;
  }

  // ---------------------------------------------------------------------
  // `stream_response`

  /** What the content generator produces: its chunks, then either the end
      of the stream or the text of the exception it raised. */
  datatype ContentStream = ContentStream(chunks: seq<string>, failure: Option<string>)

  /** The messages of a streamed response, before framing. */
  datatype Event =
    | Start(timestamp: real)
    | Chunk(content: string, chunkId: int)
    | Done(totalChunks: int)
    | Error(error: string)

  /** The JSON payload each message carries. */
  function Payload(ev: Event): Json {
    match ev
    case Start(t) => JObj([("type", JStr("start")), ("timestamp", JFloat(t))])
    case Chunk(c, id) => JObj([("type", JStr("chunk")), ("content", JStr(c)), ("chunk_id", JInt(id)), ("done", JBool(false))])
    case Done(n) => JObj([("type", JStr("done")), ("content", JStr("")), ("total_chunks", JInt(n)), ("done", JBool(true))])
    case Error(e) => JObj([("type", JStr("error")), ("error", JStr(e)), ("done", JBool(true))])
  }

  /** One chunk message per chunk, numbered from 1. */
  function ChunkEvents(chunks: seq<string>): (evs: seq<Event>)
    ensures |evs| == |chunks|
    ensures forall i :: 0 <= i < |chunks| ==> evs[i] == Chunk(chunks[i], i + 1)
  {
    seq(|chunks|, i requires 0 <= i < |chunks| => Chunk(chunks[i], i + 1))
  }

  /** The events of a streamed response: a start message when metadata is
      wanted, the chunks, then "done" on a clean end or "error" when the
      generator raised. `now` stands for the event loop's clock. */
  function Events(src: ContentStream, includeMetadata: bool, now: real): seq<Event> {
    (if includeMetadata then [Start(now)] else []) +
    ChunkEvents(src.chunks) +
    [if src.failure.None? then Done(|src.chunks|) else Error(src.failure.value)]
  }

  /** The message at each position of a streamed response. */
  lemma EventAt(src: ContentStream, includeMetadata: bool, now: real, i: nat)
    requires i < |Events(src, includeMetadata, now)|
    ensures var evs := Events(src, includeMetadata, now);
      var off := if includeMetadata then 1 else 0;
      |evs| == off + |src.chunks| + 1 &&
      (i < off ==> evs[i] == Start(now)) &&
      (off <= i < off + |src.chunks| ==> evs[i] == Chunk(src.chunks[i - off], i - off + 1)) &&
      (i == off + |src.chunks| ==> evs[i] == if src.failure.None? then Done(|src.chunks|) else Error(src.failure.value))
  {
    var pre: seq<Event> := if includeMetadata then [Start(now)] else [];
    var cs := ChunkEvents(src.chunks);
    var last := if src.failure.None? then Done(|src.chunks|) else Error(src.failure.value);
    var evs := Events(src, includeMetadata, now);
    assert evs == pre + cs + [last];
    if i < |pre| {
      assert evs[i] == pre[i];
    } else if i < |pre| + |cs| {
      assert evs[i] == cs[i - |pre|];
    } else {
      assert evs[i] == last;
    }
  }

  /** A start message comes first exactly when metadata is wanted, and
      nowhere else. */
  lemma StartOnlyFirst(src: ContentStream, includeMetadata: bool, now: real)
    ensures var evs := Events(src, includeMetadata, now);
      (evs[0].Start? <==> includeMetadata) &&
      forall i :: 1 <= i < |evs| ==> !evs[i].Start?
  {
    var evs := Events(src, includeMetadata, now);
    EventAt(src, includeMetadata, now, 0);
    forall i | 1 <= i < |evs|
      ensures !evs[i].Start?
    {
      EventAt(src, includeMetadata, now, i);
    }
  }

  /** After the optional start message come the chunks, one message each,
      in order and numbered 1..n, and then one more message. */
  lemma ChunksInOrder(src: ContentStream, includeMetadata: bool, now: real)
    ensures var evs := Events(src, includeMetadata, now);
      var off := if includeMetadata then 1 else 0;
      |evs| == off + |src.chunks| + 1 &&
      forall i :: 0 <= i < |src.chunks| ==> evs[off + i] == Chunk(src.chunks[i], i + 1)
  {
    var evs := Events(src, includeMetadata, now);
    var off := if includeMetadata then 1 else 0;
    EventAt(src, includeMetadata, now, 0);
    forall i | 0 <= i < |src.chunks|
      ensures evs[off + i] == Chunk(src.chunks[i], i + 1)
    {
      EventAt(src, includeMetadata, now, off + i);
    }
  }

  /** Exactly one terminal message, the last: "done" with the chunk count
      on a clean end, "error" with the exception text when the generator
      raised (and then no "done" at all). */
  lemma TerminalLast(src: ContentStream, includeMetadata: bool, now: real)
    ensures var evs := Events(src, includeMetadata, now);
      (forall i :: 0 <= i < |evs| - 1 ==> !evs[i].Done? && !evs[i].Error?) &&
      (evs[|evs| - 1].Done? <==> src.failure.None?) &&
      (src.failure.None? ==> evs[|evs| - 1] == Done(|src.chunks|)) &&
      (src.failure.Some? ==> evs[|evs| - 1] == Error(src.failure.value))
  {
    var evs := Events(src, includeMetadata, now);
    EventAt(src, includeMetadata, now, |evs| - 1);
    forall i | 0 <= i < |evs| - 1
      ensures !evs[i].Done? && !evs[i].Error?
    {
      EventAt(src, includeMetadata, now, i);
    }
  }

  /** The chunk contents a streamed response carries, in order. */
  function ChunkContents(evs: seq<Event>): seq<string> {
    if evs == [] then []
    else (if evs[0].Chunk? then [evs[0].content] else []) + ChunkContents(evs[1..])
  }

  lemma {:induction false} ChunkContentsAppend(a: seq<Event>, b: seq<Event>)
    ensures ChunkContents(a + b) == ChunkContents(a) + ChunkContents(b)
  {
    if a == [] {
      assert a + b == b;
    } else {
      assert (a + b)[1..] == a[1..] + b;
      ChunkContentsAppend(a[1..], b);
    }
  }

  /** Over chunk messages only, the contents are read off one by one. */
  lemma {:induction false} ChunkContentsOfChunks(evs: seq<Event>)
    requires forall i :: 0 <= i < |evs| ==> evs[i].Chunk?
    ensures ChunkContents(evs) == seq(|evs|, i requires 0 <= i < |evs| => evs[i].content)
  {
    if evs != [] {
      ChunkContentsOfChunks(evs[1..]);
    }
  }

  lemma ContentsOfChunkEvents(chunks: seq<string>)
    ensures ChunkContents(ChunkEvents(chunks)) == chunks
  {
    var cs := ChunkEvents(chunks);
    ChunkContentsOfChunks(cs);
    assert seq(|cs|, i requires 0 <= i < |cs| => cs[i].content) == chunks;
  }

  /** A streamed response carries every chunk of the content, in order and
      nothing else, with or without metadata and whether or not the
      generator failed. */
  lemma StreamCarriesContent(src: ContentStream, includeMetadata: bool, now: real)
    ensures ChunkContents(Events(src, includeMetadata, now)) == src.chunks
  {
    var head: seq<Event> := if includeMetadata then [Start(now)] else [];
    var cs := ChunkEvents(src.chunks);
    var last := [if src.failure.None? then Done(|src.chunks|) else Error(src.failure.value)];
    assert Events(src, includeMetadata, now) == head + cs + last;
    ChunkContentsAppend(head + cs, last);
    ChunkContentsAppend(head, cs);
    ContentsOfChunkEvents(src.chunks);
    assert ChunkContents(last) == [] by {
      assert last[1..] == [];
    }
    if includeMetadata {
      assert ChunkContents(head) == [] by {
        assert head[1..] == [];
      }
    }
  }

  /** `stream_response(content_generator, include_metadata)`: the SSE
      messages in the order they are yielded. */
  method StreamResponse(src: ContentStream, includeMetadata: bool, now: real, dumps: Dumps)
    returns (messages: seq<string>)
    ensures var evs := Events(src, includeMetadata, now);
      |messages| == |evs| &&
      forall i :: 0 <= i < |evs| ==> messages[i] == FormatSse(Payload(evs[i]), None, dumps)
  {
    ghost var evs := Events(src, includeMetadata, now);
    ghost var cs := ChunkEvents(src.chunks);
    ghost var off := if includeMetadata then 1 else 0;
    messages := [];
    if includeMetadata {
      messages := messages + [FormatSse(Payload(Start(now)), None, dumps)];
    }
    var chunkCount := 0;
    while chunkCount < |src.chunks|
      invariant 0 <= chunkCount <= |src.chunks|
      invariant |messages| == off + chunkCount
      invariant forall i :: 0 <= i < |messages| ==> messages[i] == FormatSse(Payload(evs[i]), None, dumps)
    {
      var chunk := src.chunks[chunkCount];
      chunkCount := chunkCount + 1;
      assert evs[off + chunkCount - 1] == cs[chunkCount - 1] == Chunk(chunk, chunkCount);
      messages := messages + [FormatSse(Payload(Chunk(chunk, chunkCount)), None, dumps)];
    }
    if src.failure.None? {
      messages := messages + [FormatSse(Payload(Done(chunkCount)), None, dumps)];
    } else {
      messages := messages + [FormatSse(Payload(Error(src.failure.value)), None, dumps)];
    }
  }

  // ---------------------------------------------------------------------
  // `collect_stream`

  /** `collect_stream(stream)`: all chunks joined in order; an exception
      from the stream propagates. */
  method CollectStream(src: ContentStream) returns (r: Result<string>)
    ensures src.failure.Some? ==> r == Err(src.failure.value)
    ensures src.failure.None? ==> r == Ok(Concat(src.chunks))
  {
    var chunks: seq<string> := [];
    var i := 0;
    while i < |src.chunks|
      invariant 0 <= i <= |src.chunks|
      invariant chunks == src.chunks[..i]
    {
      chunks := chunks + [src.chunks[i]];
      i := i + 1;
    }
    assert chunks == src.chunks;
    if src.failure.Some? {
      return Err(src.failure.value);
    }
    return Ok(Concat(chunks));
  }

  // ---------------------------------------------------------------------
  // `StreamBuffer`

  /** A batching buffer: chunks accumulate until there are max_buffer_size
      of them, and are then handed out joined. The ghost fields record
      every chunk added and the chunks already handed out, for the
      no-loss invariant. */
  class StreamBuffer {
    var buffer: seq<string>
    const maxBufferSize: int
    ghost var added: seq<string>
    ghost var delivered: seq<string>

    /** Nothing is lost or reordered: what has been handed out followed by
        what is buffered is exactly what was added; and the buffer stays
        below its threshold (it is empty when the threshold is not
        positive). */
    ghost predicate Valid()
      reads this
    {
      delivered + buffer == added &&
      |buffer| < Max(maxBufferSize, 1)
    }

    constructor (maxBufferSize: int)
      ensures Valid()
      ensures this.maxBufferSize == maxBufferSize
      ensures buffer == [] && added == [] && delivered == []
    {
      this.maxBufferSize := maxBufferSize;
      buffer := [];
      added := [];
      delivered := [];
    }

    /** `add(chunk)`: appends; once the buffer holds max_buffer_size
        chunks, flushes and returns their concatenation. */
    method Add(chunk: string) returns (r: Option<string>)
      requires Valid()
      modifies this
      ensures Valid()
      ensures added == old(added) + [chunk]
      ensures |old(buffer)| + 1 >= maxBufferSize ==>
        r == Some(Concat(old(buffer) + [chunk])) && buffer == [] &&
        delivered == old(delivered) + old(buffer) + [chunk]
      ensures |old(buffer)| + 1 < maxBufferSize ==>
        r == None && buffer == old(buffer) + [chunk] && delivered == old(delivered)
    {
      buffer := buffer + [chunk];
      added := added + [chunk];
      if |buffer| >= maxBufferSize {
        var content := Flush();
        return Some(content);
      }
      return None;
    }

    /** `flush()`: the buffered chunks joined, leaving the buffer empty. */
    method Flush() returns (content: string)
      requires delivered + buffer == added
      modifies this
      ensures Valid()
      ensures content == Concat(old(buffer))
      ensures buffer == [] && added == old(added)
      ensures delivered == old(delivered) + old(buffer)
    {
      content := Concat(buffer);
      delivered := delivered + buffer;
      buffer := [];
    }
  }
}
