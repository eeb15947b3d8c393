/** Turning the upstream event stream into OpenAI responses
    (api/main.go:674-790). The response body is the sequence of lines a
    `bufio.Scanner` yields. A line starting with "event: youChatToken" is a
    token event; the scanner is then advanced once more and the line it
    reads (or "" when the body has ended) is the event's data line, which is
    therefore never examined as an event itself. Extracting `youChatToken`
    from a JSON payload is an abstract partial function. */
module Translate {
  import opened Outcomes
  import opened Text
  import opened Messages
  import opened ModelNames

  const TokenEvent: string := "event: youChatToken"
  const DataPrefix: string := "data: "

  /** `json.Unmarshal` of a payload into `YouChatResponse`: the token, or
      nothing when the payload does not parse. */
  type TokenParser = string -> Option<string>

  /** The data line of every token event, in order. */
  function EventData(lines: seq<string>): (r: seq<string>)
    ensures |r| <= |lines|
    decreases |lines|
  {
    if lines == [] then []
    else if HasPrefix(lines[0], TokenEvent) then
      if |lines| == 1 then [""] else [lines[1]] + EventData(lines[2..])
    else EventData(lines[1..])
  }

  /** What the non-streaming handler appends for a data line: the token when
      the line has the "data: " prefix and the rest parses, else nothing. */
  function AggregateToken(data: string, parse: TokenParser): string {
    if HasPrefix(data, DataPrefix) then parse(TrimPrefix(data, DataPrefix)).GetOr("") else ""
  }

  /** The delta the streaming handler emits for a data line: the prefix is
      removed if present, and a payload that does not parse gives "". */
  function StreamDelta(data: string, parse: TokenParser): string {
    parse(TrimPrefix(data, DataPrefix)).GetOr("")
  }

  /** The concatenated non-streaming content of some data lines. */
  function Aggregate(datas: seq<string>, parse: TokenParser): string
    decreases |datas|
  {
    if datas == [] then "" else AggregateToken(datas[0], parse) + Aggregate(datas[1..], parse)
  }

  /** The streaming deltas of some data lines. */
  function Deltas(datas: seq<string>, parse: TokenParser): (r: seq<string>)
    ensures |r| == |datas|
    ensures forall k :: 0 <= k < |datas| ==> r[k] == StreamDelta(datas[k], parse)
    decreases |datas|
  {
    if datas == [] then [] else [StreamDelta(datas[0], parse)] + Deltas(datas[1..], parse)
  }

  function Concat(parts: seq<string>): string
    decreases |parts|
  {
    if parts == [] then "" else parts[0] + Concat(parts[1..])
  }

  /** The lines the scanner has not read yet when `i` lines are consumed
      (`i` may pass the end by one after an event on the last line). */
  function Unread(lines: seq<string>, i: nat): seq<string> {
    if i <= |lines| then lines[i..] else []
  }

  /** The scan over the body of the non-streaming handler: the content is the
      in-order concatenation of the tokens of the data lines that carry the
      "data: " prefix and parse. */
  method CollectContent(lines: seq<string>, parse: TokenParser) returns (content: string)
    ensures content == Aggregate(EventData(lines), parse)
  {
    content := "";
    var i := 0;
    assert ContentSoFar(lines, i, parse, content) by {
      assert Unread(lines, 0) == lines;
    }
    while i < |lines|
      invariant 0 <= i <= |lines| + 1
      invariant ContentSoFar(lines, i, parse, content)
      decreases |lines| + 1 - i
    {
      var line := lines[i];
      if HasPrefix(line, TokenEvent) {
        var data := if i + 1 < |lines| then lines[i + 1] else "";
        CollectStep(lines, i, parse, content);
        if HasPrefix(data, DataPrefix) {
          var token := parse(TrimPrefix(data, DataPrefix));
          if token.Some? {
            content := content + token.value;
          }
        }
        i := i + 2;
      } else {
        CollectSkip(lines, i, parse, content);
        i := i + 1;
      }
    }
    CollectDone(lines, i, parse, content);
  }

  /** The invariant of the non-streaming scan: the content so far followed by
      the tokens of the unread lines is the content of the whole body. */
  predicate ContentSoFar(lines: seq<string>, i: nat, parse: TokenParser, content: string) {
    content + Aggregate(EventData(Unread(lines, i)), parse) == Aggregate(EventData(lines), parse)
  }

  /** A token event appends the token of its data line, or nothing when that
      line yields none. */
  lemma CollectStep(lines: seq<string>, i: nat, parse: TokenParser, content: string)
    requires i < |lines| && HasPrefix(lines[i], TokenEvent)
    requires ContentSoFar(lines, i, parse, content)
    ensures var token := AggregateToken(if i + 1 < |lines| then lines[i + 1] else "", parse);
      && ContentSoFar(lines, i + 2, parse, content + token)
      && (token == "" ==> ContentSoFar(lines, i + 2, parse, content))
  {
    EventStep(lines, i);
    var data := if i + 1 < |lines| then lines[i + 1] else "";
    var later := EventData(Unread(lines, i + 2));
    AggregateCons(data, later, parse);
    Associative(content, AggregateToken(data, parse), Aggregate(later, parse));
  }

  /** Regrouping the content around the token just appended. */
  lemma Associative(a: string, b: string, c: string)
    ensures a + (b + c) == (a + b) + c
    ensures b == "" ==> a + (b + c) == a + c
  {
  }

  /** Any other line leaves the content as it is. */
  lemma CollectSkip(lines: seq<string>, i: nat, parse: TokenParser, content: string)
    requires i < |lines| && !HasPrefix(lines[i], TokenEvent)
    requires ContentSoFar(lines, i, parse, content)
    ensures ContentSoFar(lines, i + 1, parse, content)
  {
    EventStep(lines, i);
  }

  /** With every line read, the content is that of the whole body. */
  lemma CollectDone(lines: seq<string>, i: nat, parse: TokenParser, content: string)
    requires i >= |lines|
    requires ContentSoFar(lines, i, parse, content)
    ensures content == Aggregate(EventData(lines), parse)
  {
    assert Unread(lines, i) == [];
    assert content + "" == content;
  }

  lemma AggregateCons(data: string, later: seq<string>, parse: TokenParser)
    ensures Aggregate([data] + later, parse) == AggregateToken(data, parse) + Aggregate(later, parse)
  {
    assert ([data] + later)[1..] == later;
  }

  /** The time the handler reads for an envelope: the seconds in its id and
      its `created` field (two separate clock readings). */
  datatype Stamp = Stamp(idSeconds: nat, created: int)

  function CompletionId(seconds: nat): string {
    "chatcmpl-" + Decimal(seconds)
  }

  /** `OpenAIChoice` and `OpenAIResponse`. */
  datatype CompletionChoice = CompletionChoice(message: Message, index: int, finishReason: string)
  datatype Completion = Completion(id: string, objectType: string, created: int, model: string,
                                   choices: seq<CompletionChoice>)

  /** `Choice` (its `Delta` is the content alone) and `OpenAIStreamResponse`. */
  datatype ChunkChoice = ChunkChoice(delta: string, index: int, finishReason: string)
  datatype Chunk = Chunk(id: string, objectType: string, created: int, model: string,
                         choices: seq<ChunkChoice>)

  /** The `model` of every envelope: the requested model mapped upstream and
      back. */
  function EnvelopeModel(requested: string): (r: string)
    ensures r in ModelMap()
    ensures r == (if requested in ModelMap() then requested else DefaultUpstreamModel)
  {
    EnvelopeModelInTable(requested);
    ReverseMapModelName(MapModelName(requested))
  }

  function CompletionOf(content: string, model: string, stamp: Stamp): Completion {
    Completion(CompletionId(stamp.idSeconds), "chat.completion", stamp.created, model,
               [CompletionChoice(Message(Assistant, content), 0, "stop")])
  }

  function ChunkOf(delta: string, model: string, stamp: Stamp): Chunk {
    Chunk(CompletionId(stamp.idSeconds), "chat.completion.chunk", stamp.created, model,
          [ChunkChoice(delta, 0, "")])
  }

  /** The clock readings of the streaming handler, one per chunk. */
  type Clock = nat -> Stamp

  /** The scan over the body of the streaming handler: one chunk per token
      event, carrying that event's delta; nothing else is written (in
      particular no closing "[DONE]" chunk). */
  method StreamChunks(lines: seq<string>, parse: TokenParser, model: string, clock: Clock)
    returns (chunks: seq<Chunk>)
    ensures |chunks| == |EventData(lines)|
    ensures forall k :: 0 <= k < |chunks| ==>
              chunks[k] == ChunkOf(StreamDelta(EventData(lines)[k], parse), model, clock(k))
  {
    chunks := [];
    var i := 0;
    assert ChunksSoFar(lines, i, parse, model, clock, chunks) by {
      assert Unread(lines, 0) == lines;
    }
    while i < |lines|
      invariant 0 <= i <= |lines| + 1
      invariant ChunksSoFar(lines, i, parse, model, clock, chunks)
      decreases |lines| + 1 - i
    {
      var line := lines[i];
      if HasPrefix(line, TokenEvent) {
        var data := if i + 1 < |lines| then lines[i + 1] else "";
        ChunkStep(lines, i, parse, model, clock, chunks);
        var token := parse(TrimPrefix(data, DataPrefix));
        chunks := chunks + [ChunkOf(token.GetOr(""), model, clock(|chunks|))];
        i := i + 2;
      } else {
        SkipStep(lines, i, parse, model, clock, chunks);
        i := i + 1;
      }
    }
    ChunksDone(lines, i, parse, model, clock, chunks);
    ChunksFromStart(EventData(lines), parse, model, clock);
  }

  /** The invariant of the streaming scan: the chunks written so far followed
      by those of the unread lines are the chunks of the whole body. */
  predicate ChunksSoFar(lines: seq<string>, i: nat, parse: TokenParser, model: string, clock: Clock, chunks: seq<Chunk>) {
    chunks + ChunksFrom(EventData(Unread(lines, i)), parse, model, clock, |chunks|)
    == ChunksFrom(EventData(lines), parse, model, clock, 0)
  }

  /** A token event writes one chunk, for its data line (or ""). */
  lemma ChunkStep(lines: seq<string>, i: nat, parse: TokenParser, model: string, clock: Clock, chunks: seq<Chunk>)
    requires i < |lines| && HasPrefix(lines[i], TokenEvent)
    requires ChunksSoFar(lines, i, parse, model, clock, chunks)
    ensures var data := if i + 1 < |lines| then lines[i + 1] else "";
      ChunksSoFar(lines, i + 2, parse, model, clock, chunks + [ChunkOf(StreamDelta(data, parse), model, clock(|chunks|))])
  {
    EventStep(lines, i);
    var data := if i + 1 < |lines| then lines[i + 1] else "";
    var later := EventData(Unread(lines, i + 2));
    var chunk := ChunkOf(StreamDelta(data, parse), model, clock(|chunks|));
    assert ([data] + later)[1..] == later;
    var rest := ChunksFrom(later, parse, model, clock, |chunks| + 1);
    assert ChunksFrom([data] + later, parse, model, clock, |chunks|) == [chunk] + rest;
    ChunksAssociative(chunks, [chunk], rest);
    assert |chunks + [chunk]| == |chunks| + 1;
  }

  /** Regrouping the chunks around the one just written. */
  lemma ChunksAssociative(a: seq<Chunk>, b: seq<Chunk>, c: seq<Chunk>)
    ensures a + (b + c) == (a + b) + c
  {
  }

  /** Any other line writes nothing. */
  lemma SkipStep(lines: seq<string>, i: nat, parse: TokenParser, model: string, clock: Clock, chunks: seq<Chunk>)
    requires i < |lines| && !HasPrefix(lines[i], TokenEvent)
    requires ChunksSoFar(lines, i, parse, model, clock, chunks)
    ensures ChunksSoFar(lines, i + 1, parse, model, clock, chunks)
  {
    EventStep(lines, i);
  }

  /** With every line read, the chunks written are the chunks of the body. */
  lemma ChunksDone(lines: seq<string>, i: nat, parse: TokenParser, model: string, clock: Clock, chunks: seq<Chunk>)
    requires i >= |lines|
    requires ChunksSoFar(lines, i, parse, model, clock, chunks)
    ensures chunks == ChunksFrom(EventData(lines), parse, model, clock, 0)
  {
    assert Unread(lines, i) == [];
    assert chunks + [] == chunks;
  }

  /** One step of the scanner: a token event takes the next line (or "") as
      its data line; any other line is passed over. */
  lemma EventStep(lines: seq<string>, i: nat)
    requires i < |lines|
    ensures HasPrefix(lines[i], TokenEvent) ==>
              EventData(Unread(lines, i)) == [if i + 1 < |lines| then lines[i + 1] else ""] + EventData(Unread(lines, i + 2))
    ensures !HasPrefix(lines[i], TokenEvent) ==> EventData(Unread(lines, i)) == EventData(Unread(lines, i + 1))
  {
    var u := Unread(lines, i);
    assert u[0] == lines[i];
    if i + 1 < |lines| {
      assert u[1] == lines[i + 1];
      assert u[2..] == Unread(lines, i + 2);
    }
    assert u[1..] == Unread(lines, i + 1);
  }

  /** The chunks for some data lines, numbered from `n`. */
  function ChunksFrom(datas: seq<string>, parse: TokenParser, model: string, clock: Clock, n: nat): seq<Chunk>
    decreases |datas|
  {
    if datas == [] then []
    else [ChunkOf(StreamDelta(datas[0], parse), model, clock(n))] + ChunksFrom(datas[1..], parse, model, clock, n + 1)
  }

  lemma {:induction false} ChunksFromAt(datas: seq<string>, parse: TokenParser, model: string, clock: Clock, n: nat)
    ensures |ChunksFrom(datas, parse, model, clock, n)| == |datas|
    ensures forall k :: 0 <= k < |datas| ==>
              ChunksFrom(datas, parse, model, clock, n)[k] == ChunkOf(StreamDelta(datas[k], parse), model, clock(n + k))
    decreases |datas|
  {
    if datas != [] {
      var head := ChunkOf(StreamDelta(datas[0], parse), model, clock(n));
      var rest := ChunksFrom(datas[1..], parse, model, clock, n + 1);
      ChunksFromAt(datas[1..], parse, model, clock, n + 1);
      assert ChunksFrom(datas, parse, model, clock, n) == [head] + rest;
      forall k | 0 <= k < |datas|
        ensures ChunksFrom(datas, parse, model, clock, n)[k] == ChunkOf(StreamDelta(datas[k], parse), model, clock(n + k))
      {
        if k > 0 {
          assert ([head] + rest)[k] == rest[k - 1];
          assert datas[1..][k - 1] == datas[k];
          assert n + 1 + (k - 1) == n + k;
        }
      }
    }
  }

  lemma ChunksFromStart(datas: seq<string>, parse: TokenParser, model: string, clock: Clock)
    ensures |ChunksFrom(datas, parse, model, clock, 0)| == |datas|
    ensures forall k :: 0 <= k < |datas| ==>
              ChunksFrom(datas, parse, model, clock, 0)[k] == ChunkOf(StreamDelta(datas[k], parse), model, clock(k))
  {
    ChunksFromAt(datas, parse, model, clock, 0);
    forall k | 0 <= k < |datas|
      ensures ChunksFrom(datas, parse, model, clock, 0)[k] == ChunkOf(StreamDelta(datas[k], parse), model, clock(k))
    {
      assert 0 + k == k;
    }
  }

  /** When every data line has the "data: " prefix, the streamed deltas add
      up to the non-streaming content. */
  lemma {:induction false} StreamMatchesAggregate(datas: seq<string>, parse: TokenParser)
    requires forall k :: 0 <= k < |datas| ==> HasPrefix(datas[k], DataPrefix)
    ensures Concat(Deltas(datas, parse)) == Aggregate(datas, parse)
    decreases |datas|
  {
    if datas != [] {
      StreamMatchesAggregate(datas[1..], parse);
      assert Deltas(datas, parse)[1..] == Deltas(datas[1..], parse);
    }
  }

  /** Without the prefix the two modes differ: a data line that parses as it
      stands is streamed but left out of the non-streaming content. */
  lemma UnprefixedDataDiffers(payload: string, token: string, parse: TokenParser)
    requires !HasPrefix(payload, DataPrefix) && parse(payload) == Some(token) && token != ""
    ensures Aggregate(EventData([TokenEvent, payload]), parse) == ""
    ensures Deltas(EventData([TokenEvent, payload]), parse) == [token]
  {
    assert HasPrefix([TokenEvent, payload][0], TokenEvent);
    assert [TokenEvent, payload][2..] == [];
  }

  /** The line after an event is its data line, whatever it holds: it is
      consumed and never examined as an event itself. */
  lemma EventConsumesNext(next: string, rest: seq<string>)
    ensures EventData([TokenEvent, next] + rest) == [next] + EventData(rest)
  {
    var lines := [TokenEvent, next] + rest;
    assert lines[0] == TokenEvent && lines[1] == next && lines[2..] == rest;
    assert HasPrefix(TokenEvent, TokenEvent);
  }

  /** Two events in a row give one data line: the second event's line. */
  lemma BackToBackEvents()
    ensures EventData([TokenEvent, TokenEvent]) == [TokenEvent]
  {
    EventConsumesNext(TokenEvent, []);
    assert [TokenEvent, TokenEvent] + [] == [TokenEvent, TokenEvent];
  }

  /** An event on the last line, after lines that are no events, reads the
      empty line. */
  lemma {:induction false} EventAtEnd(lines: seq<string>)
    requires lines != [] && HasPrefix(lines[|lines| - 1], TokenEvent)
    requires forall k :: 0 <= k < |lines| - 1 ==> !HasPrefix(lines[k], TokenEvent)
    ensures EventData(lines) == [""]
    decreases |lines|
  {
    if |lines| > 1 {
      assert !HasPrefix(lines[0], TokenEvent);
      EventAtEnd(lines[1..]);
    }
  }

  lemma DataLineIsNoEvent(payload: string)
    ensures !HasPrefix(DataPrefix + payload, TokenEvent)
    ensures TrimPrefix(DataPrefix + payload, DataPrefix) == payload
    ensures HasPrefix(DataPrefix + payload, DataPrefix)
  {
    var d := DataPrefix + payload;
    assert d[..|DataPrefix|] == DataPrefix;
    if |TokenEvent| <= |d| {
      assert d[..|TokenEvent|][0] == 'd' != TokenEvent[0];
    }
  }

  /** Three token events "Hel", "lo" and "!" give the content "Hello!" and
      three chunks with those deltas, in order. */
  lemma HelloExample(p1: string, p2: string, p3: string, parse: TokenParser)
    requires parse(p1) == Some("Hel") && parse(p2) == Some("lo") && parse(p3) == Some("!")
    ensures var lines := [TokenEvent, DataPrefix + p1, TokenEvent, DataPrefix + p2, TokenEvent, DataPrefix + p3];
      && Aggregate(EventData(lines), parse) == "Hello!"
      && Deltas(EventData(lines), parse) == ["Hel", "lo", "!"]
  {
    var d1, d2, d3 := DataPrefix + p1, DataPrefix + p2, DataPrefix + p3;
    DataLineIsNoEvent(p1);
    DataLineIsNoEvent(p2);
    DataLineIsNoEvent(p3);
    EventConsumesNext(d3, []);
    EventConsumesNext(d2, [TokenEvent, d3]);
    EventConsumesNext(d1, [TokenEvent, d2, TokenEvent, d3]);
    assert [TokenEvent, d3] + [] == [TokenEvent, d3];
    assert [TokenEvent, d2] + [TokenEvent, d3] == [TokenEvent, d2, TokenEvent, d3];
    assert EventData([TokenEvent, d1, TokenEvent, d2, TokenEvent, d3]) == [d1, d2, d3];
    assert [d1, d2, d3][1..] == [d2, d3];
    assert [d2, d3][1..] == [d3];
    assert Aggregate([d3], parse) == "!";
    assert Aggregate([d2, d3], parse) == "lo!";
  }

  /** The upstream answer, as the handler sees it: the connection failed, or
      a status and the body's lines, with whether the scanner stopped on a
      read error (a line longer than its buffer). */
  datatype UpstreamReply =
    | Unreachable(error: string)
    | Answered(status: int, lines: seq<string>, readFailed: bool)

  /** What the handler writes back once the upstream request is built. */
  datatype Reply =
    | ErrorReply(status: int, message: string)
    | CompletionReply(completion: Completion)
    | StreamReply(chunks: seq<Chunk>)

  /** The reply for an upstream answer. The handler sends the request once to
      check the status and a second time, in the chosen mode, to read the
      body: `first` is the answer to the first request, `second` to the other. */
  function Conclude(first: UpstreamReply, second: UpstreamReply, stream: bool, requested: string,
                    parse: TokenParser, stamp: Stamp, clock: Clock): Reply
  {
    match first
    case Unreachable(err) => ErrorReply(500, err)
    case Answered(status, _, _) =>
      if status != 200 then ErrorReply(status, "API returned status " + StatusText(status))
      else
        match second
        case Unreachable(err) => ErrorReply(500, err)
        case Answered(_, lines, readFailed) =>
          var model := EnvelopeModel(requested);
          if stream then
            StreamReply(ChunksFrom(EventData(lines), parse, model, clock, 0))
          else if readFailed then ErrorReply(500, "Error reading response")
          else CompletionReply(CompletionOf(Aggregate(EventData(lines), parse), model, stamp))
  }

  /** `%d` of a status code. */
  function StatusText(status: int): string {
    if status < 0 then "-" + Decimal(-status) else Decimal(status)
  }

  /** Any status other than 200 in the first answer is passed through as the
      reply's status, whatever the second answer holds. */
  lemma StatusPassedThrough(first: UpstreamReply, second: UpstreamReply, stream: bool, requested: string,
                            parse: TokenParser, stamp: Stamp, clock: Clock)
    requires first.Answered? && first.status != 200
    ensures Conclude(first, second, stream, requested, parse, stamp, clock)
            == ErrorReply(first.status, "API returned status " + StatusText(first.status))
  {
  }

  /** A completion is only sent in non-streaming mode after a complete read of
      the second answer; it holds one assistant choice with the aggregated
      content, and the envelope model. */
  lemma CompletionShape(first: UpstreamReply, second: UpstreamReply, stream: bool, requested: string,
                        parse: TokenParser, stamp: Stamp, clock: Clock)
    requires Conclude(first, second, stream, requested, parse, stamp, clock).CompletionReply?
    ensures !stream && first.Answered? && first.status == 200 && second.Answered? && !second.readFailed
    ensures var c := Conclude(first, second, stream, requested, parse, stamp, clock).completion;
      && c.choices == [CompletionChoice(Message(Assistant, Aggregate(EventData(second.lines), parse)), 0, "stop")]
      && c.model == EnvelopeModel(requested)
  {
  }

  /** A stream reply holds one chunk per token event of the second answer, in
      order, the k-th carrying that event's delta and the k-th clock reading. */
  lemma StreamShape(first: UpstreamReply, second: UpstreamReply, stream: bool, requested: string,
                    parse: TokenParser, stamp: Stamp, clock: Clock)
    requires Conclude(first, second, stream, requested, parse, stamp, clock).StreamReply?
    ensures stream && first.Answered? && first.status == 200 && second.Answered?
    ensures var chunks := Conclude(first, second, stream, requested, parse, stamp, clock).chunks;
      && |chunks| == |EventData(second.lines)|
      && forall k :: 0 <= k < |chunks| ==>
           chunks[k] == ChunkOf(StreamDelta(EventData(second.lines)[k], parse), EnvelopeModel(requested), clock(k))
  {
    ChunksFromStart(EventData(second.lines), parse, EnvelopeModel(requested), clock);
  }

  /** The end of `Handler` and the two response handlers: the status check of
      the first answer, then the scan of the second in the requested mode. */
  method Respond(first: UpstreamReply, second: UpstreamReply, stream: bool, requested: string,
               parse: TokenParser, stamp: Stamp, clock: Clock) returns (r: Reply)
    ensures r == Conclude(first, second, stream, requested, parse, stamp, clock)
  {
    if first.Unreachable? {
      return ErrorReply(500, first.error);
    }
    if first.status != 200 {
      return ErrorReply(first.status, "API returned status " + StatusText(first.status));
    }
    if second.Unreachable? {
      return ErrorReply(500, second.error);
    }
    var model := EnvelopeModel(requested);
    if stream {
      var chunks := StreamChunks(second.lines, parse, model, clock);
      ChunksFromStart(EventData(second.lines), parse, model, clock);
      return StreamReply(chunks);
    }
    var content := CollectContent(second.lines, parse);
    if second.readFailed {
      return ErrorReply(500, "Error reading response");
    }
    r := CompletionReply(CompletionOf(content, model, stamp));
  }
}
