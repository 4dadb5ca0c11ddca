/** The event-stream pair of `src/lib/utils/stream.ts`: a writer that frames
  * each chunk as `data: <json>` followed by a blank line, and a reader that
  * buffers partial lines across reads and yields the parsed `data:` payloads
  * up to the first `done` chunk. Byte encoding and decoding are left out:
  * the stream is text. */
module Stream {
  import opened Wrappers
  import opened Text
  import opened Json

  datatype ChunkType = ContentChunk | DoneChunk | ErrorChunk

  /** `StreamChunk`: a type and the optional `content` and `error` fields. */
  datatype StreamChunk = StreamChunk(kind: ChunkType, content: Option<string>, error: Option<string>)

  function TypeName(k: ChunkType): string
  {
    match k
    case ContentChunk => "chunk"
    case DoneChunk => "done"
    case ErrorChunk => "error"
  }

  /** The object literal as `JSON.stringify` sees it: `type` first, then the
    * fields that are present. */
  function ChunkJson(c: StreamChunk): Json
  {
    JObj([Member("type", JStr(TypeName(c.kind)))]
      + (if c.content.Some? then [Member("content", JStr(c.content.value))] else [])
      + (if c.error.Some? then [Member("error", JStr(c.error.value))] else []))
  }

  /** What one `write(chunk)` enqueues. */
  function Frame(c: StreamChunk): string
  {
    "data: " + Serialize(ChunkJson(c)) + "\n\n"
  }

  function Done(): StreamChunk
  {
    StreamChunk(DoneChunk, None, None)
  }

  function Content(text: string): StreamChunk
  {
    StreamChunk(ContentChunk, Some(text), None)
  }

  function ErrorOf(message: string): StreamChunk
  {
    StreamChunk(ErrorChunk, None, Some(message))
  }

  // ----- the writer -----

  /** `StreamWriter`. `attached` says whether the `controller` field is set;
    * `accepting` whether the underlying stream still takes data (a consumer
    * may cancel it, after which `enqueue` throws and the writer swallows the
    * error); `sent` is the text enqueued so far, frame by frame. */
  class StreamWriter {
    var attached: bool
    var accepting: bool
    var sent: seq<string>

    /** The stream calls `start` at once, which sets the controller. */
    constructor()
      ensures attached && accepting && sent == []
    {
      attached := true;
      accepting := true;
      sent := [];
    }

    /** Everything written so far, as one text. */
    function Body(): string
      reads this
    {
      Concat(sent)
    }

    method Write(c: StreamChunk)
      modifies this
      ensures attached == old(attached) && accepting == old(accepting)
      ensures sent == if old(attached) && old(accepting) then old(sent) + [Frame(c)] else old(sent)
    {
      if !attached {
        return;
      }
      if accepting {
        sent := sent + ["data: " + Serialize(ChunkJson(c)) + "\n\n"];
      }
    }

    method WriteChunk(content: string)
      modifies this
      ensures attached == old(attached) && accepting == old(accepting)
      ensures sent == if old(attached) && old(accepting) then old(sent) + [Frame(Content(content))] else old(sent)
    {
      Write(StreamChunk(ContentChunk, Some(content), None));
    }

    method WriteError(error: string)
      modifies this
      ensures attached == old(attached) && accepting == old(accepting)
      ensures sent == if old(attached) && old(accepting) then old(sent) + [Frame(ErrorOf(error))] else old(sent)
    {
      Write(StreamChunk(ErrorChunk, None, Some(error)));
    }

    /** `end()`: one `done` frame, then close and detach. A detached writer
      * does nothing. */
    method End()
      modifies this
      ensures !attached
      ensures accepting == (old(accepting) && !old(attached))
      ensures sent == if old(attached) && old(accepting) then old(sent) + [Frame(Done())] else old(sent)
    {
      if !attached {
        return;
      }
      Write(StreamChunk(DoneChunk, None, None));
      accepting := false;
      attached := false;
    }

    /** `error(e)`: one `error` frame carrying the message, then close and
      * detach, with no `done` frame. */
    method Error(message: string)
      modifies this
      ensures !attached
      ensures accepting == (old(accepting) && !old(attached))
      ensures sent == if old(attached) && old(accepting) then old(sent) + [Frame(ErrorOf(message))] else old(sent)
    {
      if !attached {
        return;
      }
      WriteError(message);
      accepting := false;
      attached := false;
    }

    /** The consumer cancels the stream: later enqueues fail. */
    method ConsumerCancels()
      modifies this
      ensures !accepting && attached == old(attached) && sent == old(sent)
    {
      accepting := false;
    }
  }

  /** `streamFromAsyncIterable`: every item transformed and written in order,
    * then `end()`, or `error()` with the message when the iteration throws
    * (`failure`), after the items it produced. */
  method StreamFromItems<T>(items: seq<T>, transform: T -> StreamChunk, failure: Option<string>)
    returns (w: StreamWriter)
    ensures fresh(w) && !w.attached && !w.accepting
    ensures w.sent == FramesOf(MapChunks(items, transform))
      + [Frame(if failure.None? then Done() else ErrorOf(failure.value))]
  {
    w := new StreamWriter();
    var i := 0;
    while i < |items|
      invariant 0 <= i <= |items|
      invariant w.attached && w.accepting
      invariant w.sent == FramesOf(MapChunks(items[..i], transform))
    {
      w.Write(transform(items[i]));
      assert items[..i + 1][..i] == items[..i];
      i := i + 1;
    }
    assert items[..i] == items;
    if failure.None? {
      w.End();
    } else {
      w.Error(failure.value);
    }
  }

  function MapChunks<T>(items: seq<T>, transform: T -> StreamChunk): (r: seq<StreamChunk>)
    ensures |r| == |items|
  {
    if items == [] then [] else MapChunks(items[..|items| - 1], transform) + [transform(items[|items| - 1])]
  }

  function FramesOf(cs: seq<StreamChunk>): (r: seq<string>)
    ensures |r| == |cs|
  {
    if cs == [] then [] else FramesOf(cs[..|cs| - 1]) + [Frame(cs[|cs| - 1])]
  }

  // ----- the reader -----

  /** What one complete line contributes: the parsed payload of a
    * `data: ` line whose trimmed payload is non-empty valid JSON. */
  function LineEvent(line: string): Option<Json>
  {
    if StartsWith(line, "data: ") then
      var data := Trim(line[6..]);
      if data == [] then None else Parse(data)
    else None
  }

  /** `parsed.type === "done"` */
  predicate IsDone(j: Json)
  {
    Get(j, "type") == Some(JStr("done"))
  }

  /** The chunks yielded so far and whether a `done` chunk ended the read. */
  datatype ScanState = ScanState(events: seq<Json>, stopped: bool)

  /** One complete line, given what a line contributes (`ev`). */
  function Step(ev: string -> Option<Json>, st: ScanState, line: string): ScanState
  {
    match ev(line)
    case None => st
    case Some(j) => ScanState(st.events + [j], IsDone(j))
  }

  /** Processing complete lines in order from a state; nothing happens after
    * the read has stopped. */
  function ScanFrom(ev: string -> Option<Json>, st: ScanState, lines: seq<string>): ScanState
  {
    if lines == [] then st
    else
      var prev := ScanFrom(ev, st, lines[..|lines| - 1]);
      if prev.stopped then prev else Step(ev, prev, lines[|lines| - 1])
  }

  function Scan(ev: string -> Option<Json>, lines: seq<string>): ScanState
  {
    ScanFrom(ev, ScanState([], false), lines)
  }

  /** The complete lines of a text: all pieces of the split but the last. */
  function CompleteLines(text: string): seq<string>
  {
    AllButLast(Split(text, '\n'))
  }

  /** What one `read()` yields from the buffered text plus the text read. */
  function ReadSpec(text: string): ScanState
  {
    Scan(LineEvent, CompleteLines(text))
  }

  lemma {:induction false} ScanFromStopped(ev: string -> Option<Json>, st: ScanState, lines: seq<string>)
    requires st.stopped
    ensures ScanFrom(ev, st, lines) == st
    decreases |lines|
  {
    if lines != [] {
      ScanFromStopped(ev, st, lines[..|lines| - 1]);
    }
  }

  lemma {:induction false} ScanFromAppend(ev: string -> Option<Json>, st: ScanState, a: seq<string>, b: seq<string>)
    ensures ScanFrom(ev, st, a + b) == ScanFrom(ev, ScanFrom(ev, st, a), b)
    decreases |b|
  {
    if b == [] {
      assert a + b == a;
    } else {
      assert (a + b)[..|a + b| - 1] == a + b[..|b| - 1];
      ScanFromAppend(ev, st, a, b[..|b| - 1]);
    }
  }

  /** Once the read has stopped, more lines change nothing. */
  lemma ScanStoppedPrefix(ev: string -> Option<Json>, st: ScanState, a: seq<string>, b: seq<string>)
    requires ScanFrom(ev, st, a).stopped
    ensures ScanFrom(ev, st, a + b) == ScanFrom(ev, st, a)
  {
    ScanFromAppend(ev, st, a, b);
    ScanFromStopped(ev, ScanFrom(ev, st, a), b);
  }

  /** The complete lines of `a + b`: those of `a`, then those of the last
    * unfinished line of `a` continued by `b`. */
  lemma CompleteLinesAppend(a: string, b: string)
    ensures |Split(a, '\n')| > 0
    ensures CompleteLines(a + b) == CompleteLines(a) + CompleteLines(Last(Split(a, '\n')) + b)
    ensures Last(Split(a + b, '\n')) == Last(Split(Last(Split(a, '\n')) + b, '\n'))
  {
    SplitAppend(a, b, '\n');
    var x := AllButLast(Split(a, '\n'));
    var y := Split(Last(Split(a, '\n')) + b, '\n');
    assert Split(a + b, '\n') == x + y;
    assert AllButLast(x + y) == x + AllButLast(y);
  }

  /** `StreamReader`: `buffer` holds the unfinished last line. */
  class StreamReader {
    var buffer: string

    /** The buffer never holds a line break: every complete line has been
      * handed on. */
    predicate Valid()
      reads this
    {
      '\n' !in buffer
    }

    constructor()
      ensures Valid() && buffer == []
    {
      buffer := [];
    }

    /** `read()` over the decoded pieces the body delivers. It yields the
    * events of the complete lines of everything buffered and read, in
    * order, up to and including the first `done`; when no `done` came the
    * buffer holds exactly the text after the last line break. */
    method Read(pieces: seq<string>) returns (events: seq<Json>, stopped: bool)
      requires Valid()
      modifies this
      ensures Valid()
      ensures ScanState(events, stopped) == ReadSpec(old(buffer) + Concat(pieces))
      ensures !stopped ==> buffer == Last(Split(old(buffer) + Concat(pieces), '\n'))
    {
      var st := ScanState([], false);
      var i := 0;
      ReadStart(LineEvent, buffer);
      while i < |pieces| && !st.stopped
        invariant 0 <= i <= |pieces|
        invariant Valid()
        invariant st == Scan(LineEvent, CompleteLines(old(buffer) + Concat(pieces[..i])))
        invariant !st.stopped ==> buffer == Last(Split(old(buffer) + Concat(pieces[..i]), '\n'))
      {
        ghost var before := old(buffer) + Concat(pieces[..i]);
        var lines := Split(buffer + pieces[i], '\n');
        SplitPartsFree(buffer + pieces[i], '\n');
        buffer := lines[|lines| - 1];
        st := ScanLines(lines, st);
        ReadPieceStep(LineEvent, before, pieces[i], lines, st);
        NextPiece(old(buffer), pieces, i);
        i := i + 1;
      }
      ReadFinish(LineEvent, old(buffer), pieces, i, st);
      if !st.stopped {
        assert pieces[..i] == pieces;
      }
      events, stopped := st.events, st.stopped;
    }
  }

  /** The `for (const line of lines)` loop: the complete lines of one split
    * (all but the last), in order, until a `done` chunk. */
  method ScanLines(lines: seq<string>, st0: ScanState) returns (st: ScanState)
    requires |lines| > 0
    ensures st == ScanFrom(LineEvent, st0, AllButLast(lines))
  {
    st := st0;
    var k := 0;
    while k < |lines| - 1 && !st.stopped
      invariant 0 <= k <= |lines| - 1
      invariant st == ScanFrom(LineEvent, st0, lines[..k])
    {
      ghost var prev := st;
      st := ScanLine(lines[k], st);
      ScanOneMore(LineEvent, st0, lines, k, prev, st);
      k := k + 1;
    }
    ScanRest(LineEvent, st0, lines, k, st);
  }

  /** One line: a `data: ` line whose trimmed payload is non-empty and
    * parses is yielded, and a `done` payload ends the read; anything else,
    * malformed JSON included, is skipped. */
  method ScanLine(line: string, st: ScanState) returns (r: ScanState)
    ensures r == Step(LineEvent, st, line)
  {
    r := st;
    if StartsWith(line, "data: ") {
      var data := Trim(line[6..]);
      if data != [] {
        var parsed := Parse(data);
        if parsed.Some? {
          r := ScanState(st.events + [parsed.value], IsDone(parsed.value));
        }
      }
    }
  }

  lemma ReadStart(ev: string -> Option<Json>, buffer: string)
    requires '\n' !in buffer
    ensures Scan(ev, CompleteLines(buffer + Concat([][..0]))) == ScanState([], false)
    ensures Last(Split(buffer + Concat([][..0]), '\n')) == buffer
  {
    assert buffer + Concat([][..0]) == buffer;
    SplitNoSeparator(buffer, '\n');
  }

  lemma ScanOneMore(ev: string -> Option<Json>, prev: ScanState, lines: seq<string>, k: nat,
                    st: ScanState, now: ScanState)
    requires k < |lines|
    requires st == ScanFrom(ev, prev, lines[..k]) && !st.stopped
    requires now == Step(ev, st, lines[k])
    ensures now == ScanFrom(ev, prev, lines[..k + 1])
  {
    assert lines[..k + 1][..k] == lines[..k];
  }

  lemma NextPiece(buffer: string, pieces: seq<string>, i: nat)
    requires i < |pieces|
    ensures buffer + Concat(pieces[..i + 1]) == buffer + Concat(pieces[..i]) + pieces[i]
  {
    assert pieces[..i + 1] == pieces[..i] + [pieces[i]];
    ConcatAppend(pieces[..i], [pieces[i]]);
    assert Concat([pieces[i]]) == pieces[i] by {
      assert [pieces[i]][..0] == [];
    }
  }

  /** The inner loop ends at the last complete line or at a `done`, which
    * leaves the remaining lines unscanned. */
  lemma ScanRest(ev: string -> Option<Json>, st0: ScanState, lines: seq<string>, k: nat, st: ScanState)
    requires |lines| > 0 && k <= |lines| - 1
    requires st == ScanFrom(ev, st0, lines[..k])
    requires k < |lines| - 1 ==> st.stopped
    ensures st == ScanFrom(ev, st0, AllButLast(lines))
  {
    if k < |lines| - 1 {
      assert AllButLast(lines) == lines[..k] + lines[k..|lines| - 1];
      ScanStoppedPrefix(ev, st0, lines[..k], lines[k..|lines| - 1]);
    } else {
      assert lines[..k] == AllButLast(lines);
    }
  }

  /** One piece read: the lines it completes are scanned after the earlier
    * ones. */
  lemma ReadPieceStep(ev: string -> Option<Json>, before: string, piece: string,
                      lines: seq<string>, now: ScanState)
    requires lines == Split(Last(Split(before, '\n')) + piece, '\n')
    requires now == ScanFrom(ev, Scan(ev, CompleteLines(before)), AllButLast(lines))
    ensures now == Scan(ev, CompleteLines(before + piece))
    ensures Last(Split(before + piece, '\n')) == Last(lines)
  {
    CompleteLinesAppend(before, piece);
    ScanFromAppend(ev, ScanState([], false), CompleteLines(before), AllButLast(lines));
  }

  /** A read that stopped at `done` ignores the pieces it did not take. */
  lemma ReadFinish(ev: string -> Option<Json>, buffer: string, pieces: seq<string>, i: nat, st: ScanState)
    requires i <= |pieces|
    requires st == Scan(ev, CompleteLines(buffer + Concat(pieces[..i])))
    requires i < |pieces| ==> st.stopped
    ensures st == Scan(ev, CompleteLines(buffer + Concat(pieces)))
  {
    if i < |pieces| {
      var before := buffer + Concat(pieces[..i]);
      var rest := Concat(pieces[i..]);
      ConcatSplitAt(pieces, i);
      AppendAssoc(buffer, Concat(pieces[..i]), rest);
      CompleteLinesAppend(before, rest);
      ScanStoppedPrefix(ev, ScanState([], false), CompleteLines(before), CompleteLines(Last(Split(before, '\n')) + rest));
    } else {
      assert pieces[..i] == pieces;
    }
  }

  // ----- opening a stream -----

  /** What `fetch` settles to: a response, with the parts the reader looks
    * at (`ok`, whether there is a body, and the body text), or a rejection
    * with its error's message (the network is down, the request blocked). */
  datatype Response =
    | Response(ok: bool, hasBody: bool, body: string)
    | FetchRejected(message: string)

  datatype OpenError =
    | NoBody                   // "Response has no body"
    | RequestFailed(message: string)
    | ErrorBodyUnreadable      // `response.json()` rejects, or `error.error` on `null`
    | FetchFailed(message: string)  // the rejection of `fetch` itself

  /** `String(v)` for a parsed value. */
  function JsString(v: Json): string
    decreases v, 1
  {
    match v
    case JNull => "null"
    case JBool(b) => if b then "true" else "false"
    case JNum(n) => IntText(n)
    case JStr(s) => s
    case JArr(items) => JoinItems(items)
    case JObj(_) => "[object Object]"
  }

  /** `Array.prototype.join(",")`: `null` items print as nothing. */
  function JoinItems(items: seq<Json>): string
    decreases items, 0
  {
    if items == [] then ""
    else
      var head := if items[0].JNull? then "" else JsString(items[0]);
      if |items| == 1 then head else head + "," + JoinItems(items[1..])
  }

  /** Why `fromFetch` (with the constructor it calls) fails for a response,
    * if it does: a failed response throws `error.error || "Request failed"`,
    * a successful one without a body is refused, and a rejected `fetch`
    * passes its error on. */
  function OpenFailure(resp: Response): (r: Option<OpenError>)
    ensures r.None? <==> resp.Response? && resp.ok && resp.hasBody
    ensures resp.FetchRejected? <==> r.Some? && r.value.FetchFailed?
    ensures resp.FetchRejected? ==> r == Some(FetchFailed(resp.message))
  {
    if resp.FetchRejected? then Some(FetchFailed(resp.message))
    else if !resp.ok then
      var parsed := Parse(resp.body);
      if parsed.None? || parsed.value.JNull? then Some(ErrorBodyUnreadable)
      else
        var e := Get(parsed.value, "error");
        if e.Some? && Truthy(e.value) then Some(RequestFailed(JsString(e.value)))
        else Some(RequestFailed("Request failed"))
    else if !resp.hasBody then Some(NoBody)
    else None
  }

  /** A failed request whose body names an error reports that error; one
    * whose body does not reports the generic message. */
  lemma FailedRequestMessage(resp: Response, j: Json)
    requires resp.Response? && !resp.ok && Parse(resp.body) == Some(j) && j.JObj?
    ensures match Get(j, "error")
      case Some(JStr(m)) => m != [] ==> OpenFailure(resp) == Some(RequestFailed(m))
      case None => OpenFailure(resp) == Some(RequestFailed("Request failed"))
      case _ => OpenFailure(resp).value.RequestFailed?
  {
  }

  /** `StreamReader.fromFetch(url, options)` given what `fetch` resolved to. */
  method FromFetch(resp: Response) returns (r: Result<StreamReader, OpenError>)
    ensures r.Err? <==> OpenFailure(resp).Some?
    ensures r.Err? ==> r.error == OpenFailure(resp).value
    ensures r.Ok? ==> fresh(r.value) && r.value.Valid() && r.value.buffer == []
  {
    if resp.FetchRejected? {
      return Err(FetchFailed(resp.message));
    }
    if !resp.ok {
      var parsed := Parse(resp.body);
      if parsed.None? || parsed.value.JNull? {
        return Err(ErrorBodyUnreadable);
      }
      var e := Get(parsed.value, "error");
      if e.Some? && Truthy(e.value) {
        return Err(RequestFailed(JsString(e.value)));
      }
      return Err(RequestFailed("Request failed"));
    }
    if !resp.hasBody {
      return Err(NoBody);
    }
    var reader := new StreamReader();
    return Ok(reader);
  }

  // ----- writer to reader -----

  /** The payloads the reader sees for a list of chunks. */
  function Payloads(cs: seq<StreamChunk>): (r: seq<Json>)
    ensures |r| == |cs|
  {
    if cs == [] then [] else Payloads(cs[..|cs| - 1]) + [ChunkJson(cs[|cs| - 1])]
  }

  /** The two lines of each frame: the `data: ` line and the blank line. */
  function FrameLines(cs: seq<StreamChunk>): seq<string>
  {
    if cs == [] then []
    else FrameLines(cs[..|cs| - 1]) + ["data: " + Serialize(ChunkJson(cs[|cs| - 1])), ""]
  }

  /** The `type` member reads back as the chunk's type. */
  lemma ChunkTypeReadBack(c: StreamChunk)
    ensures Get(ChunkJson(c), "type") == Some(JStr(TypeName(c.kind)))
    ensures IsDone(ChunkJson(c)) <==> c.kind == DoneChunk
  {
    var ms := ChunkJson(c).members;
    var t := [Member("type", JStr(TypeName(c.kind)))];
    var withContent := t + (if c.content.Some? then [Member("content", JStr(c.content.value))] else []);
    assert Lookup(t, "type") == Some(JStr(TypeName(c.kind)));
    assert Lookup(withContent, "type") == Some(JStr(TypeName(c.kind))) by {
      if c.content.Some? {
        assert withContent[..|withContent| - 1] == t;
      }
    }
    if c.error.Some? {
      assert ms[..|ms| - 1] == withContent;
    } else {
      assert ms == withContent;
    }
  }

  /** A framed payload without line breaks is one `data: ` line, a blank
    * line, and nothing after. */
  lemma FramedLines(text: string)
    requires '\n' !in text
    ensures Split("data: " + text + "\n\n", '\n') == ["data: " + text, "", ""]
  {
    var line := "data: " + text;
    assert '\n' !in line by {
      assert forall k :: 6 <= k < |line| ==> line[k] == text[k - 6];
    }
    assert "data: " + text + "\n\n" == line + ['\n'] + ("" + ['\n'] + "");
    SplitLine(line, "\n", '\n');
    SplitLine("", "", '\n');
    assert "" + ['\n'] + "" == "\n";
    SplitNoSeparator("", '\n');
  }

  lemma FrameSplit(c: StreamChunk)
    ensures Split(Frame(c), '\n') == ["data: " + Serialize(ChunkJson(c)), "", ""]
  {
    NoNewline(ChunkJson(c));
    FramedLines(Serialize(ChunkJson(c)));
  }

  /** The `data: ` line of a frame yields the chunk's payload. */
  lemma LineEventOfFrame(c: StreamChunk)
    ensures LineEvent("data: " + Serialize(ChunkJson(c))) == Some(ChunkJson(c))
  {
    var text := Serialize(ChunkJson(c));
    var line := "data: " + text;
    assert line[..6] == "data: " && line[6..] == text;
    SerializeStart(ChunkJson(c));
    SerializeEnd(ChunkJson(c));
    TrimOfUnspaced(text);
    ParseSerialize(ChunkJson(c));
  }

  /** The text of a run of frames splits into their lines, with nothing
    * left unfinished. */
  lemma {:induction false} WireLines(cs: seq<StreamChunk>)
    ensures CompleteLines(Concat(FramesOf(cs))) == FrameLines(cs)
    ensures Last(Split(Concat(FramesOf(cs)), '\n')) == ""
    decreases |cs|
  {
    if cs == [] {
      assert Concat(FramesOf(cs)) == "";
      SplitNoSeparator("", '\n');
    } else {
      var init := cs[..|cs| - 1];
      var c := cs[|cs| - 1];
      WireLines(init);
      var a := Concat(FramesOf(init));
      assert FramesOf(cs)[..|cs| - 1] == FramesOf(init);
      assert Concat(FramesOf(cs)) == a + Frame(c);
      CompleteLinesAppend(a, Frame(c));
      assert "" + Frame(c) == Frame(c);
      FrameSplit(c);
      var d := "data: " + Serialize(ChunkJson(c));
      assert CompleteLines(Frame(c)) == [d, ""];
      assert FrameLines(cs) == FrameLines(init) + [d, ""];
    }
  }

  /** Reading the lines of chunks none of which is `done` yields their
    * payloads and does not stop. */
  lemma {:induction false} ScanFrames(cs: seq<StreamChunk>)
    requires forall i :: 0 <= i < |cs| ==> cs[i].kind != DoneChunk
    ensures Scan(LineEvent, FrameLines(cs)) == ScanState(Payloads(cs), false)
    decreases |cs|
  {
    if cs != [] {
      var init := cs[..|cs| - 1];
      var c := cs[|cs| - 1];
      ScanFrames(init);
      ScanFrame(FrameLines(init), ScanState(Payloads(init), false), c);
    }
  }

  /** A line that yields a payload followed by a line that yields none. */
  lemma ScanTwo(ev: string -> Option<Json>, st: ScanState, line: string, j: Json)
    requires !st.stopped && ev(line) == Some(j) && ev("") == None
    ensures ScanFrom(ev, st, [line, ""]) == ScanState(st.events + [j], IsDone(j))
  {
    assert [line, ""][..1] == [line];
    assert [line][..0] == [];
    assert ScanFrom(ev, st, []) == st;
    assert ScanFrom(ev, st, [line]) == Step(ev, st, line);
    var mid := ScanState(st.events + [j], IsDone(j));
    assert Step(ev, st, line) == mid;
    assert !mid.stopped ==> Step(ev, mid, "") == mid;
  }

  /** The two lines of one more frame, read after earlier lines. */
  lemma ScanFrame(earlier: seq<string>, st: ScanState, c: StreamChunk)
    requires Scan(LineEvent, earlier) == st && !st.stopped
    ensures Scan(LineEvent, earlier + ["data: " + Serialize(ChunkJson(c)), ""])
      == ScanState(st.events + [ChunkJson(c)], c.kind == DoneChunk)
  {
    var line := "data: " + Serialize(ChunkJson(c));
    ScanFromAppend(LineEvent, ScanState([], false), earlier, [line, ""]);
    LineEventOfFrame(c);
    ChunkTypeReadBack(c);
    assert LineEvent("") == None;
    ScanTwo(LineEvent, st, line, ChunkJson(c));
  }

  /** What the writer sends is what the reader yields: whatever pieces the
    * text arrives in, reading the frames of chunks followed by `done`
    * yields each chunk's payload and then the `done` payload, and stops. */
  lemma StreamRoundTrip(cs: seq<StreamChunk>, last: StreamChunk, pieces: seq<string>)
    requires forall i :: 0 <= i < |cs| ==> cs[i].kind != DoneChunk
    requires last.kind == DoneChunk
    requires Concat(pieces) == Concat(FramesOf(cs + [last]))
    ensures ReadSpec([] + Concat(pieces)) == ScanState(Payloads(cs) + [ChunkJson(last)], true)
  {
    var all := cs + [last];
    assert all[..|all| - 1] == cs;
    assert [] + Concat(pieces) == Concat(FramesOf(all));
    WireLines(all);
    ScanFrames(cs);
    ScanFrame(FrameLines(cs), ScanState(Payloads(cs), false), last);
  }
}
