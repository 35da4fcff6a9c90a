/** The server-sent-event reader of bridge/bridge/client.py.

    JSON decoding stays abstract: every member takes `decode`, what `json.loads`
    makes of a payload. Event streams follow section 9.2 of the WHATWG HTML
    Standard only as leniently as the code does: a line is a frame by itself. */
module SseFrames {
  import opened Options
  import opened Text

  datatype Json = Invalid | JString(text: string) | JObject(data: Option<string>) | JOther

  const PREFIX := "data:"

  function ParseFrame(decode: string -> Json, line: string): Option<string> {
    if !(PREFIX <= line) then None
    else
      var payload := StripLeft(line[|PREFIX|..]);
      if payload == "" then None
      else match decode(payload)
        case Invalid => Some(payload)
        case JString(text) => Some(text)
        case JObject(data) => data
        case JOther => None
  }

  /** The texts of the lines that are frames, in order. */
  function Frames(decode: string -> Json, lines: seq<string>): seq<string> {
    if lines == [] then []
    else
      var rest := Frames(decode, lines[1..]);
      match ParseFrame(decode, lines[0])
      case None => rest
      case Some(text) => [text] + rest
  }

  /** What a whole body means: its lines are frames. */
  function FramesOf(decode: string -> Json, body: string): seq<string> {
    Frames(decode, Split(body, '\n'))
  }

  lemma {:induction false} FramesAppend(decode: string -> Json, a: seq<string>, b: seq<string>)
    ensures Frames(decode, a + b) == Frames(decode, a) + Frames(decode, b)
  {
    hide ParseFrame;
    if a == [] {
      assert a + b == b;
    } else {
      assert (a + b)[1..] == a[1..] + b;
      FramesAppend(decode, a[1..], b);
    }
  }

  lemma FramesPush(decode: string -> Json, lines: seq<string>, line: string)
    ensures Frames(decode, lines + [line]) == Frames(decode, lines) +
              match ParseFrame(decode, line) case None => [] case Some(text) => [text]
  {
    hide ParseFrame;
    FramesAppend(decode, lines, [line]);
    assert Frames(decode, [line][1..]) == [];
  }

  /** A line is a frame if it begins with `data:` and has something behind that and any
      white space. Its text is then the JSON string there, the text under `data` of the
      JSON object, or, when it is no JSON at all, what stands there; other JSON values
      are dropped. */
  lemma FrameMeans(decode: string -> Json, space: string, payload: string)
    requires AllSpace(space) && payload != "" && !IsSpace(payload[0])
    ensures var frame := ParseFrame(decode, "data:" + space + payload);
            && (forall text :: decode(payload) == JString(text) ==> frame == Some(text))
            && (forall text :: decode(payload) == JObject(Some(text)) ==> frame == Some(text))
            && (decode(payload) == JObject(None) || decode(payload) == JOther ==> frame == None)
            && (decode(payload) == Invalid ==> frame == Some(payload))
  {
    var line := "data:" + space + payload;
    assert line[..5] == "data:" && line[5..] == space + payload;
    StripLeftSkips(space, payload);
  }

  lemma OtherLinesAreNone(decode: string -> Json, line: string)
    requires !("data:" <= line) || AllSpace(line[5..])
    ensures ParseFrame(decode, line) == None
  {
    if "data:" <= line {
      StripLeftSkips(line[5..], "");
      assert line[5..] + "" == line[5..];
    }
  }

  /** Buffered bodies: one pass over the lines of the whole text. */
  method ParseSseText(decode: string -> Json, text: string) returns (reply: string)
    ensures reply == Concat(FramesOf(decode, text))
  {
    if text == "" {
      assert Frames(decode, [""][1..]) == [];
      return "";
    }
    hide ParseFrame, Split;
    var chunks: seq<string> := [];
    var lines := Split(text, '\n');
    for i := 0 to |lines|
      invariant chunks == Frames(decode, lines[..i])
    {
      var chunk := ParseFrame(decode, lines[i]);
      FramesPush(decode, lines[..i], lines[i]);
      assert lines[..i + 1] == lines[..i] + [lines[i]];
      if chunk.Some? {
        chunks := chunks + [chunk.value];
      }
    }
    assert lines[..|lines|] == lines;
    return Concat(chunks);
  }

  /** Emit the frames among complete lines; empty lines are skipped unread. */
  method EmitLines(decode: string -> Json, queue: seq<string>, lines: seq<string>) returns (emitted: seq<string>)
    ensures emitted == queue + Frames(decode, lines)
  {
    emitted := queue;
    for i := 0 to |lines|
      invariant emitted == queue + Frames(decode, lines[..i])
    {
      FramesPush(decode, lines[..i], lines[i]);
      assert lines[..i + 1] == lines[..i] + [lines[i]];
      if lines[i] == "" {
        continue;
      }
      var chunk := ParseFrame(decode, lines[i]);
      if chunk.Some? {
        emitted := emitted + [chunk.value];
      }
    }
    assert lines[..|lines|] == lines;
  }

  /** Streamed bodies: network chunks cut the text anywhere, and the unfinished
      last line of one chunk is carried into the next. However the body is cut,
      the queue receives the frames of the whole body, so the streamed reply is
      the one `ParseSseText` gives for the buffered body. */
  method ReadStream(decode: string -> Json, body: seq<string>) returns (queue: seq<string>)
    ensures queue == FramesOf(decode, Concat(body))
  {
    hide ParseFrame, Frames;
    queue := [];
    assert Frames(decode, []) == [] by { FramesOfNone(decode); }
    var leftover := "";
    for i := 0 to |body|
      invariant Carried(decode, Concat(body[..i]), queue, leftover)
    {
      hide Split, Carried;
      var text := leftover + body[i];
      var lines := Split(text, '\n');
      ghost var soFar := queue;
      queue := EmitLines(decode, queue, lines[..|lines| - 1]);
      CarryOn(decode, Concat(body[..i]), body[i], soFar, leftover);
      leftover := lines[|lines| - 1];
      assert body[..i + 1] == body[..i] + [body[i]];
      ConcatPush(body[..i], body[i]);
    }
    assert body[..|body|] == body;
    ghost var lines := Split(Concat(body), '\n');
    assert lines == lines[..|lines| - 1] + [leftover];
    FramesPush(decode, lines[..|lines| - 1], leftover);
    if leftover != "" {
      var chunk := ParseFrame(decode, leftover);
      if chunk.Some? {
        queue := queue + [chunk.value];
      }
    } else {
      EmptyLine(decode);
    }
  }

  lemma FramesOfNone(decode: string -> Json)
    ensures Frames(decode, []) == []
  {
  }

  lemma EmptyLine(decode: string -> Json)
    ensures ParseFrame(decode, "") == None
  {
  }

  /** After the text `read`, its complete lines are in the queue and the
      unfinished one is carried. */
  ghost predicate Carried(decode: string -> Json, read: string, queue: seq<string>, leftover: string) {
    var lines := Split(read, '\n');
    leftover == lines[|lines| - 1] && queue == Frames(decode, lines[..|lines| - 1])
  }

  lemma CarryOn(decode: string -> Json, read: string, chunk: string, queue: seq<string>, leftover: string)
    requires Carried(decode, read, queue, leftover)
    ensures var lines := Split(leftover + chunk, '\n');
            Carried(decode, read + chunk, queue + Frames(decode, lines[..|lines| - 1]), lines[|lines| - 1])
  {
    hide Frames;
    var before, lines := Split(read, '\n'), Split(leftover + chunk, '\n');
    SplitAppend(read, chunk, '\n');
    hide Split;
    var all := Split(read + chunk, '\n');
    assert all[..|all| - 1] == before[..|before| - 1] + lines[..|lines| - 1];
    FramesAppend(decode, before[..|before| - 1], lines[..|lines| - 1]);
  }
}
