/** Server-sent events: what the adapter writes, and the client's reader with its size limits. */
module Sse {
  import opened Wrappers
  import opened Bytes

  const MAX_LINE := 0x80_0000
  const MAX_EVENT := 0x80_0000

  /** "data:" */
  const DATA: Text := [100, 97, 116, 97, 58]

  /** "[DONE]" */
  const DONE: Text := [91, 68, 79, 78, 69, 93]

  // ---------------------------------------------------------------- writing

  /** One event: the data line and a blank line. */
  function Event(payload: Text): Text {
    DATA + [SPACE] + payload + [LINE_FEED, LINE_FEED]
  }

  function Events(payloads: seq<Text>): Text {
    if payloads == [] then [] else Event(payloads[0]) + Events(payloads[1..])
  }

  /** The response body a handler writes to; writes are assumed to succeed. */
  class ResponseStream {
    var out: Text

    constructor ()
      ensures out == []
    {
      out := [];
    }

    method Write(bytes: Text)
      modifies this
      ensures out == old(out) + bytes
    {
      out := out + bytes;
    }

    /** WriteSSEFrame, given the frame's JSON. */
    method WriteFrame(payload: Text)
      modifies this
      ensures out == old(out) + Event(payload)
    {
      Write(DATA + [SPACE] + payload + [LINE_FEED, LINE_FEED]);
    }

    /** WriteSSEDone. */
    method WriteDone()
      modifies this
      ensures out == old(out) + Event(DONE)
    {
      Write(DATA + [SPACE] + DONE + [LINE_FEED, LINE_FEED]);
    }
  }

  // ---------------------------------------------------------------- scanning lines

  /** The index of the first line feed, or the length when there is none. */
  function LineEnd(s: Text): (n: nat)
    ensures n <= |s|
    ensures forall i | 0 <= i < n :: s[i] != LINE_FEED
    ensures n < |s| ==> s[n] == LINE_FEED
  {
    if s == [] || s[0] == LINE_FEED then 0 else 1 + LineEnd(s[1..])
  }

  function DropReturn(line: Text): Text {
    if line != [] && line[|line| - 1] == CARRIAGE_RETURN then line[..|line| - 1] else line
  }

  datatype Scan = End | TooLong | Line(text: Text, rest: Text)

  /** One call of the scanner: a line and its line feed have to fit the scanner's buffer. */
  function NextLine(s: Text): (r: Scan)
    ensures r.Line? ==> |r.rest| < |s|
  {
    if s == [] then End
    else
      var n := LineEnd(s);
      if n >= MAX_LINE then TooLong
      else Line(DropReturn(s[..n]), if n < |s| then s[n + 1..] else [])
  }

  // ---------------------------------------------------------------- reading events

  type Decoder<!F> = Text -> Option<F>

  datatype Dispatch<F> = Nothing | Sentinel | Malformed | Emit(frame: F)

  /** emitSSEData. */
  function DispatchData<F>(data: Text, decode: Decoder<F>): Dispatch<F> {
    var raw := TrimSpace(data);
    if raw == [] then Nothing
    else if raw == DONE then Sentinel
    else match decode(raw)
      case None => Malformed
      case Some(f) => Emit(f)
  }

  /** The reader returns no error for the first two: it met the sentinel, or the end of its input. */
  datatype Outcome = SawDone | InputEnded | LineTooLong | EventTooLong | BadFrame

  datatype ReadResult<F> = ReadResult(frames: seq<F>, outcome: Outcome)

  /** appendSSEData: None when the event would outgrow its limit. */
  function AppendData(data: Text, value: Text): (r: Option<Text>)
    ensures r.Some? ==> |r.value| <= MAX_EVENT
  {
    var joined := if data == [] then value else data + [LINE_FEED] + value;
    if |joined| > MAX_EVENT then None else Some(joined)
  }

  /** At the end of input, what has been collected is dispatched. */
  function AtEnd<F>(data: Text, decode: Decoder<F>): ReadResult<F> {
    match DispatchData(data, decode)
    case Emit(f) => ReadResult([f], InputEnded)
    case Malformed => ReadResult([], BadFrame)
    case Sentinel => ReadResult([], SawDone)
    case Nothing => ReadResult([], InputEnded)
  }

  /**
   readSSEFrames from the point where `s` is still unread and `data` has been collected. That the
   recursive calls meet the precondition shows that the collected data never exceeds its limit.
   */
  function Read<F>(s: Text, data: Text, decode: Decoder<F>): ReadResult<F>
    requires |data| <= MAX_EVENT
    decreases |s|
  {
    match NextLine(s)
    case TooLong => ReadResult([], LineTooLong)
    case End => AtEnd(data, decode)
    case Line(line, rest) =>
      if line == [] then
        match DispatchData(data, decode)
        case Nothing => Read(rest, [], decode)
        case Sentinel => ReadResult([], SawDone)
        case Malformed => ReadResult([], BadFrame)
        case Emit(f) => var r := Read(rest, [], decode); r.(frames := [f] + r.frames)
      else if line[0] != COLON && DATA <= line then
        match AppendData(data, TrimSpace(line[5..]))
        case None => ReadResult([], EventTooLong)
        case Some(more) => Read(rest, more, decode)
      else Read(rest, data, decode)
  }

  /** The strings.Builder the reader collects an event in. */
  class EventBuffer {
    var data: Text

    constructor ()
      ensures data == []
    {
      data := [];
    }

    method Append(value: Text) returns (ok: bool)
      requires |data| <= MAX_EVENT
      modifies this
      ensures ok == AppendData(old(data), value).Some?
      ensures data == if ok then AppendData(old(data), value).value else old(data)
      ensures |data| <= MAX_EVENT
    {
      var additional := |value|;
      if |data| > 0 {
        additional := additional + 1;
      }
      if |data| + additional > MAX_EVENT {
        return false;
      }
      if |data| > 0 {
        data := data + [LINE_FEED];
      }
      data := data + value;
      ok := true;
    }
  }

  function Prefixed<F>(frames: seq<F>, r: ReadResult<F>): ReadResult<F> {
    r.(frames := frames + r.frames)
  }

  /** readSSEFrames: the loop over scanned lines. */
  method ReadFrames<F>(s: Text, decode: Decoder<F>) returns (r: ReadResult<F>)
    ensures r == Read(s, [], decode)
  {
    var unread, frames := s, [];
    var buffer := new EventBuffer();
    while true
      invariant |buffer.data| <= MAX_EVENT
      invariant fresh(buffer)
      invariant Read(s, [], decode) == Prefixed(frames, Read(unread, buffer.data, decode))
      decreases |unread|
    {
      match NextLine(unread) {
        case TooLong =>
          return ReadResult(frames, LineTooLong);
        case End =>
          break;
        case Line(line, rest) =>
          unread := rest;
          if line == [] {
            match DispatchData(buffer.data, decode) {
              case Nothing =>
              case Sentinel => return ReadResult(frames, SawDone);
              case Malformed => return ReadResult(frames, BadFrame);
              case Emit(f) =>
                ghost var tail := Read(rest, [], decode);
                assert (frames + [f]) + tail.frames == frames + ([f] + tail.frames);
                frames := frames + [f];
            }
            buffer.data := [];
          } else if line[0] != COLON && DATA <= line {
            var ok := buffer.Append(TrimSpace(line[5..]));
            if !ok {
              return ReadResult(frames, EventTooLong);
            }
          }
      }
    }
    if |buffer.data| > 0 {
      match DispatchData(buffer.data, decode) {
        case Emit(f) => return ReadResult(frames + [f], InputEnded);
        case Malformed => return ReadResult(frames, BadFrame);
        case Sentinel => return ReadResult(frames, SawDone);
        case Nothing =>
      }
    }
    r := ReadResult(frames, InputEnded);
  }
}
