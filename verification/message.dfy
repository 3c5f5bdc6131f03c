/**
 * The log record both chat backends queue: its level, text, timestamp and the
 * caller's file and line, as `pushMessage` fills it in.
 */
module LogMessage {

  import opened Wrappers
  import Fmt

  /** A caller location reported by the runtime: the file's base name and the line. */
  datatype Frame = Frame(file: string, line: int)

  /**
   * The runtime's caller lookup: the frame `depth` levels up the stack, or
   * None when the stack is not that deep.
   */
  type CallStack = int -> Option<Frame>

  /** `time` holds the timestamp already rendered as RFC 3339 text. */
  datatype Message = Message(level: string, msg: string, time: string, file: string, line: int)

  /** The file recorded when the caller lookup fails. */
  const UnknownFile: string := "???"

  /** The record `pushMessage` appends, given the lookup result for its caller. */
  function NewMessage(level: string, msg: string, now: string, caller: Option<Frame>): (m: Message)
    ensures m.level == level && m.msg == msg && m.time == now
    ensures caller.None? ==> m.file == "???" && m.line == 0
    ensures caller.Some? ==> m.file == caller.value.file && m.line == caller.value.line
  {
    match caller
    case None => Message(level, msg, now, UnknownFile, 0)
    case Some(frame) => Message(level, msg, now, frame.file, frame.line)
  }

  /**
   * `file:line`, the `%s:%d` location both backends print: the file, a colon,
   * and a number that parses back to the line.
   */
  function Location(m: Message): (s: string)
    ensures |s| > |m.file| + 1 && s[..|m.file|] == m.file && s[|m.file|] == ':'
    ensures Fmt.Atoi(s[|m.file| + 1..]) == Some(m.line)
  {
    var s := m.file + ":" + Fmt.Itoa(m.line);
    assert s[|m.file| + 1..] == Fmt.Itoa(m.line);
    Fmt.ItoaRoundTrip(m.line);
    s
  }
}
