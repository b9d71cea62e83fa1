/**
 * The string rules of the project's logging setup: the colour wrapping of chat records, the
 * newline escaping of every other record, and the colour that `chat_log` and `error_log`
 * attach to the records they emit.
 */
module Logger {
  import opened Wrappers
  import opened Text

  // colorama's ANSI escape sequences for the colours the console formatter uses
  const Cyan := "\U{1B}[36m"
  const Green := "\U{1B}[32m"
  const Magenta := "\U{1B}[35m"
  const Yellow := "\U{1B}[33m"
  const Red := "\U{1B}[31m"
  const ResetAll := "\U{1B}[0m"

  /** `ColoredFormatter.COLORS`: colour name to escape sequence. */
  const Colors: map<string, string> := map[
    "chat_timestamp" := Cyan,
    "chat_user" := Green,
    "chat_ai" := Magenta,
    "chat_system" := Yellow,
    "error" := Red
  ]

  /** `COLORS.get(color, '')`. */
  function ColorPrefix(color: string): string
  {
    if color in Colors then Colors[color] else ""
  }

  /** `str(msg).replace('\n', '\\n')`: every newline becomes a backslash followed by `n`. */
  function EscapeNewlines(s: string): (r: string)
    ensures '\n' !in r
    ensures |r| == |s| + Count(s, '\n')
  {
    if s == [] then []
    else (if s[0] == '\n' then "\\n" else [s[0]]) + EscapeNewlines(s[1..])
  }

  /** A newline becomes the two characters `\` and `n`; every other character is kept. */
  lemma EscapeChar(c: char)
    ensures EscapeNewlines([c]) == if c == '\n' then ['\\', 'n'] else [c]
  {
    assert [c][1..] == [];
  }

  /** Escaping works character by character, so it distributes over concatenation. */
  lemma {:induction false} EscapeConcat(a: string, b: string)
    ensures EscapeNewlines(a + b) == EscapeNewlines(a) + EscapeNewlines(b)
  {
    if a != [] {
      var head := if a[0] == '\n' then "\\n" else [a[0]];
      EscapeConcat(a[1..], b);
      assert (a + b)[0] == a[0] && (a + b)[1..] == a[1..] + b;
      assert EscapeNewlines(a + b) == head + EscapeNewlines(a[1..] + b);
      assert EscapeNewlines(a) == head + EscapeNewlines(a[1..]);
    } else {
      assert a + b == b;
    }
  }

  /** A string is left unchanged by escaping exactly when it has no newline. */
  lemma {:induction false} EscapeFixedIff(s: string)
    ensures EscapeNewlines(s) == s <==> '\n' !in s
  {
    if s != [] {
      EscapeFixedIff(s[1..]);
      if s[0] != '\n' {
        assert s == [s[0]] + s[1..];
        assert '\n' in s <==> '\n' in s[1..];
      }
    }
  }

  /**
   * Escaping twice is escaping once; a record that passes through both the console and the
   * debug-file formatter, each overwriting its message, ends up escaped exactly once.
   */
  lemma EscapeIdempotent(s: string)
    ensures EscapeNewlines(EscapeNewlines(s)) == EscapeNewlines(s)
  {
    EscapeFixedIff(EscapeNewlines(s));
  }

  /** What `ColoredFormatter.format` returns for a record with the given attributes and message. */
  function ColoredText(isChat: bool, color: Option<string>, msg: string): (out: string)
    ensures isChat && color.None? ==> out == msg
    ensures isChat && color.Some? && color.value !in Colors ==> out == msg + ResetAll
    ensures isChat && color.Some? && color.value in Colors ==> out == Colors[color.value] + msg + ResetAll
    ensures !isChat ==> out == EscapeNewlines(msg)
    ensures !isChat ==> '\n' !in out && |out| == |msg| + Count(msg, '\n')
  {
    if isChat then
      match color
      case Some(c) => ColorPrefix(c) + msg + ResetAll
      case None => msg
    else if msg != "" then EscapeNewlines(msg)
    else msg
  }

  /** The message `DebugFormatter.format` leaves in a record. */
  function DebugText(msg: string): (out: string)
    ensures '\n' !in out
  {
    if msg != "" then EscapeNewlines(msg) else msg
  }

  /**
   * The falsy-message guard makes no difference for strings: the debug rule is plain escaping,
   * the same as the console rule for a record that is not a chat record.
   */
  lemma DebugTextIsEscape(msg: string, color: Option<string>)
    ensures DebugText(msg) == EscapeNewlines(msg)
    ensures DebugText(msg) == ColoredText(false, color, msg)
  {
  }

  /** A log record: its message, which the formatters overwrite, and the two extra attributes. */
  class LogRecord {
    var msg: string
    /** `hasattr(record, 'is_chat') and record.is_chat` */
    const isChat: bool
    /** the record's `color` attribute, when it has one */
    const color: Option<string>

    constructor (msg: string, isChat: bool, color: Option<string>)
      ensures this.msg == msg && this.isChat == isChat && this.color == color
    {
      this.msg := msg;
      this.isChat := isChat;
      this.color := color;
    }
  }

  /**
   * `ColoredFormatter.format` with the console format string `'%(message)s'`: a chat record is
   * rendered with its colour and left alone; any other record has its message escaped in place.
   */
  method ColoredFormat(record: LogRecord) returns (out: string)
    modifies record
    ensures out == ColoredText(record.isChat, record.color, old(record.msg))
    ensures record.isChat ==> record.msg == old(record.msg)
    ensures !record.isChat ==> record.msg == out && '\n' !in record.msg
  {
    if record.isChat {
      match record.color {
        case Some(c) =>
          out := ColorPrefix(c) + record.msg + ResetAll;
        case None =>
          out := record.msg;
      }
      return;
    }
    if record.msg != "" {
      record.msg := EscapeNewlines(record.msg);
    }
    out := record.msg;
  }

  /** `DebugFormatter.format`: always escapes the message in place; returns the message part. */
  method DebugFormat(record: LogRecord) returns (out: string)
    modifies record
    ensures record.msg == DebugText(old(record.msg)) && out == record.msg
  {
    if record.msg != "" {
      record.msg := EscapeNewlines(record.msg);
    }
    out := record.msg;
  }

  /** `logger.chat(msg, color='chat_user')`: a chat record, coloured `chat_user` unless told otherwise. */
  method ChatLog(msg: string, color: Option<string>) returns (record: LogRecord)
    ensures fresh(record) && record.msg == msg && record.isChat
    ensures record.color == Some(match color case Some(c) => c case None => "chat_user")
  {
    var c := match color case Some(c) => c case None => "chat_user";
    record := new LogRecord(msg, true, Some(c));
  }

  /** `logger.error_colored(msg)`: a chat record always coloured `error`. */
  method ErrorLog(msg: string) returns (record: LogRecord)
    ensures fresh(record) && record.msg == msg && record.isChat && record.color == Some("error")
  {
    record := new LogRecord(msg, true, Some("error"));
  }

  /** A `chat_log` record without an explicit colour renders green, newlines kept. */
  lemma ChatLogDefaultRendering(msg: string)
    ensures ColoredText(true, Some("chat_user"), msg) == Green + msg + ResetAll
  {
  }
}
