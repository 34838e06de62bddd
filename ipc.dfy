/** The wire format of `shared/src/ipc.rs`: the commands the CLI sends, the
    responses the daemon returns, and their JSON text in serde's externally
    tagged layout (a unit variant is its quoted name, a variant with data is a
    one-entry object keyed by the variant name, a struct is an object whose
    fields appear in declaration order). Strings carry the escapes of section 7
    of RFC 8259 that serde_json writes; the reader also skips the insignificant
    whitespace of section 2. */
module Ipc {
  import opened Common

  datatype Command = Start | Stop | Pause | Resume | Status | SetLanguage(lang: string) | Toggle

  datatype StatusInfo = StatusInfo(isRunning: bool, isActive: bool, language: string)

  datatype Response = Ok | Error(msg: string) | Status(info: StatusInfo)

  /** `IpcError`. The wrapped `std::io::Error` and `serde_json::Error` are kept
      as their display text. */
  datatype IpcError = Io(detail: string) | Serialization(detail: string) | ConnectionRefused | Timeout

  /** The `Display` text of an `IpcError`. */
  function Message(e: IpcError): (m: string)
    ensures |m| > 0
  {
    match e
    case Io(d) => "IO error: " + d
    case Serialization(d) => "Serialization error: " + d
    case ConnectionRefused => "Connection refused: is ndictd running?"
    case Timeout => "Connection timeout"
  }

  /** Variant and field names as they appear on the wire. */
  const RunningKey: string := "is_running"
  const ActiveKey: string := "is_active"
  const LanguageKey: string := "language"
  const StartName: string := "Start"
  const StopName: string := "Stop"
  const PauseName: string := "Pause"
  const ResumeName: string := "Resume"
  const StatusName: string := "Status"
  const SetLanguageName: string := "SetLanguage"
  const ToggleName: string := "Toggle"
  const OkName: string := "Ok"
  const ErrorName: string := "Error"

  // ---------------------------------------------------------------------------
  // Writing JSON. Every writer puts its text in front of `tail`, so that the
  // text of a compound value is the writers of its parts nested one in another.

  /** Lower-case hexadecimal digit, as serde_json writes in `\u00XX`. */
  function HexDigit(n: nat): (c: char)
    requires n < 16
    ensures '0' <= c <= '9' || 'a' <= c <= 'f'
  {
    if n < 10 then (48 + n) as char else (87 + n) as char
  }

  /** The escape serde_json writes for one character: the two-character forms
      for quote, backslash, backspace, form feed, newline, carriage return and
      tab, `\u00XX` for the other control characters, the character itself
      otherwise. */
  function Escape(c: char): (e: string)
    ensures |e| > 0
  {
    if c == '"' then "\\\""
    else if c == '\\' then "\\\\"
    else if c == '\U{8}' then "\\b"
    else if c == '\U{C}' then "\\f"
    else if c == '\n' then "\\n"
    else if c == '\r' then "\\r"
    else if c == '\t' then "\\t"
    else if c < ' ' then "\\u00" + [HexDigit(c as nat / 16), HexDigit(c as nat % 16)]
    else [c]
  }

  function WriteEscaped(s: string, tail: string): string
    decreases |s|
  {
    if s == [] then tail else Escape(s[0]) + WriteEscaped(s[1..], tail)
  }

  /** A JSON string: quotes around the escaped characters. */
  function WriteString(s: string, tail: string): string
  {
    "\"" + WriteEscaped(s, "\"" + tail)
  }

  function WriteBool(b: bool, tail: string): string
  {
    (if b then "true" else "false") + tail
  }

  /** The struct `StatusInfo`, fields in declaration order. */
  function WriteStatusInfo(i: StatusInfo, tail: string): string
  {
    "{" + WriteString(RunningKey, ":" + WriteBool(i.isRunning,
    "," + WriteString(ActiveKey, ":" + WriteBool(i.isActive,
    "," + WriteString(LanguageKey, ":" + WriteString(i.language, "}" + tail))))))
  }

  function WriteCommand(c: Command, tail: string): string
  {
    match c
    case Start => WriteString(StartName, tail)
    case Stop => WriteString(StopName, tail)
    case Pause => WriteString(PauseName, tail)
    case Resume => WriteString(ResumeName, tail)
    case Status => WriteString(StatusName, tail)
    case SetLanguage(l) => "{" + WriteString(SetLanguageName, ":" + WriteString(l, "}" + tail))
    case Toggle => WriteString(ToggleName, tail)
  }

  function WriteResponse(r: Response, tail: string): string
  {
    match r
    case Ok => WriteString(OkName, tail)
    case Error(m) => "{" + WriteString(ErrorName, ":" + WriteString(m, "}" + tail))
    case Status(i) => "{" + WriteString(StatusName, ":" + WriteStatusInfo(i, "}" + tail))
  }

  /** `serde_json::to_string` on the three types. */
  function EncodeCommand(c: Command): string { WriteCommand(c, []) }

  function EncodeResponse(r: Response): string { WriteResponse(r, []) }

  function EncodeStatusInfo(i: StatusInfo): string { WriteStatusInfo(i, []) }

  // ---------------------------------------------------------------------------
  // Reading JSON. Every reader takes the text still to read and returns the
  // value and the text after it.

  /** Insignificant whitespace (section 2 of RFC 8259). */
  predicate IsJsonSpace(c: char)
  {
    c == ' ' || c == '\t' || c == '\n' || c == '\r'
  }

  function SkipSpace(s: string): (r: string)
    ensures |r| <= |s|
    ensures r == [] || !IsJsonSpace(r[0])
  {
    if s != [] && IsJsonSpace(s[0]) then SkipSpace(s[1..]) else s
  }

  /** Skips whitespace, then expects the character `c`. */
  function Expect(s: string, c: char): (r: Option<string>)
    ensures r.Some? ==> |r.value| < |s|
  {
    var t := SkipSpace(s);
    if t != [] && t[0] == c then Some(t[1..]) else None
  }

  function HexValue(c: char): (r: Option<nat>)
    ensures r.Some? ==> r.value < 16
  {
    if '0' <= c <= '9' then Some(c as nat - 48)
    else if 'a' <= c <= 'f' then Some(c as nat - 87)
    else if 'A' <= c <= 'F' then Some(c as nat - 55)
    else None
  }

  /** The four hexadecimal digits of a `\u` escape. */
  function Hex4(s: string): (r: Option<nat>)
    requires |s| == 4
    ensures r.Some? ==> r.value < 0x1_0000
  {
    var a :- HexValue(s[0]);
    var b :- HexValue(s[1]);
    var c :- HexValue(s[2]);
    var d :- HexValue(s[3]);
    Some(4096 * a + 256 * b + 16 * c + d)
  }

  /** The character after a backslash. A `\u` escape naming a UTF-16 surrogate
      is refused: surrogate pairs are not part of this model. */
  function Unescape(s: string): (r: Option<(char, string)>)
    ensures r.Some? ==> |r.value.1| < |s|
  {
    if s == [] then None
    else if s[0] == '"' || s[0] == '\\' || s[0] == '/' then Some((s[0], s[1..]))
    else if s[0] == 'b' then Some(('\U{8}', s[1..]))
    else if s[0] == 'f' then Some(('\U{C}', s[1..]))
    else if s[0] == 'n' then Some(('\n', s[1..]))
    else if s[0] == 'r' then Some(('\r', s[1..]))
    else if s[0] == 't' then Some(('\t', s[1..]))
    else if s[0] == 'u' && |s| >= 5 then
      var v :- Hex4(s[1..5]);
      if 0xD800 <= v < 0xE000 then None else Some((v as char, s[5..]))
    else None
  }

  function Cons(c: char, r: Option<(string, string)>): Option<(string, string)>
  {
    match r
    case None => None
    case Some(p) => Some(([c] + p.0, p.1))
  }

  /** The characters of a string after its opening quote, up to the closing
      quote. A raw control character is an error, as in serde_json. */
  function ReadChars(s: string): Option<(string, string)>
    decreases |s|
  {
    if s == [] then None
    else if s[0] == '"' then Some(([], s[1..]))
    else if s[0] == '\\' then
      var e :- Unescape(s[1..]);
      Cons(e.0, ReadChars(e.1))
    else if s[0] < ' ' then None
    else Cons(s[0], ReadChars(s[1..]))
  }

  function ReadString(s: string): Option<(string, string)>
  {
    var r :- Expect(s, '"');
    ReadChars(r)
  }

  function ReadBool(s: string): Option<(bool, string)>
  {
    var t := SkipSpace(s);
    if |t| >= 4 && t[..4] == "true" then Some((true, t[4..]))
    else if |t| >= 5 && t[..5] == "false" then Some((false, t[5..]))
    else None
  }

  /** An object key equal to `key`, and the colon after it. */
  function ReadKey(s: string, key: string): Option<string>
  {
    var k :- ReadString(s);
    if k.0 == key then Expect(k.1, ':') else None
  }

  /** `"key":` followed by a boolean. */
  function ReadBoolField(s: string, key: string): Option<(bool, string)>
  {
    var r :- ReadKey(s, key);
    ReadBool(r)
  }

  /** `"key":` followed by a string. */
  function ReadStringField(s: string, key: string): Option<(string, string)>
  {
    var r :- ReadKey(s, key);
    ReadString(r)
  }

  function ReadStatusInfo(s: string): Option<(StatusInfo, string)>
  {
    match Expect(s, '{')
    case None => None
    case Some(r0) =>
      match ReadBoolField(r0, RunningKey)
      case None => None
      case Some(running) =>
        match Expect(running.1, ',')
        case None => None
        case Some(r1) =>
          match ReadBoolField(r1, ActiveKey)
          case None => None
          case Some(active) =>
            match Expect(active.1, ',')
            case None => None
            case Some(r2) =>
              match ReadStringField(r2, LanguageKey)
              case None => None
              case Some(lang) =>
                match Expect(lang.1, '}')
                case None => None
                case Some(r3) => Some((StatusInfo(running.0, active.0, lang.0), r3))
  }

  /** The unit variants of `Command`, by name. */
  function UnitCommand(name: string): Option<Command>
  {
    if name == StartName then Some(Start)
    else if name == StopName then Some(Stop)
    else if name == PauseName then Some(Pause)
    else if name == ResumeName then Some(Resume)
    else if name == StatusName then Some(Command.Status)
    else if name == ToggleName then Some(Toggle)
    else None
  }

  function ReadCommand(s: string): Option<(Command, string)>
  {
    var t := SkipSpace(s);
    if t != [] && t[0] == '"' then
      var name :- ReadChars(t[1..]);
      var c :- UnitCommand(name.0);
      Some((c, name.1))
    else
      var r0 :- Expect(t, '{');
      var lang :- ReadStringField(r0, SetLanguageName);
      var r1 :- Expect(lang.1, '}');
      Some((SetLanguage(lang.0), r1))
  }

  /** The value inside the object of a `Response` variant with data, chosen by
      the variant name. */
  function ReadTaggedResponse(name: string, s: string): Option<(Response, string)>
  {
    if name == ErrorName then
      var m :- ReadString(s);
      Some((Error(m.0), m.1))
    else if name == StatusName then
      var i :- ReadStatusInfo(s);
      Some((Response.Status(i.0), i.1))
    else None
  }

  function ReadResponse(s: string): Option<(Response, string)>
  {
    var t := SkipSpace(s);
    if t != [] && t[0] == '"' then
      var name :- ReadChars(t[1..]);
      if name.0 == OkName then Some((Response.Ok, name.1)) else None
    else
      var r0 :- Expect(t, '{');
      var name :- ReadString(r0);
      var r1 :- Expect(name.1, ':');
      var v :- ReadTaggedResponse(name.0, r1);
      var r2 :- Expect(v.1, '}');
      Some((v.0, r2))
  }

  /** `serde_json::from_str`: one value, then nothing but whitespace. */
  function DecodeCommand(text: string): Option<Command>
  {
    var c :- ReadCommand(text);
    if SkipSpace(c.1) == [] then Some(c.0) else None
  }

  function DecodeResponse(text: string): Option<Response>
  {
    var r :- ReadResponse(text);
    if SkipSpace(r.1) == [] then Some(r.0) else None
  }

  function DecodeStatusInfo(text: string): Option<StatusInfo>
  {
    var i :- ReadStatusInfo(text);
    if SkipSpace(i.1) == [] then Some(i.0) else None
  }

  // ---------------------------------------------------------------------------
  // Round trips

  /** A character that is not whitespace is read back. */
  lemma OpenAhead(x: string)
    ensures Expect("{" + x, '{') == Some(x)
  {
    ExpectAhead('{', x);
  }

  lemma CloseAhead(x: string)
    ensures Expect("}" + x, '}') == Some(x)
  {
    ExpectAhead('}', x);
  }

  lemma ColonAhead(x: string)
    ensures Expect(":" + x, ':') == Some(x)
  {
    ExpectAhead(':', x);
  }

  lemma CommaAhead(x: string)
    ensures Expect("," + x, ',') == Some(x)
  {
    ExpectAhead(',', x);
  }

  lemma QuoteAhead(x: string)
    ensures Expect("\"" + x, '"') == Some(x)
  {
    ExpectAhead('"', x);
  }

  lemma ExpectAhead(c: char, x: string)
    requires !IsJsonSpace(c)
    ensures Expect([c] + x, c) == Some(x)
  {
    assert ([c] + x)[1..] == x;
  }

  lemma HexRoundTrip(n: nat)
    requires n < 16
    ensures HexValue(HexDigit(n)) == Some(n)
  {
  }

  /** The `\u00XX` escape of a control character reads back as that
      character. */
  lemma ControlEscape(c: char, x: string)
    requires c < ' '
    ensures var h := [HexDigit(c as nat / 16), HexDigit(c as nat % 16)];
      Unescape("u00" + h + x) == Some((c, x))
  {
    var h := [HexDigit(c as nat / 16), HexDigit(c as nat % 16)];
    var s := "u00" + h + x;
    HexRoundTrip(c as nat / 16);
    HexRoundTrip(c as nat % 16);
    assert s[1..5] == "00" + h;
    assert s[5..] == x;
  }

  /** One escaped character reads back as itself. */
  lemma EscapeRead(c: char, x: string)
    ensures ReadChars(Escape(c) + x) == Cons(c, ReadChars(x))
  {
    var s := Escape(c) + x;
    if c < ' ' && c != '\U{8}' && c != '\U{C}' && c != '\n' && c != '\r' && c != '\t' {
      var h := [HexDigit(c as nat / 16), HexDigit(c as nat % 16)];
      ControlEscape(c, x);
      assert s[1..] == "u00" + h + x;
    } else if c == '"' || c == '\\' || c == '\U{8}' || c == '\U{C}' || c == '\n' || c == '\r' || c == '\t' {
      assert s[1..][1..] == x;
    } else {
      assert s[1..] == x;
    }
  }

  /** The escaped characters of `s`, then a closing quote, read back as `s`. */
  lemma {:induction false} EscapedRead(s: string, tail: string)
    ensures ReadChars(WriteEscaped(s, "\"" + tail)) == Some((s, tail))
    decreases |s|
  {
    if s == [] {
      assert ("\"" + tail)[1..] == tail;
    } else {
      EscapedRead(s[1..], tail);
      EscapeRead(s[0], WriteEscaped(s[1..], "\"" + tail));
      assert [s[0]] + s[1..] == s;
    }
  }

  /** Every string reads back from its JSON text. */
  lemma StringRoundTrip(s: string, tail: string)
    ensures ReadString(WriteString(s, tail)) == Some((s, tail))
  {
    QuoteAhead(WriteEscaped(s, "\"" + tail));
    EscapedRead(s, tail);
  }

  lemma KeyRoundTrip(key: string, tail: string)
    ensures ReadKey(WriteString(key, ":" + tail), key) == Some(tail)
  {
    StringRoundTrip(key, ":" + tail);
    ColonAhead(tail);
  }

  lemma BoolRoundTrip(b: bool, tail: string)
    ensures ReadBool(WriteBool(b, tail)) == Some((b, tail))
  {
    var s := WriteBool(b, tail);
    if b {
      assert s[..4] == "true" && s[4..] == tail;
    } else {
      assert s[..5] == "false" && s[5..] == tail;
    }
  }

  lemma BoolFieldRead(key: string, b: bool, tail: string)
    ensures ReadBoolField(WriteString(key, ":" + WriteBool(b, tail)), key) == Some((b, tail))
  {
    KeyRoundTrip(key, WriteBool(b, tail));
    BoolRoundTrip(b, tail);
  }

  lemma StringFieldRead(key: string, v: string, tail: string)
    ensures ReadStringField(WriteString(key, ":" + WriteString(v, tail)), key) == Some((v, tail))
  {
    KeyRoundTrip(key, WriteString(v, tail));
    StringRoundTrip(v, tail);
  }

  /** `ReadStatusInfo` in terms of its steps. */
  lemma StatusInfoSteps(s: string, r0: string, running: (bool, string), r1: string,
                        active: (bool, string), r2: string, lang: (string, string), r3: string)
    requires Expect(s, '{') == Some(r0)
    requires ReadBoolField(r0, RunningKey) == Some(running)
    requires Expect(running.1, ',') == Some(r1)
    requires ReadBoolField(r1, ActiveKey) == Some(active)
    requires Expect(active.1, ',') == Some(r2)
    requires ReadStringField(r2, LanguageKey) == Some(lang)
    requires Expect(lang.1, '}') == Some(r3)
    ensures ReadStatusInfo(s) == Some((StatusInfo(running.0, active.0, lang.0), r3))
  {
  }

  lemma RunningPiece(b: bool, a1: string)
    ensures var a0 := WriteString(RunningKey, ":" + WriteBool(b, "," + a1));
      Expect("{" + a0, '{') == Some(a0) &&
      ReadBoolField(a0, RunningKey) == Some((b, "," + a1)) &&
      Expect("," + a1, ',') == Some(a1)
  {
    OpenAhead(WriteString(RunningKey, ":" + WriteBool(b, "," + a1)));
    BoolFieldRead(RunningKey, b, "," + a1);
    CommaAhead(a1);
  }

  lemma ActivePiece(b: bool, a2: string)
    ensures var a1 := WriteString(ActiveKey, ":" + WriteBool(b, "," + a2));
      ReadBoolField(a1, ActiveKey) == Some((b, "," + a2)) &&
      Expect("," + a2, ',') == Some(a2)
  {
    BoolFieldRead(ActiveKey, b, "," + a2);
    CommaAhead(a2);
  }

  lemma LanguagePiece(l: string, tail: string)
    ensures var a2 := WriteString(LanguageKey, ":" + WriteString(l, "}" + tail));
      ReadStringField(a2, LanguageKey) == Some((l, "}" + tail)) &&
      Expect("}" + tail, '}') == Some(tail)
  {
    StringFieldRead(LanguageKey, l, "}" + tail);
    CloseAhead(tail);
  }

  lemma StatusInfoRead(i: StatusInfo, tail: string)
    ensures ReadStatusInfo(WriteStatusInfo(i, tail)) == Some((i, tail))
  {
    var a2 := WriteString(LanguageKey, ":" + WriteString(i.language, "}" + tail));
    var a1 := WriteString(ActiveKey, ":" + WriteBool(i.isActive, "," + a2));
    var a0 := WriteString(RunningKey, ":" + WriteBool(i.isRunning, "," + a1));
    RunningPiece(i.isRunning, a1);
    ActivePiece(i.isActive, a2);
    LanguagePiece(i.language, tail);
    StatusInfoSteps(WriteStatusInfo(i, tail), a0, (i.isRunning, "," + a1), a1, (i.isActive, "," + a2), a2, (i.language, "}" + tail), tail);
  }

  /** A unit variant's quoted name. */
  lemma UnitRead(name: string, tail: string)
    ensures var t := WriteString(name, tail);
      t != [] && t[0] == '"' && ReadChars(t[1..]) == Some((name, tail))
  {
    var t := WriteString(name, tail);
    assert t[1..] == WriteEscaped(name, "\"" + tail);
    EscapedRead(name, tail);
  }

  /** A unit variant reads back from its quoted name. */
  lemma UnitCommandRead(name: string, c: Command, tail: string)
    requires UnitCommand(name) == Some(c)
    ensures ReadCommand(WriteString(name, tail)) == Some((c, tail))
  {
    UnitRead(name, tail);
  }

  /** The opening brace, the variant name with its colon, and the closing
      brace of a variant with data, with the value between them left
      abstract. */
  lemma TaggedPieces(name: string, value: string, tail: string)
    ensures var a0 := WriteString(name, ":" + value);
      Expect("{" + a0, '{') == Some(a0) &&
      ReadString(a0) == Some((name, ":" + value)) &&
      Expect(":" + value, ':') == Some(value) &&
      Expect("}" + tail, '}') == Some(tail)
  {
    OpenAhead(WriteString(name, ":" + value));
    StringRoundTrip(name, ":" + value);
    ColonAhead(value);
    CloseAhead(tail);
  }

  /** `ReadCommand` on an object, in terms of its steps. */
  lemma SetLanguageSteps(s: string, r0: string, lang: (string, string), r1: string)
    requires Expect(s, '{') == Some(r0)
    requires ReadStringField(r0, SetLanguageName) == Some(lang)
    requires Expect(lang.1, '}') == Some(r1)
    ensures ReadCommand(s) == Some((SetLanguage(lang.0), r1))
  {
  }

  /** The three steps of reading `{"SetLanguage":...}`. */
  lemma SetLanguagePieces(l: string, tail: string)
    ensures var a0 := WriteString(SetLanguageName, ":" + WriteString(l, "}" + tail));
      Expect("{" + a0, '{') == Some(a0) &&
      ReadStringField(a0, SetLanguageName) == Some((l, "}" + tail)) &&
      Expect("}" + tail, '}') == Some(tail)
  {
    OpenAhead(WriteString(SetLanguageName, ":" + WriteString(l, "}" + tail)));
    CloseAhead(tail);
    StringFieldRead(SetLanguageName, l, "}" + tail);
  }

  lemma SetLanguageRead(l: string, tail: string)
    ensures ReadCommand(WriteCommand(SetLanguage(l), tail)) == Some((SetLanguage(l), tail))
  {
    var a0 := WriteString(SetLanguageName, ":" + WriteString(l, "}" + tail));
    SetLanguagePieces(l, tail);
    SetLanguageSteps("{" + a0, a0, (l, "}" + tail), tail);
  }

  lemma CommandRead(c: Command, tail: string)
    ensures ReadCommand(WriteCommand(c, tail)) == Some((c, tail))
  {
    match c
    case SetLanguage(l) => SetLanguageRead(l, tail);
    case Start => UnitCommandRead(StartName, c, tail);
    case Stop => UnitCommandRead(StopName, c, tail);
    case Pause => UnitCommandRead(PauseName, c, tail);
    case Resume => UnitCommandRead(ResumeName, c, tail);
    case Status => UnitCommandRead(StatusName, c, tail);
    case Toggle => UnitCommandRead(ToggleName, c, tail);
  }

  /** `ReadResponse` on an object, in terms of its steps. */
  lemma TaggedResponseSteps(s: string, r0: string, name: (string, string), r1: string,
                            v: (Response, string), r2: string)
    requires Expect(s, '{') == Some(r0)
    requires ReadString(r0) == Some(name)
    requires Expect(name.1, ':') == Some(r1)
    requires ReadTaggedResponse(name.0, r1) == Some(v)
    requires Expect(v.1, '}') == Some(r2)
    ensures ReadResponse(s) == Some((v.0, r2))
  {
  }

  lemma ErrorRead(m: string, tail: string)
    ensures ReadResponse(WriteResponse(Error(m), tail)) == Some((Error(m), tail))
  {
    var value := WriteString(m, "}" + tail);
    TaggedPieces(ErrorName, value, tail);
    StringRoundTrip(m, "}" + tail);
    TaggedResponseSteps(WriteResponse(Error(m), tail), WriteString(ErrorName, ":" + value),
      (ErrorName, ":" + value), value, (Error(m), "}" + tail), tail);
  }

  lemma StatusRead(i: StatusInfo, tail: string)
    ensures ReadResponse(WriteResponse(Response.Status(i), tail)) == Some((Response.Status(i), tail))
  {
    var value := WriteStatusInfo(i, "}" + tail);
    TaggedPieces(StatusName, value, tail);
    StatusInfoRead(i, "}" + tail);
    TaggedResponseSteps(WriteResponse(Response.Status(i), tail), WriteString(StatusName, ":" + value),
      (StatusName, ":" + value), value, (Response.Status(i), "}" + tail), tail);
  }

  lemma ResponseRead(r: Response, tail: string)
    ensures ReadResponse(WriteResponse(r, tail)) == Some((r, tail))
  {
    match r
    case Ok => UnitRead(OkName, tail);
    case Error(m) => ErrorRead(m, tail);
    case Status(i) => StatusRead(i, tail);
  }

  /** Decoding an encoded command gives the same command. */
  lemma CommandRoundTrip(c: Command)
    ensures DecodeCommand(EncodeCommand(c)) == Some(c)
  {
    CommandRead(c, []);
  }

  /** Decoding an encoded response gives the same response. */
  lemma ResponseRoundTrip(r: Response)
    ensures DecodeResponse(EncodeResponse(r)) == Some(r)
  {
    ResponseRead(r, []);
  }

  /** Decoding an encoded status gives the same status. */
  lemma StatusInfoRoundTrip(i: StatusInfo)
    ensures DecodeStatusInfo(EncodeStatusInfo(i)) == Some(i)
  {
    StatusInfoRead(i, []);
  }

  // ---------------------------------------------------------------------------
  // The exact texts

  /** A character serde_json writes unescaped. */
  predicate Plain(c: char)
  {
    c >= ' ' && c != '"' && c != '\\'
  }

  predicate AllPlain(s: string)
  {
    forall k :: 0 <= k < |s| ==> Plain(s[k])
  }

  /** The names and values in the pinned texts need no escape. */
  lemma StatusNamePlain() ensures AllPlain(StatusName) {}
  lemma ErrorNamePlain() ensures AllPlain(ErrorName) {}
  lemma SetLanguageNamePlain() ensures AllPlain(SetLanguageName) {}
  lemma RunningKeyPlain() ensures AllPlain(RunningKey) {}
  lemma ActiveKeyPlain() ensures AllPlain(ActiveKey) {}
  lemma LanguageKeyPlain() ensures AllPlain(LanguageKey) {}
  lemma EnglishPlain() ensures AllPlain("en") {}
  lemma TestErrorPlain() ensures AllPlain("test error") {}

  /** Text without characters to escape is written as it is. */
  lemma {:induction false} PlainEscaped(s: string, tail: string)
    requires AllPlain(s)
    ensures WriteEscaped(s, tail) == s + tail
    decreases |s|
  {
    if s != [] {
      PlainEscaped(s[1..], tail);
      assert s + tail == [s[0]] + (s[1..] + tail);
    }
  }

  lemma Quoted(s: string, tail: string)
    requires AllPlain(s)
    ensures WriteString(s, tail) == "\"" + (s + ("\"" + tail))
  {
    PlainEscaped(s, "\"" + tail);
  }

  /** A unit variant is its quoted name. */
  lemma UnitText(name: string, text: string)
    requires AllPlain(name)
    requires text == "\"" + (name + ("\"" + []))
    ensures WriteString(name, []) == text
  {
    Quoted(name, []);
  }

  lemma UnitCommandTexts()
    ensures EncodeCommand(Start) == "\"Start\""
    ensures EncodeCommand(Stop) == "\"Stop\""
    ensures EncodeCommand(Pause) == "\"Pause\""
    ensures EncodeCommand(Resume) == "\"Resume\""
    ensures EncodeCommand(Command.Status) == "\"Status\""
    ensures EncodeCommand(Toggle) == "\"Toggle\""
  {
    StartText();
    StopText();
    PauseText();
    ResumeText();
    StatusNameText();
    ToggleText();
  }

  lemma StartText() ensures EncodeCommand(Start) == "\"Start\"" { assert AllPlain(StartName); UnitText(StartName, "\"Start\""); }
  lemma StopText() ensures EncodeCommand(Stop) == "\"Stop\"" { assert AllPlain(StopName); UnitText(StopName, "\"Stop\""); }
  lemma PauseText() ensures EncodeCommand(Pause) == "\"Pause\"" { assert AllPlain(PauseName); UnitText(PauseName, "\"Pause\""); }
  lemma ResumeText() ensures EncodeCommand(Resume) == "\"Resume\"" { assert AllPlain(ResumeName); UnitText(ResumeName, "\"Resume\""); }
  lemma StatusNameText() ensures EncodeCommand(Command.Status) == "\"Status\"" { assert AllPlain(StatusName); UnitText(StatusName, "\"Status\""); }
  lemma ToggleText() ensures EncodeCommand(Toggle) == "\"Toggle\"" { assert AllPlain(ToggleName); UnitText(ToggleName, "\"Toggle\""); }

  lemma OkText()
    ensures EncodeResponse(Response.Ok) == "\"Ok\""
  {
    assert AllPlain(OkName);
    UnitText(OkName, "\"Ok\"");
  }

  lemma SetLanguageText()
    ensures EncodeCommand(SetLanguage("en")) == "{\"SetLanguage\":\"en\"}"
  {
    EnglishPlain();
    PlainEscaped("en", "\"" + ("}" + []));
    var v := WriteString("en", "}" + []);
    assert v == "\"" + ("en" + ("\"" + ("}" + [])));
    SetLanguageNamePlain();
    PlainEscaped(SetLanguageName, "\"" + (":" + v));
    assert WriteString(SetLanguageName, ":" + v) == "\"" + ("SetLanguage" + ("\"" + (":" + v)));
    SetLanguageGlue();
  }

  lemma SetLanguageGlue()
    ensures "{" + ("\"" + ("SetLanguage" + ("\"" + (":" + ("\"" + ("en" + ("\"" + ("}" + []))))))))
      == "{\"SetLanguage\":\"en\"}"
  {
  }

  lemma ErrorText()
    ensures EncodeResponse(Error("test error")) == "{\"Error\":\"test error\"}"
  {
    var v := WriteString("test error", "}" + []);
    ErrorNamePlain();
    PlainEscaped(ErrorName, "\"" + (":" + v));
    TestErrorPlain();
    PlainEscaped("test error", "\"" + ("}" + []));
    assert v == "\"" + ("test error" + ("\"" + ("}" + [])));
    assert WriteString(ErrorName, ":" + v) == "\"" + ("Error" + ("\"" + (":" + v)));
    ErrorGlue();
  }

  lemma ErrorGlue()
    ensures "{" + ("\"" + ("Error" + ("\"" + (":" + ("\"" + ("test error" + ("\"" + ("}" + []))))))))
      == "{\"Error\":\"test error\"}"
  {
  }

  /** The `is_running` entry with its opening brace. */
  lemma RunningText(x: string)
    ensures "{" + WriteString(RunningKey, ":" + WriteBool(true, "," + x)) == "{\"is_running\":true," + x
  {
    var y := ":" + WriteBool(true, "," + x);
    assert y == ":" + ("true" + ("," + x));
    RunningKeyPlain();
    PlainEscaped(RunningKey, "\"" + y);
    assert WriteString(RunningKey, y) == "\"" + ("is_running" + ("\"" + y));
    RunningGlue(x);
  }

  lemma RunningGlue(x: string)
    ensures "{" + ("\"" + ("is_running" + ("\"" + (":" + ("true" + ("," + x)))))) == "{\"is_running\":true," + x
  {
  }

  lemma ActiveText(x: string)
    ensures WriteString(ActiveKey, ":" + WriteBool(false, "," + x)) == "\"is_active\":false," + x
  {
    var y := ":" + WriteBool(false, "," + x);
    assert y == ":" + ("false" + ("," + x));
    ActiveKeyPlain();
    PlainEscaped(ActiveKey, "\"" + y);
    assert WriteString(ActiveKey, y) == "\"" + ("is_active" + ("\"" + y));
    ActiveGlue(x);
  }

  lemma ActiveGlue(x: string)
    ensures "\"" + ("is_active" + ("\"" + (":" + ("false" + ("," + x))))) == "\"is_active\":false," + x
  {
  }

  lemma LanguageText(x: string)
    ensures WriteString(LanguageKey, ":" + WriteString("en", x)) == "\"language\":\"en\"" + x
  {
    EnglishPlain();
    PlainEscaped("en", "\"" + x);
    var v := WriteString("en", x);
    assert v == "\"" + ("en" + ("\"" + x));
    LanguageKeyPlain();
    PlainEscaped(LanguageKey, "\"" + (":" + v));
    assert WriteString(LanguageKey, ":" + v) == "\"" + ("language" + ("\"" + (":" + v)));
    LanguageGlue(x);
  }

  lemma LanguageGlue(x: string)
    ensures "\"" + ("language" + ("\"" + (":" + ("\"" + ("en" + ("\"" + x)))))) == "\"language\":\"en\"" + x
  {
  }

  /** The status of a running, inactive daemon set to English, before `x`. */
  lemma StatusInfoText(x: string)
    ensures WriteStatusInfo(StatusInfo(true, false, "en"), x)
      == "{\"is_running\":true," + ("\"is_active\":false," + ("\"language\":\"en\"" + ("}" + x)))
  {
    var x2 := WriteString(LanguageKey, ":" + WriteString("en", "}" + x));
    var x1 := WriteString(ActiveKey, ":" + WriteBool(false, "," + x2));
    LanguageText("}" + x);
    ActiveText(x2);
    RunningText(x1);
  }

  /** The status reply of a running, inactive daemon set to English. */
  lemma StatusText(i: StatusInfo)
    requires i == StatusInfo(true, false, "en")
    ensures EncodeResponse(Response.Status(i))
      == "{\"Status\":" + ("{\"is_running\":true," + ("\"is_active\":false," + ("\"language\":\"en\"" + "}}")))
  {
    StatusHeadText(WriteStatusInfo(i, "}" + []));
    StatusInfoText("}" + []);
    CloseTwice();
  }

  /** The opening of the status reply, before the status object `v`. */
  lemma StatusHeadText(v: string)
    ensures "{" + WriteString(StatusName, ":" + v) == "{\"Status\":" + v
  {
    StatusNamePlain();
    PlainEscaped(StatusName, "\"" + (":" + v));
    assert WriteString(StatusName, ":" + v) == "\"" + ("Status" + ("\"" + (":" + v)));
    StatusGlue(v);
  }

  lemma CloseTwice()
    ensures "}" + ("}" + []) == "}}"
  {
  }

  lemma StatusGlue(x: string)
    ensures "{" + ("\"" + ("Status" + ("\"" + (":" + x)))) == "{\"Status\":" + x
  {
  }

  // ---------------------------------------------------------------------------
  // Error messages

  /** Different errors have different messages, and each message starts with
      the text its variant declares. */
  lemma MessagesDistinct(e1: IpcError, e2: IpcError)
    ensures Message(e1) == Message(e2) ==> e1 == e2
    ensures e1.Io? ==> Message(e1)[..10] == "IO error: "
    ensures e1.Serialization? ==> Message(e1)[..21] == "Serialization error: "
  {
    var m1, m2 := Message(e1), Message(e2);
    if m1 == m2 {
      assert m1[0] == m2[0];
      if e1.Io? && e2.Io? {
        assert e1.detail == m1[10..] && e2.detail == m2[10..];
      } else if e1.Serialization? && e2.Serialization? {
        assert e1.detail == m1[21..] && e2.detail == m2[21..];
      } else if e1.ConnectionRefused? || e1.Timeout? {
        assert m1[11] == m2[11];
      }
    }
  }
}
