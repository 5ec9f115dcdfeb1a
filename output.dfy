/** The console formatter: each `print_<type>` call becomes an `Event`; `Render` builds the
    string handed to `puts` as `[ConsoleKit] ` + optional timestamp + optional symbol + text,
    wrapped in an ANSI colour code when pretty output is on and the level has a colour. */
module Output {
  import opened Ruby

  datatype Level = Error | Success | Warning | Prompt | Header | Trace | Info

  const PREFIX: string := "[ConsoleKit]"

  /** The `symbol` column of the `TYPES` table. */
  function Symbol(level: Level): Option<string> {
    match level
    case Error => Some("[✗]")
    case Success => Some("[✓]")
    case Warning => Some("[!]")
    case _ => None
  }

  /** The `color` column of the `TYPES` table. */
  function Color(level: Level): Option<string> {
    match level
    case Error => Some("1;31")
    case Success => Some("1;32")
    case Warning => Some("1;33")
    case Prompt => Some("1;36")
    case Header => Some("1;34")
    case Trace => Some("0;90")
    case Info => None
  }

  /** One call of `print_with`: the level, the text as formatted and whether the line carries
      a timestamp. */
  datatype Event = Event(level: Level, text: string, timestamp: bool)

  /** A generated `print_<type>(text, timestamp:)` helper; a header is framed first. */
  function Print(level: Level, text: string, timestamp: bool := false): Event {
    Event(level, if level == Header then "\n=== " + text + " ===" else text, timestamp)
  }

  /** `print_backtrace`: one timestamped trace line per backtrace entry, none for a nil
      exception or a nil backtrace. */
  function PrintBacktrace(backtrace: Option<seq<string>>): (events: seq<Event>)
    ensures backtrace.None? ==> events == []
    ensures backtrace.Some? ==> |events| == |backtrace.value|
    ensures backtrace.Some? ==>
      forall i :: 0 <= i < |events| ==> events[i] == Event(Trace, "    " + backtrace.value[i], true)
    decreases if backtrace.Some? then |backtrace.value| else 0
  {
    match backtrace
    case None => []
    case Some(lines) =>
      if lines == [] then []
      else [Event(Trace, "    " + lines[0], true)] + PrintBacktrace(Some(lines[1..]))
  }

  /** `timestamp_prefix`: the clock reading `now` (already formatted as
      `%Y-%m-%d %H:%M:%S`) in brackets, or nothing. */
  function TimestampPrefix(timestamp: bool, now: string): string {
    if timestamp then "[" + now + "] " else ""
  }

  /** `symbol_prefix`: the symbol and one space, or nothing. */
  function SymbolPrefix(symbol: Option<string>): string {
    match symbol
    case None => ""
    case Some(sym) => sym + " "
  }

  /** `build_message`. */
  function BuildMessage(text: string, symbol: Option<string>, timestamp: bool, now: string): (m: string)
    ensures |m| == |PREFIX| + 1 + |TimestampPrefix(timestamp, now)| + |SymbolPrefix(symbol)| + |text|
    ensures m[..|PREFIX| + 1] == "[ConsoleKit] "
    ensures m[|m| - |text|..] == text
  {
    PREFIX + " " + TimestampPrefix(timestamp, now) + SymbolPrefix(symbol) + text
  }

  /** `output`: the string given to `puts`. */
  function OutputLine(message: string, color: Option<string>, pretty: bool): string {
    if pretty && color.Some? then [ESC] + "[" + color.value + "m" + message + [ESC] + "[0m"
    else message
  }

  /** `print_with(type, text, timestamp)` with the clock reading `now` and the configured
      `pretty_output`. */
  function Render(e: Event, pretty: bool, now: string): string {
    OutputLine(BuildMessage(e.text, Symbol(e.level), e.timestamp, now), Color(e.level), pretty)
  }

  // ---------------------------------------------------------------------------
  // Properties of the formatter

  /** The message a plain `print_<type>(text)` prints, as the formatter tests spell it out:
      a header is `"[ConsoleKit] \n=== text ==="`, every other level is the tag, then the
      symbol and one space when the level has one, then the text. */
  function ExpectedPlainLine(level: Level, text: string): string {
    if level == Header then "[ConsoleKit] \n=== " + text + " ==="
    else if level == Error then "[ConsoleKit] [✗] " + text
    else if level == Success then "[ConsoleKit] [✓] " + text
    else if level == Warning then "[ConsoleKit] [!] " + text
    else "[ConsoleKit] " + text
  }

  /** Without colour, every `print_<type>(text)` prints exactly the expected line. */
  lemma {:induction false} PlainLines(level: Level, text: string, now: string)
    ensures Render(Print(level, text), false, now) == ExpectedPlainLine(level, text)
  {
    var e := Print(level, text);
    UntimestampedMessage(e.text, Symbol(level), now);
    assert Render(e, false, now) == "[ConsoleKit] " + SymbolPrefix(Symbol(level)) + e.text;
    match level
    case Header =>
      assert "[ConsoleKit] " + "" + ("\n=== " + text + " ===") == "[ConsoleKit] \n=== " + text + " ===";
    case Error =>
      assert "[ConsoleKit] " + "[✗] " == "[ConsoleKit] [✗] ";
    case Success =>
      assert "[ConsoleKit] " + "[✓] " == "[ConsoleKit] [✓] ";
    case Warning =>
      assert "[ConsoleKit] " + "[!] " == "[ConsoleKit] [!] ";
    case _ =>
      assert "[ConsoleKit] " + "" == "[ConsoleKit] ";
  }

  /** Without a timestamp the message is the tag, one space, the symbol prefix and the text. */
  lemma UntimestampedMessage(text: string, symbol: Option<string>, now: string)
    ensures BuildMessage(text, symbol, false, now) == "[ConsoleKit] " + SymbolPrefix(symbol) + text
  {
    assert PREFIX + " " == "[ConsoleKit] ";
    assert TimestampPrefix(false, now) == "";
    assert PREFIX + " " + "" == PREFIX + " ";
  }

  /** Only error, success and warning carry a symbol. */
  lemma SymbolLevels(level: Level)
    ensures Symbol(level).Some? <==> level in {Error, Success, Warning}
  {
  }

  predicate IsColorCode(code: string) {
    |code| > 0 && forall i :: 0 <= i < |code| ==> IsDigit(code[i]) || code[i] == ';'
  }

  /** Every colour in the table is a `[\d;]+` code. */
  lemma ColorsAreCodes(level: Level)
    requires Color(level).Some?
    ensures IsColorCode(Color(level).value)
  {
  }

  /** The formatter's own pieces contain no escape character. */
  lemma {:induction false} MessageHasNoEscape(e: Event, now: string)
    requires NoEscape(e.text) && NoEscape(now)
    ensures NoEscape(BuildMessage(e.text, Symbol(e.level), e.timestamp, now))
  {
    var ts := TimestampPrefix(e.timestamp, now);
    var sym := SymbolPrefix(Symbol(e.level));
    NoEscapeConcat("[", now);
    NoEscapeConcat("[" + now, "] ");
    assert NoEscape(ts);
    assert NoEscape(sym);
    NoEscapeConcat(PREFIX, " ");
    NoEscapeConcat(PREFIX + " ", ts);
    NoEscapeConcat(PREFIX + " " + ts, sym);
    NoEscapeConcat(PREFIX + " " + ts + sym, e.text);
  }

  /** A rendered line holds an escape code exactly when pretty output is on and the level
      has a colour (so info lines and non-pretty output never do). */
  lemma {:induction false} EscapeIffColoured(e: Event, pretty: bool, now: string)
    requires NoEscape(e.text) && NoEscape(now)
    ensures !NoEscape(Render(e, pretty, now)) <==> pretty && Color(e.level).Some?
  {
    MessageHasNoEscape(e, now);
    var line := Render(e, pretty, now);
    if pretty && Color(e.level).Some? {
      assert line[0] == ESC;
    }
  }

  /** `gsub(/\e\[[\d;]+m/, '')`: removes every ANSI colour code, scanning left to right. */
  function StripAnsi(s: string): string
    decreases |s|
  {
    if s == [] then []
    else if MatchLength(s) > 0 then StripAnsi(s[MatchLength(s)..])
    else [s[0]] + StripAnsi(s[1..])
  }

  /** The length of the match of `\e\[[\d;]+m` at the start of `s`, or 0 if none. */
  function MatchLength(s: string): (k: nat)
    ensures k == 0 || 4 <= k <= |s|
    ensures s != [] && s[0] != ESC ==> k == 0
  {
    var n := CodeLength(s, 2);
    if |s| >= 2 && s[0] == ESC && s[1] == '[' && n > 0 && 2 + n < |s| && s[2 + n] == 'm' then 3 + n
    else 0
  }

  /** The length of the run of digits and semicolons in `s` starting at `from`. */
  function CodeLength(s: string, from: nat): (n: nat)
    ensures from + n <= |s| || (from >= |s| && n == 0)
    ensures forall i :: from <= i < from + n ==> IsDigit(s[i]) || s[i] == ';'
    ensures from + n < |s| ==> !(IsDigit(s[from + n]) || s[from + n] == ';')
    decreases |s| - from
  {
    if from < |s| && (IsDigit(s[from]) || s[from] == ';') then 1 + CodeLength(s, from + 1) else 0
  }

  /** A colour code followed by `m` is matched as a whole. */
  lemma {:induction false} MatchOfCode(code: string, rest: string)
    requires IsColorCode(code) && rest != [] && rest[0] == 'm'
    ensures MatchLength([ESC] + "[" + code + rest) == 3 + |code|
  {
    var s := [ESC] + "[" + code + rest;
    forall i | 2 <= i < 2 + |code| ensures s[i] == code[i - 2] { }
    assert s[2 + |code|] == 'm';
    assert CodeLength(s, 2) == |code|;
  }

  /** Removing the codes from escape-free text followed by the reset code gives the text. */
  lemma {:induction false} StripAnsiEnd(msg: string)
    requires NoEscape(msg)
    ensures StripAnsi(msg + [ESC] + "[0m") == msg
  {
    var s := msg + [ESC] + "[0m";
    if msg == [] {
      MatchOfCode("0", "m");
      assert s == [ESC] + "[" + "0" + "m";
      assert s[4..] == [];
    } else {
      assert s[0] == msg[0] != ESC;
      assert s[1..] == msg[1..] + [ESC] + "[0m";
      StripAnsiEnd(msg[1..]);
      assert msg == [msg[0]] + msg[1..];
    }
  }

  /** Removing the codes from a coloured message of escape-free text gives the message. */
  lemma {:induction false} StripAnsiColoured(msg: string, code: string)
    requires NoEscape(msg) && IsColorCode(code)
    ensures StripAnsi([ESC] + "[" + code + "m" + msg + [ESC] + "[0m") == msg
  {
    var tail := msg + [ESC] + "[0m";
    var s := [ESC] + "[" + code + ("m" + tail);
    assert s == [ESC] + "[" + code + "m" + msg + [ESC] + "[0m";
    MatchOfCode(code, "m" + tail);
    assert s[3 + |code|..] == tail;
    StripAnsiEnd(msg);
  }

  /** Stripping the colour codes from any rendered line leaves the uncoloured message. */
  lemma RenderStripsToMessage(e: Event, pretty: bool, now: string)
    requires NoEscape(e.text) && NoEscape(now)
    ensures StripAnsi(Render(e, pretty, now)) == BuildMessage(e.text, Symbol(e.level), e.timestamp, now)
  {
    var m := BuildMessage(e.text, Symbol(e.level), e.timestamp, now);
    MessageHasNoEscape(e, now);
    if pretty && Color(e.level).Some? {
      ColorsAreCodes(e.level);
      StripAnsiColoured(m, Color(e.level).value);
    } else {
      StripAnsiOfPlain(m);
    }
  }

  lemma {:induction false} StripAnsiOfPlain(s: string)
    requires NoEscape(s)
    ensures StripAnsi(s) == s
  {
    if s != [] {
      StripAnsiOfPlain(s[1..]);
    }
  }

  /** A coloured error reads `[ConsoleKit] [✗] text` once the codes are removed
      (for the text "Boom": `[ConsoleKit] [✗] Boom`). */
  lemma ColouredErrorReadable(text: string, now: string)
    requires NoEscape(text) && NoEscape(now)
    ensures StripAnsi(Render(Print(Error, text), true, now)) == "[ConsoleKit] [✗] " + text
  {
    RenderStripsToMessage(Print(Error, text), true, now);
    ErrorMessage(text, now);
  }

  lemma ErrorMessage(text: string, now: string)
    ensures BuildMessage(text, Symbol(Error), false, now) == "[ConsoleKit] [✗] " + text
  {
    UntimestampedMessage(text, Some("[✗]"), now);
    assert "[✗]" + " " == "[✗] ";
    assert "[ConsoleKit] " + "[✗] " == "[ConsoleKit] [✗] ";
  }

  /** Each backtrace entry is printed as a timestamped, dim line `[ConsoleKit] [now]     entry`. */
  lemma BacktraceLines(lines: seq<string>, i: nat, pretty: bool, now: string)
    requires i < |lines|
    ensures |PrintBacktrace(Some(lines))| == |lines|
    ensures Render(PrintBacktrace(Some(lines))[i], pretty, now)
         == OutputLine("[ConsoleKit] [" + now + "] " + "    " + lines[i], Some("0;90"), pretty)
  {
    var e := PrintBacktrace(Some(lines))[i];
    assert e == Event(Trace, "    " + lines[i], true);
    assert BuildMessage(e.text, Symbol(e.level), e.timestamp, now)
        == "[ConsoleKit] [" + now + "] " + "    " + lines[i];
  }
}
