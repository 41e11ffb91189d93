/** Log patterns: compiled into a sequence of formatters, against the meaning of the pattern
    read character by character. */
module LogFormatter {
  import opened Wrappers

  type Level = n: nat | n < 6

  // Times are milliseconds since the epoch.
  datatype Message = Message(
    threadId: string, threadName: string, functionName: string, fileName: string, baseName: string,
    line: nat, level: Level, loggerName: string, logLine: string, logTime: int)

  // A flag formatter written by a user.
  type Custom = nat

  // What custom formatters do, what their Clone gives, and what a time looks like.
  datatype World = World(format: (Custom, Message) -> string, cloneOf: Custom -> Custom, timeText: int -> string)

  datatype Formatter =
    | ThreadId | ThreadName | FunctionName | FileName | BaseName | FileLine | LogLevel
    | LoggerName | LogLine | NewLine | LocalTime
    | Text(text: string)
    | CustomFlag(custom: Custom)

  const LevelNames := ["TRACE", "DEBUG", "INFO ", "WARN ", "ERROR", "FATAL"]

  function Decimal(n: nat): string {
    if n < 10 then ['0' + n as char] else Decimal(n / 10) + ['0' + (n % 10) as char]
  }

  function FormatOne(f: Formatter, m: Message, w: World): string {
    match f
    case ThreadId => m.threadId
    case ThreadName => m.threadName
    case FunctionName => m.functionName
    case FileName => m.fileName
    case BaseName => m.baseName
    case FileLine => Decimal(m.line)
    case LogLevel => LevelNames[m.level]
    case LoggerName => m.loggerName
    case LogLine => m.logLine
    case NewLine => "\n"
    case LocalTime => w.timeText(m.logTime)
    case Text(text) => text
    case CustomFlag(custom) => w.format(custom, m)
  }

  function ValueOf(digits: string): int {
    if digits == "" then 0
    else 10 * ValueOf(digits[..|digits| - 1]) + (digits[|digits| - 1] as int - '0' as int)
  }

  /** A number is written in digits without leading zeros, and they say what it is. */
  lemma {:induction false} DecimalIs(n: nat)
    ensures var r := Decimal(n);
            && r != "" && (forall i :: 0 <= i < |r| ==> '0' <= r[i] <= '9')
            && ValueOf(r) == n && (r[0] == '0' ==> n == 0 && r == "0")
  {
    var r := Decimal(n);
    if n < 10 {
      assert r[..0] == "";
    } else {
      DecimalIs(n / 10);
      assert r[..|r| - 1] == Decimal(n / 10);
    }
  }

  /** What the sequence appends to a buffer. */
  function FormatAll(sequence: seq<Formatter>, m: Message, w: World): string {
    if sequence == [] then ""
    else FormatAll(sequence[..|sequence| - 1], m, w) + FormatOne(sequence[|sequence| - 1], m, w)
  }

  /** The flags that need no definition. */
  function HandleFlag(c: char): Option<Formatter> {
    match c
    case 't' => Some(ThreadId)
    case 'N' => Some(ThreadName)
    case 'f' => Some(FunctionName)
    case 'F' => Some(FileName)
    case 'l' => Some(FileLine)
    case 'L' => Some(LogLevel)
    case 'n' => Some(NewLine)
    case 'T' => Some(LocalTime)
    case 'c' => Some(LogLine)
    case 'm' => Some(LoggerName)
    case 'b' => Some(BaseName)
    case _ => None
  }

  type FlagMap = map<char, Custom>

  // ----- The meaning of a pattern -----

  function After(head: string, rest: Option<string>): Option<string> {
    if rest.None? then None else Some(head + rest.value)
  }

  function LevelText(level: Level): string {
    match level
    case 0 => "TRACE"
    case 1 => "DEBUG"
    case 2 => "INFO "
    case 3 => "WARN "
    case 4 => "ERROR"
    case 5 => "FATAL"
  }

  /** What each flag shows of a message. */
  function FlagText(c: char, m: Message, w: World): Option<string> {
    if c == 't' then Some(m.threadId)
    else if c == 'N' then Some(m.threadName)
    else if c == 'f' then Some(m.functionName)
    else if c == 'F' then Some(m.fileName)
    else if c == 'b' then Some(m.baseName)
    else if c == 'l' then Some(Decimal(m.line))
    else if c == 'L' then Some(LevelText(m.level))
    else if c == 'm' then Some(m.loggerName)
    else if c == 'c' then Some(m.logLine)
    else if c == 'n' then Some("\n")
    else if c == 'T' then Some(w.timeText(m.logTime))
    else None
  }

  /** The formatter made for a flag shows that, and there is none for other characters. */
  lemma FlagShows(c: char, m: Message, w: World)
    ensures var f := HandleFlag(c);
            FlagText(c, m, w) == if f.None? then None else Some(FormatOne(f.value, m, w))
  {
  }

  /** Character by character from `i` on: `%%` is a per cent sign, `%` and a flag is what the
      flag stands for, the user's flags before the built-in ones, all else is itself. */
  function Interpret(p: string, i: nat, flags: FlagMap, m: Message, w: World): Option<string>
    requires i <= |p|
    decreases |p| - i
  {
    if i == |p| then Some("")
    else if p[i] != '%' then After([p[i]], Interpret(p, i + 1, flags, m, w))
    else if i + 1 == |p| then None
    else if p[i + 1] == '%' then After("%", Interpret(p, i + 2, flags, m, w))
    else if p[i + 1] in flags then After(w.format(flags[p[i + 1]], m), Interpret(p, i + 2, flags, m, w))
    else if FlagText(p[i + 1], m, w).Some? then
      After(FlagText(p[i + 1], m, w).value, Interpret(p, i + 2, flags, m, w))
    else None
  }

  // ----- Compiling -----

  function Flush(sequence: seq<Formatter>, text: string): seq<Formatter> {
    if text == "" then sequence else sequence + [Text(text)]
  }

  /** The user's flags before the built-in ones. */
  function FlagOf(c: char, flags: FlagMap, w: World): Option<Formatter> {
    if c in flags then Some(CustomFlag(w.cloneOf(flags[c]))) else HandleFlag(c)
  }

  /** The loop of CompilePattern from `i` on, with what it has gathered. */
  function Compile(p: string, i: nat, text: string, sequence: seq<Formatter>, flags: FlagMap, w: World): Option<seq<Formatter>>
    requires i <= |p|
    decreases |p| - i
  {
    if i == |p| then Some(Flush(sequence, text))
    else if p[i] != '%' then Compile(p, i + 1, text + [p[i]], sequence, flags, w)
    else if i + 1 == |p| then None
    else if p[i + 1] == '%' then Compile(p, i + 2, text + "%", sequence, flags, w)
    else
      var flag := FlagOf(p[i + 1], flags, w);
      if flag.None? then None else Compile(p, i + 2, "", Flush(sequence, text) + [flag.value], flags, w)
  }

  function Compiled(p: string, flags: FlagMap, w: World): Option<seq<Formatter>> {
    Compile(p, 0, "", [], flags, w)
  }

  lemma FormatFlushed(sequence: seq<Formatter>, text: string, m: Message, w: World)
    ensures FormatAll(Flush(sequence, text), m, w) == FormatAll(sequence, m, w) + text
  {
    FormatPushed(sequence, Text(text), m, w);
  }

  lemma FormatPushed(sequence: seq<Formatter>, f: Formatter, m: Message, w: World)
    ensures FormatAll(sequence + [f], m, w) == FormatAll(sequence, m, w) + FormatOne(f, m, w)
  {
    assert (sequence + [f])[..|sequence|] == sequence;
  }

  /** Clone of a custom formatter formats as the formatter does. */
  ghost predicate Faithful(w: World) {
    forall c, m {:trigger w.format(w.cloneOf(c), m)} :: w.format(w.cloneOf(c), m) == w.format(c, m)
  }

  function Cloned(flags: FlagMap, w: World): FlagMap {
    map c | c in flags :: w.cloneOf(flags[c])
  }

  // `all` is `head` and then what `rest` says, if it says anything.
  predicate Continues(all: Option<seq<Formatter>>, head: string, rest: Option<string>, m: Message, w: World) {
    && (all.None? <==> rest.None?)
    && (all.Some? ==> FormatAll(all.value, m, w) == head + rest.value)
  }

  lemma ContinuesAfter(all: Option<seq<Formatter>>, head: string, one: string, rest: Option<string>, m: Message, w: World)
    requires Continues(all, head + one, rest, m, w)
    ensures Continues(all, head, After(one, rest), m, w)
  {
    if rest.Some? {
      assert (head + one) + rest.value == head + (one + rest.value);
    }
  }

  /** A character of text, with what follows. */
  lemma TextContinues(all: Option<seq<Formatter>>, sequence: seq<Formatter>, text: string, one: string, rest: Option<string>, m: Message, w: World)
    requires Continues(all, FormatAll(sequence, m, w) + (text + one), rest, m, w)
    ensures Continues(all, FormatAll(sequence, m, w) + text, After(one, rest), m, w)
  {
    Regroup(FormatAll(sequence, m, w), text, one);
    ContinuesAfter(all, FormatAll(sequence, m, w) + text, one, rest, m, w);
  }

  /** A flag, with what follows. */
  lemma FlagContinues(all: Option<seq<Formatter>>, sequence: seq<Formatter>, text: string, flag: Formatter, rest: Option<string>, m: Message, w: World)
    requires Continues(all, FormatAll(Flush(sequence, text) + [flag], m, w) + "", rest, m, w)
    ensures Continues(all, FormatAll(sequence, m, w) + text, After(FormatOne(flag, m, w), rest), m, w)
  {
    var head, one := FormatAll(sequence, m, w) + text, FormatOne(flag, m, w);
    FormatFlushed(sequence, text, m, w);
    FormatPushed(Flush(sequence, text), flag, m, w);
    assert (head + one) + "" == head + one;
    ContinuesAfter(all, head, one, rest, m, w);
  }

  /** A flag means what its formatter shows. */
  lemma FlagMeans(p: string, i: nat, flags: FlagMap, m: Message, w: World)
    requires i + 1 < |p| && p[i] == '%' && p[i + 1] != '%'
    ensures FlagOf(p[i + 1], flags, w).None? ==> Interpret(p, i, Cloned(flags, w), m, w) == None
    ensures FlagOf(p[i + 1], flags, w).Some? ==>
              var shown := FormatOne(FlagOf(p[i + 1], flags, w).value, m, w);
              Interpret(p, i, Cloned(flags, w), m, w) == After(shown, Interpret(p, i + 2, Cloned(flags, w), m, w))
  {
    FlagShows(p[i + 1], m, w);
  }

  lemma {:induction false} CompileContinues(
    p: string, i: nat, text: string, sequence: seq<Formatter>, flags: FlagMap, m: Message, w: World)
    requires i <= |p|
    ensures Continues(Compile(p, i, text, sequence, flags, w), FormatAll(sequence, m, w) + text,
                      Interpret(p, i, Cloned(flags, w), m, w), m, w)
    decreases |p| - i
  {
    var all := Compile(p, i, text, sequence, flags, w);
    if i == |p| {
      FormatFlushed(sequence, text, m, w);
      assert (FormatAll(sequence, m, w) + text) + "" == FormatAll(sequence, m, w) + text;
    } else if p[i] != '%' {
      CompileContinues(p, i + 1, text + [p[i]], sequence, flags, m, w);
      TextContinues(all, sequence, text, [p[i]], Interpret(p, i + 1, Cloned(flags, w), m, w), m, w);
    } else if i + 1 < |p| && p[i + 1] == '%' {
      CompileContinues(p, i + 2, text + "%", sequence, flags, m, w);
      TextContinues(all, sequence, text, "%", Interpret(p, i + 2, Cloned(flags, w), m, w), m, w);
    } else if i + 1 < |p| {
      var flag := FlagOf(p[i + 1], flags, w);
      FlagMeans(p, i, flags, m, w);
      if flag.Some? {
        CompileContinues(p, i + 2, "", Flush(sequence, text) + [flag.value], flags, m, w);
        FlagContinues(all, sequence, text, flag.value, Interpret(p, i + 2, Cloned(flags, w), m, w), m, w);
      }
    }
  }

  lemma Regroup(a: string, b: string, c: string)
    ensures a + (b + c) == (a + b) + c
  {
  }

  /** Compiling preserves meaning: it fails exactly when the pattern means nothing, and else
      formatting with the sequence is interpreting the pattern. The custom flags are clones. */
  lemma CompilingMeans(p: string, flags: FlagMap, m: Message, w: World)
    ensures Compiled(p, flags, w).None? <==> Interpret(p, 0, Cloned(flags, w), m, w).None?
    ensures Compiled(p, flags, w).Some? ==>
      FormatAll(Compiled(p, flags, w).value, m, w) == Interpret(p, 0, Cloned(flags, w), m, w).value
  {
    CompileContinues(p, 0, "", [], flags, m, w);
    if Compiled(p, flags, w).Some? {
      var r := Interpret(p, 0, Cloned(flags, w), m, w).value;
      assert ("" + "") + r == r;
    }
  }

  // ----- The shape of the sequence -----

  /** Text nodes are not empty and never adjacent. */
  predicate Tidy(sequence: seq<Formatter>) {
    && (forall k :: 0 <= k < |sequence| && sequence[k].Text? ==> sequence[k].text != "")
    && (forall k :: 0 < k < |sequence| ==> !sequence[k - 1].Text? || !sequence[k].Text?)
  }

  predicate EndsInText(sequence: seq<Formatter>) {
    sequence != [] && sequence[|sequence| - 1].Text?
  }

  lemma {:induction false} CompileTidy(p: string, i: nat, text: string, sequence: seq<Formatter>, flags: FlagMap, w: World)
    requires i <= |p| && Tidy(sequence) && !EndsInText(sequence)
    ensures Compile(p, i, text, sequence, flags, w).Some? ==> Tidy(Compile(p, i, text, sequence, flags, w).value)
    decreases |p| - i
  {
    if i < |p| && p[i] != '%' {
      CompileTidy(p, i + 1, text + [p[i]], sequence, flags, w);
    } else if i + 1 < |p| && p[i + 1] == '%' {
      CompileTidy(p, i + 2, text + "%", sequence, flags, w);
    } else if i + 1 < |p| {
      var flag := FlagOf(p[i + 1], flags, w);
      if flag.Some? {
        CompileTidy(p, i + 2, "", Flush(sequence, text) + [flag.value], flags, w);
      }
    }
  }

  lemma CompiledIsTidy(p: string, flags: FlagMap, w: World)
    ensures Compiled(p, flags, w).Some? ==> Tidy(Compiled(p, flags, w).value)
  {
    CompileTidy(p, 0, "", [], flags, w);
  }

  // ----- Clones -----

  lemma {:induction false} FaithfulInterprets(p: string, i: nat, flags: FlagMap, m: Message, w: World)
    requires i <= |p| && Faithful(w)
    ensures Interpret(p, i, Cloned(flags, w), m, w) == Interpret(p, i, flags, m, w)
    decreases |p| - i
  {
    if i < |p| && p[i] != '%' {
      FaithfulInterprets(p, i + 1, flags, m, w);
    } else if i + 1 < |p| {
      FaithfulInterprets(p, i + 2, flags, m, w);
      if p[i + 1] in flags {
        assert w.format(w.cloneOf(flags[p[i + 1]]), m) == w.format(flags[p[i + 1]], m);
      }
    }
  }

  /** Whether a pattern compiles depends on which flags there are, not on what they do. */
  lemma {:induction false} CloneCompiles(
    p: string, i: nat, text: string, sequence: seq<Formatter>, other: seq<Formatter>, flags: FlagMap, w: World)
    requires i <= |p|
    ensures Compile(p, i, text, sequence, Cloned(flags, w), w).Some? <==> Compile(p, i, text, other, flags, w).Some?
    decreases |p| - i
  {
    if i < |p| && p[i] != '%' {
      CloneCompiles(p, i + 1, text + [p[i]], sequence, other, flags, w);
    } else if i + 1 < |p| && p[i + 1] == '%' {
      CloneCompiles(p, i + 2, text + "%", sequence, other, flags, w);
    } else if i + 1 < |p| {
      var a, b := FlagOf(p[i + 1], Cloned(flags, w), w), FlagOf(p[i + 1], flags, w);
      if a.Some? {
        CloneCompiles(p, i + 2, "", Flush(sequence, text) + [a.value], Flush(other, text) + [b.value], flags, w);
      }
    }
  }

  /** A clone compiles when the original does, and formats every message identically, provided
      that the clones of custom formatters do. */
  lemma CloneFormatsAlike(p: string, flags: FlagMap, m: Message, w: World)
    ensures Compiled(p, Cloned(flags, w), w).Some? <==> Compiled(p, flags, w).Some?
    ensures Faithful(w) && Compiled(p, flags, w).Some? ==>
      FormatAll(Compiled(p, Cloned(flags, w), w).value, m, w) == FormatAll(Compiled(p, flags, w).value, m, w)
  {
    CloneCompiles(p, 0, "", [], [], flags, w);
    if Faithful(w) {
      CompilingMeans(p, flags, m, w);
      CompilingMeans(p, Cloned(flags, w), m, w);
      FaithfulInterprets(p, 0, flags, m, w);
      FaithfulInterprets(p, 0, Cloned(flags, w), m, w);
    }
  }

  // ----- The formatter object -----

  class LogFormatter {
    var pattern: string
    var flagMap: FlagMap
    var formatSequence: seq<Formatter>
    const world: World

    /** The sequence is what the pattern compiles to. */
    predicate Valid()
      reads this
    {
      Compiled(pattern, flagMap, world) == Some(formatSequence)
    }

    /** Compiling a pattern that means nothing aborts, hence the precondition. */
    constructor (p: string, flags: FlagMap, w: World)
      requires Compiled(p, flags, w).Some?
      ensures Valid() && pattern == p && flagMap == flags && world == w
    {
      pattern, flagMap, world := p, flags, w;
      formatSequence := [];
      new;
      var ok := CompilePattern();
    }

    method CompilePattern() returns (ok: bool)
      modifies this`formatSequence
      ensures ok <==> Compiled(pattern, flagMap, world).Some?
      ensures if ok then Valid() else formatSequence == old(formatSequence)
    {
      var sequence: seq<Formatter> := [];
      var n := |pattern|;
      var text := "";
      var i := 0;
      while i < n
        invariant i <= n
        invariant Compile(pattern, i, text, sequence, flagMap, world) == Compiled(pattern, flagMap, world)
      {
        if pattern[i] == '%' && i + 1 >= n {
          return false;
        }
        if pattern[i] != '%' {
          text := text + [pattern[i]];
          i := i + 1;
          continue;
        }
        i := i + 1;
        if pattern[i] == '%' {
          text := text + [pattern[i]];
          i := i + 1;
          continue;
        }
        if text != "" {
          sequence := sequence + [Text(text)];
          text := "";
        }
        if pattern[i] !in flagMap {
          var flag := HandleFlag(pattern[i]);
          if flag.None? {
            return false;
          }
          sequence := sequence + [flag.value];
        } else {
          sequence := sequence + [CustomFlag(world.cloneOf(flagMap[pattern[i]]))];
        }
        i := i + 1;
      }
      if text != "" {
        sequence := sequence + [Text(text)];
      }
      formatSequence := sequence;
      return true;
    }

    method SetPattern(p: string)
      requires Compiled(p, flagMap, world).Some?
      modifies this
      ensures Valid() && pattern == p && flagMap == old(flagMap)
    {
      pattern := p;
      var ok := CompilePattern();
    }

    /** Appends to the buffer what the pattern means. */
    method Format(m: Message, buffer: string) returns (buffer': string)
      requires Valid()
      ensures Interpret(pattern, 0, Cloned(flagMap, world), m, world).Some?
      ensures buffer' == buffer + Interpret(pattern, 0, Cloned(flagMap, world), m, world).value
    {
      CompilingMeans(pattern, flagMap, m, world);
      buffer' := buffer;
      for k := 0 to |formatSequence|
        invariant buffer' == buffer + FormatAll(formatSequence[..k], m, world)
      {
        FormatPushed(formatSequence[..k], formatSequence[k], m, world);
        assert formatSequence[..k + 1] == formatSequence[..k] + [formatSequence[k]];
        Regroup(buffer, FormatAll(formatSequence[..k], m, world), FormatOne(formatSequence[k], m, world));
        buffer' := buffer' + FormatOne(formatSequence[k], m, world);
      }
      assert formatSequence[..|formatSequence|] == formatSequence;
    }

    method Clone() returns (copy: LogFormatter)
      requires Valid()
      ensures fresh(copy) && copy.Valid()
      ensures copy.pattern == pattern && copy.flagMap == Cloned(flagMap, world) && copy.world == world
    {
      CloneCompiles(pattern, 0, "", [], [], flagMap, world);
      copy := new LogFormatter(pattern, Cloned(flagMap, world), world);
    }
  }
}

/** The formatter of local times, which remembers the text of the last second it has shown. */
module LocalTimeFormatter {
  type Digits2 = n: nat | n < 100
  type Digits4 = n: nat | n < 10000

  datatype Exploded = Exploded(year: Digits4, month: Digits2, day: Digits2, hour: Digits2, minute: Digits2, second: Digits2)

  // What localtime_r makes of a second.
  type Calendar = int -> Exploded

  // Division as C++ has it, toward zero.
  function Seconds(ms: int): int {
    if ms >= 0 then ms / 1000 else -(-ms / 1000)
  }

  function Digit(n: int): char
    requires -48 <= n <= 9
  {
    (48 + n) as char
  }

  function Quotient(a: int, b: nat): int
    requires b > 0
  {
    if a >= 0 then a / b else -(-a / b)
  }

  function Pad2(v: Digits2): string {
    [Digit(v / 10), Digit(v % 10)]
  }

  /** For times before 1970 the fraction is negative, and its digits come out as other signs. */
  function Pad3(v: int): (r: string)
    requires -1000 < v < 1000
    ensures |r| == 3
  {
    var tens := Quotient(v, 10);
    [Digit(Quotient(v, 100)), Digit(tens - 10 * Quotient(tens, 10)), Digit(v - 10 * tens)]
  }

  function Pad4(v: Digits4): string {
    [Digit(v / 1000)] + Pad3(v % 1000)
  }

  function DateText(e: Exploded): (r: string)
    ensures |r| == 19
  {
    Pad4(e.year) + "-" + Pad2(e.month) + "-" + Pad2(e.day) + " " + Pad2(e.hour) + ":" + Pad2(e.minute) + ":" + Pad2(e.second)
  }

  function Fraction(ms: int): (f: int)
    ensures -1000 < f < 1000
  {
    ms - Seconds(ms) * 1000
  }

  // ----- What a time should look like -----

  /** The last `n` decimal digits of a number. */
  function Digits(v: nat, n: nat): (r: string)
    ensures |r| == n && forall i :: 0 <= i < n ==> '0' <= r[i] <= '9'
  {
    if n == 0 then "" else Digits(v / 10, n - 1) + ["0123456789"[v % 10]]
  }

  function RightDate(e: Exploded): (r: string)
    ensures |r| == 19
  {
    Digits(e.year, 4) + "-" + Digits(e.month, 2) + "-" + Digits(e.day, 2) + " "
    + Digits(e.hour, 2) + ":" + Digits(e.minute, 2) + ":" + Digits(e.second, 2)
  }

  /** The date of the second begun, and three digits for the thousandths since. */
  function RightText(c: Calendar, ms: int): string {
    RightDate(c(ms / 1000)) + "." + Digits(ms % 1000, 3)
  }

  // lastFormatSecond_ and the first 19 characters of timeBuf_.
  datatype Cache = Cache(last: int, date: string)

  const Unused := Cache(0, "xxxx-xx-xx oo:oo:oo")

  function Refreshed(k: Cache, c: Calendar, ms: int): Cache {
    if Seconds(ms) != k.last then Cache(Seconds(ms), DateText(c(Seconds(ms)))) else k
  }

  function Shown(k: Cache, c: Calendar, ms: int): string {
    Refreshed(k, c, ms).date + "." + Pad3(Fraction(ms))
  }

  function After(k: Cache, c: Calendar, times: seq<int>): Cache {
    if times == [] then k else Refreshed(After(k, c, times[..|times| - 1]), c, times[|times| - 1])
  }

  /** The formatter has not been shown any other second than the first one of 1970. */
  predicate OnlySecondZero(times: seq<int>) {
    forall i :: 0 <= i < |times| ==> Seconds(times[i]) == 0
  }

  lemma {:induction false} CacheIs(c: Calendar, times: seq<int>)
    ensures After(Unused, c, times) == if OnlySecondZero(times) then Unused
      else Cache(After(Unused, c, times).last, DateText(c(After(Unused, c, times).last)))
    ensures times != [] ==> After(Unused, c, times).last == Seconds(times[|times| - 1])
    decreases |times|
  {
    if times != [] {
      var init, last := times[..|times| - 1], times[|times| - 1];
      CacheIs(c, init);
      assert OnlySecondZero(times) <==> OnlySecondZero(init) && Seconds(last) == 0 by {
        assert forall i :: 0 <= i < |init| ==> times[i] == init[i];
      }
    }
  }

  lemma PlaceholderIsNoDate(e: Exploded)
    ensures RightDate(e) != Unused.date
  {
    assert RightDate(e)[0] == Digits(e.year, 4)[0];
    assert Unused.date[0] == 'x';
  }

  lemma DigitIs(d: nat)
    requires d < 10
    ensures Digit(d) == "0123456789"[d]
  {
  }

  lemma Digits2Are(v: Digits2)
    ensures Pad2(v) == Digits(v, 2)
  {
    DigitIs(v / 10);
    DigitIs(v % 10);
    assert Digits(v / 10, 1) == Digits(v / 10 / 10, 0) + [Digit(v / 10)] == [Digit(v / 10)];
    assert Digits(v, 2) == Digits(v / 10, 1) + [Digit(v % 10)];
  }

  lemma Digits3Are(v: nat)
    requires v < 1000
    ensures Pad3(v) == Digits(v, 3)
  {
    var tens := v / 10;
    assert tens - 10 * (tens / 10) == tens % 10 && v - 10 * tens == v % 10 && v / 100 == tens / 10;
    Digits2Are(tens);
    DigitIs(v % 10);
    assert Digits(v, 3) == Digits(tens, 2) + [Digit(v % 10)];
    assert Pad3(v) == Pad2(tens) + [Digit(v % 10)];
  }

  lemma Quotients(v: nat)
    ensures v / 10 / 10 == v / 100 && v / 100 / 10 == v / 1000
    ensures v % 1000 / 10 == v / 10 % 100 && v % 1000 % 10 == v % 10
  {
    var q, d := v / 10, v % 10;
    var r, c := q / 10, q % 10;
    var a, b := r / 10, r % 10;
    assert v == 1000 * a + 100 * b + 10 * c + d;
  }

  lemma Digits4Are(v: Digits4)
    ensures Pad4(v) == Digits(v, 4)
  {
    Quotients(v);
    var w, tens := v % 1000, v / 10;
    Digits3Are(w);
    Digits3Front(tens);
    assert Digits(v, 4) == Digits(tens, 3) + [Digit(v % 10)] by { DigitIs(v % 10); }
    assert Digits(w, 3) == Digits(w / 10, 2) + [Digit(w % 10)] by { DigitIs(w % 10); }
  }

  lemma Digits3Front(v: nat)
    requires v < 1000
    ensures Digits(v, 3) == [Digit(v / 100)] + Digits(v % 100, 2)
  {
    var tens, w := v / 10, v % 100;
    assert tens / 10 == v / 100 && w / 10 == tens % 10 && w % 10 == v % 10;
    Digits2Are(tens);
    Digits2Are(w);
    DigitIs(v % 10);
    assert Digits(v, 3) == Digits(tens, 2) + [Digit(v % 10)];
  }

  lemma DateIsRight(e: Exploded)
    ensures DateText(e) == RightDate(e)
  {
    Digits4Are(e.year);
    Digits2Are(e.month);
    Digits2Are(e.day);
    Digits2Are(e.hour);
    Digits2Are(e.minute);
    Digits2Are(e.second);
  }

  /** A fraction below zero has a sign that is no digit. */
  lemma NegativeIsNoDigits(v: int, n: nat)
    requires -1000 < v < 0
    ensures Pad3(v) != Digits(n, 3)
  {
    var r, tens := Pad3(v), Quotient(v, 10);
    if Quotient(v, 100) < 0 {
      assert r[0] < '0';
    } else if tens - 10 * Quotient(tens, 10) < 0 {
      assert r[1] < '0';
    } else {
      assert r[2] < '0';
    }
  }

  lemma FractionRightIff(ms: int)
    ensures Pad3(Fraction(ms)) == Digits(ms % 1000, 3) <==> ms >= 0 || ms % 1000 == 0
  {
    if ms < 0 && ms % 1000 != 0 {
      NegativeIsNoDigits(Fraction(ms), ms % 1000);
    } else {
      WholeSecond(ms);
      Digits3Are(ms % 1000);
    }
  }

  lemma ShownDate(c: Calendar, times: seq<int>, ms: int)
    ensures Refreshed(After(Unused, c, times), c, ms).date
         == if OnlySecondZero(times + [ms]) then Unused.date else DateText(c(Seconds(ms)))
  {
    var all := times + [ms];
    assert all[..|times|] == times && all[|times|] == ms;
    CacheIs(c, all);
    assert After(Unused, c, all) == Refreshed(After(Unused, c, times), c, ms);
  }

  /** Whatever a formatter has shown before: it shows a time rightly if and only if it has been
      given some other second than 0, which its cache takes for shown when it is new, and the
      time is not in the middle of a second before 1970. */
  lemma ShownRightIff(c: Calendar, times: seq<int>, ms: int)
    ensures Shown(After(Unused, c, times), c, ms) == RightText(c, ms)
       <==> !OnlySecondZero(times + [ms]) && (ms >= 0 || ms % 1000 == 0)
  {
    ShownDate(c, times, ms);
    FractionRightIff(ms);
    PlaceholderIsNoDate(c(ms / 1000));
    DateIsRight(c(ms / 1000));
    if ms >= 0 || ms % 1000 == 0 { WholeSecond(ms); }
    SameText(Refreshed(After(Unused, c, times), c, ms).date, Pad3(Fraction(ms)), RightDate(c(ms / 1000)), Digits(ms % 1000, 3));
  }

  /** A second and a half before 1970, the half comes out as a sign and two zeros. */
  lemma SignForDigit()
    ensures Pad3(Fraction(-1500)) == "+00" && Digits(-1500 % 1000, 3) == "500"
  {
    Digits3Are(500);
    assert Pad3(-500) == "+00" && Pad3(500) == "500";
  }

  lemma SameText(date: string, fraction: string, date': string, fraction': string)
    requires |date| == |date'|
    ensures date + "." + fraction == date' + "." + fraction' <==> date == date' && fraction == fraction'
  {
    var s, s' := date + "." + fraction, date' + "." + fraction';
    assert s[..|date|] == date && s[|date| + 1..] == fraction;
    assert s'[..|date|] == date' && s'[|date| + 1..] == fraction';
  }

  lemma WholeSecond(ms: int)
    requires ms >= 0 || ms % 1000 == 0
    ensures Seconds(ms) == ms / 1000 && Fraction(ms) == ms % 1000
  {
  }

  class LocalTimeFormatter {
    var lastFormatSecond: int
    const timeBuf: array<char>

    /** The separators are where they belong. */
    ghost predicate Valid()
      reads this, timeBuf
    {
      && timeBuf.Length == 32
      && timeBuf[4] == timeBuf[7] == '-' && timeBuf[10] == ' '
      && timeBuf[13] == timeBuf[16] == ':' && timeBuf[19] == '.'
    }

    ghost function View(): Cache
      requires Valid()
      reads this, timeBuf
    {
      Cache(lastFormatSecond, timeBuf[..19])
    }

    constructor ()
      ensures Valid() && View() == Unused && fresh(timeBuf)
    {
      lastFormatSecond := 0;
      var buf := new char[32] (i => if i < 23 then "xxxx-xx-xx oo:oo:oo.ooo"[i] else 0 as char);
      timeBuf := buf;
      new;
      assert timeBuf[..19] == "xxxx-xx-xx oo:oo:oo.ooo"[..19];
    }

    method Put(begin: nat, text: string)
      requires begin + |text| <= timeBuf.Length
      modifies timeBuf
      ensures forall i :: 0 <= i < timeBuf.Length ==>
        timeBuf[i] == if begin <= i < begin + |text| then text[i - begin] else old(timeBuf[i])
    {
      for k := 0 to |text|
        invariant forall i :: 0 <= i < timeBuf.Length ==>
          timeBuf[i] == if begin <= i < begin + k then text[i - begin] else old(timeBuf[i])
      {
        timeBuf[begin + k] := text[k];
      }
    }

    method PutDate(e: Exploded)
      requires Valid()
      modifies timeBuf
      ensures Valid() && timeBuf[..19] == DateText(e)
    {
      Put(0, Pad4(e.year));
      Put(5, Pad2(e.month));
      Put(8, Pad2(e.day));
      Put(11, Pad2(e.hour));
      Put(14, Pad2(e.minute));
      Put(17, Pad2(e.second));
    }

    /** `calendar` is what LocalExplode asks the C library. */
    method Format(logTime: int, calendar: Calendar, buffer: string) returns (buffer': string)
      requires Valid()
      modifies this, timeBuf
      ensures Valid() && View() == Refreshed(old(View()), calendar, logTime)
      ensures buffer' == buffer + Shown(old(View()), calendar, logTime)
    {
      var seconds := Seconds(logTime);
      var milliseconds := logTime - seconds * 1000;
      if seconds != lastFormatSecond {
        lastFormatSecond := seconds;
        PutDate(calendar(seconds));
      }
      ghost var date := timeBuf[..19];
      Put(20, Pad3(milliseconds));
      assert timeBuf[..23] == date + "." + Pad3(milliseconds);
      assert timeBuf[..19] == date;
      buffer' := buffer + timeBuf[..23];
    }
  }
}
