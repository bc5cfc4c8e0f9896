/** Assignment3: the level command printed by the log server and parsed by the logger. */
module LogControl {
  import opened Basics
  import Decimal

  type Level = n: int | 0 <= n <= 3

  type CInt = n: int | -0x8000_0000 <= n < 0x8000_0000

  // ---- the server's side ----

  /** What snprintf makes of a level. */
  function Command(level: CInt): string {
    "Set Log Level=" + Decimal.Print(level)
  }

  /** The n + 1 bytes sent: the command and its terminating zero. */
  function Datagram(level: CInt): string {
    Command(level) + "\0"
  }

  // ---- the client's side: sscanf(buf, "Set Log Level=%d", &newLevel) ----

  /** A C string: what comes before the first zero byte. */
  function CString(s: string): (t: string)
    ensures t <= s && '\0' !in t && (|t| < |s| ==> s[|t|] == '\0')
  {
    if s == "" || s[0] == '\0' then "" else [s[0]] + CString(s[1..])
  }

  predicate IsSpace(c: char) {
    c == ' ' || '\t' <= c <= '\r'
  }

  function SkipSpace(s: string): string {
    if s != "" && IsSpace(s[0]) then SkipSpace(s[1..]) else s
  }

  /** The input left after the ordinary characters of a format; white space there matches any
      amount of white space. None is a matching failure. */
  function AfterFormat(format: string, s: string): Option<string>
    decreases format
  {
    if format == "" then Some(s)
    else if IsSpace(format[0]) then AfterFormat(format[1..], SkipSpace(s))
    else if s != "" && s[0] == format[0] then AfterFormat(format[1..], s[1..])
    else None
  }

  /** The longest run of digits at the start. */
  function DigitRun(s: string): (r: string)
    ensures forall c | c in r :: Decimal.IsDigit(c)
  {
    if s != "" && Decimal.IsDigit(s[0]) then [s[0]] + DigitRun(s[1..]) else ""
  }

  /** %d: white space, an optional sign, digits. */
  function ScanInt(s: string): Option<int> {
    var t := SkipSpace(s);
    var negative := t != "" && t[0] == '-';
    var digits := DigitRun(if t != "" && (t[0] == '-' || t[0] == '+') then t[1..] else t);
    var magnitude: int := Decimal.Number(digits);
    if digits == "" then None else Some(if negative then -magnitude else magnitude)
  }

  function Scan(buf: string): Option<int> {
    match AfterFormat("Set Log Level=", CString(buf))
    case None => None
    case Some(rest) => ScanInt(rest)
  }

  // ---- the round trip ----

  lemma {:induction false} CStringOfTerminated(s: string, rest: string)
    requires '\0' !in s
    ensures CString(s + "\0" + rest) == s
  {
    if s == "" {
      assert (s + "\0" + rest)[0] == '\0';
    } else {
      CStringOfTerminated(s[1..], rest);
      assert (s + "\0" + rest)[1..] == s[1..] + "\0" + rest;
    }
  }

  // ---- exactly what the client takes for a command ----

  predicate Spaces(w: string) {
    forall c | c in w :: IsSpace(c)
  }

  predicate AllOfDigits(s: string) {
    forall c | c in s :: Decimal.IsDigit(c)
  }

  /** sign and digits, and what %d makes of them. */
  predicate Numeral(sign: string, digits: string, n: int) {
    && (sign == "" || sign == "-" || sign == "+") && digits != "" && AllOfDigits(digits)
    && n == if sign == "-" then -(Decimal.Number(digits) as int) else Decimal.Number(digits)
  }

  /** The text is the three words of the command with any white space between them, and before
      the number; what follows the number does not matter. */
  ghost predicate Commands(text: string, n: int) {
    exists w1: string, w2: string, w3: string, sign: string, digits: string, rest: string ::
      IsCommand(text, w1, w2, w3, sign, digits, rest, n)
  }

  predicate IsCommand(text: string, w1: string, w2: string, w3: string, sign: string, digits: string, rest: string, n: int) {
    && Spaces(w1) && Spaces(w2) && Spaces(w3) && Numeral(sign, digits, n)
    && (rest == "" || !Decimal.IsDigit(rest[0]))
    && text == "Set" + (w1 + ("Log" + (w2 + ("Level=" + (w3 + (sign + (digits + rest)))))))
  }

  lemma {:induction false} SkippedSpaces(s: string) returns (w: string)
    ensures s == w + SkipSpace(s) && Spaces(w) && (SkipSpace(s) == "" || !IsSpace(SkipSpace(s)[0]))
  {
    if s != "" && IsSpace(s[0]) {
      var v := SkippedSpaces(s[1..]);
      w := [s[0]] + v;
    } else {
      w := "";
    }
  }

  lemma {:induction false} SkipsSpaces(w: string, s: string)
    requires Spaces(w) && (s == "" || !IsSpace(s[0]))
    ensures SkipSpace(w + s) == s
  {
    if w == "" {
      assert w + s == s;
    } else {
      assert w[0] in w && forall c | c in w[1..] :: c in w;
      SkipsSpaces(w[1..], s);
      assert (w + s)[1..] == w[1..] + s;
    }
  }

  /** A word of the format matches itself and nothing else. */
  lemma {:induction false} AfterWord(word: string, format: string, s: string)
    requires forall c | c in word :: !IsSpace(c)
    ensures AfterFormat(word + format, s) == if word <= s then AfterFormat(format, s[|word|..]) else None
    decreases word
  {
    if word == "" {
      assert word + format == format && s[0..] == s;
    } else {
      assert word[0] in word && forall c | c in word[1..] :: c in word;
      assert (word + format)[0] == word[0] && (word + format)[1..] == word[1..] + format;
      if s != "" && s[0] == word[0] {
        AfterWord(word[1..], format, s[1..]);
        assert word <= s <==> word[1..] <= s[1..];
        assert word <= s ==> s[1..][|word| - 1..] == s[|word|..];
      }
    }
  }

  lemma AfterBlank(format: string, s: string)
    ensures AfterFormat(" " + format, s) == AfterFormat(format, SkipSpace(s))
  {
    assert (" " + format)[0] == ' ' && (" " + format)[1..] == format;
  }

  /** The whole format: three words, each in its place. */
  lemma AfterCommand(s: string)
    ensures AfterFormat("Set Log Level=", s) ==
            if !("Set" <= s) then None else
            var t := SkipSpace(s[3..]);
            if !("Log" <= t) then None else
            var u := SkipSpace(t[3..]);
            if !("Level=" <= u) then None else Some(u[6..])
  {
    assert "Set Log Level=" == "Set" + (" " + ("Log" + (" " + ("Level=" + ""))));
    AfterWord("Set", " " + ("Log" + (" " + ("Level=" + ""))), s);
    if "Set" <= s {
      AfterBlank("Log" + (" " + ("Level=" + "")), s[3..]);
      var t := SkipSpace(s[3..]);
      AfterWord("Log", " " + ("Level=" + ""), t);
      if "Log" <= t {
        AfterBlank("Level=" + "", t[3..]);
        AfterWord("Level=", "", SkipSpace(t[3..]));
      }
    }
  }

  lemma {:induction false} DigitRunIs(digits: string, rest: string)
    requires AllOfDigits(digits) && (rest == "" || !Decimal.IsDigit(rest[0]))
    ensures DigitRun(digits + rest) == digits
  {
    if digits == "" {
      assert digits + rest == rest;
    } else {
      assert digits[0] in digits && forall c | c in digits[1..] :: c in digits;
      DigitRunIs(digits[1..], rest);
      assert (digits + rest)[1..] == digits[1..] + rest;
    }
  }

  lemma {:induction false} DigitRunSplits(s: string) returns (rest: string)
    ensures s == DigitRun(s) + rest && (rest == "" || !Decimal.IsDigit(rest[0]))
  {
    if s != "" && Decimal.IsDigit(s[0]) {
      rest := DigitRunSplits(s[1..]);
    } else {
      rest := s;
    }
  }

  lemma ScansNumeral(w: string, sign: string, digits: string, rest: string, n: int)
    requires Spaces(w) && Numeral(sign, digits, n) && (rest == "" || !Decimal.IsDigit(rest[0]))
    ensures ScanInt(w + (sign + (digits + rest))) == Some(n)
  {
    var t := sign + (digits + rest);
    assert digits[0] in digits;
    assert t[0] == if sign == "" then digits[0] else sign[0];
    SkipsSpaces(w, t);
    DigitRunIs(digits, rest);
    assert t[|sign|..] == digits + rest && t[0..] == t;
  }

  lemma ScannedNumeral(s: string, n: int) returns (w: string, sign: string, digits: string, rest: string)
    requires ScanInt(s) == Some(n)
    ensures Spaces(w) && Numeral(sign, digits, n) && (rest == "" || !Decimal.IsDigit(rest[0]))
    ensures s == w + (sign + (digits + rest))
  {
    w := SkippedSpaces(s);
    var t := SkipSpace(s);
    sign := if t != "" && (t[0] == '-' || t[0] == '+') then [t[0]] else "";
    digits := DigitRun(t[|sign|..]);
    rest := DigitRunSplits(t[|sign|..]);
    assert t[0..] == t && t == sign + t[|sign|..];
  }

  lemma ScansCommand(text: string, w1: string, w2: string, w3: string, sign: string, digits: string, rest: string, n: int)
    requires IsCommand(text, w1, w2, w3, sign, digits, rest, n)
    ensures AfterFormat("Set Log Level=", text) == Some(w3 + (sign + (digits + rest)))
  {
    var tail := w3 + (sign + (digits + rest));
    var u := "Level=" + tail;
    var t := "Log" + (w2 + u);
    assert text[3..] == w1 + t && t[3..] == w2 + u && u[6..] == tail;
    SkipsSpaces(w1, t);
    SkipsSpaces(w2, u);
    AfterCommand(text);
  }

  lemma ScannedCommand(text: string, t: string, u: string, n: int)
    requires "Set" <= text && t == SkipSpace(text[3..]) && "Log" <= t && u == SkipSpace(t[3..]) && "Level=" <= u
    requires ScanInt(u[6..]) == Some(n)
    ensures Commands(text, n)
  {
    var w1 := SkippedSpaces(text[3..]);
    var w2 := SkippedSpaces(t[3..]);
    var w3, sign, digits, rest := ScannedNumeral(u[6..], n);
    var number := w3 + (sign + (digits + rest));
    assert u == "Level=" + number by { assert u == "Level=" + u[6..]; }
    assert t == "Log" + (w2 + u) by { assert t == "Log" + t[3..]; }
    assert text == "Set" + (w1 + t) by { assert text == "Set" + text[3..]; }
    assert IsCommand(text, w1, w2, w3, sign, digits, rest, n);
  }

  /** The client reads number n from a datagram exactly if its C string is a command for n. */
  lemma ScanExactly(buf: string, n: int)
    ensures Scan(buf) == Some(n) <==> Commands(CString(buf), n)
  {
    var text := CString(buf);
    if Scan(buf) == Some(n) {
      AfterCommand(text);
      var t := SkipSpace(text[3..]);
      ScannedCommand(text, t, SkipSpace(t[3..]), n);
    }
    if Commands(text, n) {
      var w1, w2, w3, sign, digits, rest :| IsCommand(text, w1, w2, w3, sign, digits, rest, n);
      ScansCommand(text, w1, w2, w3, sign, digits, rest, n);
      ScansNumeral(w3, sign, digits, rest, n);
    }
  }

  lemma CommandIsCommand(level: CInt, sign: string, digits: string)
    requires Numeral(sign, digits, level) && Decimal.Print(level) == sign + digits
    ensures IsCommand(Command(level), " ", " ", "", sign, digits, "", level)
  {
    var number := "" + (sign + (digits + ""));
    assert number == sign + digits;
    assert "Set Log Level=" + number == "Set" + (" " + ("Log" + (" " + ("Level=" + number))));
  }

  lemma CommandFits(level: CInt)
    ensures |Command(level)| < 64 && '\0' !in Command(level)
  {
    var n: int := if level < 0 then -(level as int) else level;
    assert Decimal.Power10(10) == 10_000_000_000 by {
      assert Decimal.Power10(5) == 100_000;
    }
    Decimal.DigitsBound(n, 10);
    assert forall c | c in Decimal.Digits(n) :: c != '\0';
  }

  /** For every int the server can print, the command is the three words with single blanks and
      the number, it fits its buffer, and the client's parser recovers the same int. */
  lemma CommandRoundTrip(level: CInt)
    ensures |Command(level)| < 64
    ensures exists sign, digits :: IsCommand(Command(level), " ", " ", "", sign, digits, "", level)
    ensures Scan(Datagram(level)) == Some(level)
  {
    var n: int := if level < 0 then -(level as int) else level;
    CommandFits(level);
    Decimal.NumberOfDigits(n);
    CommandIsCommand(level, if level < 0 then "-" else "", Decimal.Digits(n));
    CStringOfTerminated(Command(level), "");
    assert Datagram(level) == Command(level) + "\0" + "";
    ScanExactly(Datagram(level), level);
  }

  // ---- the filter ----

  /** The filter after a datagram; `converted` is what newLevel holds where the number does not
      fit an int and the conversion is undefined. */
  function FilterAfter(filter: Level, buf: string, converted: CInt): Level {
    match Scan(buf)
    case None => filter
    case Some(n) =>
      var newLevel := if -0x8000_0000 <= n < 0x8000_0000 then n else converted;
      if 0 <= newLevel <= 3 then newLevel else filter
  }

  /** The filter changes to the level commanded exactly when that is one of the four. */
  lemma CommandTakesEffect(filter: Level, level: CInt, converted: CInt)
    ensures FilterAfter(filter, Datagram(level), converted) == if 0 <= level <= 3 then level else filter
  {
    CommandRoundTrip(level);
  }

  /** Any datagram: a command for one of the four levels sets it, and everything else, commands
      for other numbers and whatever is no command, leaves the filter alone. */
  lemma DatagramTakesEffect(filter: Level, buf: string, converted: CInt)
    ensures forall n | Commands(CString(buf), n) ::
              FilterAfter(filter, buf, converted) ==
              var newLevel: int := if -0x8000_0000 <= n < 0x8000_0000 then n else converted;
              if 0 <= newLevel <= 3 then newLevel else filter
    ensures (forall n :: !Commands(CString(buf), n)) ==> FilterAfter(filter, buf, converted) == filter
  {
    forall n ensures Scan(buf) == Some(n) <==> Commands(CString(buf), n) {
      ScanExactly(buf, n);
    }
  }

  // ---- runs: SetLogLevel calls of the program mixed with commands of the server ----

  datatype Event = Local(setting: Level) | Remote(level: CInt)

  function FilterAfterEvent(filter: Level, e: Event): Level {
    match e
    case Local(setting) => setting
    case Remote(level) => FilterAfter(filter, Datagram(level), 0)
  }

  function FilterAfterAll(filter: Level, events: seq<Event>): Level {
    if events == [] then filter
    else FilterAfterEvent(FilterAfterAll(filter, events[..|events| - 1]), events[|events| - 1])
  }

  /** The number an event names. */
  function Asked(e: Event): int {
    match e
    case Local(setting) => setting
    case Remote(level) => level
  }

  predicate IsLevel(n: int) {
    0 <= n <= 3
  }

  /** Over any mix of local settings and commands the filter is what the last event that named
      one of the four levels asked for, the kth event if k > 0, and still the first one if k == 0. */
  lemma {:induction false} LastLevelWins(filter: Level, events: seq<Event>, k: nat)
    requires k <= |events| && (k > 0 ==> IsLevel(Asked(events[k - 1])))
    requires forall j | k <= j < |events| :: !IsLevel(Asked(events[j]))
    ensures FilterAfterAll(filter, events) == if k == 0 then filter else Asked(events[k - 1])
  {
    if events != [] {
      var init, last := events[..|events| - 1], events[|events| - 1];
      if last.Remote? {
        CommandTakesEffect(FilterAfterAll(filter, init), last.level, 0);
      }
      if k < |events| {
        LastLevelWins(filter, init, k);
      }
    }
  }

  /** Logger.cpp's filter, in place. */
  class Filter {
    var filter: Level

    constructor ()
      ensures filter == 0
    {
      filter := 0;
    }

    method SetLogLevel(level: Level)
      modifies this
      ensures filter == level
    {
      filter := level;
    }

    /** One datagram in rx_thread_func. */
    method Receive(buf: string, converted: CInt)
      modifies this
      ensures filter == FilterAfter(old(filter), buf, converted)
    {
      var scanned := Scan(buf);
      if scanned.Some? {
        var newLevel: int := if -0x8000_0000 <= scanned.value < 0x8000_0000 then scanned.value else converted;
        if newLevel >= 0 && newLevel <= 3 {
          filter := newLevel;
        }
      }
    }
  }
}
