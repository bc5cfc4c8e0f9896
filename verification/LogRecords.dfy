/** Assignment3: one log line from the client's buffer through a datagram to the server's file. */
module LogRecords {
  import opened Basics

  const LOG_BUF_LEN := 2048

  /** The datagram for a formatted line: what fits the buffer, and its terminating zero. */
  function Sent(text: string): string {
    text[..Min(|text|, LOG_BUF_LEN - 1)] + "\0"
  }

  /** recvfrom with room for one byte less than the buffer. */
  function Received(datagram: string): string {
    datagram[..Min(|datagram|, LOG_BUF_LEN - 1)]
  }

  /** A delivered record is the first 2047 bytes of the text, with a zero byte after it only if
      the text is at most 2046 bytes long. */
  lemma RecordShape(text: string)
    ensures Received(Sent(text)) ==
            text[..Min(|text|, 2047)] + if |text| <= 2046 then "\0" else ""
  {
  }

  /** The log file after these datagrams, whatever they hold, in order of arrival. */
  function Stored(datagrams: seq<string>): string {
    if datagrams == [] then "" else Received(datagrams[0]) + Stored(datagrams[1..])
  }

  function Datagrams(texts: seq<string>): seq<string> {
    if texts == [] then [] else [Sent(texts[0])] + Datagrams(texts[1..])
  }

  /** The log file after the records of these texts arrived, in order of arrival. */
  function Log(texts: seq<string>): string {
    Stored(Datagrams(texts))
  }

  lemma LogCons(texts: seq<string>)
    requires texts != []
    ensures Log(texts) == Received(Sent(texts[0])) + Log(texts[1..])
  {
    assert Datagrams(texts)[1..] == Datagrams(texts[1..]);
  }

  /** A reader that cuts the file at its zero bytes: complete records, and what is left. */
  function Split(file: string): (seq<string>, string) {
    if file == "" then ([], "") else
    var (records, rest) := Split(file[1..]);
    if file[0] == '\0' then ([""] + records, rest)
    else if records == [] then ([], [file[0]] + rest)
    else ([[file[0]] + records[0]] + records[1..], rest)
  }

  lemma {:induction false} SplitRecord(text: string, file: string)
    requires '\0' !in text
    ensures Split(text + "\0" + file) == ([text] + Split(file).0, Split(file).1)
  {
    var all := text + "\0" + file;
    if text == "" {
      assert all[1..] == file;
    } else {
      SplitRecord(text[1..], file);
      assert all[1..] == text[1..] + "\0" + file;
      assert [text[0]] + text[1..] == text;
    }
  }

  /** Text without a zero byte ends no record. */
  lemma {:induction false} SplitLong(text: string, file: string)
    requires '\0' !in text
    ensures |Split(text + file).0| == |Split(file).0|
  {
    if text == "" {
      assert text + file == file;
    } else {
      SplitLong(text[1..], file);
      assert (text + file)[1..] == text[1..] + file;
    }
  }

  predicate Short(text: string) {
    |text| <= 2046
  }

  function ShortOnes(texts: seq<string>): nat {
    if texts == [] then 0 else (if Short(texts[0]) then 1 else 0) + ShortOnes(texts[1..])
  }

  /** The number of records found is the number of short texts. */
  lemma {:induction false} RecordsFound(texts: seq<string>)
    requires forall t | t in texts :: '\0' !in t
    ensures |Split(Log(texts)).0| == ShortOnes(texts)
  {
    if texts != [] {
      var text, file := texts[0], Log(texts[1..]);
      assert text in texts && forall t | t in texts[1..] :: t in texts;
      RecordsFound(texts[1..]);
      LogCons(texts);
      RecordShape(text);
      if Short(text) {
        assert text[..|text|] == text;
        SplitRecord(text, file);
      } else {
        var cut := text[..LOG_BUF_LEN - 1];
        assert cut + "" == cut;
        SplitLong(cut, file);
      }
    }
  }

  lemma {:induction false} AllShort(texts: seq<string>)
    ensures ShortOnes(texts) <= |texts|
    ensures ShortOnes(texts) == |texts| <==> forall t | t in texts :: Short(t)
  {
    if texts != [] {
      AllShort(texts[1..]);
      assert texts == [texts[0]] + texts[1..];
    }
  }

  lemma {:induction false} SplitAll(texts: seq<string>)
    requires forall t | t in texts :: '\0' !in t && Short(t)
    ensures Split(Log(texts)) == (texts, "")
  {
    if texts != [] {
      var text, file := texts[0], Log(texts[1..]);
      assert text in texts && forall t | t in texts[1..] :: t in texts;
      SplitAll(texts[1..]);
      LogCons(texts);
      RecordShape(text);
      assert text[..|text|] == text;
      SplitRecord(text, file);
      assert [text] + texts[1..] == texts;
    }
  }

  /** The lines can be read back from the log file exactly when each was at most 2046 bytes
      long: a longer one loses its zero byte and runs into the next. */
  lemma LogReadsBack(texts: seq<string>)
    requires forall t | t in texts :: '\0' !in t
    ensures Split(Log(texts)) == (texts, "") <==> forall t | t in texts :: Short(t)
  {
    RecordsFound(texts);
    AllShort(texts);
    if forall t | t in texts :: Short(t) {
      SplitAll(texts);
    }
  }

  // ---- in place ----

  /** snprintf(buf, sizeof(buf), ...) of an already formatted text. */
  method Snprintf(buf: array<char>, text: string) returns (n: nat)
    requires buf.Length > 0
    modifies buf
    ensures n == |text|
    ensures var m := Min(|text|, buf.Length - 1); buf[..m] == text[..m] && buf[m] == '\0'
  {
    var m := if |text| < buf.Length - 1 then |text| else buf.Length - 1;
    for i := 0 to m
      invariant buf[..i] == text[..i]
    {
      buf[i] := text[i];
    }
    buf[m] := '\0';
    n := |text|;
  }

  /** Log: nothing while the logger is not running or below the filter, else one datagram. */
  method LogLine(running: bool, level: int, filter: int, text: string) returns (datagram: Option<string>)
    ensures datagram == if !running || level < filter then None else Some(Sent(text))
  {
    if !running || level < filter {
      return None;
    }
    var buf := new char[LOG_BUF_LEN];
    var n := Snprintf(buf, text);
    if n >= LOG_BUF_LEN {
      n := LOG_BUF_LEN - 1;
    }
    buf[n] := '\0';
    assert buf[..n + 1] == buf[..n] + [buf[n]];
    datagram := Some(buf[..n + 1]);
  }

  /** The server's receive loop over the datagrams that arrive, from whomever, every write
      complete. */
  method ReceiveLoop(datagrams: seq<string>) returns (file: string)
    ensures file == Stored(datagrams)
  {
    file := "";
    var buf := new char[LOG_BUF_LEN];
    for k := 0 to |datagrams|
      invariant file + Stored(datagrams[k..]) == Stored(datagrams)
    {
      var datagram := datagrams[k];
      var n := if |datagram| < LOG_BUF_LEN - 1 then |datagram| else LOG_BUF_LEN - 1;
      forall j | 0 <= j < n {
        buf[j] := datagram[j];
      }
      buf[n] := '\0';
      assert buf[..n] == Received(datagram);
      assert datagrams[k..][1..] == datagrams[k + 1..];
      file := file + buf[..n];
    }
  }
}
