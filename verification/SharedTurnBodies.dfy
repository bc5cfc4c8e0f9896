/**
 * The message text of the Lab10 programs, which no lock protects: when exactly every text printed
 * is the one that belongs to its hand-off.
 */
module SharedTurnBodies {
  import opened Basics
  import opened SharedTurn
  import Decimal

  /** The client has named its successor but not yet written the message. */
  predicate Writing(c: Client) {
    c.pc.OpenClear? || c.pc.OpenWrite? || c.pc.Clear? || c.pc.Write?
  }

  /** The message each client builds, by its number. */
  function MessageText(no: nat, from: ClientNo): string {
    "This is message " + Decimal.Print(no)
    + match from case 1 => " from client 1\n" case 2 => " from client 2\n" case _ => " from client 3\n"
  }

  lemma TextIsMessage(no: nat, c: ClientNo)
    ensures Text(no, c) == MessageText(no, c)
  {
    assert Decimal.Print(c) == [Decimal.Digit(c)] == if c == 1 then "1" else if c == 2 then "2" else "3";
    assert " from client " + Decimal.Print(c) + "\n"
        == if c == 1 then " from client 1\n" else if c == 2 then " from client 2\n" else " from client 3\n";
    assert Text(no, c) == "This is message " + Decimal.Print(no) + (" from client " + Decimal.Print(c) + "\n");
  }

  /** The message that belongs to a hop. */
  function HopText(h: Hop): string {
    MessageText(h.no, h.from)
  }

  predicate Match(messages: seq<string>, hops: seq<Hop>) {
    |messages| <= |hops| && forall k | 0 <= k < |messages| :: messages[k] == HopText(hops[k])
  }

  /** Every message printed belongs to its hop. */
  predicate PrintedBodies(s: State) {
    Match(s.messages, s.hops)
  }

  /** Whose sprintf filled the text, and with which number. */
  datatype Author = Author(from: ClientNo, no: nat)

  function AuthorOf(h: Hop): Author {
    Author(h.from, h.no)
  }

  /** The last text statement after a: a sprintf and its author, or None for a memset. */
  function LastText(s: State, last: Option<Author>, a: Actor): Option<Author> {
    if a.Signal? then last else
    var c := s.clients[a.c - 1];
    match c.pc
    case OpenClear => None
    case Clear => None
    case OpenWrite => Some(Author(a.c, 0))
    case Write => Some(Author(a.c, c.i + 1))
    case _ => last
  }

  /** If a prints the message, the last text statement was the sprintf of the client that made
      the last hop, for that hop. */
  predicate Timely(s: State, last: Option<Author>, a: Actor) {
    a.Run? && s.clients[a.c - 1].pc.ReadMessage? ==> s.hops != [] && last == Some(AuthorOf(s.hops[|s.hops| - 1]))
  }

  predicate WellTimed(s: State, last: Option<Author>, schedule: seq<Actor>)
    requires Exec(s, schedule).Some?
    decreases schedule
  {
    schedule == [] ||
    (Timely(s, last, schedule[0]) && WellTimed(Next(s, schedule[0]).value, LastText(s, last, schedule[0]), schedule[1..]))
  }

  /** Memory holds what the last text statement left there. */
  predicate TextIs(s: State, last: Option<Author>) {
    s.memory.message == match last case None => "" case Some(w) => Text(w.no, w.from)
  }

  lemma TextAfter(c: Client, me: ClientNo, m: Memory)
    ensures Statement(c, me, m).1.message ==
            if c.pc.OpenClear? || c.pc.Clear? then "" else if c.pc.OpenWrite? then Text(0, me)
            else if c.pc.Write? then Text(c.i + 1, me) else m.message
  {
  }

  lemma TextIsStep(s: State, last: Option<Author>, a: Actor)
    requires TextIs(s, last) && Next(s, a).Some?
    ensures TextIs(Next(s, a).value, LastText(s, last, a))
  {
    TextAfter(s.clients[a.c - 1], a.c, s.memory);
  }

  function TextEnd(c: ClientNo): string {
    " from client " + Decimal.Print(c) + "\n"
  }

  lemma TextParts(no: nat, c: ClientNo)
    ensures |Text(no, c)| >= 16 && Text(no, c)[16..] == Decimal.Digits(no) + TextEnd(c)
  {
    assert Text(no, c) == "This is message " + (Decimal.Digits(no) + TextEnd(c));
  }

  lemma TextEndTells(b: ClientNo, c: ClientNo)
    requires TextEnd(b) == TextEnd(c)
    ensures b == c
  {
    assert TextEnd(b)[13] == Decimal.Digit(b) && TextEnd(c)[13] == Decimal.Digit(c);
  }

  /** A text tells its author and its number. */
  lemma TextTellsAuthor(v: Author, w: Author)
    requires Text(v.no, v.from) == Text(w.no, w.from)
    ensures v == w
  {
    TextParts(v.no, v.from);
    TextParts(w.no, w.from);
    Decimal.DigitsEnd(v.no, TextEnd(v.from), w.no, TextEnd(w.from));
    TextEndTells(v.from, w.from);
  }

  /** The text read is the one of hop h exactly when its author is. */
  lemma TextOfHop(s: State, last: Option<Author>, h: Hop)
    requires TextIs(s, last)
    ensures s.memory.message == HopText(h) <==> last == Some(AuthorOf(h))
  {
    TextIsMessage(h.no, h.from);
    if last.Some? && s.memory.message == HopText(h) {
      TextTellsAuthor(last.value, AuthorOf(h));
    }
  }

  /** A client about to print its message holds the last hop, and has printed all others. */
  lemma ReadingTheLastHop(s: State, me: ClientNo)
    requires Handover(s) && Counts(s) && s.clients[me - 1].pc.ReadMessage?
    ensures |s.hops| == |s.messages| + 1
  {
    assert me - 1 + 1 == Holder(s);
  }

  lemma PrintsText(s: State, me: ClientNo)
    requires s.clients[me - 1].pc.ReadMessage?
    ensures Next(s, Run(me)).value.messages == s.messages + [s.memory.message] && Next(s, Run(me)).value.hops == s.hops
  {
  }

  lemma PrintsNothing(s: State, a: Actor)
    requires Next(s, a).Some? && !(a.Run? && s.clients[a.c - 1].pc.ReadMessage?)
    ensures Next(s, a).value.messages == s.messages && s.hops <= Next(s, a).value.hops
  {
  }

  lemma MoreHopsMatch(messages: seq<string>, hops: seq<Hop>, hops': seq<Hop>)
    requires |messages| <= |hops| && hops <= hops'
    ensures Match(messages, hops') <==> Match(messages, hops)
  {
  }

  lemma OneMoreMatches(messages: seq<string>, text: string, hops: seq<Hop>)
    requires |messages| < |hops|
    ensures Match(messages + [text], hops) <==> Match(messages, hops) && text == HopText(hops[|messages|])
  {
    var all := messages + [text];
    assert all[|messages|] == text;
    if Match(all, hops) {
      forall k | 0 <= k < |messages| ensures messages[k] == HopText(hops[k]) {
        assert all[k] == messages[k];
      }
    }
  }

  lemma PrintedBodiesRead(s: State, last: Option<Author>, s': State)
    requires TextIs(s, last) && |s.hops| == |s.messages| + 1
    requires s'.messages == s.messages + [s.memory.message] && s'.hops == s.hops
    ensures PrintedBodies(s') <==> PrintedBodies(s) && last == Some(AuthorOf(s.hops[|s.hops| - 1]))
  {
    TextOfHop(s, last, s.hops[|s.messages|]);
    OneMoreMatches(s.messages, s.memory.message, s.hops);
  }

  lemma PrintedBodiesStep(s: State, last: Option<Author>, a: Actor)
    requires Inv(s) && TextIs(s, last) && Next(s, a).Some?
    ensures PrintedBodies(Next(s, a).value) <==> PrintedBodies(s) && Timely(s, last, a)
  {
    if a.Run? && s.clients[a.c - 1].pc.ReadMessage? {
      ReadingTheLastHop(s, a.c);
      PrintsText(s, a.c);
      PrintedBodiesRead(s, last, Next(s, a).value);
    } else {
      PrintsNothing(s, a);
      MoreHopsMatch(s.messages, s.hops, Next(s, a).value.hops);
    }
  }

  lemma {:induction false} ExecBodies(s: State, last: Option<Author>, schedule: seq<Actor>)
    requires Inv(s) && TextIs(s, last) && Exec(s, schedule).Some?
    ensures PrintedBodies(Exec(s, schedule).value) <==> PrintedBodies(s) && WellTimed(s, last, schedule)
    decreases schedule
  {
    if schedule != [] {
      var s', last' := Next(s, schedule[0]).value, LastText(s, last, schedule[0]);
      NextInv(s, schedule[0]);
      TextIsStep(s, last, schedule[0]);
      PrintedBodiesStep(s, last, schedule[0]);
      ExecBodies(s', last', schedule[1..]);
    }
  }

  /** Every message printed is the one its source wrote for that hop exactly when at every print
      the last text statement was the sprintf of the last hop. */
  lemma BodiesMatchExactly(schedule: seq<Actor>)
    requires Exec(Init(), schedule).Some?
    ensures PrintedBodies(Exec(Init(), schedule).value) <==> WellTimed(Init(), None, schedule)
  {
    InitInv();
    ExecBodies(Init(), None, schedule);
  }

  // ---- a discipline that is enough ----

  /** No statement runs while another client is between naming its successor and finishing the
      message: what the semaphore announced at line 82 would have guaranteed. */
  predicate Undisturbed(s: State, a: Actor) {
    a.Run? ==> forall j | 0 <= j < 3 && j != a.c - 1 :: !Writing(s.clients[j])
  }

  predicate UndisturbedRun(s: State, schedule: seq<Actor>)
    requires Exec(s, schedule).Some?
    decreases schedule
  {
    schedule == [] ||
    (Undisturbed(s, schedule[0]) && UndisturbedRun(Next(s, schedule[0]).value, schedule[1..]))
  }

  /** A client that is still writing made the last hop; if none is, the last hop has its text. */
  predicate CurrentBody(s: State, last: Option<Author>) {
    && (forall j | 0 <= j < 3 && Writing(s.clients[j]) ::
          s.hops != [] && s.hops[|s.hops| - 1].from == j + 1 &&
          s.hops[|s.hops| - 1].no == if Opens(s.clients[j].pc) then 0 else s.clients[j].i + 1)
    && (NoneWriting(s) && s.hops != [] ==> last == Some(AuthorOf(s.hops[|s.hops| - 1])))
  }

  predicate NoneWriting(s: State) {
    !Writing(s.clients[0]) && !Writing(s.clients[1]) && !Writing(s.clients[2])
  }

  /** Finishing the message of the last hop. */
  lemma CurrentBodyWriting(s: State, last: Option<Author>, me: ClientNo)
    requires CurrentBody(s, last) && Next(s, Run(me)).Some? && Undisturbed(s, Run(me)) && Writing(s.clients[me - 1])
    ensures CurrentBody(Next(s, Run(me)).value, LastText(s, last, Run(me)))
  {
    HeaderFrame(s, Run(me));
    var c, s' := s.clients[me - 1], Next(s, Run(me)).value;
    assert s.hops[|s.hops| - 1].from == me - 1 + 1;
    if c.pc.OpenClear? || c.pc.Clear? {
      assert Writing(s'.clients[me - 1]) && s'.clients[me - 1].i == c.i;
    }
  }

  /** Naming a successor starts a new message. */
  lemma CurrentBodyNaming(s: State, last: Option<Author>, me: ClientNo)
    requires CurrentBody(s, last) && Next(s, Run(me)).Some? && NoneWriting(s)
    requires Opens(s.clients[me - 1].pc) ==> s.clients[me - 1].i == 0
    requires s.clients[me - 1].pc.OpenDest? || s.clients[me - 1].pc.WriteDest?
    ensures CurrentBody(Next(s, Run(me)).value, LastText(s, last, Run(me)))
  {
    HeaderFrame(s, Run(me));
  }

  /** Any other statement, when nobody is writing. */
  lemma CurrentBodyIdle(s: State, last: Option<Author>, me: ClientNo)
    requires CurrentBody(s, last) && Next(s, Run(me)).Some? && NoneWriting(s)
    requires !s.clients[me - 1].pc.OpenDest? && !s.clients[me - 1].pc.WriteDest?
    ensures CurrentBody(Next(s, Run(me)).value, LastText(s, last, Run(me)))
  {
    HeaderFrame(s, Run(me));
    assert !Writing(Next(s, Run(me)).value.clients[me - 1]);
  }

  lemma CurrentBodySignal(s: State, last: Option<Author>, c: ClientNo)
    requires CurrentBody(s, last) && Next(s, Signal(c)).Some?
    ensures CurrentBody(Next(s, Signal(c)).value, last)
  {
    var s' := Next(s, Signal(c)).value;
    assert forall j | 0 <= j < 3 :: s'.clients[j].pc == s.clients[j].pc && s'.clients[j].i == s.clients[j].i;
  }

  lemma CurrentBodyStep(s: State, last: Option<Author>, a: Actor)
    requires Bounded(s) && CurrentBody(s, last) && Next(s, a).Some? && Undisturbed(s, a)
    ensures CurrentBody(Next(s, a).value, LastText(s, last, a))
  {
    var c := s.clients[a.c - 1];
    if a.Signal? {
      CurrentBodySignal(s, last, a.c);
    } else if Writing(c) {
      CurrentBodyWriting(s, last, a.c);
    } else if c.pc.OpenDest? || c.pc.WriteDest? {
      assert InLoop(c);
      CurrentBodyNaming(s, last, a.c);
    } else {
      CurrentBodyIdle(s, last, a.c);
    }
  }

  lemma {:induction false} UndisturbedIsWellTimed(s: State, last: Option<Author>, schedule: seq<Actor>)
    requires Inv(s) && CurrentBody(s, last) && Exec(s, schedule).Some? && UndisturbedRun(s, schedule)
    ensures WellTimed(s, last, schedule)
    decreases schedule
  {
    if schedule != [] {
      var a := schedule[0];
      if a.Run? && s.clients[a.c - 1].pc.ReadMessage? {
        ReadingTheLastHop(s, a.c);
        assert NoneWriting(s);
      }
      NextInv(s, a);
      CurrentBodyStep(s, last, a);
      UndisturbedIsWellTimed(Next(s, a).value, LastText(s, last, a), schedule[1..]);
    }
  }

  /** In undisturbed runs the kth message printed is the one its source wrote for hop k. */
  lemma BodiesMatchHeaders(schedule: seq<Actor>, k: nat)
    requires Exec(Init(), schedule).Some? && UndisturbedRun(Init(), schedule)
    requires k < |Exec(Init(), schedule).value.messages|
    ensures k < |Exec(Init(), schedule).value.hops|
    ensures Exec(Init(), schedule).value.messages[k] == HopText(Exec(Init(), schedule).value.hops[k])
  {
    InitInv();
    UndisturbedIsWellTimed(Init(), None, schedule);
    BodiesMatchExactly(schedule);
  }

  /** States are compared field by field. */
  lemma Same(s: State, t: State)
    requires s.memory == t.memory && s.messages == t.messages && s.sources == t.sources && s.accepted == t.accepted
    requires s.hops == t.hops && s.clients[0] == t.clients[0] && s.clients[1] == t.clients[1] && s.clients[2] == t.clients[2]
    ensures s == t
  {
    assert s.clients == t.clients;
  }

  /** Client 3 has named client 1 and written no message yet. */
  function Opened(): State {
    World(Memory(3, 1, ""), [Client(Loop, 0, true), Client(Loop, 0, true), Client(OpenClear, 0, true)],
          [Hop(3, 1, 0)], [], [], [])
  }

  /** Client 1 has printed source and message in that state. */
  function PrintedEarly(): State {
    Opened().(clients := [Client(WriteSrc, 0, true), Client(Loop, 0, true), Client(OpenClear, 0, true)],
              accepted := [1], sources := [3], messages := [""])
  }

  lemma OpeningRun(rest: seq<Actor>)
    ensures Exec(Init(), [Run(3)] + ([Run(3)] + rest)) == Exec(Opened(), rest)
  {
    var s1 := Next(Init(), Run(3)).value;
    Same(Next(s1, Run(3)).value, Opened());
    ExecCons(s1, Run(3), Opened(), rest);
    ExecCons(Init(), Run(3), s1, [Run(3)] + rest);
  }

  lemma EarlyRead()
    ensures Exec(Opened(), [Run(1)] + ([Run(1)] + ([Run(1)] + [Run(1)]))) == Some(PrintedEarly())
  {
    var s1 := Opened().(clients := Opened().clients[0 := Client(Test, 0, true)]);
    var s2 := Opened().(clients := Opened().clients[0 := Client(ReadSrc, 0, true)], accepted := [1]);
    var s3 := s2.(clients := Opened().clients[0 := Client(ReadMessage, 0, true)], sources := [3]);
    Same(Next(Opened(), Run(1)).value, s1);
    Same(Next(s1, Run(1)).value, s2);
    Same(Next(s2, Run(1)).value, s3);
    Same(Next(s3, Run(1)).value, PrintedEarly());
    assert [Run(1)] + [] == [Run(1)];
    ExecCons(s3, Run(1), PrintedEarly(), []);
    ExecCons(s2, Run(1), s3, [Run(1)]);
    ExecCons(s1, Run(1), s2, [Run(1)] + [Run(1)]);
    ExecCons(Opened(), Run(1), s1, [Run(1)] + ([Run(1)] + [Run(1)]));
  }

  /** In other runs it need not be: client 1 can print the message before client 3, which has
      already named it, has written anything. */
  lemma BodyCanBeMissed() returns (schedule: seq<Actor>)
    ensures Exec(Init(), schedule).Some?
    ensures Exec(Init(), schedule).value.messages == [""] && Exec(Init(), schedule).value.hops == [Hop(3, 1, 0)]
    ensures HopText(Hop(3, 1, 0)) != ""
  {
    var early := [Run(1)] + ([Run(1)] + ([Run(1)] + [Run(1)]));
    schedule := [Run(3)] + ([Run(3)] + early);
    OpeningRun(early);
    EarlyRead();
  }
}
