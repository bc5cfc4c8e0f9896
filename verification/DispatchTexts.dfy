/** What the Lab8 messages say: every text on the queue and on a screen, in literal form. */
module DispatchTexts {
  import opened Basics
  import opened DispatchMessages
  import opened DispatchThreads
  import opened DispatchRefinement
  import Decimal
  import P = DispatchPipeline
  import D = DispatchDelivery

  /** How client c's message ends. */
  function Ending(c: ClientId): string {
    match c
    case 1 => ": Message from client 1\n"
    case 2 => ": Message from client 2\n"
    case _ => ": Message from client 3\n"
  }

  /** The text is a decimal number that reads back as pid, then the ending of client c. */
  ghost predicate Names(text: string, pid: int, c: ClientId) {
    exists digits: string ::
      && digits != "" && (forall x | x in digits :: Decimal.IsDigit(x))
      && text == (if pid < 0 then "-" else "") + digits + Ending(c)
      && Decimal.Number(digits) == if pid < 0 then -pid else pid
  }

  lemma EndingOf(c: ClientId)
    ensures ": Message from client " + Decimal.Print(c) + "\n" == Ending(c)
  {
    assert Decimal.Print(c) == [Decimal.Digit(c)] == if c == 1 then "1" else if c == 2 then "2" else "3";
  }

  lemma TextParts(pid: int, c: ClientId)
    ensures ClientText(pid, c) == Decimal.Print(pid) + Ending(c)
  {
    EndingOf(c);
    assert ClientText(pid, c) == Decimal.Print(pid) + (": Message from client " + Decimal.Print(c) + "\n");
  }

  lemma ClientTextNames(pid: int, c: ClientId)
    ensures Names(ClientText(pid, c), pid, c)
  {
    var n := if pid < 0 then -pid else pid;
    Decimal.NumberOfDigits(n);
    TextParts(pid, c);
    assert Decimal.Print(pid) == (if pid < 0 then "-" else "") + Decimal.Digits(n);
  }

  /** The text of a process with a 32-bit identifier fits the 64 bytes of buf with its zero. */
  lemma ClientTextFits(pid: int, c: ClientId)
    requires -0x8000_0000 <= pid < 0x8000_0000
    ensures |ClientText(pid, c)| < 64
  {
    assert Decimal.Power10(10) == 10_000_000_000 by {
      assert Decimal.Power10(5) == 100_000;
    }
    Decimal.DigitsBound(if pid < 0 then -pid else pid, 10);
    Decimal.DigitsBound(c, 1);
  }

  /** No other client with a process identifier of its own builds the same text. */
  lemma TextTellsSender(p: nat, c: ClientId, q: nat, d: ClientId)
    requires ClientText(p, c) == ClientText(q, d)
    ensures p == q && c == d
  {
    var s, t := ": Message from client " + Decimal.Print(c) + "\n", ": Message from client " + Decimal.Print(d) + "\n";
    assert ClientText(p, c) == Decimal.Digits(p) + s && ClientText(q, d) == Decimal.Digits(q) + t;
    Decimal.DigitsEnd(p, s, q, t);
    assert s[22] == Decimal.Digit(c) && t[22] == Decimal.Digit(d);
  }

  // ---- over every run ----

  /** A message that client m.source built. */
  predicate Signed(s: System, m: Body) {
    1 <= m.source <= 3 && m.buf == ClientText(s.clients[m.source - 1].pid, m.source)
  }

  predicate AllSigned(s: System) {
    forall m | m in OfType(s.kernel.log, SERVER_TYPE) :: Signed(s, m)
  }

  lemma PidsStay(s: System, a: Actor)
    requires Next(s, a).Some?
    ensures forall j | 0 <= j < 3 :: Next(s, a).value.clients[j].pid == s.clients[j].pid
  {
  }

  /** What is put as type 4 is the next message of the sending client. */
  lemma SentLogStep(s: System, a: Actor)
    requires Good(s) && Next(s, a).Some?
    ensures OfType(Next(s, a).value.kernel.log, SERVER_TYPE) == OfType(s.kernel.log, SERVER_TYPE) +
            if a.ClientMain? && s.clients[a.d - 1].main.MSend?
            then var c := s.clients[a.d - 1]; [NextBody(a.d, c.pid, c.dest, c.sends)] else []
  {
    Simulate(s, a);
    if ActionOf(s, a).Some? {
      D.TypeFourLog(PipelineOf(s), ActionOf(s, a).value);
      if a.ClientMain? {
        assert PipelineOf(s).nodes[a.d - 1] == NodeOf(s.clients[a.d - 1]);
      }
    } else {
      assert PipelineOf(Next(s, a).value).kernel == PipelineOf(s).kernel;
    }
  }

  lemma SignedStep(s: System, a: Actor)
    requires Good(s) && AllSigned(s) && Next(s, a).Some?
    ensures AllSigned(Next(s, a).value)
  {
    var s' := Next(s, a).value;
    SentLogStep(s, a);
    PidsStay(s, a);
    forall m | m in OfType(s'.kernel.log, SERVER_TYPE) ensures Signed(s', m) {
      if m in OfType(s.kernel.log, SERVER_TYPE) {
        assert Signed(s, m);
      }
    }
  }

  lemma {:induction false} ExecSigned(s: System, schedule: seq<Actor>)
    requires Good(s) && AllSigned(s) && Exec(s, schedule).Some?
    ensures AllSigned(Exec(s, schedule).value)
    ensures forall j | 0 <= j < 3 :: Exec(s, schedule).value.clients[j].pid == s.clients[j].pid
    decreases schedule
  {
    if schedule != [] {
      SignedStep(s, schedule[0]);
      PidsStay(s, schedule[0]);
      NextGood(s, schedule[0]);
      ExecSigned(Next(s, schedule[0]).value, schedule[1..]);
    }
  }

  /** In every run, each message on client d's screen was for d and names the process and the
      number of the client it came from. */
  lemma RunTexts(s: System, schedule: seq<Actor>, d: ClientId, m: Body)
    requires Initial(s) && Exec(s, schedule).Some? && m in Exec(s, schedule).value.clients[d - 1].printed
    ensures 1 <= m.source <= 3 && m.dest == d && Names(m.buf, s.clients[m.source - 1].pid, m.source)
  {
    var s' := Exec(s, schedule).value;
    RunDelivers(s, schedule, d);
    assert m in D.SentTo(PipelineOf(s'), d);
    SelectMembers(OfType(s'.kernel.log, SERVER_TYPE), To(d));
    InitialGood(s);
    ExecSigned(s, schedule);
    assert Signed(s', m);
    ClientTextNames(s'.clients[m.source - 1].pid, m.source);
  }

  /** In every run, all that was ever put on the queue is type 4 with a client's text, type 1 to 3
      with a client's text for that client, or the server's Quit to that client. */
  lemma OnTheWire(s: System, schedule: seq<Actor>, e: Envelope)
    requires Initial(s) && Exec(s, schedule).Some? && e in Exec(s, schedule).value.kernel.log
    ensures 1 <= e.mtype <= 4 && (e.mtype != 4 ==> e.body.dest == e.mtype)
    ensures || (e.mtype != 4 && e.body == Body(0, e.mtype, "Quit", 0))
            || (1 <= e.body.source <= 3 && e.body.dest != e.body.source
                && Names(e.body.buf, s.clients[e.body.source - 1].pid, e.body.source))
  {
    var s' := Exec(s, schedule).value;
    InitialGood(s);
    ExecGood(s, schedule);
    ExecSigned(s, schedule);
    var p := PipelineOf(s');
    assert P.WellRouted(e);
    OfTypeMembers(s'.kernel.log, e.mtype);
    if e.mtype == SERVER_TYPE {
      assert Signed(s', e.body);
      ClientTextNames(s'.clients[e.body.source - 1].pid, e.body.source);
    } else if e.body != QuitBody(e.mtype) {
      Redispatched(p, e);
      assert Signed(s', e.body);
      ClientTextNames(s'.clients[e.body.source - 1].pid, e.body.source);
    }
  }

  /** What the server re-sends came in as type 4. */
  lemma Redispatched(p: P.Pipeline, e: Envelope)
    requires P.Inv(p) && e in p.kernel.log && 1 <= e.mtype <= 3 && !IsQuit(e.body)
    ensures e.body in OfType(p.kernel.log, SERVER_TYPE)
  {
    D.ServerSide(p, e.mtype);
    OfTypeMembers(p.kernel.log, e.mtype);
    SelectMembers(OfType(p.kernel.log, e.mtype), Data);
    assert e.body in D.DispatchedFor(p, e.mtype);
    assert e.body in D.SentTo(p, e.mtype);
    SelectMembers(OfType(p.kernel.log, SERVER_TYPE), To(e.mtype));
  }
}
