/**
 * How the Lab10 clients get on: each makes its thirty rounds unless it is told to stop, a test
 * accepts the turn exactly when it was handed over, and an accepted turn is passed on.
 */
module SharedTurnRounds {
  import opened Basics
  import opened SharedTurn
  import opened SharedTurnBodies
  import Decimal

  // ---- thirty rounds ----

  /** How often client me tests destClientNo along a schedule. */
  function Tests(s: State, schedule: seq<Actor>, me: ClientNo): nat
    requires Exec(s, schedule).Some?
    decreases schedule
  {
    if schedule == [] then 0 else
    (if schedule[0] == Run(me) && s.clients[me - 1].pc.Test? then 1 else 0)
    + Tests(Next(s, schedule[0]).value, schedule[1..], me)
  }

  /** A client leaves its loop only after its last round or when told to. */
  predicate Leaves(c: Client) {
    c.pc.Done? ==> c.i >= NUM_MESSAGES || !c.running
  }

  lemma StatementRounds(c: Client, me: ClientNo, m: Memory)
    requires Leaves(c)
    ensures var c' := Statement(c, me, m).0;
            Leaves(c') && c'.running == c.running && Rounds(c') == Rounds(c) + if c.pc.Test? then 1 else 0
  {
  }

  lemma StepRounds(s: State, a: Actor, me: ClientNo)
    requires Next(s, a).Some? && Leaves(s.clients[me - 1])
    ensures var c, c' := s.clients[me - 1], Next(s, a).value.clients[me - 1];
            && Leaves(c') && c'.running == (c.running && a != Signal(me))
            && Rounds(c') == Rounds(c) + if a == Run(me) && c.pc.Test? then 1 else 0
  {
    if a == Run(me) {
      StatementRounds(s.clients[me - 1], me, s.memory);
    }
  }

  lemma {:induction false} ExecRounds(s: State, schedule: seq<Actor>, me: ClientNo)
    requires Exec(s, schedule).Some? && Leaves(s.clients[me - 1])
    ensures var c, c' := s.clients[me - 1], Exec(s, schedule).value.clients[me - 1];
            && Leaves(c') && c'.running == (c.running && Signal(me) !in schedule)
            && Rounds(c') == Rounds(c) + Tests(s, schedule, me)
    decreases schedule
  {
    if schedule != [] {
      StepRounds(s, schedule[0], me);
      ExecRounds(Next(s, schedule[0]).value, schedule[1..], me);
      assert schedule == [schedule[0]] + schedule[1..];
    }
  }

  lemma RunRounds(schedule: seq<Actor>, me: ClientNo)
    requires Exec(Init(), schedule).Some?
    ensures var c := Exec(Init(), schedule).value.clients[me - 1];
            Leaves(c) && InLoop(c) && c.running == (Signal(me) !in schedule) && Rounds(c) == Tests(Init(), schedule, me)
  {
    ExecRounds(Init(), schedule, me);
    InitInv();
    ExecInv(Init(), schedule);
  }

  /** A client that is done and was never signalled has tested destClientNo exactly 30 times. */
  lemma ThirtyRounds(schedule: seq<Actor>, me: ClientNo)
    requires Exec(Init(), schedule).Some?
    requires Exec(Init(), schedule).value.clients[me - 1].pc.Done? && Signal(me) !in schedule
    ensures Tests(Init(), schedule, me) == 30
  {
    RunRounds(schedule, me);
  }

  /** At its loop's test a client goes on to the next round exactly if it has made fewer than 30
      and was not signalled. */
  lemma LoopGoesOn(schedule: seq<Actor>, me: ClientNo)
    requires Exec(Init(), schedule).Some? && Exec(Init(), schedule).value.clients[me - 1].pc.Loop?
    ensures var next := Next(Exec(Init(), schedule).value, Run(me));
            next.Some? && next.value.clients[me - 1].pc ==
            if Tests(Init(), schedule, me) < 30 && Signal(me) !in schedule then Test else Done
  {
    RunRounds(schedule, me);
  }

  // ---- a turn is taken and passed on ----

  /** A test accepts the turn exactly when the last destClientNo write named the tester. */
  lemma TestTells(schedule: seq<Actor>, me: ClientNo)
    requires Exec(Init(), schedule).Some? && Exec(Init(), schedule).value.clients[me - 1].pc.Test?
    ensures var s := Exec(Init(), schedule).value; var next := Next(s, Run(me));
            next.Some? && next.value.accepted ==
            s.accepted + if s.hops != [] && s.hops[|s.hops| - 1].to == me then [me] else []
  {
    InitInv();
    ExecInv(Init(), schedule);
    var s := Exec(Init(), schedule).value;
    assert s.accepted + [] == s.accepted;
  }

  /** n statements of client me with no other client between. */
  function After(c: Client, me: ClientNo, m: Memory, n: nat): (Client, Memory)
    decreases n
  {
    if n == 0 then (c, m) else
    var (c', m') := Statement(c, me, m);
    After(c', me, m', n - 1)
  }

  /** Six statements after an accepted test the client has handed the turn to the next in its
      alternation, with its own message, and is back at its loop's test. */
  lemma TurnCompletes(c: Client, me: ClientNo, m: Memory, n: nat)
    requires c.pc.ReadSrc? && n == 6
    ensures After(c, me, m, n) ==
            (c.(pc := Loop, i := c.i + 1), Memory(me, Named(me, c.i + 1), MessageText(c.i + 1, me)))
  {
    TurnStarts(c, me, m, n);
    TurnEnds(c.(pc := WriteDest), me, m.(src := me), n - 3);
  }

  lemma TurnStarts(c: Client, me: ClientNo, m: Memory, n: nat)
    requires c.pc.ReadSrc? && n >= 3
    ensures After(c, me, m, n) == After(c.(pc := WriteDest), me, m.(src := me), n - 3)
  {
    var c1, c2 := c.(pc := ReadMessage), c.(pc := WriteSrc);
    assert Statement(c, me, m) == (c1, m) && Statement(c1, me, m) == (c2, m);
    assert Statement(c2, me, m) == (c.(pc := WriteDest), m.(src := me));
    assert After(c, me, m, n) == After(c1, me, m, n - 1) == After(c2, me, m, n - 2);
  }

  lemma TurnEnds(c: Client, me: ClientNo, m: Memory, n: nat)
    requires c.pc.WriteDest? && n == 3
    ensures After(c, me, m, n) ==
            (c.(pc := Loop, i := c.i + 1), m.(dest := Named(me, c.i + 1), message := MessageText(c.i + 1, me)))
  {
    NamedIsNext(me, c.i + 1);
    TextIsMessage(c.i + 1, me);
    var m1 := m.(dest := Named(me, c.i + 1));
    assert Statement(c, me, m) == (c.(pc := Clear), m1);
    assert After(c, me, m, n) == After(c.(pc := Clear), me, m1, n - 1);
    TextWritten(c.(pc := Clear), me, m1, n - 1);
  }

  lemma TextWritten(c: Client, me: ClientNo, m: Memory, n: nat)
    requires c.pc.Clear? && n == 2
    ensures After(c, me, m, n) == (c.(pc := Loop, i := c.i + 1), m.(message := Text(c.i + 1, me)))
  {
    var m1 := m.(message := "");
    assert Statement(c, me, m) == (c.(pc := Write), m1);
    assert After(c, me, m, n) == After(c.(pc := Write), me, m1, n - 1);
  }

  /** Client 3 opens with the turn for client 1 and message 0. */
  lemma OpeningCompletes(n: nat)
    requires n == 4
    ensures After(Init().clients[2], 3, Init().memory, n) ==
            (Init().clients[2].(pc := Loop), Memory(3, 1, "This is message 0 from client 3\n"))
  {
    TextIsMessage(0, 3);
    assert Decimal.Print(0) == [Decimal.Digit(0)] == "0";
    assert MessageText(0, 3) == "This is message 0 from client 3\n";
    var c, m2 := Init().clients[2], Memory(3, 1, "");
    assert Statement(c, 3, Init().memory) == (c.(pc := OpenDest), Memory(3, 0, ""));
    assert Statement(c.(pc := OpenDest), 3, Memory(3, 0, "")) == (c.(pc := OpenClear), m2);
    assert After(c, 3, Init().memory, n) == After(c.(pc := OpenDest), 3, Memory(3, 0, ""), n - 1)
        == After(c.(pc := OpenClear), 3, m2, n - 2) == After(c.(pc := OpenWrite), 3, m2, n - 3);
  }
}
