/**
 * The Lab10 programs: three clients pass a turn through destClientNo in shared memory, with no
 * lock. One statement a step over sequentially consistent memory, from a zeroed segment.
 */
module SharedTurn {
  import opened Basics
  import Decimal

  const NUM_MESSAGES := 30

  type ClientNo = c: int | 1 <= c <= 3 witness 1

  /** struct Memory without packet_no, which nothing uses. */
  datatype Memory = Memory(src: int, dest: int, message: string)

  /** The statements of main: client 3's opening, then the loop. ++i goes with the statement
      before it, since i is private. */
  datatype Pc =
    | OpenSrc | OpenDest | OpenClear | OpenWrite
    | Loop | Test | ReadSrc | ReadMessage | WriteSrc | WriteDest | Clear | Write | Done

  datatype Client = Client(pc: Pc, i: nat, running: bool)

  /** The sprintf of each turn. */
  function Text(no: nat, c: ClientNo): string {
    "This is message " + Decimal.Print(no) + " from client " + Decimal.Print(c) + "\n"
  }

  /** Whom client c writes to in round i. */
  function NextDest(c: ClientNo, i: nat): ClientNo {
    if c == 1 then 2 + i % 2 else if c == 2 then 1 + 2 * (i % 2) else 1 + i % 2
  }

  /** One statement of client me. */
  function Statement(c: Client, me: ClientNo, m: Memory): (Client, Memory) {
    match c.pc
    case OpenSrc => (c.(pc := OpenDest), m.(src := me))
    case OpenDest => (c.(pc := OpenClear), m.(dest := 1))
    case OpenClear => (c.(pc := OpenWrite), m.(message := ""))
    case OpenWrite => (c.(pc := Loop), m.(message := Text(0, me)))
    case Loop => (c.(pc := if c.i < NUM_MESSAGES && c.running then Test else Done), m)
    case Test => (if m.dest == me then c.(pc := ReadSrc) else c.(pc := Loop, i := c.i + 1), m)
    case ReadSrc => (c.(pc := ReadMessage), m)
    case ReadMessage => (c.(pc := WriteSrc), m)
    case WriteSrc => (c.(pc := WriteDest), m.(src := me))
    case WriteDest => (c.(pc := Clear), m.(dest := NextDest(me, c.i)))
    case Clear => (c.(pc := Write), m.(message := ""))
    case Write => (c.(pc := Loop, i := c.i + 1), m.(message := Text(c.i + 1, me)))
    case Done => (c, m)
  }

  // ---- the three clients together ----

  /** A write of destClientNo: who wrote, whom it named, the number of its message. */
  datatype Hop = Hop(from: ClientNo, to: ClientNo, no: nat)

  /** Memory, clients, and histories: destClientNo writes, successful tests, and what was
      printed as source and as message. */
  datatype World = World(
    memory: Memory, clients: seq<Client>,
    hops: seq<Hop>, accepted: seq<ClientNo>, sources: seq<int>, messages: seq<string>)

  type State = s: World | |s.clients| == 3
    witness World(Memory(0, 0, ""), seq(3, _ => Client(Loop, 0, true)), [], [], [], [])

  datatype Actor = Run(c: ClientNo) | Signal(c: ClientNo)

  function Init(): State {
    World(Memory(0, 0, ""), [Client(Loop, 0, true), Client(Loop, 0, true), Client(OpenSrc, 0, true)], [], [], [], [])
  }

  /** None for a client that is done, or a second signal. */
  function Next(s: State, a: Actor): Option<State> {
    var c := s.clients[a.c - 1];
    match a
    case Signal(me) =>
      if c.running then Some(s.(clients := s.clients[me - 1 := c.(running := false)])) else None
    case Run(me) =>
      if c.pc.Done? then None else
      var (c', m') := Statement(c, me, s.memory);
      Some(World(m', s.clients[me - 1 := c'],
        if c.pc.OpenDest? then s.hops + [Hop(me, 1, 0)]
        else if c.pc.WriteDest? then s.hops + [Hop(me, NextDest(me, c.i), c.i + 1)] else s.hops,
        if c'.pc.ReadSrc? then s.accepted + [me] else s.accepted,
        if c.pc.ReadSrc? then s.sources + [s.memory.src] else s.sources,
        if c.pc.ReadMessage? then s.messages + [s.memory.message] else s.messages))
  }

  function Exec(s: State, schedule: seq<Actor>): Option<State>
    decreases schedule
  {
    if schedule == [] then Some(s) else
    match Next(s, schedule[0])
    case None => None
    case Some(s') => Exec(s', schedule[1..])
  }

  lemma ExecCons(s: State, a: Actor, s': State, rest: seq<Actor>)
    requires Next(s, a) == Some(s')
    ensures Exec(s, [a] + rest) == Exec(s', rest)
  {
    assert ([a] + rest)[1..] == rest;
  }

  lemma {:induction false} ExecSnoc(s: State, schedule: seq<Actor>, a: Actor)
    requires Exec(s, schedule).Some?
    ensures Exec(s, schedule + [a]) == Next(Exec(s, schedule).value, a)
    decreases schedule
  {
    if schedule == [] {
      assert [] + [a] == [a];
    } else {
      ExecSnoc(Next(s, schedule[0]).value, schedule[1..], a);
      assert (schedule + [a])[1..] == schedule[1..] + [a];
    }
  }

  // ---- the turn is held by one client at a time ----

  /** Between the successful test and the destClientNo write. */
  predicate InTurn(c: Client) {
    c.pc.ReadSrc? || c.pc.ReadMessage? || c.pc.WriteSrc? || c.pc.WriteDest?
  }

  /** Client 3 has not yet written destClientNo. */
  predicate Opening(s: State) {
    s.clients[2].pc.OpenSrc? || s.clients[2].pc.OpenDest?
  }

  /** A walk from 3 to 1, where each hop starts where the one before ended and leaves. */
  predicate Walk(hops: seq<Hop>) {
    && (hops != [] ==> hops[0] == Hop(3, 1, 0))
    && (forall k | 1 <= k < |hops| ::
          && hops[k].from == hops[k - 1].to && hops[k].no > 0
          && hops[k].to == NextDest(hops[k].from, hops[k].no - 1))
  }

  /** Whom the last hop named. */
  function Holder(s: State): ClientNo {
    if s.hops == [] then 1 else s.hops[|s.hops| - 1].to
  }

  predicate Handover(s: State) {
    if Opening(s) then
      s.hops == [] && s.accepted == [] && s.sources == [] && s.messages == [] && s.memory.dest == 0
      && (s.clients[2].pc.OpenDest? ==> s.memory.src == 3)
      && forall j | 0 <= j < 3 :: !InTurn(s.clients[j])
    else
      && s.hops != [] && s.memory.dest == Holder(s)
      && s.memory.src == (if s.clients[Holder(s) - 1].pc.WriteDest? then Holder(s) else s.hops[|s.hops| - 1].from)
      && (forall j | 0 <= j < 3 :: InTurn(s.clients[j]) ==> j + 1 == Holder(s))
  }

  /** Every hop but the one being waited for was accepted; every accepted turn but the one in
      progress has had its source and then its message read. */
  predicate Counts(s: State) {
    var holder := s.clients[Holder(s) - 1];
    && |s.hops| == |s.accepted| + (if Opening(s) || InTurn(holder) then 0 else 1)
    && |s.accepted| == |s.sources| + (if holder.pc.ReadSrc? then 1 else 0)
    && |s.sources| == |s.messages| + (if holder.pc.ReadMessage? then 1 else 0)
  }

  /** Turns are accepted, and sources read, exactly in the order of the hops. */
  predicate InOrder(s: State) {
    && |s.accepted| <= |s.hops| && |s.sources| <= |s.hops|
    && (forall k | 0 <= k < |s.accepted| :: s.accepted[k] == s.hops[k].to)
    && (forall k | 0 <= k < |s.sources| :: s.sources[k] == s.hops[k].from)
  }

  predicate Opens(pc: Pc) {
    pc.OpenSrc? || pc.OpenDest? || pc.OpenClear? || pc.OpenWrite?
  }

  predicate InLoop(c: Client) {
    && c.i <= NUM_MESSAGES
    && (!Opens(c.pc) && !c.pc.Loop? && !c.pc.Done? ==> c.i < NUM_MESSAGES)
    && (Opens(c.pc) ==> c.i == 0)
  }

  /** Only client 3 opens; i stays within the loop bound. */
  predicate Bounded(s: State) {
    && !Opens(s.clients[0].pc) && !Opens(s.clients[1].pc)
    && forall j | 0 <= j < 3 :: InLoop(s.clients[j])
  }

  predicate Inv(s: State) {
    Bounded(s) && Walk(s.hops) && Handover(s) && Counts(s) && InOrder(s)
  }

  lemma StatementInLoop(c: Client, me: ClientNo, m: Memory)
    requires InLoop(c)
    ensures InLoop(Statement(c, me, m).0) && (!Opens(c.pc) ==> !Opens(Statement(c, me, m).0.pc))
  {
  }

  lemma BoundedStep(s: State, a: Actor)
    requires Bounded(s) && Next(s, a).Some?
    ensures Bounded(Next(s, a).value)
  {
    StatementInLoop(s.clients[a.c - 1], a.c, s.memory);
  }

  /** The header side of a statement: who is where, and what memory's header says. */
  lemma HeaderFrame(s: State, a: Actor)
    requires Next(s, a).Some?
    ensures var c, s' := s.clients[a.c - 1], Next(s, a).value;
            && (forall j | 0 <= j < 3 && j != a.c - 1 :: s'.clients[j] == s.clients[j])
            && s'.hops == (if a.Run? && c.pc.OpenDest? then s.hops + [Hop(a.c, 1, 0)]
                           else if a.Run? && c.pc.WriteDest? then s.hops + [Hop(a.c, NextDest(a.c, c.i), c.i + 1)] else s.hops)
  {
  }

  lemma WalkAppend(hops: seq<Hop>, h: Hop)
    requires Walk(hops)
    requires hops == [] ==> h == Hop(3, 1, 0)
    requires hops != [] ==> h.from == hops[|hops| - 1].to && h.no > 0 && h.to == NextDest(h.from, h.no - 1)
    ensures Walk(hops + [h])
  {
  }

  lemma WalkStep(s: State, a: Actor)
    requires Bounded(s) && Walk(s.hops) && Handover(s) && Next(s, a).Some?
    ensures Walk(Next(s, a).value.hops)
  {
    HeaderFrame(s, a);
    var c := s.clients[a.c - 1];
    if a.Run? && c.pc.OpenDest? {
      WalkAppend(s.hops, Hop(a.c, 1, 0));
    } else if a.Run? && c.pc.WriteDest? {
      assert a.c - 1 + 1 == Holder(s);
      WalkAppend(s.hops, Hop(a.c, NextDest(a.c, c.i), c.i + 1));
    }
  }

  /** A destClientNo write hands the turn on. */
  lemma HandoverWrite(s: State, me: ClientNo)
    requires Bounded(s) && Handover(s) && Next(s, Run(me)).Some?
    requires s.clients[me - 1].pc.OpenDest? || s.clients[me - 1].pc.WriteDest?
    ensures Handover(Next(s, Run(me)).value)
  {
    var s' := Next(s, Run(me)).value;
    assert s'.clients == s.clients[me - 1 := s.clients[me - 1].(pc := if s.clients[me - 1].pc.OpenDest? then OpenClear else Clear)];
    assert Holder(s') != me;
  }

  /** Any other statement leaves it where it is: before the opening no test succeeds. */
  lemma HandoverOpening(s: State, a: Actor)
    requires Bounded(s) && Handover(s) && Opening(s) && Next(s, a).Some?
    requires a.Run? ==> !s.clients[a.c - 1].pc.OpenDest?
    ensures Handover(Next(s, a).value)
  {
    assert !InTurn(s.clients[a.c - 1]);
  }

  /** After it, only the holder's succeeds. */
  lemma HandoverHeld(s: State, a: Actor)
    requires Bounded(s) && Handover(s) && !Opening(s) && Next(s, a).Some?
    requires a.Run? ==> !s.clients[a.c - 1].pc.WriteDest?
    ensures Handover(Next(s, a).value)
  {
    var c, s' := s.clients[a.c - 1], Next(s, a).value;
    assert s'.clients == s.clients[a.c - 1 := s'.clients[a.c - 1]];
    assert s'.hops == s.hops && s'.memory.dest == s.memory.dest;
    if a.c != Holder(s) {
      assert !InTurn(c) && !InTurn(s'.clients[a.c - 1]);
    }
  }

  lemma HandoverStep(s: State, a: Actor)
    requires Bounded(s) && Handover(s) && Next(s, a).Some?
    ensures Handover(Next(s, a).value)
  {
    if a.Run? && (s.clients[a.c - 1].pc.OpenDest? || s.clients[a.c - 1].pc.WriteDest?) {
      HandoverWrite(s, a.c);
    } else if Opening(s) {
      HandoverOpening(s, a);
    } else {
      HandoverHeld(s, a);
    }
  }

  /** A destClientNo write adds a hop that nobody has accepted yet. */
  lemma CountsWrite(s: State, me: ClientNo)
    requires Bounded(s) && Handover(s) && Counts(s) && Next(s, Run(me)).Some?
    requires s.clients[me - 1].pc.OpenDest? || s.clients[me - 1].pc.WriteDest?
    ensures Counts(Next(s, Run(me)).value)
  {
    var c, s' := s.clients[me - 1], Next(s, Run(me)).value;
    assert Holder(s') != me && s'.clients[Holder(s') - 1] == s.clients[Holder(s') - 1];
    assert c.pc.WriteDest? ==> InTurn(c) && me == Holder(s);
  }

  lemma CountsKept(s: State, a: Actor)
    requires Bounded(s) && Handover(s) && Counts(s) && Next(s, a).Some?
    requires a.Run? ==> !s.clients[a.c - 1].pc.OpenDest? && !s.clients[a.c - 1].pc.WriteDest?
    ensures Counts(Next(s, a).value)
  {
    var s' := Next(s, a).value;
    assert Holder(s') == Holder(s);
    if a.c != Holder(s) {
      assert s'.clients[Holder(s) - 1] == s.clients[Holder(s) - 1];
      assert !InTurn(s.clients[a.c - 1]);
    }
  }

  lemma CountsStep(s: State, a: Actor)
    requires Bounded(s) && Handover(s) && Counts(s) && Next(s, a).Some?
    ensures Counts(Next(s, a).value)
  {
    if a.Run? && (s.clients[a.c - 1].pc.OpenDest? || s.clients[a.c - 1].pc.WriteDest?) {
      CountsWrite(s, a.c);
    } else {
      CountsKept(s, a);
    }
  }

  lemma InOrderStep(s: State, a: Actor)
    requires Bounded(s) && Handover(s) && Counts(s) && InOrder(s) && Next(s, a).Some?
    ensures InOrder(Next(s, a).value)
  {
    assert a == Run(a.c) && InTurn(s.clients[a.c - 1]) ==> a.c == Holder(s);
  }

  lemma NextInv(s: State, a: Actor)
    requires Inv(s) && Next(s, a).Some?
    ensures Inv(Next(s, a).value)
  {
    BoundedStep(s, a);
    WalkStep(s, a);
    HandoverStep(s, a);
    CountsStep(s, a);
    InOrderStep(s, a);
  }

  lemma {:induction false} ExecInv(s: State, schedule: seq<Actor>)
    requires Inv(s) && Exec(s, schedule).Some?
    ensures Inv(Exec(s, schedule).value)
    decreases schedule
  {
    if schedule != [] {
      NextInv(s, schedule[0]);
      ExecInv(Next(s, schedule[0]).value, schedule[1..]);
    }
  }

  lemma InitInv()
    ensures Inv(Init())
  {
  }

  // ---- the turn protocol, over every run ----

  /** At most one client is ever between its successful test and its destClientNo write. */
  lemma OneTurnAtATime(schedule: seq<Actor>, b: ClientNo, c: ClientNo)
    requires Exec(Init(), schedule).Some?
    requires InTurn(Exec(Init(), schedule).value.clients[b - 1]) && InTurn(Exec(Init(), schedule).value.clients[c - 1])
    ensures b == c
  {
    InitInv();
    ExecInv(Init(), schedule);
  }

  /** The source a client is about to print is the client that named it last. */
  lemma SourceIsTheGiver(schedule: seq<Actor>, me: ClientNo)
    requires Exec(Init(), schedule).Some? && Exec(Init(), schedule).value.clients[me - 1].pc.ReadSrc?
    ensures var s := Exec(Init(), schedule).value;
            s.hops != [] && s.hops[|s.hops| - 1].to == me && s.memory.src == s.hops[|s.hops| - 1].from
  {
    InitInv();
    ExecInv(Init(), schedule);
  }

  /** Whom a client names in its message number no: 2 or 3, 1 or 3, 1 or 2 by the parity of no. */
  function Named(from: ClientNo, no: nat): ClientNo {
    match (from, no % 2)
    case (1, 1) => 2
    case (1, _) => 3
    case (2, 1) => 1
    case (2, _) => 3
    case (_, 1) => 1
    case _ => 2
  }

  lemma NamedIsNext(c: ClientNo, no: nat)
    requires no > 0
    ensures NextDest(c, no - 1) == Named(c, no) != c
  {
  }

  lemma WalkNames(hops: seq<Hop>)
    requires Walk(hops)
    ensures forall k | 0 <= k < |hops| :: hops[k].to != hops[k].from
    ensures forall k | 1 <= k < |hops| :: hops[k].to == Named(hops[k].from, hops[k].no)
  {
    forall k | 1 <= k < |hops| ensures hops[k].to == Named(hops[k].from, hops[k].no) != hops[k].from {
      NamedIsNext(hops[k].from, hops[k].no);
    }
  }

  /** The header hand-offs form a walk from 3 to 1: each starts at the client the one before
      named, none names its own writer, and the sources printed are those of the walk. */
  lemma HandoffsAreAWalk(schedule: seq<Actor>)
    requires Exec(Init(), schedule).Some?
    ensures var s := Exec(Init(), schedule).value;
            && (s.hops != [] ==> s.hops[0] == Hop(3, 1, 0))
            && (forall k | 1 <= k < |s.hops| :: s.hops[k].from == s.hops[k - 1].to)
            && (forall k | 0 <= k < |s.hops| :: s.hops[k].to != s.hops[k].from)
            && (forall k | 1 <= k < |s.hops| :: s.hops[k].no > 0 && s.hops[k].to == Named(s.hops[k].from, s.hops[k].no))
            && |s.accepted| <= |s.hops| && (forall k | 0 <= k < |s.accepted| :: s.accepted[k] == s.hops[k].to)
            && |s.sources| <= |s.hops| && (forall k | 0 <= k < |s.sources| :: s.sources[k] == s.hops[k].from)
  {
    InitInv();
    ExecInv(Init(), schedule);
    WalkNames(Exec(Init(), schedule).value.hops);
  }

  /** Once client 3 has opened, the destClientNo writes are the accepted turns, plus one exactly
      when no client is inside its turn. */
  lemma WritesMatchTurns(schedule: seq<Actor>)
    requires Exec(Init(), schedule).Some? && !Opening(Exec(Init(), schedule).value)
    ensures var s := Exec(Init(), schedule).value;
            |s.hops| == |s.accepted| + if exists j :: 0 <= j < 3 && InTurn(s.clients[j]) then 0 else 1
  {
    InitInv();
    ExecInv(Init(), schedule);
  }

  // ---- how often ----

  function Times(turns: seq<ClientNo>, c: ClientNo): nat {
    if turns == [] then 0 else Times(turns[..|turns| - 1], c) + if turns[|turns| - 1] == c then 1 else 0
  }

  /** Rounds of its loop client c has begun that may have accepted a turn. */
  function Rounds(c: Client): nat {
    c.i + if InTurn(c) || c.pc.Clear? || c.pc.Write? then 1 else 0
  }

  predicate Frugal(s: State) {
    forall j | 0 <= j < 3 :: Times(s.accepted, j + 1) <= Rounds(s.clients[j])
  }

  lemma RoundsGrow(c: Client, me: ClientNo, m: Memory)
    ensures Rounds(Statement(c, me, m).0) >= Rounds(c) + if Statement(c, me, m).0.pc.ReadSrc? then 1 else 0
  {
  }

  lemma FrugalStep(s: State, a: Actor)
    requires Bounded(s) && Frugal(s) && Next(s, a).Some?
    ensures Frugal(Next(s, a).value)
  {
    var s' := Next(s, a).value;
    RoundsGrow(s.clients[a.c - 1], a.c, s.memory);
    if s'.accepted != s.accepted {
      assert s'.accepted[..|s.accepted|] == s.accepted;
    }
  }

  lemma {:induction false} ExecFrugal(s: State, schedule: seq<Actor>)
    requires Bounded(s) && Frugal(s) && Exec(s, schedule).Some?
    ensures Bounded(Exec(s, schedule).value) && Frugal(Exec(s, schedule).value)
    decreases schedule
  {
    if schedule != [] {
      BoundedStep(s, schedule[0]);
      FrugalStep(s, schedule[0]);
      ExecFrugal(Next(s, schedule[0]).value, schedule[1..]);
    }
  }

  /** In every run each client accepts at most NUM_MESSAGES turns. */
  lemma AtMostThirtyTurns(schedule: seq<Actor>, c: ClientNo)
    requires Exec(Init(), schedule).Some?
    ensures Times(Exec(Init(), schedule).value.accepted, c) <= 30
  {
    ExecFrugal(Init(), schedule);
    var s := Exec(Init(), schedule).value;
    assert InLoop(s.clients[c - 1]) && Times(s.accepted, (c - 1) + 1) <= Rounds(s.clients[c - 1]);
  }

  /** Statements a client can still execute, and its signal. */
  function Remaining(c: Client): int {
    var rounds := 8 * (NUM_MESSAGES - c.i);
    (if c.running then 1 else 0) +
    match c.pc
    case OpenSrc => rounds + 5
    case OpenDest => rounds + 4
    case OpenClear => rounds + 3
    case OpenWrite => rounds + 2
    case Loop => rounds + 1
    case Test => rounds
    case ReadSrc => rounds - 1
    case ReadMessage => rounds - 2
    case WriteSrc => rounds - 3
    case WriteDest => rounds - 4
    case Clear => rounds - 5
    case Write => rounds - 6
    case Done => 0
  }

  function Left(s: State): int {
    Remaining(s.clients[0]) + Remaining(s.clients[1]) + Remaining(s.clients[2])
  }

  lemma StatementRunsOut(c: Client, me: ClientNo, m: Memory)
    requires InLoop(c) && !c.pc.Done?
    ensures Remaining(Statement(c, me, m).0) < Remaining(c)
  {
  }

  lemma StatementsRunOut(s: State, a: Actor)
    requires Bounded(s) && Next(s, a).Some?
    ensures Remaining(Next(s, a).value.clients[a.c - 1]) < Remaining(s.clients[a.c - 1])
    ensures forall j | 0 <= j < 3 && j != a.c - 1 :: Next(s, a).value.clients[j] == s.clients[j]
  {
    assert InLoop(s.clients[a.c - 1]);
    if a.Run? {
      StatementRunsOut(s.clients[a.c - 1], a.c, s.memory);
    }
  }

  lemma RemainingIsNat(c: Client)
    requires InLoop(c)
    ensures Remaining(c) >= 0
  {
  }

  lemma {:induction false} RunsEnd(s: State, schedule: seq<Actor>)
    requires Bounded(s) && Exec(s, schedule).Some?
    ensures |schedule| <= Left(s) - Left(Exec(s, schedule).value)
    decreases schedule
  {
    if schedule != [] {
      StatementsRunOut(s, schedule[0]);
      BoundedStep(s, schedule[0]);
      RunsEnd(Next(s, schedule[0]).value, schedule[1..]);
    }
  }

  /** No schedule of the three programs is longer than 730 statements and signals. */
  lemma EveryRunEnds(schedule: seq<Actor>)
    requires Exec(Init(), schedule).Some?
    ensures |schedule| <= 730
  {
    RunsEnd(Init(), schedule);
    ExecFrugal(Init(), schedule);
    var s := Exec(Init(), schedule).value;
    RemainingIsNat(s.clients[0]);
    RemainingIsNat(s.clients[1]);
    RemainingIsNat(s.clients[2]);
  }
}
