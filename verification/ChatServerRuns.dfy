/**
 * What holds over every run of the Lab9 server: each connection's bytes, its slot, how the server
 * gets on, and that it always stops after SIGINT.
 */
module ChatServerRuns {
  import opened Basics
  import opened ChatServer

  // ---- what accept and read delivered, told from the schedule ----

  /** The bytes a step reads for connection i. */
  function ReadBy(s: Server, a: Actor, i: nat): string {
    match a
    case Receiver(j, got) => if j == i && i < |s.threads| && s.threads[i].pc.Reading? then got else ""
    case _ => ""
  }

  /** Everything read for connection i along a schedule. */
  function Delivered(s: Server, schedule: seq<Actor>, i: nat): string
    requires Exec(s, schedule).Some?
    decreases schedule
  {
    if schedule == [] then "" else
    ReadBy(s, schedule[0], i) + Delivered(Next(s, schedule[0]).value, schedule[1..], i)
  }

  /** The descriptor a step accepts. */
  function AcceptedBy(s: Server, a: Actor): seq<int> {
    if a.Main? && s.main.Accept? && a.fd >= 0 then [a.fd] else []
  }

  /** All descriptors accepted along a schedule, in order. */
  function Accepts(s: Server, schedule: seq<Actor>): seq<int>
    requires Exec(s, schedule).Some?
    decreases schedule
  {
    if schedule == [] then [] else
    AcceptedBy(s, schedule[0]) + Accepts(Next(s, schedule[0]).value, schedule[1..])
  }

  lemma AcceptedStep(s: Server, a: Actor)
    requires Next(s, a).Some?
    ensures Next(s, a).value.slots.accepted == s.slots.accepted + AcceptedBy(s, a)
  {
    match a
    case Main(fd) =>
      if !InAccept(s.main) && !InDrain(s.main) && !s.main.Loop? {
        ShutdownFrame(s);
      }
    case Receiver(i, got) => ThreadFrame(s, i, got);
    case Signal =>
  }

  lemma {:induction false} ExecAccepts(s: Server, schedule: seq<Actor>)
    requires Exec(s, schedule).Some?
    ensures Exec(s, schedule).value.slots.accepted == s.slots.accepted + Accepts(s, schedule)
    decreases schedule
  {
    if schedule != [] {
      AcceptedStep(s, schedule[0]);
      ExecAccepts(Next(s, schedule[0]).value, schedule[1..]);
    }
  }

  /** The bytes recorded for connection i, once it has its thread. */
  function Recorded(s: Server, i: nat): string {
    if i < |s.threads| && i < |s.slots.accepted| then Received(s, s.slots.accepted[i]) else ""
  }

  lemma RecordedMain(s: Server, fd: int, i: nat)
    requires Inv(s) && MainStep(s, fd).Some?
    ensures Recorded(MainStep(s, fd).value, i) == Recorded(s, i)
  {
    if s.main.Create? {
      NewStreamIsEmpty(s);
    } else {
      MainFrame(s, fd);
    }
  }

  lemma OtherStatements(s: Server, j: nat, got: string)
    requires ThreadStep(s, j, got).Some? && !s.threads[j].pc.Reading?
    ensures ThreadStep(s, j, got).value.received == s.received
  {
  }

  lemma RecordedThread(s: Server, j: nat, got: string, i: nat)
    requires Inv(s) && ThreadStep(s, j, got).Some?
    ensures Recorded(ThreadStep(s, j, got).value, i) == Recorded(s, i) + ReadBy(s, Receiver(j, got), i)
  {
    ThreadFrame(s, j, got);
    if s.threads[j].pc.Reading? {
      NoReadAfterClose(s, j);
      ReadEffect(s, j, got);
      if i < |s.threads| && i != j {
        assert i < j ==> s.slots.accepted[i] != s.slots.accepted[j];
        assert j < i ==> s.slots.accepted[j] != s.slots.accepted[i];
      }
    } else {
      OtherStatements(s, j, got);
    }
  }

  lemma RecordedStep(s: Server, a: Actor, i: nat)
    requires Inv(s) && Next(s, a).Some?
    ensures Recorded(Next(s, a).value, i) == Recorded(s, i) + ReadBy(s, a, i)
  {
    match a
    case Main(fd) => RecordedMain(s, fd, i);
    case Receiver(j, got) => RecordedThread(s, j, got, i);
    case Signal =>
  }

  lemma {:induction false} ExecDelivered(s: Server, schedule: seq<Actor>, i: nat)
    requires Inv(s) && Exec(s, schedule).Some?
    ensures Recorded(Exec(s, schedule).value, i) == Recorded(s, i) + Delivered(s, schedule, i)
    decreases schedule
  {
    if schedule != [] {
      var s' := Next(s, schedule[0]).value;
      NextInv(s, schedule[0]);
      RecordedStep(s, schedule[0], i);
      ExecDelivered(s', schedule[1..], i);
      Regroup(Recorded(s, i), ReadBy(s, schedule[0], i), Delivered(s', schedule[1..], i));
    }
  }

  /** The connections are those that accept returned, in order. */
  lemma ConnectionsAreAccepted(schedule: seq<Actor>)
    requires Exec(Init(), schedule).Some?
    ensures Exec(Init(), schedule).value.slots.accepted == Accepts(Init(), schedule)
  {
    ExecAccepts(Init(), schedule);
  }

  // ---- the byte streams ----

  lemma StreamSurvives(s: Server, i: nat)
    requires Streams(s) && Ordered(s.mail, s.main) && i < |s.threads|
    ensures Bytes(s.mail.printed, i) <= Received(s, s.slots.accepted[i])
    ensures !s.main.Pop? ==>
              Bytes(s.mail.printed, i) + Bytes(s.mail.queue, i) + InHand(s.threads[i]) == Received(s, s.slots.accepted[i])
  {
    assert Stream(s, i);
    BytesConcat(s.mail.printed, if s.main.Pop? then s.mail.queue[1..] else s.mail.queue, i);
  }

  /** Under every schedule, every accept and every chunking by read: what was printed and what
      is queued are what was pushed, in push order; and for every connection, the bytes printed,
      queued and in its thread's hand are exactly the bytes its reads delivered. */
  lemma StreamsSurvive(schedule: seq<Actor>, i: nat)
    requires Exec(Init(), schedule).Some? && i < |Exec(Init(), schedule).value.threads|
    ensures var s := Exec(Init(), schedule).value;
            && (!s.main.Pop? ==> s.mail.pushed == s.mail.printed + s.mail.queue)
            && Bytes(s.mail.printed, i) <= Delivered(Init(), schedule, i)
            && (!s.main.Pop? ==> Bytes(s.mail.printed, i) + Bytes(s.mail.queue, i) + InHand(s.threads[i])
                                 == Delivered(Init(), schedule, i))
  {
    InitInv();
    ExecInv(Init(), schedule);
    ExecDelivered(Init(), schedule, i);
    StreamSurvives(Exec(Init(), schedule).value, i);
  }

  // ---- slots ----

  /** Accepted descriptors and threads are only added. */
  predicate Extends(s: Server, s': Server) {
    s.slots.accepted <= s'.slots.accepted && |s.threads| <= |s'.threads|
  }

  lemma NextExtends(s: Server, a: Actor)
    requires Next(s, a).Some?
    ensures Extends(s, Next(s, a).value)
  {
    match a
    case Main(fd) =>
      if !s.main.Create? {
        MainFrame(s, fd);
      }
    case Receiver(i, got) => ThreadFrame(s, i, got);
    case Signal =>
  }

  lemma {:induction false} ExecExtends(s: Server, schedule: seq<Actor>)
    requires Exec(s, schedule).Some?
    ensures Extends(s, Exec(s, schedule).value)
    decreases schedule
  {
    if schedule != [] {
      NextExtends(s, schedule[0]);
      ExecExtends(Next(s, schedule[0]).value, schedule[1..]);
    }
  }

  lemma SlotHolds(s: Server, i: nat)
    requires Served(s) && i < |s.threads|
    ensures |s.slots.connFds| == MAX_CLIENTS && s.slots.count <= MAX_CLIENTS && i < |s.slots.accepted| <= MAX_CLIENTS
    ensures s.threads[i].slot == i && s.slots.connFds[i] == s.slots.accepted[i]
    ensures !s.threads[i].pc.Start? ==> s.threads[i].fd == s.slots.accepted[i]
  {
  }

  /** In every state the limits of the arrays hold and nothing is out of bounds, empty or closed;
      and from the moment thread i exists, however the run goes on, slot i holds the ith
      descriptor accepted, and that is the one the thread reads from. */
  lemma SlotsAreStable(schedule: seq<Actor>, later: seq<Actor>, i: nat)
    requires Exec(Init(), schedule).Some? && Exec(Exec(Init(), schedule).value, later).Some?
    requires i < |Exec(Init(), schedule).value.threads|
    ensures var s := Exec(Init(), schedule).value; var s' := Exec(s, later).value;
            && s'.slots.count <= MAX_CLIENTS && |s'.slots.connFds| == |s.slots.connFds| == MAX_CLIENTS && !s'.fault
            && i < |s.slots.accepted| <= MAX_CLIENTS && i < |s'.threads| && s'.threads[i].slot == i
            && s'.slots.connFds[i] == s.slots.connFds[i] == s.slots.accepted[i]
            && (!s'.threads[i].pc.Start? ==> s'.threads[i].fd == s.slots.accepted[i])
  {
    var s := Exec(Init(), schedule).value;
    InitInv();
    ExecInv(Init(), schedule);
    ExecInv(s, later);
    ExecExtends(s, later);
    SlotHolds(s, i);
    SlotHolds(Exec(s, later).value, i);
  }

  /** When main has stopped it has sent exactly one Quit to every accepted connection, and
      closed each descriptor after joining its thread, in slot order; no thread still runs. */
  lemma ShutdownIsOrderly(schedule: seq<Actor>)
    requires Exec(Init(), schedule).Some? && Exec(Init(), schedule).value.main.Stopped?
    ensures var s := Exec(Init(), schedule).value;
            && s.slots.count == |s.slots.accepted| == |s.threads|
            && s.events == Farewell(s.slots.accepted, |s.slots.accepted|)
            && forall j | 0 <= j < |s.threads| :: s.threads[j].pc.Done?
  {
    InitInv();
    ExecInv(Init(), schedule);
  }

  /** Each drain empties the queue: when main unlocks, all that was pushed has been printed. */
  lemma DrainsAreComplete(schedule: seq<Actor>)
    requires Exec(Init(), schedule).Some? && Exec(Init(), schedule).value.main.Release?
    ensures Exec(Init(), schedule).value.mail.printed == Exec(Init(), schedule).value.mail.pushed
  {
    InitInv();
    ExecInv(Init(), schedule);
  }

  // ---- the server gets on ----

  /** n statements of main and nothing else, with the same descriptor from every accept. */
  function MainRun(s: Server, fd: int, n: nat): Option<Server>
    decreases n
  {
    if n == 0 then Some(s) else
    match MainStep(s, fd)
    case None => None
    case Some(s') => MainRun(s', fd, n - 1)
  }

  lemma MainRunCons(s: Server, fd: int, s': Server, n: nat)
    requires n > 0 && MainStep(s, fd) == Some(s')
    ensures MainRun(s, fd, n) == MainRun(s', fd, n - 1)
  {
  }

  /** From its loop's test to the accept: two statements while there is a free slot. */
  lemma ReachesAccept(s: Server, fd: int, n: nat)
    requires s.main.Loop? && s.running && s.slots.count < 3 && n >= 2
    ensures MainRun(s, fd, n) == MainRun(s.(main := Accept), fd, n - 2)
  {
    MainRunCons(s, fd, s.(main := CanAccept), n);
    MainRunCons(s.(main := CanAccept), fd, s.(main := Accept), n - 1);
  }

  lemma StoresConnection(s: Server, fd: int, n: nat)
    requires Served(s) && s.main.Accept? && fd >= 0 && fd !in s.slots.accepted && n == 4
    ensures var t := s.slots;
            t.count < 3 == |t.connFds| == |t.recvThreads|
            && MainRun(s, fd, n) == Some(s.(main := Acquire, threads := s.threads + [Thread(Start, t.count, -1)],
              slots := Slots(t.count + 1, t.connFds[t.count := fd], t.recvThreads[t.count := |s.threads|], t.accepted + [fd])))
  {
    var t := s.slots;
    var t1 := t.(accepted := t.accepted + [fd]);
    var t2 := t1.(connFds := t.connFds[t.count := fd]);
    var t3 := t2.(recvThreads := t.recvThreads[t.count := |s.threads|]);
    var s1, s2 := s.(main := Store(fd), slots := t1), s.(main := Create, slots := t2);
    var s3 := s.(main := Count, slots := t3, threads := s.threads + [Thread(Start, t.count, -1)]);
    MainRunCons(s, fd, s1, n);
    MainRunCons(s1, fd, s2, n - 1);
    MainRunCons(s2, fd, s3, n - 2);
  }

  /** With fewer than three connections six statements from the loop's test serve the next one:
      it is in the next slot and a new thread is handed that slot. */
  lemma AcceptServes(schedule: seq<Actor>, fd: int, n: nat)
    requires Exec(Init(), schedule).Some? && n == 6
    requires var s := Exec(Init(), schedule).value;
             s.main.Loop? && s.running && s.slots.count < 3 && fd >= 0 && fd !in s.slots.accepted
    ensures var s := Exec(Init(), schedule).value; var end := MainRun(s, fd, n);
            && end.Some? && end.value.main.Acquire? && end.value.slots.count == s.slots.count + 1 <= |end.value.slots.connFds|
            && end.value.slots.connFds[s.slots.count] == fd && end.value.slots.accepted == s.slots.accepted + [fd]
            && end.value.threads == s.threads + [Thread(Start, s.slots.count, -1)]
  {
    var s := Exec(Init(), schedule).value;
    InitInv();
    ExecInv(Init(), schedule);
    ReachesAccept(s, fd, n);
    StoresConnection(s.(main := Accept), fd, n - 2);
  }

  /** The server with main at pc and the first k queued strings printed. */
  function Printing(s: Server, pc: MainPc, k: nat): Server
    requires k <= |s.mail.queue|
  {
    s.(main := pc, mail := s.mail.(queue := s.mail.queue[k..], printed := s.mail.printed + s.mail.queue[..k]))
  }

  lemma PrintsOne(s: Server, k: nat, n: nat)
    requires k < |s.mail.queue| && n >= 3
    ensures MainRun(Printing(s, Empty, k), 0, n) == MainRun(Printing(s, Empty, k + 1), 0, n - 3)
  {
    var s0, q := Printing(s, Empty, k), s.mail.queue;
    var s1 := s0.(main := Front);
    var s2 := s0.(main := Pop, mail := s0.mail.(printed := s0.mail.printed + [q[k]]));
    MainRunCons(s0, 0, s1, n);
    MainRunCons(s1, 0, s2, n - 1);
    assert q[k..][1..] == q[k + 1..] && q[..k] + [q[k]] == q[..k + 1];
    assert s0.mail.printed + [q[k]] == s.mail.printed + q[..k + 1];
    assert MainStep(s2, 0) == Some(Printing(s, Empty, k + 1));
    MainRunCons(s2, 0, Printing(s, Empty, k + 1), n - 2);
  }

  lemma {:induction false} PrintsAll(s: Server, k: nat, n: nat)
    requires k <= |s.mail.queue| && n == 3 * (|s.mail.queue| - k) + 2
    ensures MainRun(Printing(s, Empty, k), 0, n) == Some(Printing(s, Loop, |s.mail.queue|).(mail :=
              Mail(Free, [], s.mail.pushed, s.mail.printed + s.mail.queue)))
    decreases n
  {
    var q := s.mail.queue;
    if k < |q| {
      PrintsOne(s, k, n);
      PrintsAll(s, k + 1, n - 3);
    } else {
      var s0 := Printing(s, Empty, k);
      assert q[k..] == [] && q[..k] == q;
      MainRunCons(s0, 0, s0.(main := Release), n);
      MainRunCons(s0.(main := Release), 0, s0.(main := Loop, mail := s0.mail.(lock := Free)), n - 1);
    }
  }

  /** With the mutex free the drain part prints all that is queued, in order, and comes back to
      the loop's test. */
  lemma DrainServes(s: Server, n: nat)
    requires s.main.Acquire? && s.mail.lock.Free? && n == 3 * |s.mail.queue| + 3
    ensures MainRun(s, 0, n) == Some(s.(main := Loop, mail := Mail(Free, [], s.mail.pushed, s.mail.printed + s.mail.queue)))
  {
    var s1 := s.(main := Empty, mail := s.mail.(lock := ByMain));
    MainRunCons(s, 0, s1, n);
    assert s.mail.queue[0..] == s.mail.queue && s.mail.printed + s.mail.queue[..0] == s.mail.printed;
    assert s1 == Printing(s1, Empty, 0);
    PrintsAll(s1, 0, n - 1);
  }

  /** n statements of thread i and nothing else, with the same bytes from every read. */
  function ThreadRun(s: Server, i: nat, got: string, n: nat): Option<Server>
    decreases n
  {
    if n == 0 then Some(s) else
    match ThreadStep(s, i, got)
    case None => None
    case Some(s') => ThreadRun(s', i, got, n - 1)
  }

  lemma ThreadRunCons(s: Server, i: nat, got: string, s': Server, n: nat)
    requires n > 0 && ThreadStep(s, i, got) == Some(s')
    ensures ThreadRun(s, i, got, n) == ThreadRun(s', i, got, n - 1)
  {
  }

  lemma ReadsOn(s: Server, i: nat, got: string, n: nat)
    requires i < |s.threads| && s.threads[i].pc.Running? && s.running && 1 <= |got| <= 4096 && n >= 2
    requires Closed(s.threads[i].fd) !in s.events
    ensures ThreadRun(s, i, got, n) ==
            ThreadRun(s.(threads := s.threads[i := s.threads[i].(pc := Holding(got))],
                         received := s.received[s.threads[i].fd := Received(s, s.threads[i].fd) + got]), i, got, n - 2)
  {
    var t := s.threads[i];
    var s1 := s.(threads := s.threads[i := t.(pc := Reading)]);
    ThreadRunCons(s, i, got, s1, n);
    assert s1.threads[i := t.(pc := Holding(got))] == s.threads[i := t.(pc := Holding(got))];
    ThreadRunCons(s1, i, got, ThreadStep(s1, i, got).value, n - 1);
  }

  lemma PushesOn(s: Server, i: nat, got: string, n: nat)
    requires i < |s.threads| && s.threads[i].pc == Holding(got) && s.mail.lock.Free? && n == 3
    ensures ThreadRun(s, i, got, n) == Some(s.(threads := s.threads[i := s.threads[i].(pc := Running)],
              mail := s.mail.(queue := s.mail.queue + [Chunk(i, got)], pushed := s.mail.pushed + [Chunk(i, got)])))
  {
    var t := s.threads[i];
    var m1 := s.mail.(lock := ByThread(i));
    var m2 := m1.(queue := s.mail.queue + [Chunk(i, got)], pushed := s.mail.pushed + [Chunk(i, got)]);
    var s1 := s.(threads := s.threads[i := t.(pc := Push(got))], mail := m1);
    var s2 := s.(threads := s.threads[i := t.(pc := Unlock)], mail := m2);
    ThreadRunCons(s, i, got, s1, n);
    assert s1.threads[i := t.(pc := Unlock)] == s2.threads;
    ThreadRunCons(s1, i, got, s2, n - 1);
    assert s2.threads[i := t.(pc := Running)] == s.threads[i := t.(pc := Running)];
    ThreadRunCons(s2, i, got, ThreadStep(s2, i, got).value, n - 2);
  }

  /** While the server runs, with the mutex free, five statements of a thread take up to 4096
      bytes from a read to the end of the queue, all of them and as one string. */
  lemma ReadServes(schedule: seq<Actor>, i: nat, got: string, n: nat)
    requires Exec(Init(), schedule).Some? && n == 5 && 1 <= |got| <= 4096
    requires var s := Exec(Init(), schedule).value;
             i < |s.threads| && s.threads[i].pc.Running? && s.running && s.mail.lock.Free?
    ensures var s := Exec(Init(), schedule).value; var end := ThreadRun(s, i, got, n);
            && end.Some? && end.value.mail.queue == s.mail.queue + [Chunk(i, got)] && end.value.mail.lock.Free?
            && end.value.threads == s.threads
  {
    var s := Exec(Init(), schedule).value;
    InitInv();
    ExecInv(Init(), schedule);
    OpenWhileRunning(s, i);
    ReadsOn(s, i, got, n);
    var s2 := s.(threads := s.threads[i := s.threads[i].(pc := Holding(got))],
                 received := s.received[s.threads[i].fd := Received(s, s.threads[i].fd) + got]);
    PushesOn(s2, i, got, n - 2);
    assert s2.threads[i := s2.threads[i].(pc := Running)] == s.threads;
  }

  lemma OpenWhileRunning(s: Server, i: nat)
    requires Served(s) && Shut(s) && i < |s.threads| && s.threads[i].pc.Running?
    ensures Closed(s.threads[i].fd) !in s.events
  {
    var s1 := s.(threads := s.threads[i := s.threads[i].(pc := Reading)]);
    NoReadAfterClose(s1, i);
  }

  // ---- after SIGINT the server always stops ----

  /** Statements a thread has left once is_running is false, a push counted four times for the
      printing it causes; a read may still deliver. */
  function ThreadLeft(pc: ThreadPc): nat {
    match pc case Start => 2 case Running => 1 case Reading => 8 case Holding(_) => 7 case Push(_) => 6 case Unlock => 2 case Done => 0
  }

  function ThreadsLeft(ts: seq<Thread>): nat {
    if ts == [] then 0 else ThreadLeft(ts[0].pc) + ThreadsLeft(ts[1..])
  }

  lemma {:induction false} ThreadsLeftUpdate(ts: seq<Thread>, i: nat, t: Thread)
    requires i < |ts|
    ensures ThreadsLeft(ts[i := t]) == ThreadsLeft(ts) - ThreadLeft(ts[i].pc) + ThreadLeft(t.pc)
  {
    if i == 0 {
      assert ts[i := t][1..] == ts[1..];
    } else {
      ThreadsLeftUpdate(ts[1..], i - 1, t);
      assert ts[i := t][1..] == ts[1..][i - 1 := t];
    }
  }

  lemma {:induction false} ThreadsLeftAppend(ts: seq<Thread>, t: Thread)
    ensures ThreadsLeft(ts + [t]) == ThreadsLeft(ts) + ThreadLeft(t.pc)
  {
    if ts == [] {
      assert ts + [t] == [t];
    } else {
      ThreadsLeftAppend(ts[1..], t);
      assert (ts + [t])[1..] == ts[1..] + [t];
    }
  }

  /** Statements main has left: what remains of this pass of its loop, three for each string
      queued, and three for each connection to shut down. */
  function MainLeft(s: Server): int {
    var c, q := 3 * s.slots.count, 3 * |s.mail.queue|;
    match s.main
    case CanAccept => c + q + 15
    case Accept => c + q + 14
    case Store(_) => c + q + 13
    case Create => c + q + 12
    case Count => c + q + 9
    case Acquire => c + q + 5
    case Empty => c + q + 4
    case Front => c + q + 3
    case Pop => c + q + 2
    case Release => c + 3
    case Loop => c + 2
    case QuitAt(i) => c - 3 * i + 1
    case JoinAt(i) => c - 3 * i
    case CloseAt(i) => c - 3 * i - 1
    case Stopped => 0
  }

  function StatementsLeft(s: Server): int {
    ThreadsLeft(s.threads) + MainLeft(s)
  }

  lemma StatementRunsOut(s: Server, i: nat, got: string)
    requires Served(s) && !s.running && ThreadStep(s, i, got).Some?
    requires s.threads[i].pc.Reading? ==> Closed(s.threads[i].fd) !in s.events
    ensures var s' := ThreadStep(s, i, got).value;
            |s'.threads| == |s.threads|
            && ThreadLeft(s'.threads[i].pc) + 3 * |s'.mail.queue| < ThreadLeft(s.threads[i].pc) + 3 * |s.mail.queue|
            && |s'.mail.queue| >= |s.mail.queue|
  {
  }

  lemma ThreadRunsOut(s: Server, i: nat, got: string)
    requires Served(s) && Shut(s) && !s.running && ThreadStep(s, i, got).Some?
    ensures StatementsLeft(ThreadStep(s, i, got).value) < StatementsLeft(s)
  {
    if s.threads[i].pc.Reading? {
      NoReadAfterClose(s, i);
    }
    StatementRunsOut(s, i, got);
    ThreadFrame(s, i, got);
    ThreadsLeftUpdate(s.threads, i, ThreadStep(s, i, got).value.threads[i]);
  }

  lemma AcceptRunsOut(s: Server, fd: int)
    requires Served(s) && !s.running && AcceptStep(s, fd).Some?
    ensures var s' := AcceptStep(s, fd).value; !s'.running && StatementsLeft(s') < StatementsLeft(s)
  {
    SlotAccept(s, fd);
    if s.main.Create? {
      ThreadsLeftAppend(s.threads, Thread(Start, s.slots.count, -1));
    }
  }

  lemma DrainRunsOut(s: Server)
    requires Inv(s) && InDrain(s.main) && DrainStep(s.main, s.mail).Some?
    ensures var (pc, mail, fault) := DrainStep(s.main, s.mail).value;
            MainLeft(s.(main := pc, mail := mail)) < MainLeft(s)
  {
  }

  lemma ShutdownLoopRunsOut(s: Server)
    requires Inv(s) && ShutdownStep(s).Some?
    ensures var s' := ShutdownStep(s).value; s'.running == s.running && StatementsLeft(s') < StatementsLeft(s)
  {
    ShutShutdown(s);
    ShutdownFrame(s);
  }

  /** Every statement of a server told to stop uses one of the statements left. */
  lemma StoppingRunsOut(s: Server, a: Actor)
    requires Inv(s) && !s.running && !a.Signal? && Next(s, a).Some?
    ensures var s' := Next(s, a).value; Inv(s') && !s'.running && StatementsLeft(s') < StatementsLeft(s)
  {
    NextInv(s, a);
    if a.Receiver? {
      ThreadRunsOut(s, a.i, a.got);
      ThreadFrame(s, a.i, a.got);
    } else if InAccept(s.main) {
      AcceptRunsOut(s, a.fd);
    } else if InDrain(s.main) {
      DrainRunsOut(s);
    } else if !s.main.Loop? {
      ShutdownLoopRunsOut(s);
    }
  }

  /** Whoever thread i has to wait for, or thread i. */
  function Mover(s: Server, i: nat): nat
    requires i < |s.threads|
  {
    if s.threads[i].pc.Holding? && s.mail.lock.ByThread? then s.mail.lock.i else i
  }

  /** Someone who can move: main, or the thread that has the mutex it waits for, or while it waits
      to join, the thread it waits for or the one that has the mutex. */
  function Finisher(s: Server): Actor {
    if s.main.JoinAt? && s.main.i < |s.threads| && !s.threads[s.main.i].pc.Done? then Receiver(Mover(s, s.main.i), "")
    else if s.main.Acquire? && s.mail.lock.ByThread? then Receiver(s.mail.lock.i, "")
    else Main(-1)
  }

  lemma FinisherMoves(s: Server)
    requires Inv(s) && !s.main.Stopped?
    ensures Next(s, Finisher(s)).Some?
  {
  }

  /** After the last join there is nothing left to run. */
  lemma StoppedIsOver(s: Server, a: Actor)
    requires Inv(s) && s.main.Stopped? && !a.Signal?
    ensures Next(s, a).None?
  {
    if a.Receiver? && a.i < |s.threads| {
      assert s.threads[a.i].pc.Done?;
    }
  }

  /** No statement of main or of a thread can be run. */
  ghost predicate Over(s: Server) {
    forall a: Actor :: !a.Signal? ==> Next(s, a).None?
  }

  lemma OverIsStopped(s: Server)
    requires Inv(s)
    ensures Over(s) <==> s.main.Stopped?
  {
    if s.main.Stopped? {
      forall a: Actor | !a.Signal? ensures Next(s, a).None? {
        StoppedIsOver(s, a);
      }
    } else {
      FinisherMoves(s);
    }
  }

  lemma StatementsLeftIsNat(s: Server)
    requires Inv(s)
    ensures StatementsLeft(s) >= 0
  {
  }

  /** The entries of a schedule that are not just another SIGINT. */
  function Statements(schedule: seq<Actor>): nat {
    if schedule == [] then 0 else (if schedule[0].Signal? then 0 else 1) + Statements(schedule[1..])
  }

  lemma {:induction false} StoppingFinishes(s: Server, schedule: seq<Actor>)
    requires Inv(s) && !s.running && Exec(s, schedule).Some?
    ensures Statements(schedule) <= StatementsLeft(s)
    ensures Over(Exec(s, schedule).value) <==> Exec(s, schedule).value.main.Stopped?
    decreases schedule
  {
    if schedule == [] {
      StatementsLeftIsNat(s);
      OverIsStopped(s);
    } else if schedule[0].Signal? {
      assert Next(s, schedule[0]) == Some(s);
      StoppingFinishes(s, schedule[1..]);
    } else {
      StoppingRunsOut(s, schedule[0]);
      StoppingFinishes(Next(s, schedule[0]).value, schedule[1..]);
    }
  }

  /** SIGINT always stops the server: whatever state it finds, no continuation, whatever reads
      deliver, runs more statements than are left then, and one can be continued exactly until
      the server has stopped. */
  lemma ShutdownFinishes(before: seq<Actor>, after: seq<Actor>)
    requires Exec(Init(), before).Some?
    requires Exec(Next(Exec(Init(), before).value, Signal).value, after).Some?
    ensures var s := Next(Exec(Init(), before).value, Signal).value; var end := Exec(s, after).value;
            Statements(after) <= StatementsLeft(s) && (Over(end) <==> end.main.Stopped?)
  {
    InitInv();
    ExecInv(Init(), before);
    NextInv(Exec(Init(), before).value, Signal);
    StoppingFinishes(Next(Exec(Init(), before).value, Signal).value, after);
  }
}
