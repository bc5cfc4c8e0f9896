/**
 * The Lab9 server: one receive thread per connection pushes what it reads on a shared queue,
 * main accepts, drains and prints, and at the end shuts every connection down. One statement
 * that touches shared state a step, under every schedule, every accept and every read result.
 */
module ChatServer {
  import opened Basics

  const MAX_CLIENTS := 3
  const BUF_LEN := 4096

  /** A queued string; `conn` (the thread that pushed it) is not in the source. */
  datatype Chunk = Chunk(conn: nat, text: string)

  datatype Lock = Free | ByMain | ByThread(i: nat)

  datatype MainPc =
    | Loop | CanAccept | Accept | Store(fd: int) | Create | Count
    | Acquire | Empty | Front | Pop | Release
    | QuitAt(i: nat) | JoinAt(i: nat) | CloseAt(i: nat) | Stopped

  /** receive_thread; text is the part of buf that read filled. */
  datatype ThreadPc = Start | Running | Reading | Holding(text: string) | Push(text: string) | Unlock | Done

  /** slot: the index of conn_fds the thread was handed by address. */
  datatype Thread = Thread(pc: ThreadPc, slot: nat, fd: int)

  datatype Event = QuitSent(fd: int) | Joined(thread: nat) | Closed(fd: int)

  /** client_count, conn_fds, recv_threads, and (history) the descriptors in accept order. */
  datatype Slots = Slots(count: nat, connFds: seq<int>, recvThreads: seq<nat>, accepted: seq<int>)

  /** msg_mutex, message_queue, and (histories) the strings pushed and printed. */
  datatype Mail = Mail(lock: Lock, queue: seq<Chunk>, pushed: seq<Chunk>, printed: seq<Chunk>)

  /** The server, with histories of the bytes read per descriptor and of what shutdown did.
      `fault` records an index past the arrays, front() or pop() on an empty queue, or a read of
      a closed descriptor. */
  datatype Server = Server(
    running: bool, main: MainPc, slots: Slots, threads: seq<Thread>, mail: Mail,
    received: map<int, string>, events: seq<Event>, fault: bool)

  function Init(): Server {
    Server(true, Loop, Slots(0, [0, 0, 0], [0, 0, 0], []), [], Mail(Free, [], [], []), map[], [], false)
  }

  /** The accept part of main's loop; fd is what accept returned, used only there. The kernel
      hands out no descriptor that is still open. */
  function AcceptStep(s: Server, fd: int): Option<Server> {
    var t := s.slots;
    match s.main
    case CanAccept => Some(s.(main := if t.count < MAX_CLIENTS then Accept else Acquire))
    case Accept =>
      if fd < 0 then Some(s.(main := Acquire))
      else if fd in t.accepted then None
      else Some(s.(main := Store(fd), slots := t.(accepted := t.accepted + [fd])))
    case Store(fd) =>
      if t.count >= |t.connFds| then Some(s.(fault := true))
      else Some(s.(slots := t.(connFds := t.connFds[t.count := fd]), main := Create))
    case Create =>
      if t.count >= |t.recvThreads| then Some(s.(fault := true))
      else Some(s.(slots := t.(recvThreads := t.recvThreads[t.count := |s.threads|]),
                   threads := s.threads + [Thread(Start, t.count, -1)], main := Count))
    case Count => Some(s.(slots := t.(count := t.count + 1), main := Acquire))
    case _ => None
  }

  /** The drain part of main's loop. */
  function DrainStep(pc: MainPc, m: Mail): Option<(MainPc, Mail, bool)> {
    match pc
    case Acquire => if m.lock.Free? then Some((Empty, m.(lock := ByMain), false)) else None
    case Empty => Some((if m.queue == [] then Release else Front, m, false))
    case Front =>
      if m.queue == [] then Some((pc, m, true)) else Some((Pop, m.(printed := m.printed + [m.queue[0]]), false))
    case Pop => if m.queue == [] then Some((pc, m, true)) else Some((Empty, m.(queue := m.queue[1..]), false))
    case Release => Some((Loop, m.(lock := Free), false))
    case _ => None
  }

  /** The shutdown loop at the end of main. */
  function ShutdownStep(s: Server): Option<Server> {
    var t := s.slots;
    match s.main
    case QuitAt(i) =>
      if i >= t.count then Some(s.(main := Stopped))
      else if i >= |t.connFds| then Some(s.(fault := true))
      else Some(s.(events := s.events + [QuitSent(t.connFds[i])], main := JoinAt(i)))
    case JoinAt(i) =>
      if i >= |t.recvThreads| || t.recvThreads[i] >= |s.threads| then Some(s.(fault := true))
      else if s.threads[t.recvThreads[i]].pc.Done?
      then Some(s.(events := s.events + [Joined(t.recvThreads[i])], main := CloseAt(i))) else None
    case CloseAt(i) =>
      if i >= |t.connFds| then Some(s.(fault := true))
      else Some(s.(events := s.events + [Closed(t.connFds[i])], main := QuitAt(i + 1)))
    case _ => None
  }

  predicate InAccept(pc: MainPc) {
    pc.CanAccept? || pc.Accept? || pc.Store? || pc.Create? || pc.Count?
  }

  predicate InDrain(pc: MainPc) {
    pc.Acquire? || pc.Empty? || pc.Front? || pc.Pop? || pc.Release?
  }

  function MainStep(s: Server, fd: int): Option<Server> {
    if s.main.Loop? then Some(s.(main := if s.running then CanAccept else QuitAt(0)))
    else if InAccept(s.main) then AcceptStep(s, fd)
    else if InDrain(s.main) then
      match DrainStep(s.main, s.mail)
      case None => None
      case Some((pc, mail, fault)) => Some(s.(main := pc, mail := mail, fault := s.fault || fault))
    else ShutdownStep(s)
  }

  function Received(s: Server, fd: int): string {
    if fd in s.received then s.received[fd] else ""
  }

  function WithThread(s: Server, i: nat, t: Thread): Server
    requires i < |s.threads|
  {
    s.(threads := s.threads[i := t])
  }

  /** One statement of thread i; got is what read delivered (nothing on timeout, end or error),
      used only there. */
  function ThreadStep(s: Server, i: nat, got: string): Option<Server> {
    if i >= |s.threads| then None else
    var t, m := s.threads[i], s.mail;
    match t.pc
    case Start =>
      if t.slot >= |s.slots.connFds| then Some(s.(fault := true))
      else Some(WithThread(s, i, t.(fd := s.slots.connFds[t.slot], pc := Running)))
    case Running => Some(WithThread(s, i, t.(pc := if s.running then Reading else Done)))
    case Reading =>
      if Closed(t.fd) in s.events then Some(s.(fault := true))
      else if |got| > BUF_LEN then None
      else if got == "" then Some(WithThread(s, i, t.(pc := Running)))
      else Some(WithThread(s, i, t.(pc := Holding(got))).(received := s.received[t.fd := Received(s, t.fd) + got]))
    case Holding(text) =>
      if m.lock.Free? then Some(WithThread(s, i, t.(pc := Push(text))).(mail := m.(lock := ByThread(i)))) else None
    case Push(text) =>
      Some(WithThread(s, i, t.(pc := Unlock)).(mail := m.(queue := m.queue + [Chunk(i, text)], pushed := m.pushed + [Chunk(i, text)])))
    case Unlock => Some(WithThread(s, i, t.(pc := Running)).(mail := m.(lock := Free)))
    case Done => None
  }

  datatype Actor = Main(fd: int) | Receiver(i: nat, got: string) | Signal

  function Next(s: Server, a: Actor): Option<Server> {
    match a
    case Main(fd) => MainStep(s, fd)
    case Receiver(i, got) => ThreadStep(s, i, got)
    case Signal => Some(s.(running := false))
  }

  function Exec(s: Server, schedule: seq<Actor>): Option<Server>
    decreases schedule
  {
    if schedule == [] then Some(s) else
    match Next(s, schedule[0])
    case None => None
    case Some(s') => Exec(s', schedule[1..])
  }

  lemma {:induction false} ExecSnoc(s: Server, schedule: seq<Actor>, a: Actor)
    requires Exec(s, schedule).Some?
    ensures Exec(s, schedule + [a]) == Next(Exec(s, schedule).value, a)
    decreases schedule
  {
    var all := schedule + [a];
    if schedule == [] {
      assert all[0] == a && all[1..] == [];
    } else {
      ExecSnoc(Next(s, schedule[0]).value, schedule[1..], a);
      assert all[0] == schedule[0] && all[1..] == schedule[1..] + [a];
    }
  }

  // ---- slots ----

  /** The accept just made is not yet counted. */
  predicate Accepting(pc: MainPc) {
    pc.Store? || pc.Create? || pc.Count?
  }

  /** Slot j holds the jth descriptor accepted, and no slot is past the array. */
  predicate SlotInv(t: Slots, pc: MainPc) {
    && |t.connFds| == MAX_CLIENTS && |t.recvThreads| == MAX_CLIENTS
    && |t.accepted| == t.count + (if Accepting(pc) then 1 else 0) <= MAX_CLIENTS
    && (pc.Accept? ==> t.count < MAX_CLIENTS)
    && (pc.Store? ==> t.accepted[t.count] == pc.fd)
    && (forall j | 0 <= j < t.count :: t.connFds[j] == t.accepted[j])
    && (pc.Create? || pc.Count? ==> t.connFds[t.count] == t.accepted[t.count])
  }

  /** Descriptors are told apart. */
  predicate Distinct(fds: seq<int>) {
    forall j, k | 0 <= j < k < |fds| :: fds[j] != fds[k]
  }

  /** Thread j was handed slot j and serves the jth connection. */
  predicate ThreadInv(t: Slots, threads: seq<Thread>, pc: MainPc) {
    && |threads| == t.count + (if pc.Count? then 1 else 0) && |threads| <= |t.accepted| && |threads| <= |t.recvThreads|
    && (forall j | 0 <= j < |threads| ::
          t.recvThreads[j] == j && threads[j].slot == j && (!threads[j].pc.Start? ==> threads[j].fd == t.accepted[j]))
  }

  predicate Served(s: Server) {
    SlotInv(s.slots, s.main) && Distinct(s.slots.accepted) && ThreadInv(s.slots, s.threads, s.main)
  }

  lemma SlotAccept(s: Server, fd: int)
    requires SlotInv(s.slots, s.main) && AcceptStep(s, fd).Some?
    ensures var s' := AcceptStep(s, fd).value; SlotInv(s'.slots, s'.main) && s'.fault == s.fault
  {
  }

  lemma DistinctAccept(s: Server, fd: int)
    requires Distinct(s.slots.accepted) && AcceptStep(s, fd).Some?
    ensures Distinct(AcceptStep(s, fd).value.slots.accepted)
  {
  }

  lemma ThreadsAccept(s: Server, fd: int)
    requires SlotInv(s.slots, s.main) && ThreadInv(s.slots, s.threads, s.main) && AcceptStep(s, fd).Some?
    ensures var s' := AcceptStep(s, fd).value; ThreadInv(s'.slots, s'.threads, s'.main)
  {
  }

  /** Shutdown touches no slot and no thread. */
  lemma ShutdownFrame(s: Server)
    requires ShutdownStep(s).Some?
    ensures var s' := ShutdownStep(s).value;
            && s'.slots == s.slots && s'.threads == s.threads && s'.mail == s.mail && s'.received == s.received
            && !InAccept(s'.main) && !InDrain(s'.main) && !InAccept(s.main) && !InDrain(s.main)
  {
  }

  lemma ServedMain(s: Server, fd: int)
    requires Served(s) && MainStep(s, fd).Some?
    ensures Served(MainStep(s, fd).value)
  {
    if InAccept(s.main) {
      SlotAccept(s, fd);
      DistinctAccept(s, fd);
      ThreadsAccept(s, fd);
    } else if !s.main.Loop? && !InDrain(s.main) {
      ShutdownFrame(s);
    }
  }

  /** A thread changes its own program counter, and in its first statement its descriptor. */
  lemma ThreadFrame(s: Server, i: nat, got: string)
    requires ThreadStep(s, i, got).Some?
    ensures var s' := ThreadStep(s, i, got).value;
            && s'.slots == s.slots && s'.main == s.main && s'.events == s.events && s'.running == s.running
            && |s'.threads| == |s.threads| && i < |s.threads| && s'.threads == s.threads[i := s'.threads[i]]
            && s'.threads[i].slot == s.threads[i].slot
            && (!s.threads[i].pc.Start? ==> s'.threads[i].fd == s.threads[i].fd && !s'.threads[i].pc.Start?)
            && (s.threads[i].pc.Start? && s.threads[i].slot < |s.slots.connFds| ==>
                  s'.threads[i].fd == s.slots.connFds[s.threads[i].slot])
  {
  }

  lemma ServedThread(s: Server, i: nat, got: string)
    requires Served(s) && ThreadStep(s, i, got).Some?
    ensures Served(ThreadStep(s, i, got).value)
  {
    ThreadFrame(s, i, got);
  }

  // ---- the mutex and the queue ----

  predicate OwnsLock(t: Thread) {
    t.pc.Push? || t.pc.Unlock?
  }

  predicate Locked(lock: Lock, threads: seq<Thread>, pc: MainPc) {
    && (lock.ByMain? <==> pc.Empty? || pc.Front? || pc.Pop? || pc.Release?)
    && (forall j | 0 <= j < |threads| :: OwnsLock(threads[j]) ==> lock == ByThread(j))
    && (lock.ByThread? ==> lock.i < |threads| && OwnsLock(threads[lock.i]))
  }

  /** Everything pushed has been printed or is queued, in push order. */
  predicate Ordered(m: Mail, pc: MainPc) {
    && (pc.Front? || pc.Pop? ==> m.queue != [])
    && m.pushed == m.printed + (if pc.Pop? then m.queue[1..] else m.queue)
    && (pc.Release? ==> m.queue == [])
  }

  predicate MailInv(s: Server) {
    Locked(s.mail.lock, s.threads, s.main) && Ordered(s.mail, s.main)
  }

  lemma DrainKeeps(pc: MainPc, m: Mail, threads: seq<Thread>)
    requires Locked(m.lock, threads, pc) && Ordered(m, pc) && DrainStep(pc, m).Some?
    ensures var (pc', m', fault) := DrainStep(pc, m).value;
            Locked(m'.lock, threads, pc') && Ordered(m', pc') && !fault
  {
  }

  lemma MailAccept(s: Server, fd: int)
    requires MailInv(s) && AcceptStep(s, fd).Some?
    ensures MailInv(AcceptStep(s, fd).value)
  {
  }

  lemma MailMain(s: Server, fd: int)
    requires MailInv(s) && MainStep(s, fd).Some?
    ensures MailInv(MainStep(s, fd).value)
  {
    if InAccept(s.main) {
      MailAccept(s, fd);
    } else if InDrain(s.main) {
      DrainKeeps(s.main, s.mail, s.threads);
    } else if !s.main.Loop? {
      ShutdownFrame(s);
    }
  }

  lemma ThreadLocks(s: Server, i: nat, got: string)
    requires Locked(s.mail.lock, s.threads, s.main) && ThreadStep(s, i, got).Some?
    ensures var s' := ThreadStep(s, i, got).value; Locked(s'.mail.lock, s'.threads, s'.main)
  {
    ThreadFrame(s, i, got);
    assert OwnsLock(s.threads[i]) ==> s.mail.lock == ByThread(i);
  }

  /** Only a push touches the queue, and it holds the lock, so main is not between front and pop. */
  lemma ThreadMail(s: Server, i: nat, got: string)
    requires MailInv(s) && ThreadStep(s, i, got).Some?
    ensures Ordered(ThreadStep(s, i, got).value.mail, s.main)
  {
    assert s.threads[i].pc.Push? ==> OwnsLock(s.threads[i]);
  }

  lemma MailThread(s: Server, i: nat, got: string)
    requires MailInv(s) && ThreadStep(s, i, got).Some?
    ensures MailInv(ThreadStep(s, i, got).value)
  {
    ThreadLocks(s, i, got);
    ThreadFrame(s, i, got);
    ThreadMail(s, i, got);
  }

  // ---- the byte streams ----

  /** The bytes thread i pushed, in order. */
  function Bytes(ms: seq<Chunk>, i: nat): string {
    if ms == [] then "" else
    Bytes(ms[..|ms| - 1], i) + if ms[|ms| - 1].conn == i then ms[|ms| - 1].text else ""
  }

  lemma BytesAppend(ms: seq<Chunk>, m: Chunk, i: nat)
    ensures Bytes(ms + [m], i) == if m.conn == i then Bytes(ms, i) + m.text else Bytes(ms, i)
  {
    assert (ms + [m])[..|ms + [m]| - 1] == ms;
    assert m.conn != i ==> Bytes(ms, i) + "" == Bytes(ms, i);
  }

  lemma BytesConcatAppend(a: seq<Chunk>, b: seq<Chunk>, m: Chunk, i: nat)
    requires Bytes(a + b, i) == Bytes(a, i) + Bytes(b, i)
    ensures Bytes((a + b) + [m], i) == Bytes(a, i) + Bytes(b + [m], i)
  {
    BytesAppend(b, m, i);
    BytesAppend(a + b, m, i);
    if m.conn == i {
      Regroup(Bytes(a, i), Bytes(b, i), m.text);
    }
  }

  lemma Regroup(a: string, b: string, c: string)
    ensures (a + b) + c == a + (b + c)
  {
  }

  lemma {:induction false} BytesConcat(a: seq<Chunk>, b: seq<Chunk>, i: nat)
    ensures Bytes(a + b, i) == Bytes(a, i) + Bytes(b, i)
  {
    if b == [] {
      assert a + b == a;
    } else {
      var init, last := b[..|b| - 1], b[|b| - 1];
      BytesConcat(a, init, i);
      BytesConcatAppend(a, init, last, i);
      assert b == init + [last] && a + b == (a + init) + [last];
    }
  }

  lemma {:induction false} BytesNone(ms: seq<Chunk>, i: nat)
    requires forall m | m in ms :: m.conn < i
    ensures Bytes(ms, i) == ""
  {
    if ms != [] {
      BytesNone(ms[..|ms| - 1], i);
      assert ms[|ms| - 1] in ms;
    }
  }

  /** Read but not yet pushed. */
  function InHand(t: Thread): string {
    if t.pc.Holding? || t.pc.Push? then t.pc.text else ""
  }

  predicate Stream(s: Server, j: nat)
    requires j < |s.threads| && j < |s.slots.accepted|
  {
    Bytes(s.mail.pushed, j) + InHand(s.threads[j]) == Received(s, s.slots.accepted[j])
  }

  predicate Streams(s: Server) {
    && |s.threads| <= |s.slots.accepted|
    && (forall j | 0 <= j < |s.threads| :: Stream(s, j))
    && (forall m | m in s.mail.pushed :: m.conn < |s.threads|)
    && (forall fd | fd in s.received :: fd in s.slots.accepted[..|s.threads|])
  }

  /** Nothing has been read or pushed yet for the connection about to get a thread. */
  lemma NewStreamIsEmpty(s: Server)
    requires Streams(s) && Served(s) && s.main.Create?
    ensures Bytes(s.mail.pushed, |s.threads|) == "" && Received(s, s.slots.accepted[|s.threads|]) == ""
  {
    var n := |s.threads|;
    BytesNone(s.mail.pushed, n);
    assert s.slots.accepted[n] !in s.slots.accepted[..n];
  }

  lemma StreamsCreate(s: Server, fd: int)
    requires Streams(s) && Served(s) && s.main.Create?
    ensures Streams(AcceptStep(s, fd).value)
  {
    NewStreamIsEmpty(s);
    var n, s' := |s.threads|, AcceptStep(s, fd).value;
    assert s'.threads == s.threads + [Thread(Start, s.slots.count, -1)];
    assert s'.mail == s.mail && s'.received == s.received && s'.slots.accepted == s.slots.accepted;
    forall j | 0 <= j <= n ensures Stream(s', j) {
      assert j < n ==> Stream(s, j);
    }
    assert forall x | x in s.slots.accepted[..n] :: x in s.slots.accepted[..n + 1];
  }

  /** Nothing but Create changes what streams depend on. */
  lemma MainFrame(s: Server, fd: int)
    requires MainStep(s, fd).Some? && !s.main.Create?
    ensures var s' := MainStep(s, fd).value;
            && s'.threads == s.threads && s'.received == s.received && s'.mail.pushed == s.mail.pushed
            && s.slots.accepted <= s'.slots.accepted
  {
    if InAccept(s.main) {
      AcceptFrame(s, fd);
    } else if !s.main.Loop? && !InDrain(s.main) {
      ShutdownFrame(s);
    }
  }

  lemma AcceptFrame(s: Server, fd: int)
    requires AcceptStep(s, fd).Some? && !s.main.Create?
    ensures var s' := AcceptStep(s, fd).value;
            && s'.threads == s.threads && s'.received == s.received && s'.mail == s.mail
            && s.slots.accepted <= s'.slots.accepted
  {
  }

  lemma StreamsMain(s: Server, fd: int)
    requires Streams(s) && Served(s) && MainStep(s, fd).Some?
    ensures Streams(MainStep(s, fd).value)
  {
    if s.main.Create? {
      StreamsCreate(s, fd);
    } else {
      MainFrame(s, fd);
      var s' := MainStep(s, fd).value;
      forall j | 0 <= j < |s.threads| ensures Stream(s', j) {
        assert Stream(s, j);
      }
      assert s'.slots.accepted[..|s.threads|] == s.slots.accepted[..|s.threads|];
    }
  }

  /** A read adds what is now in the thread's hand to what its descriptor delivered. */
  lemma ReadEffect(s: Server, i: nat, got: string)
    requires ThreadStep(s, i, got).Some? && s.threads[i].pc.Reading?
    ensures var s', fd := ThreadStep(s, i, got).value, s.threads[i].fd;
            && s'.mail == s.mail && s'.slots == s.slots
            && s'.threads == s.threads[i := s'.threads[i]]
            && Received(s', fd) == Received(s, fd) + InHand(s'.threads[i])
            && (Closed(fd) !in s.events ==> InHand(s'.threads[i]) == got)
            && (forall f | f != fd :: Received(s', f) == Received(s, f))
            && (forall f | f in s'.received :: f in s.received || f == fd)
  {
  }

  lemma StreamRead(s: Server, i: nat, got: string, j: nat)
    requires ThreadStep(s, i, got).Some? && s.threads[i].pc.Reading?
    requires j < |s.threads| <= |s.slots.accepted| && Stream(s, j) && s.threads[i].fd == s.slots.accepted[i]
    requires j != i ==> s.slots.accepted[j] != s.slots.accepted[i]
    ensures |ThreadStep(s, i, got).value.threads| == |s.threads| && ThreadStep(s, i, got).value.slots == s.slots
    ensures Stream(ThreadStep(s, i, got).value, j)
  {
    ReadEffect(s, i, got);
  }

  /** A read extends one stream. */
  lemma StreamsRead(s: Server, i: nat, got: string)
    requires Streams(s) && Served(s) && ThreadStep(s, i, got).Some? && s.threads[i].pc.Reading?
    ensures Streams(ThreadStep(s, i, got).value)
  {
    ReadEffect(s, i, got);
    assert s.slots.accepted[i] in s.slots.accepted[..|s.threads|];
    forall j | 0 <= j < |s.threads| ensures Stream(ThreadStep(s, i, got).value, j) {
      assert j < i ==> s.slots.accepted[j] != s.slots.accepted[i];
      assert i < j ==> s.slots.accepted[i] != s.slots.accepted[j];
      StreamRead(s, i, got, j);
    }
  }

  /** A push moves a thread's chunk behind its earlier ones. */
  lemma StreamsPush(s: Server, i: nat, got: string)
    requires Streams(s) && ThreadStep(s, i, got).Some? && s.threads[i].pc.Push?
    ensures Streams(ThreadStep(s, i, got).value)
  {
    ThreadFrame(s, i, got);
    var s' := ThreadStep(s, i, got).value;
    var m := Chunk(i, s.threads[i].pc.text);
    assert s'.mail.pushed == s.mail.pushed + [m] && s'.received == s.received;
    forall j | 0 <= j < |s.threads| ensures Stream(s', j) {
      assert Stream(s, j);
      BytesAppend(s.mail.pushed, m, j);
    }
  }

  lemma StreamsThread(s: Server, i: nat, got: string)
    requires Streams(s) && Served(s) && ThreadStep(s, i, got).Some?
    ensures Streams(ThreadStep(s, i, got).value)
  {
    if s.threads[i].pc.Reading? {
      StreamsRead(s, i, got);
    } else if s.threads[i].pc.Push? {
      StreamsPush(s, i, got);
    } else {
      ThreadFrame(s, i, got);
      var s' := ThreadStep(s, i, got).value;
      assert s'.mail.pushed == s.mail.pushed && s'.received == s.received && InHand(s'.threads[i]) == InHand(s.threads[i]);
      forall j | 0 <= j < |s.threads| ensures Stream(s', j) {
        assert Stream(s, j);
      }
    }
  }

  // ---- shutdown ----

  /** One Quit, one join and then one close for each of the first n connections, in order. */
  function Farewell(fds: seq<int>, n: nat): seq<Event>
    requires n <= |fds|
  {
    if n == 0 then [] else Farewell(fds, n - 1) + [QuitSent(fds[n - 1]), Joined(n - 1), Closed(fds[n - 1])]
  }

  /** How many threads main has joined. */
  function JoinedSoFar(s: Server): nat {
    match s.main
    case QuitAt(i) => i
    case JoinAt(i) => i
    case CloseAt(i) => i + 1
    case Stopped => s.slots.count
    case _ => 0
  }

  predicate Shut(s: Server) {
    var fds := s.slots.accepted;
    && s.slots.count <= |fds|
    && JoinedSoFar(s) <= |s.threads| && (forall j | 0 <= j < JoinedSoFar(s) :: s.threads[j].pc.Done?)
    && match s.main
       case QuitAt(i) => i <= s.slots.count && s.events == Farewell(fds, i)
       case JoinAt(i) => i < s.slots.count && s.events == Farewell(fds, i) + [QuitSent(fds[i])]
       case CloseAt(i) => i < s.slots.count && s.events == Farewell(fds, i) + [QuitSent(fds[i]), Joined(i)]
       case Stopped => s.events == Farewell(fds, s.slots.count)
       case _ => s.events == []
  }

  lemma ShutQuit(s: Server)
    requires Served(s) && Shut(s) && s.main.QuitAt?
    ensures ShutdownStep(s).Some? && Shut(ShutdownStep(s).value) && ShutdownStep(s).value.fault == s.fault
  {
  }

  lemma ShutJoin(s: Server)
    requires Served(s) && Shut(s) && s.main.JoinAt? && ShutdownStep(s).Some?
    ensures Shut(ShutdownStep(s).value) && ShutdownStep(s).value.fault == s.fault
  {
  }

  lemma ShutClose(s: Server)
    requires Served(s) && Shut(s) && s.main.CloseAt?
    ensures ShutdownStep(s).Some? && Shut(ShutdownStep(s).value) && ShutdownStep(s).value.fault == s.fault
  {
    var i, fds := s.main.i, s.slots.accepted;
    assert Farewell(fds, i + 1) == Farewell(fds, i) + [QuitSent(fds[i]), Joined(i)] + [Closed(fds[i])];
  }

  lemma ShutShutdown(s: Server)
    requires Served(s) && Shut(s) && ShutdownStep(s).Some?
    ensures Shut(ShutdownStep(s).value) && ShutdownStep(s).value.fault == s.fault
  {
    match s.main
    case QuitAt(_) => ShutQuit(s);
    case JoinAt(_) => ShutJoin(s);
    case CloseAt(_) => ShutClose(s);
    case _ =>
  }

  lemma ShutLoop(s: Server, fd: int)
    requires Served(s) && Shut(s) && MainStep(s, fd).Some? && (s.main.Loop? || InAccept(s.main) || InDrain(s.main))
    ensures Shut(MainStep(s, fd).value)
  {
    assert s.events == [];
    var s' := MainStep(s, fd).value;
    assert s'.events == [] && JoinedSoFar(s') == 0;
    ServedMain(s, fd);
  }

  lemma ShutThread(s: Server, i: nat, got: string)
    requires Shut(s) && ThreadStep(s, i, got).Some?
    ensures Shut(ThreadStep(s, i, got).value)
  {
    ThreadFrame(s, i, got);
    assert !s.threads[i].pc.Done?;
  }

  lemma {:induction false} FarewellCloses(fds: seq<int>, n: nat, fd: int)
    requires n <= |fds| && Closed(fd) in Farewell(fds, n)
    ensures exists j :: 0 <= j < n && fds[j] == fd
  {
    if Closed(fd) in Farewell(fds, n - 1) {
      FarewellCloses(fds, n - 1, fd);
    }
  }

  /** A thread about to read has an open descriptor. */
  lemma NoReadAfterClose(s: Server, i: nat)
    requires Served(s) && Shut(s) && i < |s.threads| && s.threads[i].pc.Reading?
    ensures Closed(s.threads[i].fd) !in s.events
  {
    var fds, fd := s.slots.accepted, s.threads[i].fd;
    if Closed(fd) in s.events {
      var n := match s.main case QuitAt(k) => k case JoinAt(k) => k case CloseAt(k) => k case Stopped => s.slots.count case _ => 0;
      assert Closed(fd) in Farewell(fds, n);
      FarewellCloses(fds, n, fd);
    }
  }

  // ---- every run ----

  predicate Inv(s: Server) {
    Served(s) && MailInv(s) && Streams(s) && Shut(s) && !s.fault
  }

  lemma MainKeepsFault(s: Server, fd: int)
    requires Served(s) && MailInv(s) && Shut(s) && MainStep(s, fd).Some?
    ensures MainStep(s, fd).value.fault == s.fault
  {
    if InAccept(s.main) {
      SlotAccept(s, fd);
    } else if InDrain(s.main) {
      DrainKeeps(s.main, s.mail, s.threads);
    } else if !s.main.Loop? {
      ShutShutdown(s);
    }
  }

  lemma NextInvMain(s: Server, fd: int)
    requires Inv(s) && MainStep(s, fd).Some?
    ensures Inv(MainStep(s, fd).value)
  {
    ServedMain(s, fd);
    MailMain(s, fd);
    StreamsMain(s, fd);
    MainKeepsFault(s, fd);
    if s.main.Loop? || InAccept(s.main) || InDrain(s.main) {
      ShutLoop(s, fd);
    } else {
      ShutShutdown(s);
    }
  }

  lemma ThreadKeepsFault(s: Server, i: nat, got: string)
    requires Inv(s) && ThreadStep(s, i, got).Some?
    ensures ThreadStep(s, i, got).value.fault == s.fault
  {
    if s.threads[i].pc.Reading? {
      NoReadAfterClose(s, i);
    }
  }

  lemma NextInvThread(s: Server, i: nat, got: string)
    requires Inv(s) && ThreadStep(s, i, got).Some?
    ensures Inv(ThreadStep(s, i, got).value)
  {
    ServedThread(s, i, got);
    MailThread(s, i, got);
    StreamsThread(s, i, got);
    ShutThread(s, i, got);
    ThreadKeepsFault(s, i, got);
  }

  lemma NextInv(s: Server, a: Actor)
    requires Inv(s) && Next(s, a).Some?
    ensures Inv(Next(s, a).value)
  {
    match a
    case Main(fd) => NextInvMain(s, fd);
    case Receiver(i, got) => NextInvThread(s, i, got);
    case Signal =>
      forall j | 0 <= j < |s.threads| ensures Stream(Next(s, a).value, j) {
        assert Stream(s, j);
      }
  }

  lemma InitInv()
    ensures Inv(Init())
  {
  }

  lemma {:induction false} ExecInv(s: Server, schedule: seq<Actor>)
    requires Inv(s) && Exec(s, schedule).Some?
    ensures Inv(Exec(s, schedule).value)
    decreases schedule
  {
    if schedule != [] {
      NextInv(s, schedule[0]);
      ExecInv(Next(s, schedule[0]).value, schedule[1..]);
    }
  }
}
