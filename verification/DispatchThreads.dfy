/**
 * The eight threads of Lab8, one shared-memory or kernel operation a step, under every
 * schedule. Statements that touch only a thread's own variables go with a neighbouring step.
 */
module DispatchThreads {
  import opened Basics
  import opened DispatchMessages

  /** Which thread of a process owns its lock_x. */
  datatype Lock = Free | ByMain | ByRecv

  /** The server's main loop; m is the local copy `msg`. */
  datatype ServerMainPc =
    | DLoop | DAcquire | DEmpty | DFront | DPop(m: Body) | DRelease(m: Body) | DSend(m: Body)
    | DIdle | DQuit(i: ClientId) | DJoin

  /** recv_func of the server. */
  datatype ServerRecvPc = SLoop | SRecv | SAcquire(m: Body) | SPush(m: Body) | SRelease | SDone

  /** A client's main loop; m is the local copy `recvMsg`. */
  datatype ClientMainPc =
    | MLoop | MSize | MAcquire | MFront | MPop(m: Body) | MRelease(m: Body) | MPrint(m: Body)
    | MSend | MJoin

  /** recv_func1, recv_func2, recv_func3. */
  datatype ClientRecvPc = RLoop | RRecv | RCheck(m: Body) | RAcquire(m: Body) | RPush(m: Body) | RRelease | RDone

  /** `fault` records a front() or pop() on an empty queue. */
  datatype Server = Server(
    running: bool, lock: Lock, queue: seq<Body>, main: ServerMainPc, recv: ServerRecvPc, fault: bool)

  datatype Client = Client(
    pid: int, running: bool, lock: Lock, inbox: seq<Body>, dest: int, sends: nat, printed: seq<Body>,
    main: ClientMainPc, recv: ClientRecvPc, fault: bool)

  /** Blocked, or the new state of the process and of the kernel. */
  datatype Outcome<P> = Blocked | Ran(process: P, kernel: Kernel)

  // ---- one step of one thread ----

  function ServerMainStep(s: Server, k: Kernel): Outcome<Server> {
    match s.main
    case DLoop => Ran(s.(main := if s.running then DAcquire else DQuit(1)), k)
    case DAcquire => if s.lock.Free? then Ran(s.(lock := ByMain, main := DEmpty), k) else Blocked
    case DEmpty => Ran(s.(main := if s.queue == [] then DIdle else DFront), k)
    case DFront => Ran(if s.queue == [] then s.(fault := true) else s.(main := DPop(s.queue[0])), k)
    case DPop(m) => Ran(if s.queue == [] then s.(fault := true) else s.(queue := s.queue[1..], main := DRelease(m)), k)
    case DRelease(m) => Ran(s.(lock := Free, main := DSend(m)), k)
    case DSend(m) => if k.Room() then Ran(s.(main := DLoop), k.Put(Envelope(m.dest, m))) else Blocked
    case DIdle => Ran(s.(lock := Free, main := DLoop), k)
    case DQuit(i) =>
      if k.Room() then Ran(s.(main := if i < 3 then DQuit(i + 1) else DJoin), k.Put(Envelope(i, QuitBody(i))))
      else Blocked
    case DJoin => Blocked
  }

  function ServerRecvStep(s: Server, k: Kernel): Outcome<Server> {
    match s.recv
    case SLoop => Ran(s.(recv := if s.running then SRecv else SDone), k)
    case SRecv =>
      if k.Has(SERVER_TYPE) then Ran(s.(recv := SAcquire(k.First(SERVER_TYPE))), k.Without(SERVER_TYPE)) else Blocked
    case SAcquire(m) => if s.lock.Free? then Ran(s.(lock := ByRecv, recv := SPush(m)), k) else Blocked
    case SPush(m) => Ran(s.(queue := s.queue + [m], recv := SRelease), k)
    case SRelease => Ran(s.(lock := Free, recv := SLoop), k)
    case SDone => Blocked
  }

  function ClientMainStep(c: Client, id: ClientId, k: Kernel): Outcome<Client> {
    match c.main
    case MLoop => Ran(c.(main := if c.running then MSize else MJoin), k)
    case MSize => Ran(c.(main := if c.inbox == [] then MSend else MAcquire), k)
    case MAcquire => if c.lock.Free? then Ran(c.(lock := ByMain, main := MFront), k) else Blocked
    case MFront => Ran(if c.inbox == [] then c.(fault := true) else c.(main := MPop(c.inbox[0])), k)
    case MPop(m) => Ran(if c.inbox == [] then c.(fault := true) else c.(inbox := c.inbox[1..], main := MRelease(m)), k)
    case MRelease(m) => Ran(c.(lock := Free, main := MPrint(m)), k)
    case MPrint(m) => Ran(c.(printed := c.printed + [m], main := MSize), k)
    case MSend =>
      var m := NextBody(id, c.pid, c.dest, c.sends);
      if k.Room() then Ran(c.(dest := m.dest, sends := c.sends + 1, main := MLoop), k.Put(Envelope(SERVER_TYPE, m)))
      else Blocked
    case MJoin => Blocked
  }

  function ClientRecvStep(c: Client, id: ClientId, k: Kernel): Outcome<Client> {
    match c.recv
    case RLoop => Ran(c.(recv := if c.running then RRecv else RDone), k)
    case RRecv => if k.Has(id) then Ran(c.(recv := RCheck(k.First(id))), k.Without(id)) else Blocked
    case RCheck(m) => Ran(if IsQuit(m) then c.(running := false, recv := RLoop) else c.(recv := RAcquire(m)), k)
    case RAcquire(m) => if c.lock.Free? then Ran(c.(lock := ByRecv, recv := RPush(m)), k) else Blocked
    case RPush(m) => Ran(c.(inbox := c.inbox + [m], recv := RRelease), k)
    case RRelease => Ran(c.(lock := Free, recv := RLoop), k)
    case RDone => Blocked
  }

  // ---- the whole system ----

  datatype Network = Network(kernel: Kernel, server: Server, clients: seq<Client>)

  type System = s: Network | |s.clients| == 3
    witness Network(Kernel(1, [], []), Server(true, Free, [], DLoop, SLoop, false),
                    seq(3, _ => Client(0, true, Free, [], 0, 0, [], MLoop, RLoop, false)))

  /** Who moves next; a signal stands for SIGINT, ServerRetry for a msgrcv of the server that
      a signal interrupted. */
  datatype Actor =
    | ServerMain | ServerRecv | ServerSignal | ServerRetry
    | ClientMain(d: ClientId) | ClientRecv(d: ClientId) | ClientSignal(d: ClientId)

  function WithServer(s: System, o: Outcome<Server>): Option<System> {
    match o
    case Blocked => None
    case Ran(p, k) => Some(s.(server := p, kernel := k))
  }

  function WithClient(s: System, d: ClientId, o: Outcome<Client>): Option<System> {
    match o
    case Blocked => None
    case Ran(p, k) => Some(s.(clients := s.clients[d - 1 := p], kernel := k))
  }

  function Next(s: System, a: Actor): Option<System> {
    match a
    case ServerMain => WithServer(s, ServerMainStep(s.server, s.kernel))
    case ServerRecv => WithServer(s, ServerRecvStep(s.server, s.kernel))
    case ServerSignal => Some(s.(server := s.server.(running := false)))
    case ServerRetry => if s.server.recv.SRecv? then Some(s.(server := s.server.(recv := SLoop))) else None
    case ClientMain(d) => WithClient(s, d, ClientMainStep(s.clients[d - 1], d, s.kernel))
    case ClientRecv(d) => WithClient(s, d, ClientRecvStep(s.clients[d - 1], d, s.kernel))
    case ClientSignal(d) => Some(s.(clients := s.clients[d - 1 := s.clients[d - 1].(running := false)]))
  }

  predicate Initial(s: System) {
    && s.kernel.queue == [] && s.kernel.log == [] && s.kernel.cap >= 1
    && s.server == Server(true, Free, [], DLoop, SLoop, false)
    && forall c | c in s.clients :: c == Client(c.pid, true, Free, [], 0, 0, [], MLoop, RLoop, false)
  }

  /** Runs a schedule; None when some actor in it cannot move. */
  function Exec(s: System, schedule: seq<Actor>): Option<System>
    decreases schedule
  {
    if schedule == [] then Some(s) else
    match Next(s, schedule[0])
    case None => None
    case Some(s') => Exec(s', schedule[1..])
  }

  lemma ExecCons(s: System, a: Actor, s': System, rest: seq<Actor>)
    requires Next(s, a) == Some(s')
    ensures Exec(s, [a] + rest) == Exec(s', rest)
  {
    assert ([a] + rest)[0] == a && ([a] + rest)[1..] == rest;
  }

  lemma {:induction false} ExecConcat(s: System, first: seq<Actor>, second: seq<Actor>)
    requires Exec(s, first).Some?
    ensures Exec(s, first + second) == Exec(Exec(s, first).value, second)
    decreases first
  {
    if first == [] {
      assert first + second == second;
    } else {
      ExecConcat(Next(s, first[0]).value, first[1..], second);
      assert (first + second)[1..] == first[1..] + second;
    }
  }

  // ---- locks and program counters ----

  predicate ServerLocked(s: Server) {
    && (s.lock.ByMain? <==> s.main.DEmpty? || s.main.DFront? || s.main.DPop? || s.main.DRelease? || s.main.DIdle?)
    && (s.lock.ByRecv? <==> s.recv.SPush? || s.recv.SRelease?)
    && (s.main.DFront? || s.main.DPop? ==> s.queue != [])
    && (s.main.DPop? ==> s.queue[0] == s.main.m)
    && !s.fault
    && (s.main.DQuit? || s.main.DJoin? || s.recv.SDone? ==> !s.running)
  }

  predicate ClientLocked(c: Client) {
    && (c.lock.ByMain? <==> c.main.MFront? || c.main.MPop? || c.main.MRelease?)
    && (c.lock.ByRecv? <==> c.recv.RPush? || c.recv.RRelease?)
    && (c.main.MAcquire? || c.main.MFront? || c.main.MPop? ==> c.inbox != [])
    && (c.main.MPop? ==> c.inbox[0] == c.main.m)
    && (c.recv.RAcquire? || c.recv.RPush? ==> !IsQuit(c.recv.m))
    && !c.fault
    && (c.main.MJoin? || c.recv.RDone? ==> !c.running)
  }

  predicate Locked(s: System) {
    ServerLocked(s.server) && forall c | c in s.clients :: ClientLocked(c)
  }

  lemma ServerLockedStep(s: Server, k: Kernel)
    requires ServerLocked(s)
    ensures var o := ServerMainStep(s, k); o.Ran? ==> ServerLocked(o.process)
    ensures var o := ServerRecvStep(s, k); o.Ran? ==> ServerLocked(o.process)
  {
  }

  lemma ClientLockedStep(c: Client, id: ClientId, k: Kernel)
    requires ClientLocked(c)
    ensures var o := ClientMainStep(c, id, k); o.Ran? ==> ClientLocked(o.process)
    ensures var o := ClientRecvStep(c, id, k); o.Ran? ==> ClientLocked(o.process)
  {
  }

  lemma LockedStep(s: System, a: Actor)
    requires Locked(s) && Next(s, a).Some?
    ensures Locked(Next(s, a).value)
  {
    ServerLockedStep(s.server, s.kernel);
    if a.ClientMain? || a.ClientRecv? || a.ClientSignal? {
      assert s.clients[a.d - 1] in s.clients;
      ClientLockedStep(s.clients[a.d - 1], a.d, s.kernel);
    }
  }

  /** A process's queue changes only in a step of the thread that owns its lock. */
  lemma OnlyOwnersTouchQueues(s: System, a: Actor, d: ClientId)
    requires Locked(s) && Next(s, a).Some?
    ensures Next(s, a).value.server.queue != s.server.queue ==>
              (a == ServerMain && s.server.lock.ByMain?) || (a == ServerRecv && s.server.lock.ByRecv?)
    ensures Next(s, a).value.clients[d - 1].inbox != s.clients[d - 1].inbox ==>
              (a == ClientMain(d) && s.clients[d - 1].lock.ByMain?) || (a == ClientRecv(d) && s.clients[d - 1].lock.ByRecv?)
  {
    assert s.clients[d - 1] in s.clients;
  }
}
