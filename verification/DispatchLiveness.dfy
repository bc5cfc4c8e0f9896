/** Lab8 before shutdown never gets stuck, and drains completely. */
module DispatchLiveness {
  import opened Basics
  import opened DispatchMessages
  import opened DispatchThreads
  import opened DispatchRefinement
  import P = DispatchPipeline
  import D = DispatchDelivery

  /** No process has been told to stop. */
  predicate Awake(s: System) {
    Locked(s) && s.server.running && forall c | c in s.clients :: c.running
  }

  ghost predicate Running(s: System) {
    Good(s) && Awake(s)
  }

  // ---- locks are never held across a blocking call ----

  /** Whoever owns a lock can move, so it is not waiting in msgsnd or msgrcv. */
  lemma OwnersNeverBlock(s: System, d: ClientId)
    requires Locked(s)
    ensures s.server.lock.ByMain? ==> Next(s, ServerMain).Some?
    ensures s.server.lock.ByRecv? ==> Next(s, ServerRecv).Some?
    ensures s.clients[d - 1].lock.ByMain? ==> Next(s, ClientMain(d)).Some?
    ensures s.clients[d - 1].lock.ByRecv? ==> Next(s, ClientRecv(d)).Some?
  {
    assert s.clients[d - 1] in s.clients;
  }

  // ---- driving one thread to its next hand-off ----

  /** The other thread of the same process. */
  function Partner(t: Actor): Actor
    requires t.ServerMain? || t.ServerRecv? || t.ClientMain? || t.ClientRecv?
  {
    match t
    case ServerMain => ServerRecv
    case ServerRecv => ServerMain
    case ClientMain(d) => ClientRecv(d)
    case ClientRecv(d) => ClientMain(d)
  }

  /** Thread t stands before a lock that its partner owns. */
  predicate Waiting(s: System, t: Actor) {
    match t
    case ServerMain => s.server.main.DAcquire? && s.server.lock.ByRecv?
    case ServerRecv => s.server.recv.SAcquire? && s.server.lock.ByMain?
    case ClientMain(d) => s.clients[d - 1].main.MAcquire? && s.clients[d - 1].lock.ByRecv?
    case ClientRecv(d) => s.clients[d - 1].recv.RAcquire? && s.clients[d - 1].lock.ByMain?
    case _ => false
  }

  /** Who to run so that t gets on: t, or the partner whose lock t waits for. */
  function Mover(s: System, t: Actor): Actor
    requires t.ServerMain? || t.ServerRecv? || t.ClientMain? || t.ClientRecv?
  {
    if Waiting(s, t) then Partner(t) else t
  }

  /** t has a message to pass on and is not about to send a new one. */
  predicate Busy(s: System, t: Actor) {
    match t
    case ServerRecv => ServerRecvHand(s.server.recv).Some? || s.kernel.Has(SERVER_TYPE)
    case ServerMain => (ServerMainHand(s.server.main).Some? || s.server.queue != []) && s.kernel.Room()
    case ClientRecv(d) => ClientRecvHand(s.clients[d - 1].recv).Some? || s.kernel.Has(d)
    case ClientMain(d) =>
      var c := s.clients[d - 1];
      (ClientMainHand(c.main).Some? || c.inbox != []) && !c.main.MSend? && !c.main.MJoin?
    case _ => false
  }

  // Steps of a lock owner until it unlocks, and steps of a thread until its next hand-off.

  function HoldingServerMain(pc: ServerMainPc): nat {
    match pc case DEmpty => 4 case DFront => 3 case DPop(_) => 2 case DRelease(_) => 1 case DIdle => 1 case _ => 0
  }

  function HoldingServerRecv(pc: ServerRecvPc): nat {
    match pc case SPush(_) => 2 case SRelease => 1 case _ => 0
  }

  function HoldingClientMain(pc: ClientMainPc): nat {
    match pc case MFront => 3 case MPop(_) => 2 case MRelease(_) => 1 case _ => 0
  }

  function HoldingClientRecv(pc: ClientRecvPc): nat {
    match pc case RPush(_) => 2 case RRelease => 1 case _ => 0
  }

  function AheadServerMain(pc: ServerMainPc): nat {
    match pc
    case DFront => 1 case DEmpty => 2 case DAcquire => 3 case DLoop => 4 case DIdle => 5 case DRelease(_) => 1 case _ => 0
  }

  function AheadServerRecv(pc: ServerRecvPc): nat {
    match pc case SAcquire(_) => 1 case SLoop => 1 case SRelease => 2 case _ => 0
  }

  function AheadClientMain(pc: ClientMainPc): nat {
    match pc case MFront => 1 case MAcquire => 2 case MSize => 3 case MLoop => 4 case MRelease(_) => 1 case _ => 0
  }

  function AheadClientRecv(pc: ClientRecvPc): nat {
    match pc case RCheck(_) => 2 case RAcquire(_) => 1 case RLoop => 1 case RRelease => 2 case _ => 0
  }

  function Distance(s: System, t: Actor): nat {
    match t
    case ServerMain => AheadServerMain(s.server.main) + HoldingServerRecv(s.server.recv)
    case ServerRecv => AheadServerRecv(s.server.recv) + HoldingServerMain(s.server.main)
    case ClientMain(d) => AheadClientMain(s.clients[d - 1].main) + HoldingClientRecv(s.clients[d - 1].recv)
    case ClientRecv(d) => AheadClientRecv(s.clients[d - 1].recv) + HoldingClientMain(s.clients[d - 1].main)
    case _ => 0
  }

  /** While the server runs there is no Quit anywhere. */
  lemma NoQuitWhileRunning(s: System, d: ClientId)
    requires Running(s)
    ensures s.clients[d - 1].recv.RCheck? ==> !IsQuit(s.clients[d - 1].recv.m)
    ensures forall m | m in OfType(s.kernel.queue, d) :: !IsQuit(m)
  {
    var p := PipelineOf(s);
    assert P.ClientInv(p, d);
    D.NoQuitYet(p, d);
    assert p.nodes[d - 1] == NodeOf(s.clients[d - 1]);
    assert forall m | m in OfType(s.kernel.queue, d) :: m in P.Incoming(p, d);
    assert s.clients[d - 1].recv.RCheck? ==> s.clients[d - 1].recv.m in P.Incoming(p, d);
  }

  /** A step that carries a client's message one stage on, read off the program counter. */
  predicate Moves(s: System, a: Actor) {
    match a
    case ServerMain => s.server.main.DPop? || s.server.main.DSend?
    case ServerRecv => s.server.recv.SRecv? || s.server.recv.SPush?
    case ClientMain(d) => s.clients[d - 1].main.MPop? || s.clients[d - 1].main.MPrint?
    case ClientRecv(d) =>
      s.clients[d - 1].recv.RPush? ||
      (s.clients[d - 1].recv.RRecv? && s.kernel.Has(d) && !IsQuit(s.kernel.First(d)))
    case _ => false
  }

  lemma MovesAreHandoffs(s: System, a: Actor)
    requires Locked(s) && Next(s, a).Some?
    ensures HandoffOf(s, a) == if Moves(s, a) then 1 else 0
  {
    Simulate(s, a);
  }

  /** No client main loop is past its drain loop. */
  predicate Draining(s: System) {
    forall c | c in s.clients :: !c.main.MSend? && !c.main.MJoin?
  }

  /** What has been sent, by every client, in kernel order. */
  function SentLog(s: System): seq<Body> {
    OfType(s.kernel.log, SERVER_TYPE)
  }

  /** One step of the mover is the hand-off, or brings t nearer to it. */
  ghost predicate Closer(s: System, t: Actor)
    requires Locked(s) && (t.ServerMain? || t.ServerRecv? || t.ClientMain? || t.ClientRecv?)
  {
    && Next(s, Mover(s, t)).Some?
    && var s' := Next(s, Mover(s, t)).value;
    && s'.server.running && (forall c | c in s'.clients :: c.running)
    && SentLog(s') == SentLog(s)
    && (Moves(s, Mover(s, t)) || (Busy(s', t) && Distance(s', t) < Distance(s, t)))
  }

  lemma ServerRecvCloser(s: System)
    requires Awake(s) && Busy(s, ServerRecv)
    ensures Closer(s, ServerRecv)
  {
  }

  lemma ServerMainCloser(s: System)
    requires Running(s) && Busy(s, ServerMain)
    ensures Closer(s, ServerMain)
  {
    var p := PipelineOf(s);
    P.HandsFromClients(p);
    if s.server.main.DSend? {
      P.PutEffect(s.kernel, Envelope(s.server.main.m.dest, s.server.main.m), SERVER_TYPE);
    }
  }

  /** The same for a client's receiver, on the client alone. */
  lemma ReceiverProgress(c: Client, id: ClientId, k: Kernel)
    requires ClientLocked(c) && c.running && (ClientRecvHand(c.recv).Some? || k.Has(id))
    requires c.recv.RCheck? ==> !IsQuit(c.recv.m)
    ensures var o := if c.recv.RAcquire? && c.lock.ByMain? then ClientMainStep(c, id, k) else ClientRecvStep(c, id, k);
            && o.Ran? && o.process.running
            && (c.recv.RRecv? || c.recv.RPush? || (c.recv.RAcquire? && c.lock.ByMain? && c.main.MPop?) ||
                (o.kernel == k && (ClientRecvHand(o.process.recv).Some? || k.Has(id))
                 && AheadClientRecv(o.process.recv) + HoldingClientMain(o.process.main)
                    < AheadClientRecv(c.recv) + HoldingClientMain(c.main)))
  {
  }

  lemma ClientRecvCloser(s: System, d: ClientId)
    requires Awake(s) && Busy(s, ClientRecv(d))
    requires s.clients[d - 1].recv.RCheck? ==> !IsQuit(s.clients[d - 1].recv.m)
    requires forall m | m in OfType(s.kernel.queue, d) :: !IsQuit(m)
    ensures Closer(s, ClientRecv(d))
  {
    var c := s.clients[d - 1];
    assert c in s.clients;
    ReceiverProgress(c, d, s.kernel);
  }

  /** The same for a client's main loop, on the client alone. */
  lemma DrainProgress(c: Client, id: ClientId, k: Kernel)
    requires ClientLocked(c) && c.running && (ClientMainHand(c.main).Some? || c.inbox != [])
    requires !c.main.MSend? && !c.main.MJoin?
    ensures var o := if c.main.MAcquire? && c.lock.ByRecv? then ClientRecvStep(c, id, k) else ClientMainStep(c, id, k);
            && o.Ran? && o.process.running && o.kernel == k
            && (c.main.MPop? || c.main.MPrint? || (c.main.MAcquire? && c.lock.ByRecv? && c.recv.RPush?) ||
                ((ClientMainHand(o.process.main).Some? || o.process.inbox != [])
                 && !o.process.main.MSend? && !o.process.main.MJoin?
                 && AheadClientMain(o.process.main) + HoldingClientRecv(o.process.recv)
                    < AheadClientMain(c.main) + HoldingClientRecv(c.recv)))
  {
  }

  lemma ClientMainCloser(s: System, d: ClientId)
    requires Awake(s) && Busy(s, ClientMain(d))
    ensures Closer(s, ClientMain(d))
  {
    var c := s.clients[d - 1];
    assert c in s.clients;
    DrainProgress(c, d, s.kernel);
  }

  lemma GetCloser(s: System, t: Actor)
    requires Running(s) && Busy(s, t)
    ensures Closer(s, t)
  {
    match t
    case ServerMain => ServerMainCloser(s);
    case ServerRecv => ServerRecvCloser(s);
    case ClientMain(d) => ClientMainCloser(s, d);
    case ClientRecv(d) =>
      NoQuitWhileRunning(s, d);
      ClientRecvCloser(s, d);
    case _ =>
  }

  /** A client main that is busy, or holds the lock, is not about to leave its drain loop. */
  lemma DrainingKept(s: System, t: Actor)
    requires Awake(s) && Busy(s, t) && Draining(s) && Next(s, Mover(s, t)).Some?
    ensures Draining(Next(s, Mover(s, t)).value)
  {
    if t.ClientMain? || t.ClientRecv? {
      assert s.clients[t.d - 1] in s.clients;
    }
  }

  lemma DistanceBound(s: System, t: Actor)
    requires Locked(s)
    ensures Distance(s, t) <= 6
  {
    if t.ClientMain? || t.ClientRecv? {
      assert s.clients[t.d - 1] in s.clients;
    }
  }

  /** From a busy thread, at most seven steps without a new send make a hand-off. */
  lemma {:induction false} Drive(s: System, t: Actor) returns (schedule: seq<Actor>)
    requires Running(s) && Busy(s, t)
    ensures Exec(s, schedule).Some? && |schedule| <= Distance(s, t) + 1 <= 7
    ensures var s' := Exec(s, schedule).value; Running(s') && SentLog(s') == SentLog(s) && (Draining(s) ==> Draining(s'))
    ensures Handoffs(s, schedule) > 0
    decreases Distance(s, t)
  {
    GetCloser(s, t);
    DistanceBound(s, t);
    if Draining(s) {
      DrainingKept(s, t);
    }
    var a := Mover(s, t);
    var s' := Next(s, a).value;
    NextGood(s, a);
    MovesAreHandoffs(s, a);
    if Moves(s, a) {
      schedule := [a];
      assert Exec(s', schedule[1..]) == Some(s');
    } else {
      var rest := Drive(s', t);
      schedule := [a] + rest;
      ExecCons(s, a, s', rest);
      assert schedule[1..] == rest;
    }
  }

  // ---- a full kernel queue always gets a free slot ----

  /** Thread a is about to call msgsnd. */
  predicate AtSend(s: System, a: Actor) {
    match a
    case ServerMain => s.server.main.DSend?
    case ClientMain(d) => s.clients[d - 1].main.MSend?
    case _ => false
  }

  function ServerRecvDistance(pc: ServerRecvPc): nat {
    match pc case SLoop => 1 case SRelease => 2 case SPush(_) => 3 case SAcquire(_) => 4 case _ => 0
  }

  function ClientRecvDistance(pc: ClientRecvPc): nat {
    match pc case RLoop => 1 case RRelease => 2 case RPush(_) => 3 case RAcquire(_) => 4 case RCheck(_) => 5 case _ => 0
  }

  /** Steps of receiver t, and of a partner holding its lock, until t's next msgrcv. */
  function ReceiveDistance(s: System, t: Actor): nat {
    match t
    case ServerRecv => ServerRecvDistance(s.server.recv) + HoldingServerMain(s.server.main)
    case ClientRecv(d) => ClientRecvDistance(s.clients[d - 1].recv) + HoldingClientMain(s.clients[d - 1].main)
    case _ => 0
  }

  /** The message type receiver t asks for. */
  function Wanted(t: Actor): int {
    match t
    case ClientRecv(d) => d
    case _ => SERVER_TYPE
  }

  /** The process of receiver t has not been told to stop. */
  predicate ReceiverRuns(s: System, t: Actor)
    requires t.ServerRecv? || t.ClientRecv?
  {
    if t.ServerRecv? then s.server.running else s.clients[t.d - 1].running
  }

  /** Only the process of client thread t has changed. */
  predicate OthersKept(s: System, t: Actor, s': System) {
    t.ClientRecv? || t.ClientMain? ==> s'.server == s.server && forall j | 0 <= j < 3 && j != t.d - 1 :: s'.clients[j] == s.clients[j]
  }

  /** One step of the mover takes a message out, or brings the receiver nearer to that. */
  ghost predicate NearerReceive(s: System, t: Actor)
    requires t.ServerRecv? || t.ClientRecv?
  {
    && Next(s, Mover(s, t)).Some?
    && var s' := Next(s, Mover(s, t)).value;
    && ReceiverRuns(s', t) && OthersKept(s, t, s')
    && !AtSend(s, Mover(s, t)) && (forall a :: AtSend(s, a) ==> AtSend(s', a))
    && (s'.kernel == s.kernel.Without(Wanted(t)) ||
        (s'.kernel == s.kernel && ReceiveDistance(s', t) < ReceiveDistance(s, t)))
  }

  lemma ServerReceiveNearer(s: System)
    requires Locked(s) && s.server.running && s.kernel.Has(SERVER_TYPE)
    ensures NearerReceive(s, ServerRecv)
  {
  }

  /** The same on a client alone. */
  lemma ReceiverNearer(c: Client, id: ClientId, k: Kernel)
    requires ClientLocked(c) && c.running && k.Has(id) && (c.recv.RCheck? ==> !IsQuit(c.recv.m))
    ensures var o := if c.recv.RAcquire? && c.lock.ByMain? then ClientMainStep(c, id, k) else ClientRecvStep(c, id, k);
            && o.Ran? && o.process.running && (c.main.MSend? ==> o.process.main == c.main)
            && (if c.recv.RRecv? then o.kernel == k.Without(id)
                else o.kernel == k && ClientRecvDistance(o.process.recv) + HoldingClientMain(o.process.main)
                                      < ClientRecvDistance(c.recv) + HoldingClientMain(c.main))
  {
  }

  lemma ClientReceiveNearer(s: System, d: ClientId)
    requires Locked(s) && s.clients[d - 1].running && s.kernel.Has(d)
    requires s.clients[d - 1].recv.RCheck? ==> !IsQuit(s.clients[d - 1].recv.m)
    ensures NearerReceive(s, ClientRecv(d))
  {
    var c := s.clients[d - 1];
    assert c in s.clients;
    ReceiverNearer(c, d, s.kernel);
  }

  /** A receiver holding its Quit has nothing more waiting for it. */
  lemma QuitMeansNoMore(s: System, d: ClientId)
    requires Good(s) && s.kernel.Has(d)
    ensures s.clients[d - 1].recv.RCheck? ==> !IsQuit(s.clients[d - 1].recv.m)
  {
    var p := PipelineOf(s);
    assert P.ClientInv(p, d) && p.nodes[d - 1] == NodeOf(s.clients[d - 1]);
    if s.clients[d - 1].recv.RCheck? && IsQuit(s.clients[d - 1].recv.m) {
      D.QuitComesLast(p, d);
    }
  }

  /** A running receiver with a message waiting takes it after at most nine steps. */
  lemma {:induction false} DriveReceive(s: System, t: Actor) returns (schedule: seq<Actor>)
    requires t.ServerRecv? || t.ClientRecv?
    requires Good(s) && ReceiverRuns(s, t) && s.kernel.Has(Wanted(t))
    ensures Exec(s, schedule).Some? && |schedule| <= ReceiveDistance(s, t) + 1
    ensures Exec(s, schedule).value.kernel == s.kernel.Without(Wanted(t))
    ensures ReceiverRuns(Exec(s, schedule).value, t) && OthersKept(s, t, Exec(s, schedule).value)
    ensures forall a :: AtSend(s, a) ==> a !in schedule && AtSend(Exec(s, schedule).value, a)
    decreases ReceiveDistance(s, t)
  {
    if t.ServerRecv? {
      ServerReceiveNearer(s);
    } else {
      QuitMeansNoMore(s, t.d);
      ClientReceiveNearer(s, t.d);
    }
    var a := Mover(s, t);
    var s' := Next(s, a).value;
    NextGood(s, a);
    if s'.kernel == s.kernel.Without(Wanted(t)) {
      schedule := [a];
      assert Exec(s', schedule[1..]) == Some(s');
    } else {
      var rest := DriveReceive(s', t);
      schedule := [a] + rest;
      assert schedule[1..] == rest;
    }
  }

  lemma RoomToSend(s: System, a: Actor)
    requires AtSend(s, a) && s.kernel.Room()
    ensures Next(s, a).Some?
  {
  }

  /** The receiver that the oldest message in the kernel waits for. */
  function Receiver(e: Envelope): Actor
    requires P.WellRouted(e)
  {
    if e.mtype == SERVER_TYPE then ServerRecv else ClientRecv(e.mtype)
  }

  /** Until something is told to stop, a sender blocked on a full kernel queue (of whatever
      capacity) is at most nine steps of other threads away from a free slot. */
  lemma FreeSlot(s: System) returns (schedule: seq<Actor>)
    requires Running(s) && s.kernel.queue != []
    ensures Exec(s, schedule).Some? && |schedule| <= 9
    ensures Exec(s, schedule).value.kernel.Room()
    ensures forall a :: AtSend(s, a) ==> a !in schedule && Next(Exec(s, schedule).value, a).Some?
  {
    var e := s.kernel.queue[0];
    assert P.WellRouted(e);
    var t := Receiver(e);
    schedule := DriveReceive(s, t);
    RemovedEffect(s.kernel.queue, e.mtype, e.mtype);
    forall a | AtSend(s, a) ensures a !in schedule && Next(Exec(s, schedule).value, a).Some? {
      RoomToSend(Exec(s, schedule).value, a);
    }
  }

  // ---- draining ----

  /** Some continuation without a new send hands a message on. */
  ghost predicate CanHandOff(s: System)
    requires Locked(s)
  {
    exists schedule :: Exec(s, schedule).Some? && Sends(Exec(s, schedule).value) == Sends(s) && Handoffs(s, schedule) > 0
  }

  /** While a message is in flight some thread has something to pass on. */
  lemma SomeoneBusy(s: System) returns (t: Actor)
    requires Running(s) && Draining(s) && D.Weight(PipelineOf(s)) > 0
    ensures Busy(s, t)
  {
    var p := PipelineOf(s);
    assert s.clients[0] in s.clients && s.clients[1] in s.clients && s.clients[2] in s.clients;
    if s.kernel.queue != [] {
      assert P.WellRouted(s.kernel.queue[0]);
      t := Receiver(s.kernel.queue[0]);
    } else if p.recvHand.Some? {
      t := ServerRecv;
    } else if p.mainHand.Some? || p.queue != [] {
      t := ServerMain;
    } else {
      var d: ClientId := if D.NodeWeight(p.nodes[0]) > 0 then 1 else if D.NodeWeight(p.nodes[1]) > 0 then 2 else 3;
      assert p.nodes[d - 1] == NodeOf(s.clients[d - 1]);
      t := if p.nodes[d - 1].recvHand.Some? then ClientRecv(d) else ClientMain(d);
    }
  }

  /** With the clients back in their drain loops, hand-offs remain possible without a new send
      exactly as long as some client has not printed all that was sent to it. */
  lemma HandoffsRemain(s: System)
    requires Running(s) && Draining(s)
    ensures CanHandOff(s) <==> exists d: ClientId :: s.clients[d - 1].printed != D.SentTo(PipelineOf(s), d)
  {
    var p := PipelineOf(s);
    if D.Weight(p) > 0 {
      var t := SomeoneBusy(s);
      var schedule := Drive(s, t);
      assert CanHandOff(s);
      if forall d: ClientId :: p.nodes[d - 1].printed == D.SentTo(p, d) {
        D.AllPrinted(p);
      }
    } else {
      forall d: ClientId ensures s.clients[d - 1].printed == D.SentTo(p, d) {
        D.NothingLeft(p, d);
      }
      forall schedule | Exec(s, schedule).Some? && Sends(Exec(s, schedule).value) == Sends(s)
        ensures Handoffs(s, schedule) == 0
      {
        RunHandoffs(s, schedule);
      }
    }
  }

  lemma DrainOne(s: System) returns (schedule: seq<Actor>)
    requires Running(s) && Draining(s) && D.Weight(PipelineOf(s)) > 0
    ensures Exec(s, schedule).Some? && |schedule| <= 7
    ensures var s' := Exec(s, schedule).value;
            Running(s') && Draining(s') && SentLog(s') == SentLog(s) && D.Weight(PipelineOf(s')) < D.Weight(PipelineOf(s))
  {
    var t := SomeoneBusy(s);
    schedule := Drive(s, t);
    RunHandoffs(s, schedule);
  }

  lemma Drained(s: System, d: ClientId)
    requires Good(s) && D.Weight(PipelineOf(s)) == 0
    ensures s.clients[d - 1].printed == Select(SentLog(s), To(d))
  {
    D.NothingLeft(PipelineOf(s), d);
  }

  /** And they can all be made: some continuation without a new send, of at most seven steps a
      stage left, has every client print exactly what had been sent to it. */
  lemma {:induction false} DrainsCompletely(s: System) returns (schedule: seq<Actor>)
    requires Running(s) && Draining(s)
    ensures Exec(s, schedule).Some? && |schedule| <= 7 * D.Weight(PipelineOf(s))
    ensures SentLog(Exec(s, schedule).value) == SentLog(s)
    ensures forall d: ClientId :: Exec(s, schedule).value.clients[d - 1].printed == Select(SentLog(s), To(d))
    decreases D.Weight(PipelineOf(s))
  {
    if D.Weight(PipelineOf(s)) == 0 {
      schedule := [];
      forall d: ClientId ensures s.clients[d - 1].printed == Select(SentLog(s), To(d)) {
        Drained(s, d);
      }
    } else {
      var first := DrainOne(s);
      var rest := DrainsCompletely(Exec(s, first).value);
      ExecConcat(s, first, rest);
      schedule := first + rest;
    }
  }
}
