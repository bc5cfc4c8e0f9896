/** Every run of the threads of DispatchThreads is a run of the atomic DispatchPipeline. */
module DispatchRefinement {
  import opened Basics
  import opened DispatchMessages
  import opened DispatchThreads
  import P = DispatchPipeline
  import D = DispatchDelivery

  // ---- the abstraction: forget locks and program counters, keep the messages in hand ----

  function ServerMainHand(pc: ServerMainPc): Option<Body> {
    if pc.DRelease? || pc.DSend? then Some(pc.m) else None
  }

  function ServerRecvHand(pc: ServerRecvPc): Option<Body> {
    if pc.SAcquire? || pc.SPush? then Some(pc.m) else None
  }

  function ClientMainHand(pc: ClientMainPc): Option<Body> {
    if pc.MRelease? || pc.MPrint? then Some(pc.m) else None
  }

  function ClientRecvHand(pc: ClientRecvPc): Option<Body> {
    if pc.RCheck? || pc.RAcquire? || pc.RPush? then Some(pc.m) else None
  }

  function Quits(pc: ServerMainPc): nat {
    match pc
    case DQuit(i) => i - 1
    case DJoin => 3
    case _ => 0
  }

  function NodeOf(c: Client): P.Node {
    P.Node(c.pid, ClientRecvHand(c.recv), c.inbox, ClientMainHand(c.main), c.printed, c.dest, c.sends)
  }

  function NodesOf(cs: seq<Client>): (ns: seq<P.Node>)
    ensures |ns| == |cs| && forall i | 0 <= i < |cs| :: ns[i] == NodeOf(cs[i])
  {
    seq(|cs|, i requires 0 <= i < |cs| => NodeOf(cs[i]))
  }

  lemma NodesOfUpdate(cs: seq<Client>, i: nat, c: Client)
    requires i < |cs|
    ensures NodesOf(cs[i := c]) == NodesOf(cs)[i := NodeOf(c)]
  {
  }

  function PipelineOf(s: System): P.Pipeline {
    P.Pipe(s.kernel, ServerRecvHand(s.server.recv), s.server.queue, ServerMainHand(s.server.main),
           Quits(s.server.main), NodesOf(s.clients))
  }

  /** A client step changes one node and the kernel. */
  lemma PipelineOfClient(s: System, d: ClientId, c: Client, k: Kernel)
    ensures PipelineOf(s.(clients := s.clients[d - 1 := c], kernel := k))
            == P.With(PipelineOf(s), d, NodeOf(c)).(kernel := k)
  {
    NodesOfUpdate(s.clients, d - 1, c);
  }

  /** The pipeline action a step performs, if any. */
  function ActionOf(s: System, a: Actor): Option<P.Action> {
    match a
    case ServerMain =>
      (match s.server.main
       case DPop(_) => Some(P.ServerPop)
       case DSend(_) => Some(P.Dispatch)
       case DQuit(_) => Some(P.Broadcast)
       case _ => None)
    case ServerRecv =>
      (match s.server.recv
       case SRecv => Some(P.ServerTake)
       case SPush(_) => Some(P.ServerPush)
       case _ => None)
    case ClientMain(d) =>
      (match s.clients[d - 1].main
       case MPop(_) => Some(P.NodePop(d))
       case MPrint(_) => Some(P.NodePrint(d))
       case MSend => Some(P.Send(d))
       case _ => None)
    case ClientRecv(d) =>
      (match s.clients[d - 1].recv
       case RRecv => Some(P.NodeTake(d))
       case RCheck(m) => if IsQuit(m) then Some(P.NodeDropQuit(d)) else None
       case RPush(_) => Some(P.NodePush(d))
       case _ => None)
    case _ => None
  }

  ghost predicate Simulated(s: System, a: Actor)
    requires Next(s, a).Some?
  {
    match ActionOf(s, a)
    case None => PipelineOf(Next(s, a).value) == PipelineOf(s)
    case Some(act) => P.Act(PipelineOf(s), act) == Some(PipelineOf(Next(s, a).value))
  }

  lemma SimulateServer(s: System, a: Actor)
    requires Locked(s) && Next(s, a).Some? && (a.ServerMain? || a.ServerRecv?)
    ensures Simulated(s, a)
  {
  }

  /** What a step of a client's main loop does to the abstract client. */
  lemma ClientMainNode(c: Client, id: ClientId, k: Kernel)
    requires ClientLocked(c) && ClientMainStep(c, id, k).Ran?
    ensures NodeOf(ClientMainStep(c, id, k).process) ==
            match c.main
            case MPop(_) => NodeOf(c).(mainHand := Some(c.inbox[0]), inbox := c.inbox[1..])
            case MPrint(m) => NodeOf(c).(mainHand := None, printed := c.printed + [m])
            case MSend => NodeOf(c).(dest := NextBody(id, c.pid, c.dest, c.sends).dest, sends := c.sends + 1)
            case _ => NodeOf(c)
  {
  }

  /** What a step of a client's receiver does to the abstract client. */
  lemma ClientRecvNode(c: Client, id: ClientId, k: Kernel)
    requires ClientLocked(c) && ClientRecvStep(c, id, k).Ran?
    ensures NodeOf(ClientRecvStep(c, id, k).process) ==
            match c.recv
            case RRecv => NodeOf(c).(recvHand := Some(k.First(id)))
            case RCheck(m) => if IsQuit(m) then NodeOf(c).(recvHand := None) else NodeOf(c)
            case RPush(m) => NodeOf(c).(recvHand := None, inbox := c.inbox + [m])
            case _ => NodeOf(c)
  {
  }

  lemma SimulateClientSend(s: System, d: ClientId)
    requires Locked(s) && s.clients[d - 1].main.MSend? && Next(s, ClientMain(d)).Some?
    ensures Simulated(s, ClientMain(d))
  {
    var c := s.clients[d - 1];
    assert PipelineOf(s).nodes[d - 1] == NodeOf(c);
    var o := ClientMainStep(c, d, s.kernel);
    PipelineOfClient(s, d, o.process, o.kernel);
  }

  lemma SimulateClientDrain(s: System, d: ClientId)
    requires Locked(s) && !s.clients[d - 1].main.MSend? && Next(s, ClientMain(d)).Some?
    ensures Simulated(s, ClientMain(d))
  {
    var c := s.clients[d - 1];
    assert ClientLocked(c) by { assert c in s.clients; }
    ClientMainNode(c, d, s.kernel);
    var o := ClientMainStep(c, d, s.kernel);
    PipelineOfClient(s, d, o.process, o.kernel);
  }

  lemma SimulateClientMain(s: System, d: ClientId)
    requires Locked(s) && Next(s, ClientMain(d)).Some?
    ensures Simulated(s, ClientMain(d))
  {
    if s.clients[d - 1].main.MSend? {
      SimulateClientSend(s, d);
    } else {
      SimulateClientDrain(s, d);
    }
  }

  lemma SimulateClientTake(s: System, d: ClientId)
    requires Locked(s) && s.clients[d - 1].recv.RRecv? && Next(s, ClientRecv(d)).Some?
    ensures Simulated(s, ClientRecv(d))
  {
    var c := s.clients[d - 1];
    assert PipelineOf(s).nodes[d - 1] == NodeOf(c);
    var o := ClientRecvStep(c, d, s.kernel);
    PipelineOfClient(s, d, o.process, o.kernel);
  }

  lemma SimulateClientPush(s: System, d: ClientId)
    requires Locked(s) && !s.clients[d - 1].recv.RRecv? && Next(s, ClientRecv(d)).Some?
    ensures Simulated(s, ClientRecv(d))
  {
    var c := s.clients[d - 1];
    assert ClientLocked(c) by { assert c in s.clients; }
    ClientRecvNode(c, d, s.kernel);
    var o := ClientRecvStep(c, d, s.kernel);
    PipelineOfClient(s, d, o.process, o.kernel);
  }

  lemma SimulateClientRecv(s: System, d: ClientId)
    requires Locked(s) && Next(s, ClientRecv(d)).Some?
    ensures Simulated(s, ClientRecv(d))
  {
    if s.clients[d - 1].recv.RRecv? {
      SimulateClientTake(s, d);
    } else {
      SimulateClientPush(s, d);
    }
  }

  /** Lock, queue operation and unlock as separate steps refine one atomic queue operation. */
  lemma Simulate(s: System, a: Actor)
    requires Locked(s) && Next(s, a).Some?
    ensures Simulated(s, a)
  {
    match a
    case ServerMain => SimulateServer(s, a);
    case ServerRecv => SimulateServer(s, a);
    case ClientMain(d) => SimulateClientMain(s, d);
    case ClientRecv(d) => SimulateClientRecv(s, d);
    case _ =>
  }

  // ---- whole runs ----

  ghost predicate Good(s: System) {
    Locked(s) && P.Inv(PipelineOf(s))
  }

  lemma InitialGood(s: System)
    requires Initial(s)
    ensures Good(s)
  {
    assert P.Initial(PipelineOf(s));
    P.InitialInv(PipelineOf(s));
  }

  lemma NextGood(s: System, a: Actor)
    requires Good(s) && Next(s, a).Some?
    ensures Good(Next(s, a).value)
  {
    LockedStep(s, a);
    Simulate(s, a);
    if ActionOf(s, a).Some? {
      P.ActInv(PipelineOf(s), ActionOf(s, a).value);
    }
  }

  /** The invariants hold after every schedule from an initial state. */
  lemma {:induction false} ExecGood(s: System, schedule: seq<Actor>)
    requires Good(s) && Exec(s, schedule).Some?
    ensures Good(Exec(s, schedule).value)
    decreases schedule
  {
    if schedule != [] {
      NextGood(s, schedule[0]);
      ExecGood(Next(s, schedule[0]).value, schedule[1..]);
    }
  }

  /** No run calls front() or pop() on an empty queue, although clients test size() unlocked. */
  lemma NeverFaults(s: System, schedule: seq<Actor>, d: ClientId)
    requires Initial(s) && Exec(s, schedule).Some?
    ensures !Exec(s, schedule).value.server.fault && !Exec(s, schedule).value.clients[d - 1].fault
  {
    InitialGood(s);
    ExecGood(s, schedule);
    assert Exec(s, schedule).value.clients[d - 1] in Exec(s, schedule).value.clients;
  }

  /** At the end of every run, what client d printed is the first part of what was sent to it,
      and the rest is in the eight places between, oldest first. */
  lemma RunDelivers(s: System, schedule: seq<Actor>, d: ClientId)
    requires Initial(s) && Exec(s, schedule).Some?
    ensures var p := PipelineOf(Exec(s, schedule).value);
            Exec(s, schedule).value.clients[d - 1].printed + D.InFlight(p, d) == D.SentTo(p, d)
  {
    InitialGood(s);
    ExecGood(s, schedule);
    D.Delivery(PipelineOf(Exec(s, schedule).value), d);
  }

  /** In every run, the kth message of client c on client d's screen is the send of c that
      the alternation assigns to d. */
  lemma RunAlternates(s: System, schedule: seq<Actor>, c: ClientId, d: ClientId, k: nat)
    requires Initial(s) && Exec(s, schedule).Some?
    requires k < |Select(Exec(s, schedule).value.clients[d - 1].printed, By(c))|
    ensures var s', n := Exec(s, schedule).value, D.NthSend(c, d, k);
            && n < |P.SentBy(PipelineOf(s'), c)|
            && Select(s'.clients[d - 1].printed, By(c))[k] == P.SentBy(PipelineOf(s'), c)[n]
    ensures c != d
  {
    InitialGood(s);
    ExecGood(s, schedule);
    D.KthPrinted(PipelineOf(Exec(s, schedule).value), c, d, k);
  }

  /** In every run, a receiver about to stop for a Quit holds the server's broadcast and has
      pushed everything dispatched to it, in order. */
  lemma RunQuits(s: System, schedule: seq<Actor>, d: ClientId)
    requires Initial(s) && Exec(s, schedule).Some?
    requires var r := Exec(s, schedule).value.clients[d - 1].recv; r.RCheck? && IsQuit(r.m)
    ensures var s' := Exec(s, schedule).value;
            && s'.clients[d - 1].recv.m == QuitBody(d)
            && NodeOf(s'.clients[d - 1]).Arrived() == D.DispatchedFor(PipelineOf(s'), d)
            && !s'.kernel.Has(d)
  {
    InitialGood(s);
    ExecGood(s, schedule);
    assert P.ClientInv(PipelineOf(Exec(s, schedule).value), d);
    D.QuitComesLast(PipelineOf(Exec(s, schedule).value), d);
  }

  // ---- refinement of three queues, over whole runs ----

  datatype Label = Enqueue(m: Body) | Dequeue

  /** What a step does to the queue of messages for d, if anything. */
  function LabelOf(s: System, a: Actor, d: ClientId): Option<Label>
    requires Next(s, a).Some?
  {
    if a == ClientMain(d) && s.clients[d - 1].main.MPrint? then Some(Dequeue)
    else if a.ClientMain? && s.clients[a.d - 1].main.MSend? then
      var c := s.clients[a.d - 1];
      var m := NextBody(a.d, c.pid, c.dest, c.sends);
      if m.dest == d then Some(Enqueue(m)) else None
    else None
  }

  function Labels(s: System, schedule: seq<Actor>, d: ClientId): seq<Label>
    requires Exec(s, schedule).Some?
    decreases schedule
  {
    if schedule == [] then [] else
    Held(LabelOf(s, schedule[0], d)) + Labels(Next(s, schedule[0]).value, schedule[1..], d)
  }

  /** The specification machine; a dequeue of an empty queue is no behaviour at all. */
  function FifoStep(f: D.Fifo, l: Label): Option<D.Fifo> {
    match l
    case Enqueue(m) => Some(D.Enqueue(f, m))
    case Dequeue => if f.waiting == [] then None else Some(D.Dequeue(f))
  }

  function FifoRun(f: D.Fifo, labels: seq<Label>): Option<D.Fifo>
    decreases labels
  {
    if labels == [] then Some(f) else
    match FifoStep(f, labels[0])
    case None => None
    case Some(f') => FifoRun(f', labels[1..])
  }

  /** The label is the one of the pipeline action. */
  lemma LabelOfAction(s: System, a: Actor, d: ClientId)
    requires Next(s, a).Some?
    ensures LabelOf(s, a, d) ==
            match ActionOf(s, a)
            case None => None
            case Some(act) =>
              if act == P.NodePrint(d) then Some(Dequeue)
              else if act.Send? && P.SentBody(PipelineOf(s), act.c).dest == d
              then Some(Enqueue(P.SentBody(PipelineOf(s), act.c))) else None
  {
    if a.ClientMain? {
      assert PipelineOf(s).nodes[a.d - 1] == NodeOf(s.clients[a.d - 1]);
    }
  }

  lemma StepRefines(s: System, a: Actor, d: ClientId)
    requires Good(s) && Next(s, a).Some?
    ensures var f, f' := D.FifoOf(PipelineOf(s), d), D.FifoOf(PipelineOf(Next(s, a).value), d);
            match LabelOf(s, a, d)
            case None => f' == f
            case Some(l) => FifoStep(f, l) == Some(f')
  {
    Simulate(s, a);
    LabelOfAction(s, a, d);
    if ActionOf(s, a).Some? {
      D.RefinesFifo(PipelineOf(s), ActionOf(s, a).value, d);
    }
  }

  /** Every run of the eight threads is, for each destination, a run of one FIFO queue. */
  lemma {:induction false} RunRefines(s: System, schedule: seq<Actor>, d: ClientId)
    requires Good(s) && Exec(s, schedule).Some?
    ensures FifoRun(D.FifoOf(PipelineOf(s), d), Labels(s, schedule, d))
            == Some(D.FifoOf(PipelineOf(Exec(s, schedule).value), d))
    decreases schedule
  {
    if schedule != [] {
      var s' := Next(s, schedule[0]).value;
      NextGood(s, schedule[0]);
      StepRefines(s, schedule[0], d);
      RunRefines(s', schedule[1..], d);
      var rest := Labels(s', schedule[1..], d);
      match LabelOf(s, schedule[0], d) {
        case None =>
          assert Labels(s, schedule, d) == rest;
        case Some(l) =>
          assert Labels(s, schedule, d) == [l] + rest;
          assert ([l] + rest)[1..] == rest;
      }
    }
  }

  // ---- hand-offs over whole runs ----

  function HandoffOf(s: System, a: Actor): nat
    requires Next(s, a).Some? && Locked(s)
  {
    Simulate(s, a);
    match ActionOf(s, a)
    case None => 0
    case Some(act) => if D.IsHandoff(PipelineOf(s), act) then 1 else 0
  }

  function Handoffs(s: System, schedule: seq<Actor>): nat
    requires Exec(s, schedule).Some? && Locked(s)
    decreases schedule
  {
    if schedule == [] then 0 else
    LockedStep(s, schedule[0]);
    HandoffOf(s, schedule[0]) + Handoffs(Next(s, schedule[0]).value, schedule[1..])
  }

  /** The number of client messages the kernel has accepted. */
  function Sends(s: System): nat {
    |OfType(s.kernel.log, SERVER_TYPE)|
  }

  lemma HandoffStep(s: System, a: Actor)
    requires Locked(s) && P.Routed(PipelineOf(s)) && P.ServerLine(PipelineOf(s)) && Next(s, a).Some?
    ensures D.Weight(PipelineOf(s)) + 8 * (Sends(Next(s, a).value) - Sends(s))
            == D.Weight(PipelineOf(Next(s, a).value)) + HandoffOf(s, a)
  {
    Simulate(s, a);
    if ActionOf(s, a).Some? {
      D.WeightStep(PipelineOf(s), ActionOf(s, a).value);
      D.TypeFourLog(PipelineOf(s), ActionOf(s, a).value);
    } else {
      assert Next(s, a).value.kernel == PipelineOf(Next(s, a).value).kernel == s.kernel;
    }
  }

  /** Each send pays for exactly eight hand-offs: those made plus the stages left. */
  lemma {:induction false} RunHandoffs(s: System, schedule: seq<Actor>)
    requires Good(s) && Exec(s, schedule).Some?
    ensures D.Weight(PipelineOf(s)) + 8 * (Sends(Exec(s, schedule).value) - Sends(s))
            == D.Weight(PipelineOf(Exec(s, schedule).value)) + Handoffs(s, schedule)
    decreases schedule
  {
    if schedule != [] {
      HandoffStep(s, schedule[0]);
      NextGood(s, schedule[0]);
      RunHandoffs(Next(s, schedule[0]).value, schedule[1..]);
    }
  }

  lemma InitialWeight(s: System)
    requires Initial(s)
    ensures D.Weight(PipelineOf(s)) == 0 && Sends(s) == 0 && Locked(s)
  {
    assert s.clients[0] in s.clients && s.clients[1] in s.clients && s.clients[2] in s.clients;
  }

  /** From the start: never more than eight hand-offs a send. */
  lemma HandoffBound(s: System, schedule: seq<Actor>)
    requires Initial(s) && Exec(s, schedule).Some?
    ensures Locked(s)
    ensures Handoffs(s, schedule) + D.Weight(PipelineOf(Exec(s, schedule).value)) == 8 * Sends(Exec(s, schedule).value)
  {
    InitialWeight(s);
    InitialGood(s);
    RunHandoffs(s, schedule);
  }
}
