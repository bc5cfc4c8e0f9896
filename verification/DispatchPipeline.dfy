/**
 * The Lab8 system with locks and program counters left out: every queue operation is one
 * action. DispatchRefinement shows that the threads of DispatchThreads only ever do this.
 */
module DispatchPipeline {
  import opened Basics
  import opened DispatchMessages

  /** One client: the message its receiver holds, the local queue, the message its main
      loop holds, what it printed, and its alternation state. */
  datatype Node = Node(
    pid: int, recvHand: Option<Body>, inbox: seq<Body>, mainHand: Option<Body>,
    printed: seq<Body>, dest: int, sends: nat)
  {
    /** Everything the receiver ever pushed, in order. */
    function Arrived(): seq<Body> {
      printed + Held(mainHand) + inbox
    }
  }

  /** The kernel, the server's two hands and queue, how many Quits were broadcast, the clients. */
  datatype Pipe = Pipe(
    kernel: Kernel, recvHand: Option<Body>, queue: seq<Body>, mainHand: Option<Body>,
    quits: nat, nodes: seq<Node>)

  type Pipeline = p: Pipe | |p.nodes| == 3
    witness Pipe(Kernel(1, [], []), None, [], None, 0, seq(3, _ => Node(0, None, [], None, [], 0, 0)))

  datatype Action =
    | Send(c: ClientId)       // a client's msgsnd
    | ServerTake | ServerPush // recv_func of the server
    | ServerPop | Dispatch    // main loop of the server
    | Broadcast               // one Quit
    | NodeTake(d: ClientId) | NodePush(d: ClientId) | NodeDropQuit(d: ClientId)
    | NodePop(d: ClientId) | NodePrint(d: ClientId)

  function With(p: Pipeline, d: ClientId, n: Node): Pipeline {
    p.(nodes := p.nodes[d - 1 := n])
  }

  /** The message client c sends next. */
  function SentBody(p: Pipeline, c: ClientId): Body {
    var n := p.nodes[c - 1];
    NextBody(c, n.pid, n.dest, n.sends)
  }

  /** The state after an action, or None where it cannot happen. */
  function Act(p: Pipeline, a: Action): Option<Pipeline> {
    match a
    case Send(c) =>
      var n, m := p.nodes[c - 1], SentBody(p, c);
      if !p.kernel.Room() then None else
      Some(With(p, c, n.(dest := m.dest, sends := n.sends + 1)).(kernel := p.kernel.Put(Envelope(SERVER_TYPE, m))))
    case ServerTake =>
      if p.recvHand.Some? || !p.kernel.Has(SERVER_TYPE) then None else
      Some(p.(recvHand := Some(p.kernel.First(SERVER_TYPE)), kernel := p.kernel.Without(SERVER_TYPE)))
    case ServerPush =>
      if p.recvHand.None? then None else
      Some(p.(queue := p.queue + [p.recvHand.value], recvHand := None))
    case ServerPop =>
      if p.mainHand.Some? || p.queue == [] then None else
      Some(p.(mainHand := Some(p.queue[0]), queue := p.queue[1..]))
    case Dispatch =>
      if p.mainHand.None? || p.quits > 0 || !p.kernel.Room() then None else
      var m := p.mainHand.value;
      Some(p.(kernel := p.kernel.Put(Envelope(m.dest, m)), mainHand := None))
    case Broadcast =>
      if p.quits >= 3 || !p.kernel.Room() then None else
      Some(p.(kernel := p.kernel.Put(Envelope(p.quits + 1, QuitBody(p.quits + 1))), quits := p.quits + 1))
    case NodeTake(d) =>
      var n := p.nodes[d - 1];
      if n.recvHand.Some? || !p.kernel.Has(d) then None else
      Some(With(p, d, n.(recvHand := Some(p.kernel.First(d)))).(kernel := p.kernel.Without(d)))
    case NodePush(d) =>
      var n := p.nodes[d - 1];
      if n.recvHand.None? || IsQuit(n.recvHand.value) then None else
      Some(With(p, d, n.(inbox := n.inbox + [n.recvHand.value], recvHand := None)))
    case NodeDropQuit(d) =>
      var n := p.nodes[d - 1];
      if n.recvHand.None? || !IsQuit(n.recvHand.value) then None else
      Some(With(p, d, n.(recvHand := None)))
    case NodePop(d) =>
      var n := p.nodes[d - 1];
      if n.mainHand.Some? || n.inbox == [] then None else
      Some(With(p, d, n.(mainHand := Some(n.inbox[0]), inbox := n.inbox[1..])))
    case NodePrint(d) =>
      var n := p.nodes[d - 1];
      if n.mainHand.None? then None else
      Some(With(p, d, n.(printed := n.printed + [n.mainHand.value], mainHand := None)))
  }

  predicate Initial(p: Pipeline) {
    && p.kernel.queue == [] && p.kernel.log == [] && p.kernel.cap >= 1
    && p.recvHand == None && p.queue == [] && p.mainHand == None && p.quits == 0
    && forall n | n in p.nodes :: n == Node(n.pid, None, [], None, [], 0, 0)
  }

  // ---- what every action keeps ----

  /** Type 4 carries client messages; type d carries messages for d and perhaps a Quit. */
  predicate WellRouted(e: Envelope) {
    || (e.mtype == SERVER_TYPE && FromClient(e.body))
    || (1 <= e.mtype <= 3 && e.body.dest == e.mtype && (FromClient(e.body) || e.body == QuitBody(e.mtype)))
  }

  ghost predicate Routed(p: Pipeline) {
    && (forall e | e in p.kernel.log :: WellRouted(e))
    && (forall e | e in p.kernel.queue :: WellRouted(e))
  }

  /** The server is one first-in first-out line from its clients' sends to its dispatches. */
  predicate ServerLine(p: Pipeline) {
    Dispatched(p.kernel.log) + Held(p.mainHand) + p.queue + Held(p.recvHand) + OfType(p.kernel.queue, SERVER_TYPE)
    == OfType(p.kernel.log, SERVER_TYPE)
  }

  /** What is still on its way from the kernel to client d's local queue. */
  function Incoming(p: Pipeline, d: ClientId): seq<Body> {
    Held(p.nodes[d - 1].recvHand) + OfType(p.kernel.queue, d)
  }

  /** all: the type d messages ever put; incoming is a final part of it, and what is
      before that part, Quits aside, has arrived. */
  predicate SplitAt(all: seq<Body>, incoming: seq<Body>, arrived: seq<Body>) {
    && |incoming| <= |all|
    && all[|all| - |incoming|..] == incoming
    && arrived == Select(all[..|all| - |incoming|], Data)
  }

  predicate ClientLine(p: Pipeline, d: ClientId) {
    SplitAt(OfType(p.kernel.log, d), Incoming(p, d), p.nodes[d - 1].Arrived())
  }

  /** A Quit to d is the last message ever sent to d. */
  predicate QuitLast(p: Pipeline, d: ClientId) {
    var all := OfType(p.kernel.log, d);
    all == if d <= p.quits then Select(all, Data) + [QuitBody(d)] else Select(all, Data)
  }

  /** The sends of client c so far, in order. */
  function SentBy(p: Pipeline, c: ClientId): seq<Body> {
    Select(OfType(p.kernel.log, SERVER_TYPE), By(c))
  }

  /** ms are the sends number 1, 2, ... of client c, to alternating destinations. */
  predicate Alternating(ms: seq<Body>, c: ClientId) {
    forall i | 0 <= i < |ms| ::
      ms[i].no == i + 1 && ms[i].dest == if i % 2 == 0 then FirstDest(c) else SecondDest(c)
  }

  /** The alternation state after ms: the destination of the last message. */
  function LastDest(ms: seq<Body>): int {
    if ms == [] then 0 else ms[|ms| - 1].dest
  }

  predicate Alternation(p: Pipeline, c: ClientId) {
    var n, ms := p.nodes[c - 1], SentBy(p, c);
    && |ms| == n.sends && Alternating(ms, c)
    && n.dest == LastDest(ms)
  }

  predicate ClientInv(p: Pipeline, d: ClientId) {
    ClientLine(p, d) && QuitLast(p, d) && Alternation(p, d)
  }

  ghost predicate Inv(p: Pipeline) {
    && 1 <= p.kernel.cap && |p.kernel.queue| <= p.kernel.cap && p.quits <= 3 && Routed(p) && ServerLine(p)
    && (forall d: ClientId :: ClientInv(p, d))
  }

  lemma InitialInv(p: Pipeline)
    requires Initial(p)
    ensures Inv(p)
  {
    forall d: ClientId ensures ClientInv(p, d) {
      assert p.nodes[d - 1] in p.nodes;
    }
  }

  // ---- putting a message ----

  /** What one more message does to every reading of the kernel. */
  lemma PutEffect(k: Kernel, e: Envelope, t: int)
    ensures OfType(k.Put(e).queue, t) == if e.mtype == t then OfType(k.queue, t) + [e.body] else OfType(k.queue, t)
    ensures OfType(k.Put(e).log, t) == if e.mtype == t then OfType(k.log, t) + [e.body] else OfType(k.log, t)
  {
    OfTypeAppend(k.queue, e, t);
    OfTypeAppend(k.log, e, t);
  }

  lemma SplitPut(all: seq<Body>, incoming: seq<Body>, arrived: seq<Body>, m: Body)
    requires SplitAt(all, incoming, arrived)
    ensures SplitAt(all + [m], incoming + [m], arrived)
  {
    var n := |all| - |incoming|;
    assert (all + [m])[..n] == all[..n];
    assert (all + [m])[n..] == all[n..] + [m];
  }

  lemma SplitTake(all: seq<Body>, incoming: seq<Body>, arrived: seq<Body>)
    requires SplitAt(all, incoming, arrived) && incoming != []
    ensures SplitAt(all, incoming[1..], if IsQuit(incoming[0]) then arrived else arrived + [incoming[0]])
  {
    var n := |all| - |incoming|;
    assert all[n] == incoming[0];
    assert all[..n + 1] == all[..n] + [all[n]];
    SelectAppend(all[..n], all[n], Data);
  }

  /** A Put keeps every client line, whatever node fields outside the line change. */
  lemma ClientLinePut(p: Pipeline, e: Envelope, p': Pipeline, d: ClientId)
    requires ClientLine(p, d) && p'.kernel == p.kernel.Put(e)
    requires p'.nodes[d - 1].recvHand == p.nodes[d - 1].recvHand && p'.nodes[d - 1].mainHand == p.nodes[d - 1].mainHand
    requires p'.nodes[d - 1].inbox == p.nodes[d - 1].inbox && p'.nodes[d - 1].printed == p.nodes[d - 1].printed
    ensures ClientLine(p', d)
  {
    PutEffect(p.kernel, e, d);
    var all, incoming, arrived := OfType(p.kernel.log, d), Incoming(p, d), p.nodes[d - 1].Arrived();
    assert p'.nodes[d - 1].Arrived() == arrived;
    if e.mtype == d {
      SplitPut(all, incoming, arrived, e.body);
      assert Incoming(p', d) == incoming + [e.body];
    } else {
      assert Incoming(p', d) == incoming;
    }
  }

  // ---- preservation, one invariant at a time ----

  lemma RoutedStep(p: Pipeline, a: Action)
    requires p.quits <= 3 && Routed(p) && ServerLine(p) && Act(p, a).Some?
    ensures Routed(Act(p, a).value) && Act(p, a).value.quits <= 3
  {
    match a
    case Send(c) =>
      NextBodyFromClient(c, p.nodes[c - 1].pid, p.nodes[c - 1].dest, p.nodes[c - 1].sends);
    case Dispatch =>
      HandsFromClients(p);
    case ServerTake =>
      RemovedMembers(p.kernel.queue, SERVER_TYPE);
    case NodeTake(d) =>
      RemovedMembers(p.kernel.queue, d);
    case _ =>
  }

  /** Whatever the server holds came from a client. */
  lemma HandsFromClients(p: Pipeline)
    requires Routed(p) && ServerLine(p)
    ensures p.mainHand.Some? ==> FromClient(p.mainHand.value)
    ensures p.recvHand.Some? ==> FromClient(p.recvHand.value)
    ensures forall m | m in p.queue :: FromClient(m)
  {
    var all := OfType(p.kernel.log, SERVER_TYPE);
    OfTypeMembers(p.kernel.log, SERVER_TYPE);
    forall m | m in all ensures FromClient(m) {
      assert WellRouted(Envelope(SERVER_TYPE, m));
    }
    assert forall m | m in Held(p.mainHand) :: m in all;
    assert forall m | m in Held(p.recvHand) :: m in all;
    assert forall m | m in p.queue :: m in all;
    assert p.mainHand.Some? ==> p.mainHand.value in Held(p.mainHand);
    assert p.recvHand.Some? ==> p.recvHand.value in Held(p.recvHand);
  }

  /** The envelope an action puts into the kernel, if it does. */
  function PutBy(p: Pipeline, a: Action): Option<Envelope>
    requires Act(p, a).Some?
  {
    match a
    case Send(c) => Some(Envelope(SERVER_TYPE, SentBody(p, c)))
    case Dispatch => Some(Envelope(p.mainHand.value.dest, p.mainHand.value))
    case Broadcast => Some(Envelope(p.quits + 1, QuitBody(p.quits + 1)))
    case _ => None
  }

  lemma ServerLineSend(p: Pipeline, c: ClientId)
    requires ServerLine(p) && Act(p, Send(c)).Some?
    ensures ServerLine(Act(p, Send(c)).value)
  {
    var e := PutBy(p, Send(c)).value;
    PutEffect(p.kernel, e, SERVER_TYPE);
    DispatchedAppend(p.kernel.log, e);
  }

  lemma ServerLineDispatch(p: Pipeline)
    requires ServerLine(p) && Act(p, Dispatch).Some? && FromClient(p.mainHand.value)
    ensures ServerLine(Act(p, Dispatch).value)
  {
    var e := PutBy(p, Dispatch).value;
    PutEffect(p.kernel, e, SERVER_TYPE);
    DispatchedAppend(p.kernel.log, e);
    assert Dispatched(p.kernel.log) + Held(p.mainHand) == Dispatched(p.kernel.Put(e).log) + [];
  }

  lemma ServerLineBroadcast(p: Pipeline)
    requires ServerLine(p) && Act(p, Broadcast).Some?
    ensures ServerLine(Act(p, Broadcast).value)
  {
    var e := PutBy(p, Broadcast).value;
    PutEffect(p.kernel, e, SERVER_TYPE);
    DispatchedAppend(p.kernel.log, e);
  }

  lemma ServerLineTake(p: Pipeline, t: int)
    requires p.kernel.Has(t)
    ensures OfType(p.kernel.Without(t).queue, SERVER_TYPE) ==
            if t == SERVER_TYPE then OfType(p.kernel.queue, SERVER_TYPE)[1..] else OfType(p.kernel.queue, SERVER_TYPE)
  {
    RemovedEffect(p.kernel.queue, t, SERVER_TYPE);
  }

  lemma ServerLineStep(p: Pipeline, a: Action)
    requires Routed(p) && ServerLine(p) && Act(p, a).Some?
    ensures ServerLine(Act(p, a).value)
  {
    if a.Send? {
      ServerLineSend(p, a.c);
    } else if a.Dispatch? {
      HandsFromClients(p);
      ServerLineDispatch(p);
    } else if a.Broadcast? {
      ServerLineBroadcast(p);
    } else if a.ServerTake? {
      ServerLineTake(p, SERVER_TYPE);
    } else if a.NodeTake? {
      ServerLineTake(p, a.d);
    }
  }

  // The receiver's own actions shorten what is incoming.

  lemma ClientLinePush(p: Pipeline, d: ClientId)
    requires ClientLine(p, d) && Act(p, NodePush(d)).Some?
    ensures ClientLine(Act(p, NodePush(d)).value, d)
  {
    var p', n, incoming := Act(p, NodePush(d)).value, p.nodes[d - 1], Incoming(p, d);
    SplitTake(OfType(p.kernel.log, d), incoming, n.Arrived());
    assert incoming[1..] == Incoming(p', d);
    assert p'.nodes[d - 1].Arrived() == n.Arrived() + [incoming[0]];
  }

  lemma ClientLineDropQuit(p: Pipeline, d: ClientId)
    requires ClientLine(p, d) && Act(p, NodeDropQuit(d)).Some?
    ensures ClientLine(Act(p, NodeDropQuit(d)).value, d)
  {
    var p', incoming := Act(p, NodeDropQuit(d)).value, Incoming(p, d);
    SplitTake(OfType(p.kernel.log, d), incoming, p.nodes[d - 1].Arrived());
    assert incoming[1..] == Incoming(p', d);
  }

  /** The main loop's own actions only move what has arrived. */
  lemma ClientLineMain(p: Pipeline, a: Action, d: ClientId)
    requires ClientLine(p, d) && Act(p, a).Some? && (a == NodePop(d) || a == NodePrint(d))
    ensures ClientLine(Act(p, a).value, d)
  {
    assert Act(p, a).value.nodes[d - 1].Arrived() == p.nodes[d - 1].Arrived();
  }

  /** What a take leaves alone: the log, what has arrived, and what is incoming, which it only
      moves from the kernel to the hand. */
  lemma TakeFrame(p: Pipeline, a: Action, d: ClientId)
    requires Act(p, a).Some? && (a.ServerTake? || a.NodeTake?)
    ensures var p' := Act(p, a).value;
            && p'.kernel.log == p.kernel.log && p'.nodes[d - 1].Arrived() == p.nodes[d - 1].Arrived()
            && Incoming(p', d) == Incoming(p, d)
  {
    RemovedEffect(p.kernel.queue, if a.ServerTake? then SERVER_TYPE else a.d, d);
  }

  lemma ClientLineTake(p: Pipeline, a: Action, d: ClientId)
    requires ClientLine(p, d) && Act(p, a).Some? && (a.ServerTake? || a.NodeTake?)
    ensures ClientLine(Act(p, a).value, d)
  {
    TakeFrame(p, a, d);
  }

  /** A Put action changes the kernel and no line inside a client. */
  lemma PutFrame(p: Pipeline, a: Action, d: ClientId)
    requires Act(p, a).Some? && PutBy(p, a).Some?
    ensures Act(p, a).value.kernel == p.kernel.Put(PutBy(p, a).value)
    ensures var n, n' := p.nodes[d - 1], Act(p, a).value.nodes[d - 1];
            n'.recvHand == n.recvHand && n'.mainHand == n.mainHand && n'.inbox == n.inbox && n'.printed == n.printed
  {
  }

  lemma ClientLinePutAct(p: Pipeline, a: Action, d: ClientId)
    requires ClientLine(p, d) && Act(p, a).Some? && PutBy(p, a).Some?
    ensures ClientLine(Act(p, a).value, d)
  {
    PutFrame(p, a, d);
    ClientLinePut(p, PutBy(p, a).value, Act(p, a).value, d);
  }

  lemma ClientLineStep(p: Pipeline, a: Action, d: ClientId)
    requires ClientLine(p, d) && Act(p, a).Some?
    ensures ClientLine(Act(p, a).value, d)
  {
    if PutBy(p, a).Some? {
      ClientLinePutAct(p, a, d);
    } else if a.ServerTake? || a.NodeTake? {
      ClientLineTake(p, a, d);
    } else if a == NodePush(d) {
      ClientLinePush(p, d);
    } else if a == NodeDropQuit(d) {
      ClientLineDropQuit(p, d);
    } else if a == NodePop(d) || a == NodePrint(d) {
      ClientLineMain(p, a, d);
    } else {
      assert Act(p, a).value.nodes[d - 1] == p.nodes[d - 1];
      assert Act(p, a).value.kernel == p.kernel;
    }
  }

  lemma QuitLastStep(p: Pipeline, a: Action, d: ClientId)
    requires Routed(p) && ServerLine(p) && QuitLast(p, d) && Act(p, a).Some?
    ensures QuitLast(Act(p, a).value, d)
  {
    match a
    case Send(c) =>
      PutEffect(p.kernel, Envelope(SERVER_TYPE, SentBody(p, c)), d);
    case Dispatch =>
      HandsFromClients(p);
      PutEffect(p.kernel, Envelope(p.mainHand.value.dest, p.mainHand.value), d);
      SelectAppend(OfType(p.kernel.log, d), p.mainHand.value, Data);
    case Broadcast =>
      PutEffect(p.kernel, Envelope(p.quits + 1, QuitBody(p.quits + 1)), d);
      SelectAppend(OfType(p.kernel.log, d), QuitBody(p.quits + 1), Data);
    case _ =>
  }

  lemma AlternatingAppend(ms: seq<Body>, c: ClientId, pid: int)
    requires Alternating(ms, c)
    ensures Alternating(ms + [NextBody(c, pid, LastDest(ms), |ms|)], c)
  {
  }

  lemma AlternationSend(p: Pipeline, b: ClientId, c: ClientId)
    requires Alternation(p, c) && Act(p, Send(b)).Some?
    ensures Alternation(Act(p, Send(b)).value, c)
  {
    var m := PutBy(p, Send(b)).value.body;
    PutEffect(p.kernel, Envelope(SERVER_TYPE, m), SERVER_TYPE);
    SelectAppend(OfType(p.kernel.log, SERVER_TYPE), m, By(c));
    AlternatingAppend(SentBy(p, c), c, p.nodes[c - 1].pid);
  }

  lemma AlternationStep(p: Pipeline, a: Action, c: ClientId)
    requires Routed(p) && ServerLine(p) && Alternation(p, c) && Act(p, a).Some?
    ensures Alternation(Act(p, a).value, c)
  {
    if a.Send? {
      AlternationSend(p, a.c, c);
    } else if PutBy(p, a).Some? {
      HandsFromClients(p);
      PutEffect(p.kernel, PutBy(p, a).value, SERVER_TYPE);
    }
  }

  lemma CapacityStep(p: Pipeline, a: Action)
    requires |p.kernel.queue| <= p.kernel.cap && Act(p, a).Some?
    ensures Act(p, a).value.kernel.cap == p.kernel.cap && |Act(p, a).value.kernel.queue| <= p.kernel.cap
  {
    if a.ServerTake? || a.NodeTake? {
      var t := if a.ServerTake? then SERVER_TYPE else a.d;
      RemovedEffect(p.kernel.queue, t, t);
    }
  }

  /** Every action keeps the whole invariant. */
  lemma ActInv(p: Pipeline, a: Action)
    requires Inv(p) && Act(p, a).Some?
    ensures Inv(Act(p, a).value)
  {
    RoutedStep(p, a);
    CapacityStep(p, a);
    ServerLineStep(p, a);
    forall d: ClientId ensures ClientInv(Act(p, a).value, d) {
      assert ClientInv(p, d);
      ClientLineStep(p, a, d);
      QuitLastStep(p, a, d);
      AlternationStep(p, a, d);
    }
  }
}
