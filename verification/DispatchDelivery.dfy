/** What the invariant of DispatchPipeline means: order, Quit, alternation and hand-off counts. */
module DispatchDelivery {
  import opened Basics
  import opened DispatchMessages
  import opened DispatchPipeline

  /** Every message any client sent to d, in the order the kernel accepted them. */
  function SentTo(p: Pipeline, d: ClientId): seq<Body> {
    Select(OfType(p.kernel.log, SERVER_TYPE), To(d))
  }

  /** The messages the server has re-sent to d, in order. */
  function DispatchedFor(p: Pipeline, d: ClientId): seq<Body> {
    Select(OfType(p.kernel.log, d), Data)
  }

  /** Messages for d between the kernel and d's screen, oldest first. */
  function AtClient(p: Pipeline, d: ClientId): seq<Body> {
    Held(p.nodes[d - 1].mainHand) + p.nodes[d - 1].inbox + Select(Incoming(p, d), Data)
  }

  /** Messages for d between a client's send and the server's dispatch, oldest first. */
  function AtServer(p: Pipeline, d: ClientId): seq<Body> {
    Select(Held(p.mainHand), To(d)) + Select(p.queue, To(d)) + Select(Held(p.recvHand), To(d))
    + Select(OfType(p.kernel.queue, SERVER_TYPE), To(d))
  }

  /** Everything on its way to d, oldest first, over all eight places it can be. */
  function InFlight(p: Pipeline, d: ClientId): seq<Body> {
    AtClient(p, d) + AtServer(p, d)
  }

  lemma ClientSide(p: Pipeline, d: ClientId)
    requires ClientLine(p, d)
    ensures p.nodes[d - 1].Arrived() + Select(Incoming(p, d), Data) == DispatchedFor(p, d)
  {
    var all := OfType(p.kernel.log, d);
    var n := |all| - |Incoming(p, d)|;
    assert all == all[..n] + all[n..];
    SelectConcat(all[..n], all[n..], Data);
  }

  lemma ServerSide(p: Pipeline, d: ClientId)
    requires Routed(p) && ServerLine(p)
    ensures DispatchedFor(p, d) + AtServer(p, d) == SentTo(p, d)
  {
    assert forall e | e in p.kernel.log :: e.mtype == SERVER_TYPE || e.mtype == e.body.dest by {
      assert forall e | e in p.kernel.log :: WellRouted(e);
    }
    DispatchedTo(p.kernel.log, d);
    var a, b, c, e := Dispatched(p.kernel.log), Held(p.mainHand), p.queue, Held(p.recvHand);
    SelectConcat(a, b, To(d));
    SelectConcat(a + b, c, To(d));
    SelectConcat(a + b + c, e, To(d));
    SelectConcat(a + b + c + e, OfType(p.kernel.queue, SERVER_TYPE), To(d));
  }

  /** No loss, duplication, misrouting or reordering: what d printed, followed by what is on
      its way, is exactly what was sent to d, in global send order. */
  lemma Delivery(p: Pipeline, d: ClientId)
    requires Inv(p)
    ensures p.nodes[d - 1].printed + InFlight(p, d) == SentTo(p, d)
  {
    assert ClientInv(p, d);
    ClientSide(p, d);
    ServerSide(p, d);
    var n := p.nodes[d - 1];
    Regroup(n.printed, Held(n.mainHand), n.inbox, Select(Incoming(p, d), Data), AtServer(p, d));
  }

  lemma Regroup(a: seq<Body>, b: seq<Body>, c: seq<Body>, d: seq<Body>, e: seq<Body>)
    ensures a + ((b + c + d) + e) == ((a + b + c) + d) + e
  {
  }

  // ---- the specification: one first-in first-out queue per destination ----

  /** What one destination sees: messages waiting, messages delivered. */
  datatype Fifo = Fifo(waiting: seq<Body>, delivered: seq<Body>)

  function FifoOf(p: Pipeline, d: ClientId): Fifo {
    Fifo(InFlight(p, d), p.nodes[d - 1].printed)
  }

  function Enqueue(f: Fifo, m: Body): Fifo {
    f.(waiting := f.waiting + [m])
  }

  function Dequeue(f: Fifo): Fifo
    requires f.waiting != []
  {
    Fifo(f.waiting[1..], f.delivered + [f.waiting[0]])
  }

  /** Only a send adds to the type 4 messages ever put. */
  lemma TypeFourLog(p: Pipeline, a: Action)
    requires Routed(p) && ServerLine(p) && Act(p, a).Some?
    ensures OfType(Act(p, a).value.kernel.log, SERVER_TYPE) ==
            if a.Send? then OfType(p.kernel.log, SERVER_TYPE) + [PutBy(p, a).value.body] else OfType(p.kernel.log, SERVER_TYPE)
  {
    if PutBy(p, a).Some? {
      HandsFromClients(p);
      PutFrame(p, a, 1);
      PutEffect(p.kernel, PutBy(p, a).value, SERVER_TYPE);
    }
  }

  /** The messages an action adds to those sent to d. */
  function NewFor(p: Pipeline, a: Action, d: ClientId): seq<Body>
    requires Act(p, a).Some?
  {
    if a.Send? && PutBy(p, a).value.body.dest == d then [PutBy(p, a).value.body] else []
  }

  lemma SentStep(p: Pipeline, a: Action, d: ClientId)
    requires Routed(p) && ServerLine(p) && Act(p, a).Some?
    ensures SentTo(Act(p, a).value, d) == SentTo(p, d) + NewFor(p, a, d)
  {
    TypeFourLog(p, a);
    if a.Send? {
      SelectAppend(OfType(p.kernel.log, SERVER_TYPE), PutBy(p, a).value.body, To(d));
    }
  }

  lemma PrintedStep(p: Pipeline, a: Action, d: ClientId)
    requires Act(p, a).Some?
    ensures Act(p, a).value.nodes[d - 1].printed ==
            p.nodes[d - 1].printed + if a == NodePrint(d) then [p.nodes[d - 1].mainHand.value] else []
  {
  }

  lemma DeliveryAfter(p: Pipeline, a: Action, d: ClientId)
    requires Inv(p) && Act(p, a).Some?
    ensures Act(p, a).value.nodes[d - 1].printed + InFlight(Act(p, a).value, d) == SentTo(Act(p, a).value, d)
  {
    ActInv(p, a);
    Delivery(Act(p, a).value, d);
  }

  /** Refinement: a send enqueues at its destination, a print dequeues at its client, and no
      other action changes any of the three queues. */
  lemma RefinesFifo(p: Pipeline, a: Action, d: ClientId)
    requires Inv(p) && Act(p, a).Some?
    ensures a == NodePrint(d) ==> FifoOf(p, d).waiting != []
    ensures FifoOf(Act(p, a).value, d) ==
            if a == NodePrint(d) then Dequeue(FifoOf(p, d))
            else if a.Send? && PutBy(p, a).value.body.dest == d then Enqueue(FifoOf(p, d), PutBy(p, a).value.body)
            else FifoOf(p, d)
  {
    Delivery(p, d);
    DeliveryAfter(p, a, d);
    SentStep(p, a, d);
    PrintedStep(p, a, d);
    var f, f' := FifoOf(p, d), FifoOf(Act(p, a).value, d);
    if a == NodePrint(d) {
      PrintedOne(f, f', p.nodes[d - 1].mainHand.value);
    } else if NewFor(p, a, d) != [] {
      SentOne(f, f', NewFor(p, a, d)[0]);
    } else {
      Unchanged(f, f');
    }
  }

  // A queue is determined by the history delivered + waiting and by what was delivered.

  lemma PrintedOne(f: Fifo, f': Fifo, m: Body)
    requires f.waiting != [] && f.waiting[0] == m
    requires f'.delivered == f.delivered + [m] && f.delivered + f.waiting == f'.delivered + f'.waiting
    ensures f' == Dequeue(f)
  {
    assert f.waiting == (f.delivered + f.waiting)[|f.delivered|..];
    assert f'.waiting == (f'.delivered + f'.waiting)[|f'.delivered|..];
  }

  lemma SentOne(f: Fifo, f': Fifo, m: Body)
    requires f'.delivered == f.delivered && f.delivered + f.waiting + [m] == f'.delivered + f'.waiting
    ensures f' == Enqueue(f, m)
  {
    assert f.waiting + [m] == (f.delivered + f.waiting + [m])[|f.delivered|..];
    assert f'.waiting == (f'.delivered + f'.waiting)[|f'.delivered|..];
  }

  lemma Unchanged(f: Fifo, f': Fifo)
    requires f'.delivered == f.delivered && f.delivered + f.waiting == f'.delivered + f'.waiting
    ensures f' == f
  {
    assert f.waiting == (f.delivered + f.waiting)[|f.delivered|..];
    assert f'.waiting == (f'.delivered + f'.waiting)[|f'.delivered|..];
  }

  // ---- Quit ----

  /** A receiver holding a Quit holds the server's broadcast, has already pushed everything
      the server ever dispatched to it, and nothing more will come. */
  lemma QuitComesLast(p: Pipeline, d: ClientId)
    requires ClientLine(p, d) && QuitLast(p, d) && p.nodes[d - 1].recvHand.Some? && IsQuit(p.nodes[d - 1].recvHand.value)
    ensures p.nodes[d - 1].recvHand.value == QuitBody(d) && d <= p.quits
    ensures p.nodes[d - 1].Arrived() == DispatchedFor(p, d)
    ensures OfType(p.kernel.queue, d) == []
  {
    var all, m := OfType(p.kernel.log, d), p.nodes[d - 1].recvHand.value;
    var data, n := Select(all, Data), |all| - |Incoming(p, d)|;
    assert Incoming(p, d)[0] == m && all[n] == m;
    SelectMembers(all, Data);
    assert forall i | 0 <= i < |data| :: data[i] in data && all[i] == data[i];
    assert d <= p.quits && n == |data|;
    assert all[..n] == data;
    SelectData(all);
  }

  /** Selecting the data twice selects it once. */
  lemma {:induction false} SelectData(all: seq<Body>)
    ensures Select(Select(all, Data), Data) == Select(all, Data)
  {
    if all != [] {
      SelectData(all[1..]);
    }
  }

  /** Before the broadcast nothing on its way to a client is a Quit. */
  lemma NoQuitYet(p: Pipeline, d: ClientId)
    requires ClientLine(p, d) && QuitLast(p, d) && p.quits == 0
    ensures forall m | m in Incoming(p, d) :: !IsQuit(m)
  {
    var all := OfType(p.kernel.log, d);
    SelectMembers(all, Data);
    assert Select(all, Data) == all;
    assert all[|all| - |Incoming(p, d)|..] == Incoming(p, d);
    forall m | m in Incoming(p, d) ensures !IsQuit(m) {
      assert m in all;
    }
  }

  // ---- who gets which send ----

  /** Which send of c, counted from 0, is its kth to d: client 1 writes to 2, 3, 2, ..., client 2
      to 3, 1, 3, ..., client 3 to 1, 2, 1, ... */
  function NthSend(c: ClientId, d: ClientId, k: nat): nat {
    if (c == 1 && d == 2) || (c == 2 && d == 3) || (c == 3 && d == 1) then 2 * k else 2 * k + 1
  }

  /** sel is every other message of ms, starting with number `odd`. */
  predicate EveryOther(ms: seq<Body>, odd: nat, sel: seq<Body>)
    requires odd <= 1
  {
    && |sel| == (|ms| + 1 - odd) / 2
    && forall k | 0 <= k < |sel| :: 2 * k + odd < |ms| && sel[k] == ms[2 * k + odd]
  }

  lemma EveryOtherAppend(ms: seq<Body>, m: Body, odd: nat, sel: seq<Body>)
    requires odd <= 1 && EveryOther(ms, odd, sel)
    ensures EveryOther(ms + [m], odd, if |ms| % 2 == odd then sel + [m] else sel)
  {
  }

  lemma {:induction false} SelectEveryOther(ms: seq<Body>, c: ClientId, d: ClientId, odd: nat)
    requires Alternating(ms, c)
    requires (d == FirstDest(c) && odd == 0) || (d == SecondDest(c) && odd == 1)
    ensures EveryOther(ms, odd, Select(ms, To(d)))
  {
    if ms != [] {
      var init, last := ms[..|ms| - 1], ms[|ms| - 1];
      assert ms == init + [last];
      SelectAppend(init, last, To(d));
      SelectEveryOther(init, c, d, odd);
      EveryOtherAppend(init, last, odd, Select(init, To(d)));
      assert Matches(last, To(d)) == (|init| % 2 == odd);
    }
  }

  /** Of an alternating sequence, every other message goes to each destination. */
  lemma AlternatingRoutes(ms: seq<Body>, c: ClientId, d: ClientId)
    requires Alternating(ms, c)
    requires d == FirstDest(c) || d == SecondDest(c)
    ensures |Select(ms, To(d))| == if d == FirstDest(c) then (|ms| + 1) / 2 else |ms| / 2
    ensures forall k | 0 <= k < |Select(ms, To(d))| ::
      NthSend(c, d, k) < |ms| && Select(ms, To(d))[k] == ms[NthSend(c, d, k)]
  {
    SelectEveryOther(ms, c, d, if d == FirstDest(c) then 0 else 1);
  }

  /** The messages from c on d's screen are the first part of c's sends to d. */
  lemma PrintedRoute(p: Pipeline, c: ClientId, d: ClientId)
    requires Inv(p)
    ensures Select(p.nodes[d - 1].printed, By(c)) <= Select(SentBy(p, c), To(d))
  {
    Delivery(p, d);
    SelectConcat(p.nodes[d - 1].printed, InFlight(p, d), By(c));
    SelectCommutes(OfType(p.kernel.log, SERVER_TYPE), By(c), To(d));
  }

  /** No client writes to itself. */
  lemma NotToItself(p: Pipeline, m: Body)
    requires Routed(p) && m in OfType(p.kernel.log, SERVER_TYPE)
    ensures m.source != m.dest
  {
    OfTypeMembers(p.kernel.log, SERVER_TYPE);
    assert WellRouted(Envelope(SERVER_TYPE, m));
  }

  /** The kth message from c that d prints (both from 0) is c's send number 2k if d is c's first
      destination and 2k+1 if it is the second; d prints nothing of its own. */
  lemma KthPrinted(p: Pipeline, c: ClientId, d: ClientId, k: nat)
    requires Inv(p) && k < |Select(p.nodes[d - 1].printed, By(c))|
    ensures c != d && NthSend(c, d, k) < |SentBy(p, c)|
    ensures Select(p.nodes[d - 1].printed, By(c))[k] == SentBy(p, c)[NthSend(c, d, k)]
  {
    PrintedRoute(p, c, d);
    var routed := Select(SentBy(p, c), To(d));
    assert routed[k] in routed;
    SelectMembers(SentBy(p, c), To(d));
    SelectMembers(OfType(p.kernel.log, SERVER_TYPE), By(c));
    NotToItself(p, routed[k]);
    assert ClientInv(p, c);
    AlternatingRoutes(SentBy(p, c), c, d);
  }

  // ---- counting hand-offs ----

  /** The eight actions that move a client's message one stage on. */
  predicate IsHandoff(p: Pipeline, a: Action)
    requires Act(p, a).Some?
  {
    match a
    case Send(_) => false
    case Broadcast => false
    case NodeDropQuit(_) => false
    case NodeTake(d) => !IsQuit(p.kernel.First(d))
    case _ => true
  }

  /** Stages left for a message waiting in the kernel. */
  function EnvelopeWeight(e: Envelope): nat {
    if e.mtype == SERVER_TYPE then 8 else if IsQuit(e.body) then 0 else 4
  }

  function KernelWeight(q: seq<Envelope>): nat {
    if q == [] then 0 else EnvelopeWeight(q[0]) + KernelWeight(q[1..])
  }

  function NodeWeight(n: Node): nat {
    3 * |Select(Held(n.recvHand), Data)| + 2 * |n.inbox| + |Held(n.mainHand)|
  }

  function NodesWeight(ns: seq<Node>): nat
    requires |ns| == 3
  {
    NodeWeight(ns[0]) + NodeWeight(ns[1]) + NodeWeight(ns[2])
  }

  lemma NodesWeightUpdate(ns: seq<Node>, d: ClientId, n: Node)
    requires |ns| == 3
    ensures NodesWeight(ns[d - 1 := n]) == NodesWeight(ns) - NodeWeight(ns[d - 1]) + NodeWeight(n)
  {
  }

  /** Stages left, summed over every message in flight. */
  function Weight(p: Pipeline): nat {
    KernelWeight(p.kernel.queue) + 7 * |Held(p.recvHand)| + 6 * |p.queue| + 5 * |Held(p.mainHand)|
    + NodesWeight(p.nodes)
  }

  lemma {:induction false} KernelWeightAppend(q: seq<Envelope>, e: Envelope)
    ensures KernelWeight(q + [e]) == KernelWeight(q) + EnvelopeWeight(e)
  {
    if q == [] {
      assert q + [e] == [e];
    } else {
      KernelWeightAppend(q[1..], e);
      assert (q + [e])[1..] == q[1..] + [e];
    }
  }

  lemma {:induction false} KernelWeightRemoved(q: seq<Envelope>, t: int)
    requires OfType(q, t) != []
    ensures KernelWeight(q) == KernelWeight(Removed(q, t)) + EnvelopeWeight(Envelope(t, OfType(q, t)[0]))
  {
    if q[0].mtype != t {
      KernelWeightRemoved(q[1..], t);
      assert ([q[0]] + Removed(q[1..], t))[1..] == Removed(q[1..], t);
    }
  }

  /** The actions at a client move its own weight. */
  lemma NodeWeightStep(p: Pipeline, a: Action, d: ClientId)
    requires Act(p, a).Some?
    requires a == NodeTake(d) || a == NodePush(d) || a == NodeDropQuit(d) || a == NodePop(d) || a == NodePrint(d)
    ensures NodesWeight(Act(p, a).value.nodes) == NodesWeight(p.nodes) +
            if a.NodeTake? then (if IsQuit(p.kernel.First(d)) then 0 else 3) else if IsHandoff(p, a) then -1 else 0
  {
    var n, n' := p.nodes[d - 1], Act(p, a).value.nodes[d - 1];
    assert Act(p, a).value.nodes == p.nodes[d - 1 := n'];
    HeldData(n.recvHand);
    HeldData(n'.recvHand);
    NodesWeightUpdate(p.nodes, d, n');
  }

  lemma SendWeight(p: Pipeline, c: ClientId)
    requires Act(p, Send(c)).Some?
    ensures Weight(Act(p, Send(c)).value) == Weight(p) + 8
  {
    KernelWeightAppend(p.kernel.queue, PutBy(p, Send(c)).value);
    NodesWeightUpdate(p.nodes, c, Act(p, Send(c)).value.nodes[c - 1]);
  }

  lemma DispatchWeight(p: Pipeline)
    requires Act(p, Dispatch).Some? && FromClient(p.mainHand.value)
    ensures Weight(Act(p, Dispatch).value) == Weight(p) - 1
  {
    KernelWeightAppend(p.kernel.queue, PutBy(p, Dispatch).value);
  }

  lemma BroadcastWeight(p: Pipeline)
    requires Act(p, Broadcast).Some?
    ensures Weight(Act(p, Broadcast).value) == Weight(p)
  {
    KernelWeightAppend(p.kernel.queue, PutBy(p, Broadcast).value);
  }

  /** A send adds eight stages, a hand-off uses one up, nothing else changes the sum. */
  lemma WeightStep(p: Pipeline, a: Action)
    requires Routed(p) && ServerLine(p) && Act(p, a).Some?
    ensures Weight(Act(p, a).value) == Weight(p) + if a.Send? then 8 else if IsHandoff(p, a) then -1 else 0
  {
    if a.Send? {
      SendWeight(p, a.c);
    } else if a.Dispatch? {
      HandsFromClients(p);
      DispatchWeight(p);
    } else if a.Broadcast? {
      BroadcastWeight(p);
    } else if a.ServerTake? {
      KernelWeightRemoved(p.kernel.queue, SERVER_TYPE);
    } else if a.NodeTake? {
      KernelWeightRemoved(p.kernel.queue, a.d);
      NodeWeightStep(p, a, a.d);
    } else if !a.ServerPush? && !a.ServerPop? {
      NodeWeightStep(p, a, a.d);
    }
  }

  lemma HeldData(o: Option<Body>)
    ensures |Select(Held(o), Data)| == if o.Some? && !IsQuit(o.value) then 1 else 0
  {
  }

  /** No stages left means every client has printed exactly what was sent to it. */
  lemma NothingLeft(p: Pipeline, d: ClientId)
    requires Inv(p) && Weight(p) == 0
    ensures p.nodes[d - 1].printed == SentTo(p, d)
  {
    Delivery(p, d);
    NothingInFlight(p, d);
  }

  lemma NothingInFlight(p: Pipeline, d: ClientId)
    requires Weight(p) == 0
    ensures InFlight(p, d) == []
  {
    var n := p.nodes[d - 1];
    KernelEmptyOfData(p.kernel.queue, SERVER_TYPE);
    KernelEmptyOfData(p.kernel.queue, d);
    SelectConcat(Held(n.recvHand), OfType(p.kernel.queue, d), Data);
    NodesWeightUpdate(p.nodes, d, n);
    assert NodeWeight(n) == 0;
    assert AtClient(p, d) == [] && AtServer(p, d) == [];
  }

  lemma {:induction false} KernelEmptyOfData(q: seq<Envelope>, t: int)
    requires KernelWeight(q) == 0
    ensures t == SERVER_TYPE ==> OfType(q, t) == []
    ensures Select(OfType(q, t), Data) == []
  {
    if q != [] {
      KernelEmptyOfData(q[1..], t);
    }
  }

  /** Conversely, once every client has printed all that was sent to it, no stage is left. */
  lemma AllPrinted(p: Pipeline)
    requires Inv(p)
    requires forall d: ClientId :: p.nodes[d - 1].printed == SentTo(p, d)
    ensures Weight(p) == 0
  {
    forall d: ClientId {:trigger NothingFor(p, d)} ensures NothingFor(p, d) {
      Delivery(p, d);
      SelectConcat(Held(p.nodes[d - 1].recvHand), OfType(p.kernel.queue, d), Data);
      HeldData(p.nodes[d - 1].recvHand);
    }
    HandsFromClients(p);
    forall d: ClientId {:trigger EmptyFor(p.kernel.queue, d)} ensures EmptyFor(p.kernel.queue, d) {
      assert NothingFor(p, d);
    }
    NoDataNoWeight(p.kernel.queue);
    assert p.queue == [] by {
      assert p.queue != [] ==> p.queue[0] in p.queue;
      assert p.queue != [] ==> FromClient(p.queue[0]) && NothingFor(p, p.queue[0].dest);
    }
    assert p.mainHand.Some? ==> NothingFor(p, p.mainHand.value.dest);
    assert p.recvHand.Some? ==> NothingFor(p, p.recvHand.value.dest);
    assert NothingFor(p, 1) && NothingFor(p, 2) && NothingFor(p, 3);
  }

  /** No place holds a message for d. */
  predicate NothingFor(p: Pipeline, d: ClientId) {
    && NodeWeight(p.nodes[d - 1]) == 0 && AtServer(p, d) == []
    && Select(OfType(p.kernel.queue, d), Data) == []
  }

  /** The kernel holds nothing that is still to reach d. */
  predicate EmptyFor(q: seq<Envelope>, d: ClientId) {
    Select(OfType(q, SERVER_TYPE), To(d)) == [] && Select(OfType(q, d), Data) == []
  }

  lemma {:induction false} NoDataNoWeight(q: seq<Envelope>)
    requires forall e | e in q :: WellRouted(e)
    requires forall d: ClientId :: EmptyFor(q, d)
    ensures KernelWeight(q) == 0
  {
    if q != [] {
      var e := q[0];
      assert e in q && forall x | x in q[1..] :: x in q;
      assert EmptyFor(q, if e.mtype == SERVER_TYPE then e.body.dest else e.mtype);
      forall d: ClientId ensures EmptyFor(q[1..], d) {
        assert EmptyFor(q, d);
      }
      NoDataNoWeight(q[1..]);
    }
  }
}
