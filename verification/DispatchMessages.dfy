/** The messages that travel through the Lab8 System V queue, and the queue itself. */
module DispatchMessages {
  import Decimal

  // The message type the server receives (Lab8/server.cpp:80).
  const SERVER_TYPE := 4

  type ClientId = d: int | 1 <= d <= 3 witness 1

  /**
   * MesgBuffer of Lab8/client.h. `no` is not in the source: it numbers the sends of one
   * client so that equal texts can be told apart; no step looks at it.
   */
  datatype Body = Body(source: int, dest: int, buf: string, no: nat)

  /** struct mymsg: the type field the kernel selects on, and the body. */
  datatype Envelope = Envelope(mtype: int, body: Body)

  /** The text of line 82 of each client. */
  function ClientText(pid: int, c: ClientId): string {
    Decimal.Print(pid) + ": Message from client " + Decimal.Print(c) + "\n"
  }

  /** strncmp(buf, "Quit", 4) == 0 */
  predicate IsQuit(b: Body): (r: bool)
    ensures r <==> "Quit" <= b.buf
  {
    && |b.buf| >= 4
    && b.buf[0] == 'Q' && b.buf[1] == 'u' && b.buf[2] == 'i' && b.buf[3] == 't'
  }

  function QuitBody(d: int): Body {
    Body(0, d, "Quit", 0)
  }

  /** A body some client's main loop may have built. */
  predicate FromClient(b: Body) {
    1 <= b.source <= 3 && 1 <= b.dest <= 3 && b.dest != b.source && !IsQuit(b)
  }

  /** No process identifier makes a client text look like a Quit. */
  lemma ClientTextIsNotQuit(pid: int, c: ClientId, dest: int, no: nat)
    ensures !IsQuit(Body(c, dest, ClientText(pid, c), no))
  {
    Decimal.PrintStart(pid);
    assert ClientText(pid, c)[0] == Decimal.Print(pid)[0];
  }

  // ---- selecting by destination, by source, or everything but Quit ----

  datatype Key = To(d: int) | By(c: int) | Data

  predicate Matches(b: Body, k: Key) {
    match k
    case To(d) => b.dest == d
    case By(c) => b.source == c
    case Data => !IsQuit(b)
  }

  function Select(ms: seq<Body>, k: Key): seq<Body> {
    if ms == [] then [] else
    if Matches(ms[0], k) then [ms[0]] + Select(ms[1..], k) else Select(ms[1..], k)
  }

  lemma {:induction false} SelectConcat(a: seq<Body>, b: seq<Body>, k: Key)
    ensures Select(a + b, k) == Select(a, k) + Select(b, k)
  {
    if a == [] {
      assert a + b == b;
    } else {
      SelectConcat(a[1..], b, k);
      assert (a + b)[1..] == a[1..] + b;
    }
  }

  lemma SelectAppend(a: seq<Body>, m: Body, k: Key)
    ensures Select(a + [m], k) == if Matches(m, k) then Select(a, k) + [m] else Select(a, k)
  {
    SelectConcat(a, [m], k);
  }

  lemma {:induction false} SelectMembers(a: seq<Body>, k: Key)
    ensures forall m :: m in Select(a, k) <==> m in a && Matches(m, k)
  {
    if a != [] {
      SelectMembers(a[1..], k);
      assert a == [a[0]] + a[1..];
    }
  }

  lemma {:induction false} SelectCommutes(a: seq<Body>, j: Key, k: Key)
    ensures Select(Select(a, j), k) == Select(Select(a, k), j)
  {
    if a != [] {
      SelectCommutes(a[1..], j, k);
    }
  }

  // ---- the kernel's queue ----

  /** The bodies of the messages of type t, oldest first. */
  function OfType(q: seq<Envelope>, t: int): seq<Body> {
    if q == [] then [] else
    if q[0].mtype == t then [q[0].body] + OfType(q[1..], t) else OfType(q[1..], t)
  }

  /** What msgrcv with a positive type leaves behind: the first message of type t is gone. */
  function Removed(q: seq<Envelope>, t: int): seq<Envelope> {
    if q == [] then [] else
    if q[0].mtype == t then q[1..] else [q[0]] + Removed(q[1..], t)
  }

  /** Messages re-sent by the server's main loop: neither type 4 nor a Quit. */
  function Dispatched(q: seq<Envelope>): seq<Body> {
    if q == [] then [] else
    if q[0].mtype != SERVER_TYPE && !IsQuit(q[0].body) then [q[0].body] + Dispatched(q[1..])
    else Dispatched(q[1..])
  }

  lemma {:induction false} OfTypeAppend(q: seq<Envelope>, e: Envelope, t: int)
    ensures OfType(q + [e], t) == if e.mtype == t then OfType(q, t) + [e.body] else OfType(q, t)
  {
    if q == [] {
      assert q + [e] == [e];
    } else {
      OfTypeAppend(q[1..], e, t);
      assert (q + [e])[1..] == q[1..] + [e];
    }
  }

  lemma {:induction false} DispatchedAppend(q: seq<Envelope>, e: Envelope)
    ensures Dispatched(q + [e]) ==
            if e.mtype != SERVER_TYPE && !IsQuit(e.body) then Dispatched(q) + [e.body] else Dispatched(q)
  {
    if q == [] {
      assert q + [e] == [e];
    } else {
      DispatchedAppend(q[1..], e);
      assert (q + [e])[1..] == q[1..] + [e];
    }
  }

  /** A receive takes the oldest message of its type and disturbs no other type. */
  lemma {:induction false} RemovedEffect(q: seq<Envelope>, t: int, u: int)
    requires OfType(q, t) != []
    ensures |Removed(q, t)| == |q| - 1
    ensures OfType(Removed(q, t), u) == if u == t then OfType(q, t)[1..] else OfType(q, u)
  {
    if q[0].mtype != t {
      RemovedEffect(q[1..], t, u);
      assert ([q[0]] + Removed(q[1..], t))[1..] == Removed(q[1..], t);
    }
  }

  lemma {:induction false} RemovedMembers(q: seq<Envelope>, t: int)
    ensures forall e | e in Removed(q, t) :: e in q
  {
    if q != [] && q[0].mtype != t {
      RemovedMembers(q[1..], t);
    }
  }

  lemma {:induction false} OfTypeMembers(q: seq<Envelope>, t: int)
    ensures forall m :: m in OfType(q, t) <==> Envelope(t, m) in q
  {
    if q != [] {
      OfTypeMembers(q[1..], t);
      assert q == [q[0]] + q[1..];
    }
  }

  /** Where every dispatched message is addressed by its own dest field, the messages of
      type d are the dispatched ones for d. */
  lemma {:induction false} DispatchedTo(q: seq<Envelope>, d: ClientId)
    requires forall e | e in q :: e.mtype == SERVER_TYPE || e.mtype == e.body.dest
    ensures Select(OfType(q, d), Data) == Select(Dispatched(q), To(d))
  {
    if q != [] {
      assert forall e | e in q[1..] :: e in q;
      DispatchedTo(q[1..], d);
      assert q[0] in q;
    }
  }

  /**
   * The System V queue: the messages waiting, how many fit, and (as a history) every
   * message ever put into it.
   */
  datatype Kernel = Kernel(cap: nat, queue: seq<Envelope>, log: seq<Envelope>) {
    /** msgsnd does not block. */
    predicate Room() { |queue| < cap }

    /** msgrcv with type t does not block. */
    predicate Has(t: int) { OfType(queue, t) != [] }

    function Put(e: Envelope): Kernel {
      this.(queue := queue + [e], log := log + [e])
    }

    function First(t: int): Body
      requires Has(t)
    {
      OfType(queue, t)[0]
    }

    function Without(t: int): Kernel {
      this.(queue := Removed(queue, t))
    }
  }

  // ---- whom a client writes to ----

  function FirstDest(c: ClientId): ClientId {
    if c == 1 then 2 else if c == 2 then 3 else 1
  }

  function SecondDest(c: ClientId): ClientId {
    if c == 1 then 3 else if c == 2 then 1 else 2
  }

  /** The alternation statement of each client's main loop. */
  function Alternate(c: ClientId, dest: int): ClientId {
    if dest == FirstDest(c) then SecondDest(c) else FirstDest(c)
  }

  /** The message client c builds after `sends` earlier ones, the last of them to `dest`. */
  function NextBody(c: ClientId, pid: int, dest: int, sends: nat): Body {
    Body(c, Alternate(c, dest), ClientText(pid, c), sends + 1)
  }

  lemma NextBodyFromClient(c: ClientId, pid: int, dest: int, sends: nat)
    ensures FromClient(NextBody(c, pid, dest, sends))
  {
    ClientTextIsNotQuit(pid, c, Alternate(c, dest), sends + 1);
  }
}
