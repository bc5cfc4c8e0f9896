/** The Lab10 programs in place: three client objects on one shared segment. */
module SharedTurnProcess {
  import opened Basics
  import opened SharedTurn
  import opened SharedTurnBodies

  /** The destClientNo write client c is about to make, if it is. */
  function NewHop(c: Client, me: ClientNo): seq<Hop> {
    if c.pc.OpenDest? then [Hop(me, 1, 0)] else if c.pc.WriteDest? then [Hop(me, NextDest(me, c.i), c.i + 1)] else []
  }

  /** What a statement of client me adds to each history. */
  lemma NextIs(s: State, me: ClientNo)
    requires !s.clients[me - 1].pc.Done?
    ensures var c, m := s.clients[me - 1], s.memory;
            var (c', m') := Statement(c, me, m);
            Next(s, Run(me)) == Some(World(m', s.clients[me - 1 := c'],
              s.hops + NewHop(c, me), s.accepted + (if c'.pc.ReadSrc? then [me] else []),
              s.sources + (if c.pc.ReadSrc? then [m.src] else []), s.messages + (if c.pc.ReadMessage? then [m.message] else [])))
  {
    assert s.hops + [] == s.hops && s.accepted + [] == s.accepted;
    assert s.sources + [] == s.sources && s.messages + [] == s.messages;
  }

  /** The shared segment. */
  class SharedMemory {
    var srcClientNo: int
    var destClientNo: int
    var message: string

    ghost function View(): Memory
      reads this
    {
      Memory(srcClientNo, destClientNo, message)
    }

    constructor ()
      ensures View() == Memory(0, 0, "")
    {
      srcClientNo, destClientNo, message := 0, 0, "";
    }
  }

  /** main of client 1, 2 or 3, one statement a call. */
  class TurnClient {
    const me: ClientNo
    var pc: Pc
    var i: nat
    var isRunning: bool

    ghost function View(): Client
      reads this
    {
      Client(pc, i, isRunning)
    }

    /** Client 3 starts everything. */
    constructor (me: ClientNo)
      ensures this.me == me && View() == Init().clients[me - 1]
    {
      this.me, i, isRunning := me, 0, true;
      pc := if me == 3 then OpenSrc else Loop;
    }

    method SigHandler()
      modifies this`isRunning
      ensures View() == old(View()).(running := false)
    {
      isRunning := false;
    }

    method Step(shm: SharedMemory)
      modifies this, shm
      ensures (View(), shm.View()) == Statement(old(View()), me, old(shm.View()))
    {
      match pc
      case OpenSrc =>
        shm.srcClientNo, pc := me, OpenDest;
      case OpenDest =>
        shm.destClientNo, pc := 1, OpenClear;
      case OpenClear =>
        shm.message, pc := "", OpenWrite;
      case OpenWrite =>
        shm.message, pc := Text(0, me), Loop;
      case Loop =>
        pc := if i < NUM_MESSAGES && isRunning then Test else Done;
      case Test =>
        if shm.destClientNo == me {
          pc := ReadSrc;
        } else {
          pc, i := Loop, i + 1;
        }
      case ReadSrc =>
        pc := ReadMessage;
      case ReadMessage =>
        pc := WriteSrc;
      case WriteSrc =>
        shm.srcClientNo, pc := me, WriteDest;
      case WriteDest =>
        shm.destClientNo, pc := NextDest(me, i), Clear;
      case Clear =>
        shm.message, pc := "", Write;
      case Write =>
        shm.message, pc, i := Text(i + 1, me), Loop, i + 1;
      case Done =>
    }
  }

  /** The three clients on one segment. sources and messages are what they print, in order. */
  class TurnSystem {
    const shm: SharedMemory
    const client1: TurnClient
    const client2: TurnClient
    const client3: TurnClient
    var sources: seq<int>
    var messages: seq<string>
    ghost var hops: seq<Hop>
    ghost var accepted: seq<ClientNo>

    ghost function View(): State
      reads this, shm, client1, client2, client3
    {
      World(shm.View(), [client1.View(), client2.View(), client3.View()], hops, accepted, sources, messages)
    }

    ghost predicate Valid()
      reads this
    {
      client1.me == 1 && client2.me == 2 && client3.me == 3
    }

    constructor ()
      ensures Valid() && View() == Init()
      ensures fresh(shm) && fresh(client1) && fresh(client2) && fresh(client3)
    {
      shm := new SharedMemory();
      client1 := new TurnClient(1);
      client2 := new TurnClient(2);
      client3 := new TurnClient(3);
      sources, messages, hops, accepted := [], [], [], [];
    }

    method Find(me: ClientNo) returns (c: TurnClient)
      requires Valid()
      ensures c == (if me == 1 then client1 else if me == 2 then client2 else client3) && c.me == me
    {
      c := if me == 1 then client1 else if me == 2 then client2 else client3;
    }

    /** SIGINT to a client; false if it was told before. */
    method Interrupt(me: ClientNo) returns (ran: bool)
      requires Valid()
      modifies client1, client2, client3
      ensures ran == Next(old(View()), Signal(me)).Some?
      ensures View() == if ran then Next(old(View()), Signal(me)).value else old(View())
    {
      var c := Find(me);
      ran := c.isRunning;
      c.SigHandler();
      assert View().clients == old(View()).clients[me - 1 := c.View()];
    }

    /** One statement of a client; false if it is done. */
    method Advance(me: ClientNo) returns (ran: bool)
      requires Valid()
      modifies this, shm, client1, client2, client3
      ensures ran == Next(old(View()), Actor.Run(me)).Some?
      ensures View() == if ran then Next(old(View()), Actor.Run(me)).value else old(View())
    {
      var c := Find(me);
      if c.pc.Done? {
        return false;
      }
      if c.pc.ReadSrc? {
        sources := sources + [shm.srcClientNo];
      } else if c.pc.ReadMessage? {
        messages := messages + [shm.message];
      }
      hops := hops + NewHop(c.View(), me);
      c.Step(shm);
      accepted := accepted + if c.pc.ReadSrc? then [me] else [];
      ran := true;
      NextIs(old(View()), me);
      assert View().clients == old(View()).clients[me - 1 := c.View()];
    }

    method Step(a: Actor) returns (ran: bool)
      requires Valid()
      modifies this, shm, client1, client2, client3
      ensures ran == Next(old(View()), a).Some?
      ensures View() == if ran then Next(old(View()), a).value else old(View())
    {
      match a
      case Signal(me) => ran := Interrupt(me);
      case Run(me) => ran := Advance(me);
    }

    /** Runs the schedule up to the first actor that cannot move. The sources on the screens are
        those of the walk, and the messages belong to it exactly in a well-timed schedule. */
    method RunAll(schedule: seq<Actor>) returns (done: nat)
      requires Valid() && View() == Init()
      modifies this, shm, client1, client2, client3
      ensures Valid() && done <= |schedule| && Exec(Init(), schedule[..done]) == Some(View())
      ensures done < |schedule| ==> Next(View(), schedule[done]).None?
      ensures Walk(hops) && |sources| <= |hops| && forall k | 0 <= k < |sources| :: sources[k] == hops[k].from
      ensures Match(messages, hops) <==> WellTimed(Init(), None, schedule[..done])
      ensures done <= 730
    {
      done := 0;
      while done < |schedule|
        invariant Valid() && done <= |schedule| && Exec(Init(), schedule[..done]) == Some(View())
      {
        var ran := Step(schedule[done]);
        if !ran {
          break;
        }
        ExecSnoc(Init(), schedule[..done], schedule[done]);
        assert schedule[..done + 1] == schedule[..done] + [schedule[done]];
        done := done + 1;
      }
      InitInv();
      ExecInv(Init(), schedule[..done]);
      BodiesMatchExactly(schedule[..done]);
      EveryRunEnds(schedule[..done]);
    }
  }
}
