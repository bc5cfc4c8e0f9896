/**
 * The Lab8 programs in the source's own form: each process is an object whose threads update
 * its globals in place, one statement a call, and all share one kernel queue. Every method is
 * proved against the step function of DispatchThreads that the run theorems are about.
 */
module DispatchProcesses {
  import opened Basics
  import opened DispatchMessages
  import opened DispatchThreads

  // The search of msgrcv, one message on: what is before i stays, what is wanted is after i.

  lemma SkipOne(q: seq<Envelope>, i: nat, t: int)
    requires i < |q| && q[i].mtype != t
    ensures OfType(q[i..], t) == OfType(q[i + 1..], t)
    ensures q[..i] + Removed(q[i..], t) == q[..i + 1] + Removed(q[i + 1..], t)
  {
    assert q[i..][1..] == q[i + 1..];
    assert q[..i + 1] == q[..i] + [q[i]];
  }

  lemma TakeOne(q: seq<Envelope>, i: nat, t: int)
    requires i < |q| && q[i].mtype == t
    ensures OfType(q[i..], t) != [] && OfType(q[i..], t)[0] == q[i].body
    ensures Removed(q[i..], t) == q[i + 1..]
  {
  }

  /** The System V queue. */
  class MessageQueue {
    const cap: nat
    var queue: seq<Envelope>
    ghost var log: seq<Envelope>

    ghost function View(): Kernel
      reads this
    {
      Kernel(cap, queue, log)
    }

    constructor (cap: nat)
      ensures View() == Kernel(cap, [], [])
    {
      this.cap := cap;
      queue, log := [], [];
    }

    /** msgsnd; false where it would block. */
    method Send(e: Envelope) returns (ok: bool)
      modifies this
      ensures ok == old(View()).Room()
      ensures View() == if ok then old(View()).Put(e) else old(View())
    {
      ok := |queue| < cap;
      if ok {
        queue, log := queue + [e], log + [e];
      }
    }

    /** msgrcv with a positive type: the first message of that type; None where it would block. */
    method Receive(t: int) returns (m: Option<Body>)
      modifies this
      ensures m.Some? == old(View()).Has(t)
      ensures m.Some? ==> m.value == old(View()).First(t) && View() == old(View()).Without(t)
      ensures m.None? ==> View() == old(View())
    {
      var i := 0;
      while i < |queue| && queue[i].mtype != t
        invariant i <= |queue| && View() == old(View())
        invariant OfType(queue, t) == OfType(queue[i..], t)
        invariant Removed(queue, t) == queue[..i] + Removed(queue[i..], t)
      {
        SkipOne(queue, i, t);
        i := i + 1;
      }
      if i == |queue| {
        m := None;
      } else {
        TakeOne(queue, i, t);
        m := Some(queue[i].body);
        queue := queue[..i] + queue[i + 1..];
      }
    }
  }

  /** What a thread's step did: nothing where it is blocked. */
  ghost predicate Did<P>(ran: bool, o: Outcome<P>, was: P, kernelWas: Kernel, process: P, kernel: Kernel) {
    match o
    case Blocked => !ran && process == was && kernel == kernelWas
    case Ran(p, k) => ran && process == p && kernel == k
  }

  class ServerProcess {
    var isRunning: bool
    var lockX: Lock
    var messageQueue: seq<Body>
    var main: ServerMainPc
    var recv: ServerRecvPc

    ghost function View(): Server
      reads this
    {
      Server(isRunning, lockX, messageQueue, main, recv, false)
    }

    constructor ()
      ensures View() == Server(true, Free, [], DLoop, SLoop, false) && ServerLocked(View())
    {
      isRunning, lockX, messageQueue, main, recv := true, Free, [], DLoop, SLoop;
    }

    method ShutdownHandler()
      requires ServerLocked(View())
      modifies this`isRunning
      ensures View() == old(View()).(running := false) && ServerLocked(View())
    {
      isRunning := false;
    }

    /** A msgrcv that a signal interrupted returns -1, and recv_func goes round its loop. */
    method Retry() returns (ran: bool)
      requires ServerLocked(View())
      modifies this`recv
      ensures ran == old(recv).SRecv?
      ensures View() == (if ran then old(View()).(recv := SLoop) else old(View())) && ServerLocked(View())
    {
      ran := recv.SRecv?;
      if ran {
        recv := SLoop;
      }
    }

    /** One statement of main: the dispatch loop, then the Quit broadcast. */
    method MainStep(k: MessageQueue) returns (ran: bool)
      requires ServerLocked(View())
      modifies this, k
      ensures Did(ran, ServerMainStep(old(View()), old(k.View())), old(View()), old(k.View()), View(), k.View())
      ensures ServerLocked(View())
    {
      ran := true;
      match main
      case DLoop =>
        main := if isRunning then DAcquire else DQuit(1);
      case DAcquire =>
        if lockX == Free {
          lockX, main := ByMain, DEmpty;
        } else {
          ran := false;
        }
      case DEmpty =>
        main := if messageQueue == [] then DIdle else DFront;
      case DFront =>
        main := DPop(messageQueue[0]);
      case DPop(msg) =>
        messageQueue, main := messageQueue[1..], DRelease(msg);
      case DRelease(msg) =>
        lockX, main := Free, DSend(msg);
      case DSend(msg) =>
        ran := k.Send(Envelope(msg.dest, msg));
        if ran {
          main := DLoop;
        }
      case DIdle =>
        lockX, main := Free, DLoop;
      case DQuit(i) =>
        ran := k.Send(Envelope(i, QuitBody(i)));
        if ran {
          main := if i < 3 then DQuit(i + 1) else DJoin;
        }
      case DJoin =>
        ran := false;
    }

    /** One statement of recv_func. */
    method RecvStep(k: MessageQueue) returns (ran: bool)
      requires ServerLocked(View())
      modifies this, k
      ensures Did(ran, ServerRecvStep(old(View()), old(k.View())), old(View()), old(k.View()), View(), k.View())
      ensures ServerLocked(View())
    {
      ran := true;
      match recv
      case SLoop =>
        recv := if isRunning then SRecv else SDone;
      case SRecv =>
        var m := k.Receive(SERVER_TYPE);
        if m.Some? {
          recv := SAcquire(m.value);
        } else {
          ran := false;
        }
      case SAcquire(msg) =>
        if lockX == Free {
          lockX, recv := ByRecv, SPush(msg);
        } else {
          ran := false;
        }
      case SPush(msg) =>
        messageQueue, recv := messageQueue + [msg], SRelease;
      case SRelease =>
        lockX, recv := Free, SLoop;
      case SDone =>
        ran := false;
    }
  }

  /** client1, client2 or client3, by number. */
  class ClientProcess {
    const id: ClientId
    const pid: int
    var isRunning: bool
    var lockX: Lock
    var message: seq<Body>
    var dest: int
    var main: ClientMainPc
    var recv: ClientRecvPc
    var sends: nat           // history: messages sent
    var printed: seq<Body>   // history: lines written to cout

    ghost function View(): Client
      reads this
    {
      Client(pid, isRunning, lockX, message, dest, sends, printed, main, recv, false)
    }

    constructor (id: ClientId, pid: int)
      ensures this.id == id && View() == Client(pid, true, Free, [], 0, 0, [], MLoop, RLoop, false)
      ensures ClientLocked(View())
    {
      this.id, this.pid := id, pid;
      isRunning, lockX, message, dest, main, recv := true, Free, [], 0, MLoop, RLoop;
      sends, printed := 0, [];
    }

    method ShutdownHandler()
      requires ClientLocked(View())
      modifies this`isRunning
      ensures View() == old(View()).(running := false) && ClientLocked(View())
    {
      isRunning := false;
    }

    /** One statement of main: drain and print, alternate, send. */
    method MainStep(k: MessageQueue) returns (ran: bool)
      requires ClientLocked(View())
      modifies this, k
      ensures Did(ran, ClientMainStep(old(View()), id, old(k.View())), old(View()), old(k.View()), View(), k.View())
      ensures ClientLocked(View())
    {
      ran := true;
      match main
      case MLoop =>
        main := if isRunning then MSize else MJoin;
      case MSize =>
        main := if |message| > 0 then MAcquire else MSend;
      case MAcquire =>
        if lockX == Free {
          lockX, main := ByMain, MFront;
        } else {
          ran := false;
        }
      case MFront =>
        main := MPop(message[0]);
      case MPop(recvMsg) =>
        message, main := message[1..], MRelease(recvMsg);
      case MRelease(recvMsg) =>
        lockX, main := Free, MPrint(recvMsg);
      case MPrint(recvMsg) =>
        printed, main := printed + [recvMsg], MSize;
      case MSend =>
        ran := SendNext(k);
        if ran {
          main := MLoop;
        }
      case MJoin =>
        ran := false;
    }

    /** The alternation statement and the send; nothing changes where msgsnd would block, since
        only this thread looks at dest. */
    method SendNext(k: MessageQueue) returns (ok: bool)
      modifies this`dest, this`sends, k
      ensures ok == old(k.View()).Room()
      ensures var sendMsg := NextBody(id, pid, old(dest), old(sends));
              if ok then dest == sendMsg.dest && sends == old(sends) + 1
                         && k.View() == old(k.View()).Put(Envelope(SERVER_TYPE, sendMsg))
              else dest == old(dest) && sends == old(sends) && k.View() == old(k.View())
    {
      var next: ClientId := if dest == FirstDest(id) then SecondDest(id) else FirstDest(id);
      ok := k.Send(Envelope(SERVER_TYPE, Body(id, next, ClientText(pid, id), sends + 1)));
      if ok {
        dest, sends := next, sends + 1;
      }
    }

    /** One statement of recv_func1, recv_func2 or recv_func3. */
    method RecvStep(k: MessageQueue) returns (ran: bool)
      requires ClientLocked(View())
      modifies this, k
      ensures Did(ran, ClientRecvStep(old(View()), id, old(k.View())), old(View()), old(k.View()), View(), k.View())
      ensures ClientLocked(View())
    {
      ran := true;
      match recv
      case RLoop =>
        recv := if isRunning then RRecv else RDone;
      case RRecv =>
        var m := k.Receive(id);
        if m.Some? {
          recv := RCheck(m.value);
        } else {
          ran := false;
        }
      case RCheck(msg) =>
        if IsQuit(msg) {
          isRunning, recv := false, RLoop;
        } else {
          recv := RAcquire(msg);
        }
      case RAcquire(msg) =>
        if lockX == Free {
          lockX, recv := ByRecv, RPush(msg);
        } else {
          ran := false;
        }
      case RPush(msg) =>
        message, recv := message + [msg], RRelease;
      case RRelease =>
        lockX, recv := Free, RLoop;
      case RDone =>
        ran := false;
    }
  }
}
