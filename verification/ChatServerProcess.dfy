/** The Lab9 server as an object whose fields its main and receive threads update in place. */
module ChatServerProcess {
  import opened Basics
  import opened ChatServer
  import opened ChatServerRuns

  class ServerProcess {
    var isRunning: bool
    var clientCount: nat
    const connFds: array<int>
    const recvThreads: array<nat>
    var msgMutex: Lock
    var messageQueue: seq<Chunk>
    var main: MainPc
    var threads: seq<Thread>
    // Histories.
    var accepted: seq<int>
    var pushed: seq<Chunk>
    var printed: seq<Chunk>
    var received: map<int, string>
    var events: seq<Event>

    ghost function View(): Server
      reads this, connFds, recvThreads
    {
      Server(isRunning, main, Slots(clientCount, connFds[..], recvThreads[..], accepted), threads,
             Mail(msgMutex, messageQueue, pushed, printed), received, events, false)
    }

    constructor ()
      ensures View() == Init() && Inv(View())
      ensures fresh(connFds) && fresh(recvThreads)
    {
      isRunning, clientCount, msgMutex, messageQueue, main, threads := true, 0, Free, [], Loop, [];
      accepted, pushed, printed, received, events := [], [], [], map[], [];
      connFds, recvThreads := new int[3](_ => 0), new nat[3](_ => 0);
      new;
      assert connFds[..] == [0, 0, 0] && recvThreads[..] == [0, 0, 0];
      InitInv();
    }

    method SigintHandler()
      modifies this`isRunning
      ensures View() == old(View()).(running := false)
    {
      isRunning := false;
    }

    /** One statement of the accept part of main. */
    method AcceptStatement(fd: int) returns (ran: bool)
      requires Inv(View()) && InAccept(main)
      modifies this, connFds, recvThreads
      ensures ran == AcceptStep(old(View()), fd).Some?
      ensures View() == if ran then AcceptStep(old(View()), fd).value else old(View())
    {
      ran := true;
      match main
      case CanAccept =>
        main := if clientCount < MAX_CLIENTS then Accept else Acquire;
      case Accept =>
        if fd < 0 {
          main := Acquire;
        } else if fd in accepted {
          ran := false;
        } else {
          main, accepted := Store(fd), accepted + [fd];
        }
      case Store(connFd) =>
        connFds[clientCount] := connFd;
        main := Create;
      case Create =>
        recvThreads[clientCount] := |threads|;
        threads, main := threads + [Thread(Start, clientCount, -1)], Count;
      case Count =>
        clientCount, main := clientCount + 1, Acquire;
    }

    /** One statement of the drain part of main. */
    method DrainStatement() returns (ran: bool)
      requires Inv(View()) && InDrain(main)
      modifies this`main, this`msgMutex, this`messageQueue, this`printed
      ensures ran == MainStep(old(View()), 0).Some?
      ensures View() == if ran then MainStep(old(View()), 0).value else old(View())
    {
      ran := true;
      match main
      case Acquire =>
        if msgMutex == Free {
          msgMutex, main := ByMain, Empty;
        } else {
          ran := false;
        }
      case Empty =>
        main := if messageQueue == [] then Release else Front;
      case Front =>
        printed, main := printed + [messageQueue[0]], Pop;
      case Pop =>
        messageQueue, main := messageQueue[1..], Empty;
      case Release =>
        msgMutex, main := Free, Loop;
    }

    /** One statement of the shutdown loop. */
    method ShutdownStatement() returns (ran: bool)
      requires Inv(View()) && (main.QuitAt? || main.JoinAt? || main.CloseAt?)
      modifies this`main, this`events
      ensures ran == ShutdownStep(old(View())).Some?
      ensures View() == if ran then ShutdownStep(old(View())).value else old(View())
    {
      ran := true;
      match main
      case QuitAt(i) =>
        if i >= clientCount {
          main := Stopped;
        } else {
          events, main := events + [QuitSent(connFds[i])], JoinAt(i);
        }
      case JoinAt(i) =>
        if threads[recvThreads[i]].pc.Done? {
          events, main := events + [Joined(recvThreads[i])], CloseAt(i);
        } else {
          ran := false;
        }
      case CloseAt(i) =>
        events, main := events + [Closed(connFds[i])], QuitAt(i + 1);
    }

    /** One statement of main; fd is what accept returned, used only there. */
    method MainStatement(fd: int) returns (ran: bool)
      requires Inv(View())
      modifies this, connFds, recvThreads
      ensures ran == MainStep(old(View()), fd).Some?
      ensures View() == if ran then MainStep(old(View()), fd).value else old(View())
    {
      if main.Loop? {
        main := if isRunning then CanAccept else QuitAt(0);
        ran := true;
      } else if InAccept(main) {
        ran := AcceptStatement(fd);
      } else if InDrain(main) {
        ran := DrainStatement();
      } else if main.Stopped? {
        ran := false;
      } else {
        ran := ShutdownStatement();
      }
    }

    /** One statement of receive_thread number i up to the read, with what read delivered. */
    method ReadStatement(i: nat, got: string) returns (ran: bool)
      requires Inv(View()) && i < |threads| && (threads[i].pc.Start? || threads[i].pc.Running? || threads[i].pc.Reading?)
      modifies this`threads, this`received
      ensures ran == ThreadStep(old(View()), i, got).Some?
      ensures View() == if ran then ThreadStep(old(View()), i, got).value else old(View())
    {
      ran := true;
      var t := threads[i];
      match t.pc
      case Start =>
        threads := threads[i := t.(fd := connFds[t.slot], pc := Running)];
      case Running =>
        threads := threads[i := t.(pc := if isRunning then Reading else Done)];
      case Reading =>
        NoReadAfterClose(View(), i);
        if |got| > BUF_LEN {
          ran := false;
        } else if got == "" {
          threads := threads[i := t.(pc := Running)];
        } else {
          var sofar := if t.fd in received then received[t.fd] else "";
          received := received[t.fd := sofar + got];
          threads := threads[i := t.(pc := Holding(got))];
        }
    }

    /** One statement of receive_thread number i after the read. */
    method PushStatement(i: nat) returns (ran: bool)
      requires Inv(View()) && i < |threads| && !threads[i].pc.Start? && !threads[i].pc.Running? && !threads[i].pc.Reading?
      modifies this`threads, this`msgMutex, this`messageQueue, this`pushed
      ensures ran == ThreadStep(old(View()), i, "").Some?
      ensures View() == if ran then ThreadStep(old(View()), i, "").value else old(View())
    {
      ran := true;
      var t := threads[i];
      match t.pc
      case Holding(text) =>
        if msgMutex == Free {
          msgMutex := ByThread(i);
          threads := threads[i := t.(pc := Push(text))];
        } else {
          ran := false;
        }
      case Push(text) =>
        messageQueue, pushed := messageQueue + [Chunk(i, text)], pushed + [Chunk(i, text)];
        threads := threads[i := t.(pc := Unlock)];
      case Unlock =>
        msgMutex := Free;
        threads := threads[i := t.(pc := Running)];
      case Done =>
        ran := false;
    }

    method Step(a: Actor) returns (ran: bool)
      requires Inv(View())
      modifies this, connFds, recvThreads
      ensures ran == Next(old(View()), a).Some?
      ensures View() == if ran then Next(old(View()), a).value else old(View())
    {
      match a
      case Main(fd) =>
        ran := MainStatement(fd);
      case Receiver(i, got) =>
        if i >= |threads| {
          ran := false;
        } else if threads[i].pc.Start? || threads[i].pc.Running? || threads[i].pc.Reading? {
          ran := ReadStatement(i, got);
        } else {
          ran := PushStatement(i);
        }
      case Signal =>
        SigintHandler();
        ran := true;
    }

    /** Runs the schedule up to the first actor that cannot move. Whatever was scheduled, accepted
        and read: each thread serves the connection of its own slot, what it read is printed in
        order up to what is still on its way, and at the end every connection was closed in turn. */
    method Run(schedule: seq<Actor>) returns (done: nat)
      requires View() == Init()
      modifies this, connFds, recvThreads
      ensures done <= |schedule| && Exec(Init(), schedule[..done]) == Some(View())
      ensures done < |schedule| ==> Next(View(), schedule[done]).None?
      ensures Faithful(View(), schedule[..done])
    {
      done := 0;
      InitInv();
      while done < |schedule|
        invariant Inv(View()) && done <= |schedule| && Exec(Init(), schedule[..done]) == Some(View())
      {
        ghost var before := View();
        var ran := Step(schedule[done]);
        if !ran {
          break;
        }
        OneMore(schedule, done, before, View());
        done := done + 1;
      }
      RunIsFaithful(View(), schedule[..done]);
    }
  }

  /** The connections are those accepted along the schedule, each in its slot; what is printed of
      one is the first part of what its reads delivered; and a stopped server has said farewell to
      every connection, in slot order. */
  predicate Faithful(s: Server, schedule: seq<Actor>)
    requires Exec(Init(), schedule).Some?
  {
    var fds := Accepts(Init(), schedule);
    && |s.threads| <= |fds| <= 3 == |s.slots.connFds|
    && (forall i | 0 <= i < |s.threads| ::
          s.slots.connFds[i] == fds[i] && Bytes(s.mail.printed, i) <= Delivered(Init(), schedule, i))
    && (s.main.Stopped? ==> |s.threads| == |fds| && s.events == Farewell(fds, |fds|))
  }

  lemma RunIsFaithful(s: Server, schedule: seq<Actor>)
    requires Inv(s) && Exec(Init(), schedule) == Some(s)
    ensures Faithful(s, schedule)
  {
    ConnectionsAreAccepted(schedule);
    forall i | 0 <= i < |s.threads|
      ensures s.slots.connFds[i] == s.slots.accepted[i] && Bytes(s.mail.printed, i) <= Delivered(Init(), schedule, i)
    {
      StreamsSurvive(schedule, i);
      SlotHolds(s, i);
    }
  }

  lemma OneMore(schedule: seq<Actor>, done: nat, s: Server, s': Server)
    requires done < |schedule| && Exec(Init(), schedule[..done]) == Some(s) && Inv(s)
    requires Next(s, schedule[done]) == Some(s')
    ensures Exec(Init(), schedule[..done + 1]) == Some(s') && Inv(s')
  {
    NextInv(s, schedule[done]);
    ExecSnoc(Init(), schedule[..done], schedule[done]);
    assert schedule[..done + 1] == schedule[..done] + [schedule[done]];
  }
}
