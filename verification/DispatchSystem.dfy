/** The four Lab8 processes and the kernel queue together, run in place by any schedule. */
module DispatchSystem {
  import opened Basics
  import opened DispatchMessages
  import opened DispatchThreads
  import opened DispatchProcesses
  import R = DispatchRefinement
  import D = DispatchDelivery

  class Machine {
    const kernel: MessageQueue
    const server: ServerProcess
    const client1: ClientProcess
    const client2: ClientProcess
    const client3: ClientProcess

    ghost function View(): System
      reads kernel, server, client1, client2, client3
    {
      Network(kernel.View(), server.View(), [client1.View(), client2.View(), client3.View()])
    }

    ghost predicate Valid()
      reads kernel, server, client1, client2, client3
    {
      && client1.id == 1 && client2.id == 2 && client3.id == 3
      && ServerLocked(server.View())
      && ClientLocked(client1.View()) && ClientLocked(client2.View()) && ClientLocked(client3.View())
    }

    constructor (cap: nat, pid1: int, pid2: int, pid3: int)
      requires cap >= 1
      ensures Valid() && Initial(View()) && View().kernel.cap == cap
      ensures fresh(kernel) && fresh(server) && fresh(client1) && fresh(client2) && fresh(client3)
    {
      kernel := new MessageQueue(cap);
      server := new ServerProcess();
      client1 := new ClientProcess(1, pid1);
      client2 := new ClientProcess(2, pid2);
      client3 := new ClientProcess(3, pid3);
    }

    method Client(d: ClientId) returns (c: ClientProcess)
      requires Valid()
      ensures c == (if d == 1 then client1 else if d == 2 then client2 else client3) && c.id == d
    {
      c := if d == 1 then client1 else if d == 2 then client2 else client3;
    }

    method StepClientMain(d: ClientId) returns (ran: bool)
      requires Valid()
      modifies kernel, client1, client2, client3
      ensures Valid()
      ensures ran == Next(old(View()), ClientMain(d)).Some?
      ensures View() == if ran then Next(old(View()), ClientMain(d)).value else old(View())
    {
      var c := Client(d);
      ran := c.MainStep(kernel);
      assert View().clients == old(View()).clients[d - 1 := c.View()];
    }

    method StepClientRecv(d: ClientId) returns (ran: bool)
      requires Valid()
      modifies kernel, client1, client2, client3
      ensures Valid()
      ensures ran == Next(old(View()), ClientRecv(d)).Some?
      ensures View() == if ran then Next(old(View()), ClientRecv(d)).value else old(View())
    {
      var c := Client(d);
      ran := c.RecvStep(kernel);
      assert View().clients == old(View()).clients[d - 1 := c.View()];
    }

    method SignalClient(d: ClientId)
      requires Valid()
      modifies client1, client2, client3
      ensures Valid()
      ensures Some(View()) == Next(old(View()), ClientSignal(d))
    {
      var c := Client(d);
      c.ShutdownHandler();
      assert View().clients == old(View()).clients[d - 1 := c.View()];
    }

    method Step(a: Actor) returns (ran: bool)
      requires Valid()
      modifies kernel, server, client1, client2, client3
      ensures Valid()
      ensures ran == Next(old(View()), a).Some?
      ensures View() == if ran then Next(old(View()), a).value else old(View())
    {
      match a
      case ClientMain(d) =>
        ran := StepClientMain(d);
      case ClientRecv(d) =>
        ran := StepClientRecv(d);
      case ClientSignal(d) =>
        SignalClient(d);
        ran := true;
      case _ =>
        ran := ServerStep(a);
    }

    method ServerStep(a: Actor) returns (ran: bool)
      requires Valid() && (a.ServerMain? || a.ServerRecv? || a.ServerSignal? || a.ServerRetry?)
      modifies kernel, server
      ensures Valid()
      ensures ran == Next(old(View()), a).Some?
      ensures View() == if ran then Next(old(View()), a).value else old(View())
    {
      ran := true;
      match a
      case ServerMain => ran := server.MainStep(kernel);
      case ServerRecv => ran := server.RecvStep(kernel);
      case ServerSignal => server.ShutdownHandler();
      case ServerRetry => ran := server.Retry();
    }

    /** Runs the schedule up to the first actor that is blocked; whatever happened, every client
        has printed a prefix of what was sent to it, with the rest on its way in order. */
    method Run(schedule: seq<Actor>) returns (done: nat)
      requires Valid() && Initial(View())
      modifies kernel, server, client1, client2, client3
      ensures Valid() && done <= |schedule| && Exec(old(View()), schedule[..done]) == Some(View())
      ensures done < |schedule| ==> Next(View(), schedule[done]).None?
      ensures forall d: ClientId ::
        View().clients[d - 1].printed + D.InFlight(R.PipelineOf(View()), d) == D.SentTo(R.PipelineOf(View()), d)
    {
      done := 0;
      while done < |schedule|
        invariant Valid() && done <= |schedule| && Exec(old(View()), schedule[..done]) == Some(View())
      {
        ghost var before := View();
        var a := schedule[done];
        var ran := Step(a);
        if !ran {
          break;
        }
        ExecConcat(old(View()), schedule[..done], [a]);
        assert schedule[..done + 1] == schedule[..done] + [a];
        assert Exec(View(), [a][1..]) == Some(View());
        done := done + 1;
      }
      forall d: ClientId ensures View().clients[d - 1].printed + D.InFlight(R.PipelineOf(View()), d) == D.SentTo(R.PipelineOf(View()), d) {
        R.RunDelivers(old(View()), schedule[..done], d);
      }
    }
  }
}
