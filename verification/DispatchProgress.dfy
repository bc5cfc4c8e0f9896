/** Each Lab8 thread gets on: a client main loop prints what has arrived and sends its next message,
    and every thread of a process that was told to stop leaves its loop. */
module DispatchProgress {
  import opened Basics
  import opened DispatchMessages
  import opened DispatchThreads
  import opened DispatchRefinement
  import opened DispatchLiveness
  import opened DispatchShutdown

  // ---- from the drain loop to the next send ----

  predicate InDrain(pc: ClientMainPc) {
    !pc.MLoop? && !pc.MJoin? && !pc.MSend?
  }

  /** Steps of the main loop, and of a receiver that has the lock, until the queue is drained. */
  function DrainAhead(c: Client): nat {
    6 * |c.inbox|
    + (match c.main case MSize => 3 case MAcquire => 2 case MFront => 1 case MRelease(_) => 5 case MPrint(_) => 4 case _ => 0)
    + (match c.recv case RPush(_) => 8 case RRelease => 1 case _ => 0)
  }

  /** What the way to the send leaves alone: everything but the lock, the two counters and where
      what has arrived is. */
  predicate SameSender(c: Client, c': Client) {
    && c'.pid == c.pid && c'.running == c.running && c'.dest == c.dest && c'.sends == c.sends
    && NodeOf(c).Arrived() <= NodeOf(c').Arrived()
  }

  lemma DrainNearer(c: Client, id: ClientId, k: Kernel)
    requires ClientLocked(c) && InDrain(c.main)
    ensures var o := if c.main.MAcquire? && c.lock.ByRecv? then ClientRecvStep(c, id, k) else ClientMainStep(c, id, k);
            && o.Ran? && o.kernel == k && DrainAhead(o.process) < DrainAhead(c)
            && (InDrain(o.process.main) || (o.process.main.MSend? && o.process.inbox == []))
  {
  }

  lemma DrainKeeps(c: Client, id: ClientId, k: Kernel)
    requires ClientLocked(c) && InDrain(c.main)
    ensures var o := if c.main.MAcquire? && c.lock.ByRecv? then ClientRecvStep(c, id, k) else ClientMainStep(c, id, k);
            o.Ran? ==> SameSender(c, o.process)
  {
    var o := if c.main.MAcquire? && c.lock.ByRecv? then ClientRecvStep(c, id, k) else ClientMainStep(c, id, k);
    if c.main.MPop? || c.main.MPrint? {
      assert NodeOf(o.process).Arrived() == NodeOf(c).Arrived();
    }
  }

  lemma SameSenderOn(c: Client, c': Client, c'': Client)
    requires SameSender(c, c') && SameSender(c', c'')
    ensures SameSender(c, c'')
  {
  }

  /** From anywhere in its drain loop a client's main gets to its send, having printed all that
      had arrived; the kernel and the other processes are as before. */
  lemma {:induction false} DrainsToSend(s: System, d: ClientId) returns (schedule: seq<Actor>)
    requires Locked(s) && InDrain(s.clients[d - 1].main)
    ensures Exec(s, schedule).Some?
    ensures var s' := Exec(s, schedule).value; var c' := s'.clients[d - 1];
            Locked(s') && s'.kernel == s.kernel && OthersKept(s, ClientMain(d), s') && SameSender(s.clients[d - 1], c')
            && c'.main.MSend? && c'.inbox == []
    decreases DrainAhead(s.clients[d - 1])
  {
    var c := s.clients[d - 1];
    assert c in s.clients;
    DrainNearer(c, d, s.kernel);
    DrainKeeps(c, d, s.kernel);
    var a := if c.main.MAcquire? && c.lock.ByRecv? then ClientRecv(d) else ClientMain(d);
    var s' := Next(s, a).value;
    LockedStep(s, a);
    var rest := [];
    if InDrain(s'.clients[d - 1].main) {
      rest := DrainsToSend(s', d);
      SameSenderOn(c, s'.clients[d - 1], Exec(s', rest).value.clients[d - 1]);
    }
    ExecCons(s, a, s', rest);
    schedule := [a] + rest;
  }

  /** A running client at its loop's test, with room in the kernel, can print all that has arrived
      and then send the next message of its alternation, without help from other processes. */
  lemma SendsNext(s: System, d: ClientId) returns (schedule: seq<Actor>)
    requires Locked(s) && s.clients[d - 1].running && s.clients[d - 1].main.MLoop? && s.kernel.Room()
    ensures Exec(s, schedule).Some?
    ensures var c, s' := s.clients[d - 1], Exec(s, schedule).value;
            && s'.kernel == s.kernel.Put(Envelope(4, NextBody(d, c.pid, c.dest, c.sends)))
            && s'.clients[d - 1].main.MLoop? && NodeOf(c).Arrived() <= s'.clients[d - 1].printed
            && s'.clients[d - 1].sends == c.sends + 1
  {
    var s1 := Next(s, ClientMain(d)).value;
    LockedStep(s, ClientMain(d));
    var first := DrainsToSend(s1, d);
    var s2 := Exec(s1, first).value;
    var s3 := Next(s2, ClientMain(d)).value;
    assert s2.clients[d - 1].printed == NodeOf(s2.clients[d - 1]).Arrived();
    ExecCons(s2, ClientMain(d), s3, []);
    ExecConcat(s1, first, [ClientMain(d)] + []);
    ExecCons(s, ClientMain(d), s1, first + ([ClientMain(d)] + []));
    schedule := [ClientMain(d)] + (first + ([ClientMain(d)] + []));
  }

  // ---- stopped threads leave their loops ----

  lemma OneStep(s: System, a: Actor)
    requires Next(s, a).Some?
    ensures Exec(s, [a]) == Next(s, a)
  {
    ExecCons(s, a, Next(s, a).value, []);
    assert [a] + [] == [a];
  }

  /** The main loop of a client that was told to stop gets to its join if its last send finds room. */
  lemma MainEnds(s: System, d: ClientId) returns (schedule: seq<Actor>)
    requires Locked(s) && !s.clients[d - 1].running && s.kernel.Room()
    ensures Exec(s, schedule).Some? && Exec(s, schedule).value.clients[d - 1].main.MJoin?
  {
    var c := s.clients[d - 1];
    if c.main.MJoin? {
      schedule := [];
    } else if c.main.MLoop? {
      schedule := [ClientMain(d)];
      OneStep(s, ClientMain(d));
    } else {
      var first := [];
      if InDrain(c.main) {
        first := DrainsToSend(s, d);
      }
      var s1 := Exec(s, first).value;
      schedule := first + [ClientMain(d), ClientMain(d)];
      LastSend(s1, d);
      ExecConcat(s, first, [ClientMain(d), ClientMain(d)]);
    }
  }

  lemma LastSend(s: System, d: ClientId)
    requires !s.clients[d - 1].running && s.clients[d - 1].main.MSend? && s.kernel.Room()
    ensures Exec(s, [ClientMain(d), ClientMain(d)]).Some?
    ensures Exec(s, [ClientMain(d), ClientMain(d)]).value.clients[d - 1].main.MJoin?
  {
    var s1 := Next(s, ClientMain(d)).value;
    OneStep(s1, ClientMain(d));
    ExecCons(s, ClientMain(d), s1, [ClientMain(d)]);
    assert [ClientMain(d)] + [ClientMain(d)] == [ClientMain(d), ClientMain(d)];
  }

  lemma ReceiverNearsEnd(c: Client, id: ClientId, k: Kernel)
    requires ClientLocked(c) && !c.running && !c.recv.RRecv? && !c.recv.RDone?
    ensures var o := if c.recv.RAcquire? && c.lock.ByMain? then ClientMainStep(c, id, k) else ClientRecvStep(c, id, k);
            && o.Ran? && !o.process.running && !o.process.recv.RRecv?
            && ClientRecvDistance(o.process.recv) + HoldingClientMain(o.process.main)
               < ClientRecvDistance(c.recv) + HoldingClientMain(c.main)
  {
  }

  /** The receiver of a client that was told to stop ends, unless it is waiting in msgrcv. */
  lemma {:induction false} ReceiverEnds(s: System, d: ClientId) returns (schedule: seq<Actor>)
    requires Locked(s) && !s.clients[d - 1].running && !s.clients[d - 1].recv.RRecv?
    ensures Exec(s, schedule).Some? && Exec(s, schedule).value.clients[d - 1].recv.RDone?
    decreases ClientRecvDistance(s.clients[d - 1].recv) + HoldingClientMain(s.clients[d - 1].main)
  {
    var c := s.clients[d - 1];
    if c.recv.RDone? {
      schedule := [];
    } else {
      assert c in s.clients;
      ReceiverNearsEnd(c, d, s.kernel);
      var a := if c.recv.RAcquire? && c.lock.ByMain? then ClientMain(d) else ClientRecv(d);
      LockedStep(s, a);
      var rest := ReceiverEnds(Next(s, a).value, d);
      ExecCons(s, a, Next(s, a).value, rest);
      schedule := [a] + rest;
    }
  }

  /** The server's receiver ends after SIGINT, which also gets it out of msgrcv. */
  lemma {:induction false} ServerReceiverEnds(s: System) returns (schedule: seq<Actor>)
    requires Locked(s) && !s.server.running
    ensures Exec(s, schedule).Some? && Exec(s, schedule).value.server.recv.SDone?
    decreases if s.server.recv.SRecv? then 9 else ServerRecvDistance(s.server.recv) + HoldingServerMain(s.server.main)
  {
    if s.server.recv.SDone? {
      schedule := [];
    } else {
      var a := if s.server.recv.SRecv? then ServerRetry
               else if s.server.recv.SAcquire? && s.server.lock.ByMain? then ServerMain else ServerRecv;
      LockedStep(s, a);
      var rest := ServerReceiverEnds(Next(s, a).value);
      ExecCons(s, a, Next(s, a).value, rest);
      schedule := [a] + rest;
    }
  }

  /** SIGINT stops a client as its Quit does: at most one more send in any continuation. */
  lemma SignalStopsClient(s: System, after: seq<Actor>, d: ClientId)
    requires Locked(s) && Exec(s, [ClientSignal(d)] + after).Some?
    ensures var c, c' := s.clients[d - 1], Exec(s, [ClientSignal(d)] + after).value.clients[d - 1];
            !c'.running && c'.sends <= c.sends + 1
  {
    var s1 := Next(s, ClientSignal(d)).value;
    ExecCons(s, ClientSignal(d), s1, after);
    LockedStep(s, ClientSignal(d));
    ClientWindsDown(s1, after, d);
  }

  /** And the server: at most one more message is dispatched. */
  lemma SignalStopsServer(s: System, after: seq<Actor>)
    requires Locked(s) && Exec(s, [ServerSignal] + after).Some?
    ensures |Dispatched(Exec(s, [ServerSignal] + after).value.kernel.log)| <= |Dispatched(s.kernel.log)| + 1
  {
    var s1 := Next(s, ServerSignal).value;
    ExecCons(s, ServerSignal, s1, after);
    LockedStep(s, ServerSignal);
    ServerWindsDown(s1, after);
  }
}
