/** Lab8 told to stop: how the processes wind down, and when the Quits can go out. */
module DispatchShutdown {
  import opened Basics
  import opened DispatchMessages
  import opened DispatchThreads
  import opened DispatchRefinement
  import opened DispatchLiveness
  import P = DispatchPipeline
  import D = DispatchDelivery

  // ---- winding down ----

  /** May still send before it looks at is_running again. */
  function Committed(pc: ClientMainPc): nat {
    if pc.MLoop? || pc.MJoin? then 0 else 1
  }

  predicate Finished(pc: ClientRecvPc) {
    pc.RLoop? || pc.RDone?
  }

  /** How a stopped client changes. */
  predicate WindsDown(c: Client, c': Client) {
    && !c'.running && c'.sends + Committed(c'.main) <= c.sends + Committed(c.main)
    && (Finished(c.recv) ==> Finished(c'.recv) && NodeOf(c').Arrived() == NodeOf(c).Arrived())
  }

  lemma StoppedClientStep(c: Client, id: ClientId, k: Kernel)
    requires ClientLocked(c) && !c.running
    ensures var o := ClientMainStep(c, id, k); o.Ran? ==> WindsDown(c, o.process)
    ensures var o := ClientRecvStep(c, id, k); o.Ran? ==> WindsDown(c, o.process)
  {
    ClientMainStops(c, id, k);
  }

  lemma ClientMainStops(c: Client, id: ClientId, k: Kernel)
    requires ClientLocked(c) && !c.running
    ensures var o := ClientMainStep(c, id, k); o.Ran? ==> WindsDown(c, o.process)
  {
    var o := ClientMainStep(c, id, k);
    if o.Ran? {
      assert NodeOf(o.process).Arrived() == NodeOf(c).Arrived();
    }
  }

  /** Any step of the system leaves a stopped client stopped. */
  lemma ClientWindsDownStep(s: System, a: Actor, d: ClientId)
    requires Locked(s) && Next(s, a).Some? && !s.clients[d - 1].running
    ensures WindsDown(s.clients[d - 1], Next(s, a).value.clients[d - 1])
  {
    assert s.clients[d - 1] in s.clients;
    StoppedClientStep(s.clients[d - 1], d, s.kernel);
  }

  lemma WindsDownOn(c: Client, c': Client, c'': Client)
    requires WindsDown(c, c') && WindsDown(c', c'')
    ensures WindsDown(c, c'')
  {
  }

  /** A client told to stop, by Quit or by SIGINT, sends at most one more message; and once its
      receiver is back at its loop nothing more is pushed for it to print. */
  lemma {:induction false} ClientWindsDown(s: System, schedule: seq<Actor>, d: ClientId)
    requires Locked(s) && Exec(s, schedule).Some? && !s.clients[d - 1].running
    ensures WindsDown(s.clients[d - 1], Exec(s, schedule).value.clients[d - 1])
    decreases schedule
  {
    if schedule != [] {
      var s' := Next(s, schedule[0]).value;
      ClientWindsDownStep(s, schedule[0], d);
      LockedStep(s, schedule[0]);
      ClientWindsDown(s', schedule[1..], d);
      WindsDownOn(s.clients[d - 1], s'.clients[d - 1], Exec(s, schedule).value.clients[d - 1]);
    }
  }

  /** Taking its Quit stops a client for good: whatever is scheduled afterwards, it sends at most
      once more, and nothing is pushed behind what the server had dispatched to it by then. */
  lemma QuitStops(s: System, after: seq<Actor>, d: ClientId)
    requires Good(s) && s.clients[d - 1].recv.RCheck? && IsQuit(s.clients[d - 1].recv.m)
    requires Exec(s, [ClientRecv(d)] + after).Some?
    ensures var c, c' := s.clients[d - 1], Exec(s, [ClientRecv(d)] + after).value.clients[d - 1];
            && !c'.running && Finished(c'.recv) && c'.sends <= c.sends + 1
            && NodeOf(c').Arrived() == D.DispatchedFor(PipelineOf(s), d)
  {
    var s1 := Next(s, ClientRecv(d)).value;
    ExecCons(s, ClientRecv(d), s1, after);
    LockedStep(s, ClientRecv(d));
    ClientWindsDown(s1, after, d);
    assert P.ClientInv(PipelineOf(s), d) && PipelineOf(s).nodes[d - 1] == NodeOf(s.clients[d - 1]);
    D.QuitComesLast(PipelineOf(s), d);
  }

  function ServerCommitted(pc: ServerMainPc): nat {
    if pc.DLoop? || pc.DQuit? || pc.DJoin? then 0 else 1
  }

  /** Only the server's main dispatches. */
  lemma OthersDispatchNothing(s: System, a: Actor)
    requires Next(s, a).Some? && !a.ServerMain?
    ensures var s' := Next(s, a).value;
            Dispatched(s'.kernel.log) == Dispatched(s.kernel.log) && s'.server.main == s.server.main
            && (!s.server.running ==> !s'.server.running)
  {
    if a.ClientMain? && s.clients[a.d - 1].main.MSend? {
      var c := s.clients[a.d - 1];
      DispatchedAppend(s.kernel.log, Envelope(SERVER_TYPE, NextBody(a.d, c.pid, c.dest, c.sends)));
    }
  }

  lemma ServerMainStops(v: Server, k: Kernel)
    requires ServerLocked(v) && !v.running && ServerMainStep(v, k).Ran?
    ensures var o := ServerMainStep(v, k);
            && !o.process.running
            && |Dispatched(o.kernel.log)| + ServerCommitted(o.process.main) <= |Dispatched(k.log)| + ServerCommitted(v.main)
  {
    if v.main.DSend? {
      DispatchedAppend(k.log, Envelope(v.main.m.dest, v.main.m));
    } else if v.main.DQuit? {
      DispatchedAppend(k.log, Envelope(v.main.i, QuitBody(v.main.i)));
    }
  }

  lemma ServerStepStops(s: System, a: Actor)
    requires Locked(s) && Next(s, a).Some? && !s.server.running
    ensures var s' := Next(s, a).value;
            && !s'.server.running
            && |Dispatched(s'.kernel.log)| + ServerCommitted(s'.server.main)
               <= |Dispatched(s.kernel.log)| + ServerCommitted(s.server.main)
  {
    if a.ServerMain? {
      ServerMainStops(s.server, s.kernel);
    } else {
      OthersDispatchNothing(s, a);
    }
  }

  /** After SIGINT the server dispatches at most one more message. */
  lemma {:induction false} ServerWindsDown(s: System, schedule: seq<Actor>)
    requires Locked(s) && Exec(s, schedule).Some? && !s.server.running
    ensures var s' := Exec(s, schedule).value;
            |Dispatched(s'.kernel.log)| + ServerCommitted(s'.server.main)
            <= |Dispatched(s.kernel.log)| + ServerCommitted(s.server.main)
    decreases schedule
  {
    if schedule != [] {
      ServerStepStops(s, schedule[0]);
      LockedStep(s, schedule[0]);
      ServerWindsDown(Next(s, schedule[0]).value, schedule[1..]);
    }
  }

  // ---- the broadcast: how many slots nobody will ever free ----

  /** Of n messages of one type, how many stay: none while the receiver runs; once it was told to
      stop, all but the one it may already be asking for. */
  function Left(n: nat, running: bool, asking: bool): nat {
    if running || n == 0 then 0 else if asking then n - 1 else n
  }

  function Count(s: System, t: int): nat {
    |OfType(s.kernel.queue, t)|
  }

  function StuckAtServer(s: System): nat {
    Left(Count(s, SERVER_TYPE), s.server.running, s.server.recv.SRecv?)
  }

  /** The same for client d, with its own Quit if that has to go out before Quit number `last`. */
  function StuckAtClient(s: System, d: ClientId, last: nat): nat {
    Left(Count(s, d) + (if Quits(s.server.main) < d < last then 1 else 0), s.clients[d - 1].running, s.clients[d - 1].recv.RRecv?)
  }

  /** The slots that will be taken for good when Quit number `last` is due. */
  function Stuck(s: System, last: nat): nat {
    StuckAtServer(s) + StuckAtClient(s, 1, last) + StuckAtClient(s, 2, last) + StuckAtClient(s, 3, last)
  }

  lemma {:induction false} CountAll(q: seq<Envelope>)
    requires forall e | e in q :: P.WellRouted(e)
    ensures |q| == |OfType(q, SERVER_TYPE)| + |OfType(q, 1)| + |OfType(q, 2)| + |OfType(q, 3)|
  {
    if q != [] {
      assert P.WellRouted(q[0]) && forall e | e in q[1..] :: e in q;
      CountAll(q[1..]);
    }
  }

  // No step of a stopped server frees one of these slots.

  lemma StuckAtServerGrows(s: System, a: Actor)
    requires Locked(s) && s.server.main.DQuit? && Next(s, a).Some?
    ensures StuckAtServer(Next(s, a).value) >= StuckAtServer(s)
  {
    CountStep(s, a, SERVER_TYPE);
  }

  /** What a step does to the number of messages of a type. */
  lemma CountStep(s: System, a: Actor, t: int)
    requires s.server.main.DQuit? && Next(s, a).Some?
    ensures Count(Next(s, a).value, t) == Count(s, t)
            + (if (a.ServerMain? && s.server.main.i == t) || (a.ClientMain? && s.clients[a.d - 1].main.MSend? && t == SERVER_TYPE) then 1 else 0)
            - (if (a.ServerRecv? && s.server.recv.SRecv? && t == SERVER_TYPE) || (a.ClientRecv? && s.clients[a.d - 1].recv.RRecv? && t == a.d) then 1 else 0)
  {
    match a
    case ServerMain =>
      P.PutEffect(s.kernel, Envelope(s.server.main.i, QuitBody(s.server.main.i)), t);
    case ServerRecv =>
      if s.server.recv.SRecv? {
        RemovedEffect(s.kernel.queue, SERVER_TYPE, t);
      }
    case ClientMain(d) =>
      if s.clients[d - 1].main.MSend? {
        var c := s.clients[d - 1];
        P.PutEffect(s.kernel, Envelope(SERVER_TYPE, NextBody(d, c.pid, c.dest, c.sends)), t);
      }
    case ClientRecv(d) =>
      if s.clients[d - 1].recv.RRecv? {
        RemovedEffect(s.kernel.queue, d, t);
      }
    case _ =>
  }

  lemma StuckAtClientGrows(s: System, a: Actor, d: ClientId, last: nat)
    requires Locked(s) && s.server.main.DQuit? && Next(s, a).Some? && Quits(Next(s, a).value.server.main) < last
    ensures StuckAtClient(Next(s, a).value, d, last) >= StuckAtClient(s, d, last)
  {
    CountStep(s, a, d);
  }

  /** With all slots stuck the last of these Quits never goes out. */
  lemma StuckStep(s: System, a: Actor, last: nat)
    requires Good(s) && s.server.main.DQuit? && Quits(s.server.main) < last <= 3 && Next(s, a).Some?
    requires Stuck(s, last) >= s.kernel.cap
    ensures var s' := Next(s, a).value;
            s'.kernel.cap == s.kernel.cap && s'.server.main.DQuit? && Quits(s'.server.main) < last && Stuck(s', last) >= s.kernel.cap
  {
    CountAll(s.kernel.queue);
    var s' := Next(s, a).value;
    assert s'.kernel.cap == s.kernel.cap;
    assert s'.server.main.DQuit? && Quits(s'.server.main) < last;
    StuckAtServerGrows(s, a);
    StuckAtClientGrows(s, a, 1, last);
    StuckAtClientGrows(s, a, 2, last);
    StuckAtClientGrows(s, a, 3, last);
  }

  lemma {:induction false} StuckForever(s: System, schedule: seq<Actor>, last: nat)
    requires Good(s) && s.server.main.DQuit? && Quits(s.server.main) < last <= 3
    requires Stuck(s, last) >= s.kernel.cap && Exec(s, schedule).Some?
    ensures Quits(Exec(s, schedule).value.server.main) < last
    decreases schedule
  {
    if schedule != [] {
      StuckStep(s, schedule[0], last);
      NextGood(s, schedule[0]);
      StuckForever(Next(s, schedule[0]).value, schedule[1..], last);
    }
  }

  // Otherwise a slot can always be freed without new ones getting stuck.

  /** Receiver t runs and has a message waiting, or was told to stop while asking for one. */
  predicate CanTake(s: System, t: Actor) {
    match t
    case ServerRecv => s.server.recv.SRecv? && s.kernel.Has(SERVER_TYPE)
    case ClientRecv(d) => s.kernel.Has(d) && (s.clients[d - 1].running || s.clients[d - 1].recv.RRecv?)
    case _ => false
  }

  lemma SomeoneTakes(s: System, last: nat) returns (t: Actor)
    requires Good(s) && s.server.main.DQuit? && !s.kernel.Room() && Stuck(s, last) < s.kernel.cap
    ensures CanTake(s, t)
  {
    CountAll(s.kernel.queue);
    t := if CanTake(s, ServerRecv) then ServerRecv else if CanTake(s, ClientRecv(1)) then ClientRecv(1)
         else if CanTake(s, ClientRecv(2)) then ClientRecv(2) else ClientRecv(3);
  }

  /** A take by t alone does not raise what is stuck. */
  lemma TakenStuckAtServer(s: System, t: Actor, s': System)
    requires !s.server.running && CanTake(s, t) && s'.kernel == s.kernel.Without(Wanted(t)) && !s'.server.running
    requires t.ClientRecv? ==> s'.server == s.server
    ensures StuckAtServer(s') <= StuckAtServer(s)
  {
    RemovedEffect(s.kernel.queue, Wanted(t), SERVER_TYPE);
  }

  lemma TakenStuckAtClient(s: System, t: Actor, s': System, d: ClientId, last: nat)
    requires CanTake(s, t) && s'.kernel == s.kernel.Without(Wanted(t)) && s'.server.main == s.server.main
    requires t != ClientRecv(d) ==> s'.clients[d - 1] == s.clients[d - 1]
    requires s.clients[d - 1].running ==> s'.clients[d - 1].running
    ensures StuckAtClient(s', d, last) <= StuckAtClient(s, d, last)
  {
    RemovedEffect(s.kernel.queue, Wanted(t), d);
  }

  lemma TakeOne(s: System, t: Actor, last: nat) returns (schedule: seq<Actor>)
    requires Good(s) && s.server.main.DQuit? && CanTake(s, t)
    ensures Exec(s, schedule).Some?
    ensures var s' := Exec(s, schedule).value;
            Good(s') && s'.server.main == s.server.main && s'.kernel == s.kernel.Without(Wanted(t)) && Stuck(s', last) <= Stuck(s, last)
  {
    if t.ClientRecv? && s.clients[t.d - 1].running {
      schedule := DriveReceive(s, t);
    } else {
      schedule := [t];
      ExecCons(s, t, Next(s, t).value, []);
      assert [t] + [] == [t];
    }
    ExecGood(s, schedule);
    var s' := Exec(s, schedule).value;
    TakenStuckAtServer(s, t, s');
    TakenStuckAtClient(s, t, s', 1, last);
    TakenStuckAtClient(s, t, s', 2, last);
    TakenStuckAtClient(s, t, s', 3, last);
  }

  lemma FreeOne(s: System, last: nat) returns (schedule: seq<Actor>)
    requires Good(s) && s.server.main.DQuit? && Stuck(s, last) < s.kernel.cap
    ensures Exec(s, schedule).Some?
    ensures var s' := Exec(s, schedule).value;
            Good(s') && s'.server.main == s.server.main && s'.kernel.cap == s.kernel.cap && s'.kernel.Room() && Stuck(s', last) < s.kernel.cap
  {
    if s.kernel.Room() {
      schedule := [];
    } else {
      var t := SomeoneTakes(s, last);
      schedule := TakeOne(s, t, last);
      RemovedEffect(s.kernel.queue, Wanted(t), Wanted(t));
    }
  }

  /** A Quit that goes out was counted before, unless it is the last. */
  lemma QuitSentStuck(s: System, last: nat)
    requires Locked(s) && s.server.main.DQuit? && Quits(s.server.main) + 1 < last && s.kernel.Room()
    ensures Stuck(Next(s, ServerMain).value, last) == Stuck(s, last)
  {
    CountStep(s, ServerMain, SERVER_TYPE);
    CountStep(s, ServerMain, 1);
    CountStep(s, ServerMain, 2);
    CountStep(s, ServerMain, 3);
  }

  lemma {:induction false} SendQuits(s: System, last: nat) returns (schedule: seq<Actor>)
    requires Good(s) && s.server.main.DQuit? && Quits(s.server.main) < last <= 3 && Stuck(s, last) < s.kernel.cap
    ensures Exec(s, schedule).Some? && Quits(Exec(s, schedule).value.server.main) >= last
    decreases last - Quits(s.server.main)
  {
    var first := FreeOne(s, last);
    var s1 := Exec(s, first).value;
    var s2 := Next(s1, ServerMain).value;
    NextGood(s1, ServerMain);
    var rest := [];
    if Quits(s1.server.main) + 1 < last {
      QuitSentStuck(s1, last);
      rest := SendQuits(s2, last);
    }
    ExecCons(s1, ServerMain, s2, rest);
    schedule := first + ([ServerMain] + rest);
    ExecConcat(s, first, [ServerMain] + rest);
  }

  /** Some continuation sends the Quits up to number `last`. */
  ghost predicate CanSend(s: System, last: nat) {
    exists schedule :: Exec(s, schedule).Some? && Quits(Exec(s, schedule).value.server.main) >= last
  }

  /** The shutdown broadcast is not always sent. From any state of it, the Quits up to number
      `last` can go out exactly when not every slot will be stuck by then. */
  lemma BroadcastReaches(s: System, last: nat)
    requires Good(s) && s.server.main.DQuit? && Quits(s.server.main) < last <= 3
    ensures CanSend(s, last) <==> Stuck(s, last) < s.kernel.cap
  {
    if Stuck(s, last) < s.kernel.cap {
      var schedule := SendQuits(s, last);
    } else {
      forall schedule | Exec(s, schedule).Some? ensures Quits(Exec(s, schedule).value.server.main) < last {
        StuckForever(s, schedule, last);
      }
    }
  }

  // ---- the next Quit, and the whole broadcast with every client running ----

  /** The kernel is full, and whatever waits there waits for a receiver that was told to stop and
      is not already asking for it. */
  ghost predicate Jammed(s: System) {
    !s.kernel.Room() && forall t :: !CanTake(s, t)
  }

  lemma JammedIsStuck(s: System)
    requires Good(s) && s.server.main.DQuit?
    ensures Jammed(s) <==> Stuck(s, Quits(s.server.main) + 1) >= s.kernel.cap
  {
    CountAll(s.kernel.queue);
    if Jammed(s) {
      assert !CanTake(s, ServerRecv) && !CanTake(s, ClientRecv(1)) && !CanTake(s, ClientRecv(2)) && !CanTake(s, ClientRecv(3));
    } else if !s.kernel.Room() {
      var t :| CanTake(s, t);
      if t.ClientRecv? {
        assert t.d == 1 || t.d == 2 || t.d == 3;
      }
    }
  }

  /** The next Quit can go out exactly when the kernel is not jammed. */
  lemma BroadcastProceeds(s: System)
    requires Good(s) && s.server.main.DQuit?
    ensures CanSend(s, Quits(s.server.main) + 1) <==> !Jammed(s)
  {
    JammedIsStuck(s);
    BroadcastReaches(s, Quits(s.server.main) + 1);
  }

  lemma RunningClientsNeverStick(s: System)
    requires s.server.main.DQuit? && forall c | c in s.clients :: c.running
    ensures Stuck(s, 3) == Stuck(s, Quits(s.server.main) + 1)
  {
    assert s.clients[0] in s.clients && s.clients[1] in s.clients && s.clients[2] in s.clients;
  }

  /** While every client runs, the whole broadcast can go out exactly when the kernel is not
      jammed. */
  lemma BroadcastCompletes(s: System)
    requires Good(s) && s.server.main.DQuit? && forall c | c in s.clients :: c.running
    ensures CanSend(s, 3) <==> !Jammed(s)
  {
    JammedIsStuck(s);
    BroadcastReaches(s, 3);
    RunningClientsNeverStick(s);
  }

  lemma JammedStep(s: System, a: Actor)
    requires Good(s) && s.server.main.DQuit? && Jammed(s) && Next(s, a).Some?
    ensures var s' := Next(s, a).value; Jammed(s') && s'.kernel == s.kernel && s'.server.main == s.server.main
  {
    var s' := Next(s, a).value;
    assert !CanTake(s, a);
    assert s'.kernel == s.kernel;
    forall t ensures !CanTake(s', t) {
      assert !CanTake(s, t);
    }
  }

  lemma {:induction false} JammedForever(s: System, schedule: seq<Actor>)
    requires Good(s) && s.server.main.DQuit? && Jammed(s) && Exec(s, schedule).Some?
    ensures Exec(s, schedule).value.kernel == s.kernel && Exec(s, schedule).value.server.main == s.server.main
    decreases schedule
  {
    if schedule != [] {
      JammedStep(s, schedule[0]);
      NextGood(s, schedule[0]);
      JammedForever(Next(s, schedule[0]).value, schedule[1..]);
    }
  }

  /** Jams happen: a system of any capacity whose first client fills the kernel before the
      server's receiver starts, and which is then told to stop, never sends a Quit. */
  lemma JamIsReachable(cap: nat) returns (s: System, schedule: seq<Actor>)
    requires cap >= 1
    ensures Initial(s) && s.kernel.cap == cap && Exec(s, schedule).Some?
    ensures Jammed(Exec(s, schedule).value) && Exec(s, schedule).value.server.main == DQuit(1)
  {
    s := Network(Kernel(cap, [], []), Server(true, Free, [], DLoop, SLoop, false),
                 seq(3, _ => Client(1, true, Free, [], 0, 0, [], MLoop, RLoop, false)));
    var fill := Fill(s, cap);
    var full := Exec(s, fill).value;
    InitialGood(s);
    ExecGood(s, fill);
    CountAll(full.kernel.queue);
    var stop := StopWhenFull(full);
    schedule := fill + stop;
    ExecConcat(s, fill, stop);
  }

  lemma StopWhenFull(s: System) returns (schedule: seq<Actor>)
    requires s.server == Server(true, Free, [], DLoop, SLoop, false)
    requires !s.kernel.Room() && forall d: ClientId :: !s.kernel.Has(d)
    ensures Exec(s, schedule).Some?
    ensures Jammed(Exec(s, schedule).value) && Exec(s, schedule).value.server.main == DQuit(1)
  {
    var s1 := Next(s, ServerSignal).value;
    var s2 := Next(s1, ServerMain).value;
    ExecCons(s1, ServerMain, s2, []);
    ExecCons(s, ServerSignal, s1, [ServerMain] + []);
    schedule := [ServerSignal] + ([ServerMain] + []);
  }

  /** One round of client 1's main loop with nothing to print. */
  lemma Round(s: System) returns (s1: System, s2: System, s3: System)
    requires s.clients[0].main.MLoop? && s.clients[0].running && s.clients[0].inbox == [] && s.kernel.Room()
    ensures Next(s, ClientMain(1)) == Some(s1) && Next(s1, ClientMain(1)) == Some(s2) && Next(s2, ClientMain(1)) == Some(s3)
    ensures s3.clients[0].main.MLoop? && s3.clients[0].running && s3.clients[0].inbox == [] && s3.server == s.server
    ensures s3.kernel.cap == s.kernel.cap && |s3.kernel.queue| == |s.kernel.queue| + 1
    ensures |OfType(s3.kernel.queue, SERVER_TYPE)| == |OfType(s.kernel.queue, SERVER_TYPE)| + 1
  {
    s1 := Next(s, ClientMain(1)).value;
    s2 := Next(s1, ClientMain(1)).value;
    s3 := Next(s2, ClientMain(1)).value;
    OfTypeAppend(s.kernel.queue, s3.kernel.queue[|s.kernel.queue|], SERVER_TYPE);
  }

  /** n rounds of client 1's main loop put n messages of type 4. */
  lemma {:induction false} Fill(s: System, n: nat) returns (schedule: seq<Actor>)
    requires s.server == Server(true, Free, [], DLoop, SLoop, false)
    requires s.clients[0].main.MLoop? && s.clients[0].running && s.clients[0].inbox == []
    requires |OfType(s.kernel.queue, SERVER_TYPE)| == |s.kernel.queue| && |s.kernel.queue| + n <= s.kernel.cap
    ensures Exec(s, schedule).Some?
    ensures var s' := Exec(s, schedule).value;
            s'.server == s.server && s'.kernel.cap == s.kernel.cap
            && |OfType(s'.kernel.queue, SERVER_TYPE)| == |s.kernel.queue| + n
    decreases n
  {
    if n == 0 {
      schedule := [];
    } else {
      var a := ClientMain(1);
      var s1, s2, s3 := Round(s);
      var rest := Fill(s3, n - 1);
      schedule := [a] + ([a] + ([a] + rest));
      ExecCons(s2, a, s3, rest);
      ExecCons(s1, a, s2, [a] + rest);
      ExecCons(s, a, s1, [a] + ([a] + rest));
    }
  }
}
