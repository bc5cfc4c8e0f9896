/**
 * The Lab5 driver: a kernel thread sweeps a shared buffer through the alphabet while readers
 * and ioctl calls interleave with its statements.
 */
module HardwareDevice {
  import opened Basics

  const BUF_LEN := 16
  const CELLS := 15

  // ---- the buffer between and during sweeps ----

  function Letter(n: nat): char {
    'a' + (n % 26) as char
  }

  /** What the wrap-around statement leaves in a cell after the increment. */
  function Wrapped(c: char): char {
    if c > 'z' then 'a' else c
  }

  /** After k cells of sweep n + 1 the buffer is k times the next letter, then the current one. */
  function Swept(n: nat, k: nat): (b: string)
    requires k <= CELLS
    ensures |b| == BUF_LEN && b[CELLS] == '\0'
    ensures forall j | 0 <= j < CELLS :: b[j] == if j < k then Letter(n + 1) else Letter(n)
  {
    seq(BUF_LEN, j => if j == CELLS then '\0' else if j < k then Letter(n + 1) else Letter(n))
  }

  /** Increment and wrap take each letter to the next. */
  lemma NextLetter(n: nat)
    ensures Wrapped(Letter(n) + 1 as char) == Letter(n + 1)
  {
    if n % 26 == 25 {
      assert (n + 1) % 26 == 0;
    } else {
      assert (n + 1) % 26 == n % 26 + 1;
    }
  }

  /** A finished sweep is the start of the next. */
  lemma SweepDone(n: nat)
    ensures Swept(n, CELLS) == Swept(n + 1, 0)
  {
  }

  // ---- the thread, its halt flag, and unloading ----

  /** hardwareSim, one access of shared data a step. */
  datatype Pc = Fill(i: nat) | Seal | Outer | Inner | Bump(i: nat) | Wrap(i: nat) | Close | Exited

  /** `sweeps` counts the sweeps completed. */
  datatype Device = Device(buffer: string, running: bool, halt: bool, pc: Pc, sweeps: nat)

  datatype Command = Halt | Resume | Other(code: int)

  const EFAULT := 14
  const EINVAL := 22

  function SimStep(s: Device): Option<Device> {
    match s.pc
    case Fill(i) =>
      if i < CELLS && i < |s.buffer| then Some(s.(buffer := s.buffer[i := 'a'], pc := Fill(i + 1))) else Some(s.(pc := Seal))
    case Seal => if CELLS < |s.buffer| then Some(s.(buffer := s.buffer[CELLS := '\0'], pc := Outer)) else None
    case Outer => Some(s.(pc := if s.running then Inner else Exited))
    case Inner => Some(s.(pc := if s.halt then Outer else Bump(0)))
    case Bump(i) =>
      if i < CELLS && i < |s.buffer| && s.buffer[i] < '\U{7F}'
      then Some(s.(buffer := s.buffer[i := s.buffer[i] + 1 as char], pc := Wrap(i))) else None
    case Wrap(i) =>
      if i < |s.buffer| then
        Some(s.(buffer := s.buffer[i := Wrapped(s.buffer[i])], pc := if i + 1 < CELLS then Bump(i + 1) else Close))
      else None
    case Close =>
      if CELLS < |s.buffer| then Some(s.(buffer := s.buffer[CELLS := '\0'], pc := Inner, sweeps := s.sweeps + 1)) else None
    case Exited => None
  }

  /** hardware_device_ioctl */
  function Ioctl(s: Device, c: Command): (Device, int) {
    match c
    case Halt => (s.(halt := true), 0)
    case Resume => (s.(halt := false), 0)
    case Other(_) => (s, -EINVAL)
  }

  datatype Actor = Sim | Control(c: Command) | Unload

  function Next(s: Device, a: Actor): Option<Device> {
    match a
    case Sim => SimStep(s)
    case Control(c) => Some(Ioctl(s, c).0)
    case Unload => Some(s.(running := false, halt := false))
  }

  function Exec(s: Device, schedule: seq<Actor>): Option<Device>
    decreases schedule
  {
    if schedule == [] then Some(s) else
    match Next(s, schedule[0])
    case None => None
    case Some(s') => Exec(s', schedule[1..])
  }

  /** After register_device; a static buffer starts zeroed. */
  function Init(): Device {
    Device(seq(BUF_LEN, _ => '\0'), true, false, Fill(0), 0)
  }

  predicate Filling(s: Device) {
    s.pc.Fill? || s.pc.Seal?
  }

  /** What the buffer holds at each statement of the thread. */
  predicate BufferInv(s: Device) {
    && |s.buffer| == BUF_LEN
    && match s.pc
       case Fill(i) => i <= CELLS && s.sweeps == 0 && (forall j | 0 <= j < i :: s.buffer[j] == 'a')
       case Seal => s.sweeps == 0 && (forall j | 0 <= j < CELLS :: s.buffer[j] == 'a')
       case Bump(i) => i < CELLS && s.buffer == Swept(s.sweeps, i)
       case Wrap(i) => i < CELLS && s.buffer == Swept(s.sweeps, i)[i := Letter(s.sweeps) + 1 as char]
       case Close => s.buffer == Swept(s.sweeps, CELLS)
       case _ => s.buffer == Swept(s.sweeps, 0)
  }

  /** The increment and the wrap-around of one cell. */
  lemma CellStep(s: Device)
    requires BufferInv(s) && (s.pc.Bump? || s.pc.Wrap?) && SimStep(s).Some?
    ensures BufferInv(SimStep(s).value)
  {
    var s' := SimStep(s).value;
    if s.pc.Bump? {
      assert s'.buffer == Swept(s.sweeps, s.pc.i)[s.pc.i := Letter(s.sweeps) + 1 as char];
    } else {
      NextLetter(s.sweeps);
      assert s'.buffer == Swept(s.sweeps, s.pc.i + 1);
    }
  }

  /** The end of the fill and the end of a sweep. */
  lemma EdgeStep(s: Device)
    requires BufferInv(s) && (s.pc.Seal? || s.pc.Close?) && SimStep(s).Some?
    ensures BufferInv(SimStep(s).value)
  {
    var s' := SimStep(s).value;
    if s.pc.Seal? {
      assert s'.buffer == Swept(0, 0);
    } else {
      SweepDone(s.sweeps);
      assert s'.buffer == s.buffer;
    }
  }

  lemma BufferStep(s: Device, a: Actor)
    requires BufferInv(s) && Next(s, a).Some?
    ensures BufferInv(Next(s, a).value)
  {
    if a.Sim? && (s.pc.Bump? || s.pc.Wrap?) {
      CellStep(s);
    } else if a.Sim? && (s.pc.Seal? || s.pc.Close?) {
      EdgeStep(s);
    }
  }

  lemma {:induction false} ExecBuffer(s: Device, schedule: seq<Actor>)
    requires BufferInv(s) && Exec(s, schedule).Some?
    ensures BufferInv(Exec(s, schedule).value)
    decreases schedule
  {
    if schedule != [] {
      BufferStep(s, schedule[0]);
      ExecBuffer(Next(s, schedule[0]).value, schedule[1..]);
    }
  }

  /** The thread is never blocked: it can always take its next statement until it has exited. */
  lemma SimNeverStuck(schedule: seq<Actor>)
    requires Exec(Init(), schedule).Some? && !Exec(Init(), schedule).value.pc.Exited?
    ensures Next(Exec(Init(), schedule).value, Sim).Some?
  {
    ExecBuffer(Init(), schedule);
    var s := Exec(Init(), schedule).value;
    if s.pc.Bump? {
      assert s.buffer[s.pc.i] == Letter(s.sweeps);
    }
  }

  /** Between sweeps, after n of them: fifteen cells of letter n and a final zero. */
  lemma BufferBetweenSweeps(schedule: seq<Actor>, j: nat)
    requires Exec(Init(), schedule).Some? && j < 16
    requires var pc := Exec(Init(), schedule).value.pc; pc.Outer? || pc.Inner? || pc.Exited?
    ensures var s := Exec(Init(), schedule).value;
            |s.buffer| == 16 && s.buffer[j] == if j == 15 then '\0' else 'a' + (s.sweeps % 26) as char
  {
    ExecBuffer(Init(), schedule);
  }

  /** What a reader sees at any moment after the fill: the next letter up to some cell, the
      current one after it, and at the cell being stepped possibly the character after it. */
  lemma BufferDuringSweeps(schedule: seq<Actor>) returns (k: nat)
    requires Exec(Init(), schedule).Some? && !Filling(Exec(Init(), schedule).value)
    ensures var s := Exec(Init(), schedule).value;
            && k <= CELLS && |s.buffer| == BUF_LEN && s.buffer[CELLS] == '\0'
            && (forall j | 0 <= j < k :: s.buffer[j] == Letter(s.sweeps + 1))
            && (forall j | k < j < CELLS :: s.buffer[j] == Letter(s.sweeps))
            && (k < CELLS ==> s.buffer[k] == Letter(s.sweeps) || (s.pc == Wrap(k) && s.buffer[k] == Letter(s.sweeps) + 1 as char))
  {
    ExecBuffer(Init(), schedule);
    var s := Exec(Init(), schedule).value;
    if s.pc.Bump? || s.pc.Wrap? {
      k := s.pc.i;
    } else if s.pc.Close? {
      k := CELLS;
    } else {
      k := 0;
    }
  }

  // ---- the thread gets on ----

  /** n statements of the thread and nothing else. */
  function Sims(n: nat): (schedule: seq<Actor>)
    ensures |schedule| == n
  {
    seq(n, _ => Sim)
  }

  lemma SimsCons(s: Device, n: nat)
    requires n > 0 && SimStep(s).Some?
    ensures Exec(s, Sims(n)) == Exec(SimStep(s).value, Sims(n - 1))
  {
    assert Sims(n)[0] == Sim && Sims(n)[1..] == Sims(n - 1);
  }

  lemma {:induction false} SimsConcat(s: Device, m: nat, n: nat)
    requires Exec(s, Sims(m)).Some?
    ensures Exec(s, Sims(m + n)) == Exec(Exec(s, Sims(m)).value, Sims(n))
    decreases m
  {
    if m > 0 {
      assert Sims(m)[0] == Sim && Sims(m)[1..] == Sims(m - 1);
      SimsCons(s, m + n);
      SimsConcat(SimStep(s).value, m - 1, n);
    }
  }

  lemma BumpAndWrap(s: Device, n: nat)
    requires BufferInv(s) && s.pc.Bump? && n == 2
    ensures var i := s.pc.i;
            Exec(s, Sims(n)) == Some(s.(buffer := Swept(s.sweeps, i + 1), pc := if i + 1 < 15 then Bump(i + 1) else Close))
  {
    assert s.buffer[s.pc.i] == Letter(s.sweeps);
    var s1 := SimStep(s).value;
    BufferStep(s, Sim);
    BufferStep(s1, Sim);
    SimsCons(s, n);
    SimsCons(s1, n - 1);
  }

  /** The rest of a sweep from cell i. */
  lemma {:induction false} RestOfSweep(s: Device, n: nat)
    requires BufferInv(s) && s.pc.Bump? && n == 31 - 2 * s.pc.i
    ensures Exec(s, Sims(n)) == Some(s.(buffer := Swept(s.sweeps + 1, 0), pc := Inner, sweeps := s.sweeps + 1))
    decreases n
  {
    BumpAndWrap(s, 2);
    SimsConcat(s, 2, n - 2);
    var s2 := Exec(s, Sims(2)).value;
    if s.pc.i + 1 < 15 {
      RestOfSweep(s2, n - 2);
    } else {
      SweepDone(s.sweeps);
      assert SimStep(s2).value.buffer == s2.buffer;
      SimsCons(s2, n - 2);
    }
  }

  /** Fifteen cells one letter on, 'a' after 'z', and the zero. */
  predicate OneLetterOn(b: string, b': string) {
    && |b| == |b'| == 16 && b'[15] == '\0'
    && forall j | 0 <= j < 15 :: b'[j] as int == if b[j] == 'z' then 'a' as int else b[j] as int + 1
  }

  lemma SweptOneLetterOn(n: nat)
    ensures OneLetterOn(Swept(n, 0), Swept(n + 1, 0))
  {
    if n % 26 == 25 {
      assert (n + 1) % 26 == 0;
    } else {
      assert (n + 1) % 26 == n % 26 + 1;
    }
  }

  lemma StartSweep(s: Device)
    requires BufferInv(s) && s.pc.Inner? && !s.halt
    ensures SimStep(s) == Some(s.(pc := Bump(0))) && BufferInv(s.(pc := Bump(0)))
  {
  }

  /** 32 statements from the inner loop's test, not halted, are a sweep. */
  lemma SweepCompletes(s: Device, n: nat)
    requires BufferInv(s) && s.pc.Inner? && !s.halt && n == 32
    ensures Exec(s, Sims(n)) == Some(s.(buffer := Swept(s.sweeps + 1, 0), sweeps := s.sweeps + 1))
  {
    StartSweep(s);
    SweepFrom(s, s.(pc := Bump(0)), n);
  }

  lemma SweepFrom(s: Device, s1: Device, n: nat)
    requires SimStep(s) == Some(s1) && BufferInv(s1) && s1.pc == Bump(0) && n == 32
    ensures Exec(s, Sims(n)) == Some(s1.(buffer := Swept(s1.sweeps + 1, 0), pc := Inner, sweeps := s1.sweeps + 1))
  {
    RestOfSweep(s1, n - 1);
    SimsCons(s, n);
  }

  lemma {:induction false} FillCompletes(s: Device)
    requires BufferInv(s) && s.pc.Fill? && s.running
    ensures Exec(s, Sims(18 - s.pc.i)) == Some(s.(buffer := Swept(0, 0), pc := Inner))
    decreases 15 - s.pc.i
  {
    var i := s.pc.i;
    var s1 := SimStep(s).value;
    BufferStep(s, Sim);
    SimsCons(s, 18 - i);
    if i < 15 {
      FillCompletes(s1);
    } else {
      var s2 := SimStep(s1).value;
      BufferStep(s1, Sim);
      assert s2.buffer == Swept(0, 0);
      SimsCons(s1, 2);
      SimsCons(s2, 1);
    }
  }

  /** Left alone, the thread has made its nth sweep after 18 + 32n statements. */
  lemma {:induction false} KeepsSweeping(n: nat)
    ensures var end := Exec(Init(), Sims(18 + 32 * n));
            end.Some? && end.value.pc.Inner? && !end.value.halt && end.value.sweeps == n && BufferInv(end.value)
  {
    if n == 0 {
      FillCompletes(Init());
    } else {
      KeepsSweeping(n - 1);
      var m := 18 + 32 * (n - 1);
      var sweep := 18 + 32 * n - m;
      SimsConcat(Init(), m, sweep);
      SweepCompletes(Exec(Init(), Sims(m)).value, sweep);
      ExecBuffer(Init(), Sims(m + sweep));
    }
  }

  /** From any reachable state at the inner loop's test, not halted, the next 32 statements of
      the thread are a sweep: every letter becomes the next. */
  lemma SweepsOn(schedule: seq<Actor>, n: nat)
    requires Exec(Init(), schedule).Some? && n == 32
    requires var s := Exec(Init(), schedule).value; s.pc.Inner? && !s.halt
    ensures var s := Exec(Init(), schedule).value; var end := Exec(s, Sims(n));
            end.Some? && end.value.pc.Inner? && end.value.sweeps == s.sweeps + 1 && OneLetterOn(s.buffer, end.value.buffer)
  {
    var s := Exec(Init(), schedule).value;
    ExecBuffer(Init(), schedule);
    SweepCompletes(s, n);
    SweptOneLetterOn(s.sweeps);
  }

  lemma ExecControl(s: Device, c: Command, n: nat)
    ensures Exec(s, [Control(c)] + Sims(n)) == Exec(Ioctl(s, c).0, Sims(n))
  {
    var all := [Control(c)] + Sims(n);
    assert all[0] == Control(c) && all[1..] == Sims(n);
  }

  /** RESUME lets a thread waiting in the outer loop sweep again: 33 statements later one more
      sweep is done. */
  lemma ResumeSweeps(schedule: seq<Actor>, n: nat)
    requires Exec(Init(), schedule).Some? && n == 33
    requires var s := Exec(Init(), schedule).value; s.pc.Outer? && s.running
    ensures var s := Exec(Init(), schedule).value; var end := Exec(s, [Control(Resume)] + Sims(n));
            end.Some? && end.value.pc.Inner? && !end.value.halt && end.value.sweeps == s.sweeps + 1
  {
    var s := Exec(Init(), schedule).value;
    ExecBuffer(Init(), schedule);
    ExecControl(s, Resume, n);
    ResumedSweep(Ioctl(s, Resume).0, n);
  }

  lemma ResumedSweep(s: Device, n: nat)
    requires BufferInv(s) && s.pc.Outer? && s.running && !s.halt && n == 33
    ensures Exec(s, Sims(n)) == Some(s.(buffer := Swept(s.sweeps + 1, 0), pc := Inner, sweeps := s.sweeps + 1))
  {
    SimsCons(s, n);
    assert SimStep(s) == Some(s.(pc := Inner)) && BufferInv(s.(pc := Inner));
    SweepCompletes(s.(pc := Inner), n - 1);
  }

  // ---- unloading ----

  /** The inner loop tests only is_halt. */
  predicate Inside(pc: Pc) {
    pc.Inner? || InSweep(pc)
  }

  lemma {:induction false} NeverExits(s: Device, n: nat)
    requires BufferInv(s) && Inside(s.pc) && !s.halt && Exec(s, Sims(n)).Some?
    ensures Inside(Exec(s, Sims(n)).value.pc)
    decreases n
  {
    if n > 0 {
      assert Sims(n)[0] == Sim && Sims(n)[1..] == Sims(n - 1);
      BufferStep(s, Sim);
      NeverExits(SimStep(s).value, n - 1);
    }
  }

  /** Statements until an unloaded thread is back at the outer loop's test. */
  function ToOuter(pc: Pc): nat {
    match pc
    case Fill(i) => if i < 15 then 17 - i else 2
    case Seal => 1
    case Outer => 0
    case Inner => 1
    case Bump(i) => if i < 15 then 32 - 2 * i else 0
    case Wrap(i) => if i < 15 then 31 - 2 * i else 0
    case Close => 2
    case Exited => 0
  }

  lemma {:induction false} Exits(s: Device) returns (n: nat)
    requires BufferInv(s) && !s.running && (s.halt || !Inside(s.pc))
    ensures Exec(s, Sims(n)).Some? && Exec(s, Sims(n)).value.pc.Exited?
    decreases ToOuter(s.pc)
  {
    if s.pc.Exited? {
      n := 0;
    } else {
      if s.pc.Bump? {
        assert s.buffer[s.pc.i] == Letter(s.sweeps);
      }
      BufferStep(s, Sim);
      if s.pc.Outer? {
        n := 1;
      } else {
        var m := Exits(SimStep(s).value);
        n := m + 1;
      }
      SimsCons(s, n);
    }
  }

  /** Unloading ends the thread only if it finds it outside its inner loop: unloading clears
      is_halt as well, and the inner loop tests nothing else. */
  lemma UnloadEndsThread(schedule: seq<Actor>)
    requires Exec(Init(), schedule).Some?
    ensures var s := Exec(Init(), schedule).value;
            (exists n: nat :: Exec(s, [Unload] + Sims(n)).Some? && Exec(s, [Unload] + Sims(n)).value.pc.Exited?)
            <==> !Inside(s.pc)
  {
    ExecBuffer(Init(), schedule);
    var s := Exec(Init(), schedule).value;
    var s1 := Next(s, Unload).value;
    forall n: nat ensures Exec(s, [Unload] + Sims(n)) == Exec(s1, Sims(n)) {
      assert ([Unload] + Sims(n))[0] == Unload && ([Unload] + Sims(n))[1..] == Sims(n);
    }
    if Inside(s.pc) {
      forall n: nat | Exec(s1, Sims(n)).Some? ensures !Exec(s1, Sims(n)).value.pc.Exited? {
        NeverExits(s1, n);
      }
    } else {
      var n := Exits(s1);
      assert Exec(s, [Unload] + Sims(n)).Some?;
    }
  }

  /** A HALT after unloading ends it in any case. */
  lemma HaltEndsUnloaded(schedule: seq<Actor>) returns (n: nat)
    requires Exec(Init(), schedule).Some?
    ensures var s := Exec(Init(), schedule).value; var end := Exec(s, [Unload] + ([Control(Halt)] + Sims(n)));
            end.Some? && end.value.pc.Exited?
  {
    ExecBuffer(Init(), schedule);
    var s := Exec(Init(), schedule).value;
    var s2 := Next(Next(s, Unload).value, Control(Halt)).value;
    n := Exits(s2);
    var rest := [Control(Halt)] + Sims(n);
    assert ([Unload] + rest)[0] == Unload && ([Unload] + rest)[1..] == rest;
    assert rest[0] == Control(Halt) && rest[1..] == Sims(n);
  }

  // ---- halting ----

  predicate InSweep(pc: Pc) {
    pc.Bump? || pc.Wrap? || pc.Close?
  }

  /** Neither RESUME nor unloading, which clears is_halt too. */
  predicate KeepsHalt(a: Actor) {
    a != Control(Resume) && !a.Unload?
  }

  /** While halted, a sweep under way may finish and no other begins. */
  lemma {:induction false} HaltedRun(s: Device, schedule: seq<Actor>)
    requires s.halt && Exec(s, schedule).Some?
    requires forall a | a in schedule :: KeepsHalt(a)
    ensures var s' := Exec(s, schedule).value;
            && s'.halt
            && s'.sweeps + (if InSweep(s'.pc) then 1 else 0) <= s.sweeps + (if InSweep(s.pc) then 1 else 0)
    decreases schedule
  {
    if schedule != [] {
      assert KeepsHalt(schedule[0]);
      assert forall a | a in schedule[1..] :: a in schedule;
      HaltedRun(Next(s, schedule[0]).value, schedule[1..]);
    }
  }

  /** After HALT at most one more sweep completes until RESUME, and none if HALT fell between
      sweeps; HALT and RESUME report success and change nothing else. */
  lemma AtMostOneMoreSweep(s: Device, schedule: seq<Actor>)
    requires Exec(s, [Control(Halt)] + schedule).Some?
    requires forall a | a in schedule :: KeepsHalt(a)
    ensures var s' := Exec(s, [Control(Halt)] + schedule).value;
            s'.sweeps <= s.sweeps + 1 && (!InSweep(s.pc) ==> s'.sweeps == s.sweeps)
  {
    var s1 := Next(s, Control(Halt)).value;
    assert ([Control(Halt)] + schedule)[1..] == schedule;
    HaltedRun(s1, schedule);
    SweepsGrow(s1, schedule);
  }

  lemma {:induction false} SweepsGrow(s: Device, schedule: seq<Actor>)
    requires Exec(s, schedule).Some?
    ensures Exec(s, schedule).value.sweeps >= s.sweeps
    decreases schedule
  {
    if schedule != [] {
      SweepsGrow(Next(s, schedule[0]).value, schedule[1..]);
    }
  }

  // ---- reading ----

  /** hardware_device_read at offset off: what is copied, with copy_to_user succeeding; the new
      offset is off plus its length, which is also the return value. */
  function ReadAt(buffer: string, off: nat, len: nat): (data: string)
    requires |buffer| == BUF_LEN
    ensures |data| <= len && (data == "" || off + |data| <= BUF_LEN)
  {
    if off >= BUF_LEN then "" else
    var bytesToRead := BUF_LEN - off;
    buffer[off..off + if len < bytesToRead then len else bytesToRead]
  }

  function Sum(lens: seq<nat>): nat {
    if lens == [] then 0 else Sum(lens[..|lens| - 1]) + lens[|lens| - 1]
  }

  /** Offset after reads of the given lengths on a freshly opened file, whatever the buffer
      holds at each of them. */
  function OffsetAfter(buffers: seq<string>, lens: seq<nat>): nat
    requires |buffers| == |lens| && forall k | 0 <= k < |buffers| :: |buffers[k]| == BUF_LEN
  {
    if lens == [] then 0 else
    var n := |lens| - 1;
    var off := OffsetAfter(buffers[..n], lens[..n]);
    off + |ReadAt(buffers[n], off, lens[n])|
  }

  /** Everything those reads return, in order. */
  function ReadAll(buffers: seq<string>, lens: seq<nat>): string
    requires |buffers| == |lens| && forall k | 0 <= k < |buffers| :: |buffers[k]| == BUF_LEN
  {
    if lens == [] then "" else
    var n := |lens| - 1;
    ReadAll(buffers[..n], lens[..n]) + ReadAt(buffers[n], OffsetAfter(buffers[..n], lens[..n]), lens[n])
  }

  /** Under any changes of the buffer, the bytes returned and the offset are the sum of the
      requested lengths, cut off at 16. */
  lemma {:induction false} ReadTotals(buffers: seq<string>, lens: seq<nat>)
    requires |buffers| == |lens| && forall k | 0 <= k < |buffers| :: |buffers[k]| == BUF_LEN
    ensures OffsetAfter(buffers, lens) == Min(16, Sum(lens)) == |ReadAll(buffers, lens)|
  {
    if lens != [] {
      ReadTotals(buffers[..|lens| - 1], lens[..|lens| - 1]);
    }
  }

  /** If the buffer is the same at each of them, the reads return that prefix of it. */
  lemma {:induction false} ReadsAreAPrefix(buffer: string, buffers: seq<string>, lens: seq<nat>)
    requires |buffer| == BUF_LEN && |buffers| == |lens| && forall k | 0 <= k < |buffers| :: buffers[k] == buffer
    ensures ReadAll(buffers, lens) == buffer[..Min(16, Sum(lens))]
  {
    if lens != [] {
      var n := |lens| - 1;
      ReadsAreAPrefix(buffer, buffers[..n], lens[..n]);
      ReadTotals(buffers[..n], lens[..n]);
      var off := OffsetAfter(buffers[..n], lens[..n]);
      assert buffer[..off] + ReadAt(buffer, off, lens[n]) == buffer[..Min(BUF_LEN, off + lens[n])];
    }
  }

  // ---- the driver in place ----

  class Driver {
    const buffer: array<char>
    var isRunning: bool
    var isHalt: bool

    constructor ()
      ensures fresh(buffer) && buffer[..] == Init().buffer && isRunning && !isHalt
    {
      buffer := new char[BUF_LEN](_ => '\0');
      isRunning, isHalt := true, false;
      new;
      assert buffer[..] == Init().buffer;
    }

    /** The opening loop of hardwareSim. */
    method FillBuffer()
      requires buffer.Length == BUF_LEN
      modifies buffer
      ensures buffer[..] == Swept(0, 0)
    {
      for i := 0 to BUF_LEN - 1
        invariant forall j | 0 <= j < i :: buffer[j] == 'a'
      {
        buffer[i] := 'a';
      }
      buffer[BUF_LEN - 1] := '\0';
      assert buffer[..] == Swept(0, 0);
    }

    /** One sweep of hardwareSim with no halt in between: every letter becomes the next. */
    method Sweep(ghost n: nat)
      requires buffer.Length == BUF_LEN && buffer[..] == Swept(n, 0)
      modifies buffer
      ensures buffer[..] == Swept(n + 1, 0)
    {
      for i := 0 to BUF_LEN - 1
        invariant buffer[..] == Swept(n, i)
      {
        NextLetter(n);
        assert buffer[i] == Swept(n, i)[i];
        buffer[i] := buffer[i] + 1 as char;
        if buffer[i] > 'z' {
          buffer[i] := 'a';
        }
        assert buffer[..] == Swept(n, i + 1);
      }
      SweepDone(n);
      assert buffer[BUF_LEN - 1] == Swept(n, CELLS)[CELLS];
      buffer[BUF_LEN - 1] := '\0';
      assert buffer[..] == Swept(n, CELLS);
    }

    /** hardware_device_read; copied says whether copy_to_user succeeds. */
    method Read(off: nat, len: nat, copied: bool) returns (r: int, data: string, newOff: nat)
      requires buffer.Length == BUF_LEN
      ensures off < 16 && !copied ==> r == -14 && data == "" && newOff == off
      ensures off >= 16 || copied ==> data == ReadAt(buffer[..], off, len) && r == |data| && newOff == off + |data|
    {
      if off >= BUF_LEN {
        return 0, "", off;
      }
      var bytesToRead := BUF_LEN - off;
      if len < bytesToRead {
        bytesToRead := len;
      }
      if !copied {
        return -EFAULT, "", off;
      }
      data := buffer[off..off + bytesToRead];
      newOff := off + bytesToRead;
      r := bytesToRead;
    }

    /** hardware_device_ioctl */
    method Ioctl(c: Command) returns (r: int)
      modifies this`isHalt
      ensures r == (if c.Other? then -22 else 0)
      ensures isHalt == if c.Other? then old(isHalt) else c.Halt?
      ensures forall s: Device | s.halt == old(isHalt) :: Next(s, Control(c)) == Some(s.(halt := isHalt))
    {
      match c
      case Halt =>
        isHalt := true;
        return 0;
      case Resume =>
        isHalt := false;
        return 0;
      case Other(_) =>
        return -EINVAL;
    }
  }
}
