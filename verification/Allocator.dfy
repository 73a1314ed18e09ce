/**
 The allocation-measurement window as a step machine over threads. Every load, store, compare-exchange and counter
 update of the shared atomics is one step, and steps of different threads interleave freely (sequentially consistent).
 */
module Allocator {
  import opened Common

  const INACTIVE: nat := 0
  const INITIALIZING: nat := 1
  const FIRST_TOKEN: nat := 2
  const TOKENS: nat := 0x1_0000_0000_0000_0000

  // ---------------------------------------------------------------- what is counted

  datatype Op = Alloc(bytes: nat) | Dealloc(bytes: nat) | Realloc(from: nat, to: nat) {
    function Delta(): int {
      match this
      case Alloc(n) => n
      case Dealloc(n) => 0 - n as int
      case Realloc(from, to) => to - from
    }
  }

  datatype Counters = Counters(allocCalls: nat, allocBytes: nat, freeCalls: nat, freeBytes: nat, live: int, peak: int)

  const ZEROED := Counters(0, 0, 0, 0, 0, 0)

  /** The counters after one whole operation. */
  function Record(c: Counters, op: Op): Counters {
    var live := c.live + op.Delta();
    var peak := if live > c.peak then live else c.peak;
    match op
    case Alloc(n) => c.(allocCalls := c.allocCalls + 1, allocBytes := c.allocBytes + n, live := live, peak := peak)
    case Dealloc(n) => c.(freeCalls := c.freeCalls + 1, freeBytes := c.freeBytes + n, live := live, peak := peak)
    case Realloc(from, to) =>
      Counters(c.allocCalls + 1, c.allocBytes + to, c.freeCalls + 1, c.freeBytes + from, live, peak)
  }

  /** What a log of operations amounts to. */
  function Tally(log: seq<Op>): Counters {
    if log == [] then ZEROED else Record(Tally(log[..|log| - 1]), log[|log| - 1])
  }

  function Net(log: seq<Op>): int {
    if log == [] then 0 else Net(log[..|log| - 1]) + log[|log| - 1].Delta()
  }

  /** Live is allocated minus freed, and the peak is the largest net amount at any point, never below zero. */
  lemma {:induction false} TallyMeaning(log: seq<Op>)
    ensures var c := Tally(log);
            && c.live == c.allocBytes - c.freeBytes == Net(log)
            && c.peak >= 0
            && (forall k :: 0 <= k <= |log| ==> Net(log[..k]) <= c.peak)
            && (exists k :: 0 <= k <= |log| && Net(log[..k]) == c.peak)
  {
    if log == [] {
      assert Net(log[..0]) == 0;
    } else {
      var n := |log| - 1;
      var before := log[..n];
      TallyMeaning(before);
      assert log[..|log|] == log;
      forall k | 0 <= k <= n
        ensures log[..k] == before[..k]
      {
      }
      if Tally(log).peak == Tally(before).peak {
        var k :| 0 <= k <= n && Net(before[..k]) == Tally(before).peak;
        assert Net(log[..k]) == Tally(log).peak;
      } else {
        assert Net(log[..|log|]) == Tally(log).peak;
      }
    }
  }

  function CountIf(log: seq<Op>, allocates: bool): nat {
    if log == [] then 0
    else (if log[0].Realloc? || log[0].Alloc? == allocates then 1 else 0) + CountIf(log[1..], allocates)
  }

  /** Bytes an operation takes from the system allocator, or gives back. */
  function Bytes(op: Op, allocates: bool): nat {
    match op
    case Alloc(n) => if allocates then n else 0
    case Dealloc(n) => if allocates then 0 else n
    case Realloc(from, to) => if allocates then to else from
  }

  function SumBytes(log: seq<Op>, allocates: bool): nat {
    if log == [] then 0 else Bytes(log[0], allocates) + SumBytes(log[1..], allocates)
  }

  lemma {:induction false} CountsSnoc(log: seq<Op>, op: Op, allocates: bool)
    ensures CountIf(log + [op], allocates) == CountIf(log, allocates) + CountIf([op], allocates)
    ensures SumBytes(log + [op], allocates) == SumBytes(log, allocates) + Bytes(op, allocates)
  {
    if log == [] {
      assert log + [op] == [op];
    } else {
      CountsSnoc(log[1..], op, allocates);
      assert (log + [op])[1..] == log[1..] + [op];
    }
  }

  /** Calls and bytes: a reallocation counts on both sides, with its new and its old size. */
  lemma {:induction false} TallyCounts(log: seq<Op>)
    ensures var c := Tally(log);
            && c.allocCalls == CountIf(log, true) && c.freeCalls == CountIf(log, false)
            && c.allocBytes == SumBytes(log, true) && c.freeBytes == SumBytes(log, false)
  {
    if log != [] {
      var n := |log| - 1;
      TallyCounts(log[..n]);
      assert log[..n] + [log[n]] == log;
      CountsSnoc(log[..n], log[n], true);
      CountsSnoc(log[..n], log[n], false);
    }
  }

  datatype Snapshot = Snapshot(allocCalls: nat, allocBytes: nat, freeCalls: nat, freeBytes: nat, live: int, peak: nat)

  function SnapshotOf(c: Counters): Snapshot {
    Snapshot(c.allocCalls, c.allocBytes, c.freeCalls, c.freeBytes, c.live, if c.peak > 0 then c.peak else 0)
  }

  /** A snapshot in progress takes its `k`-th field from the counters. */
  function ReadField(s: Snapshot, k: nat, c: Counters): Snapshot {
    match k
    case 0 => s.(allocCalls := c.allocCalls)
    case 1 => s.(allocBytes := c.allocBytes)
    case 2 => s.(freeCalls := c.freeCalls)
    case 3 => s.(freeBytes := c.freeBytes)
    case 4 => s.(live := c.live)
    case _ => s.(peak := if c.peak > 0 then c.peak else 0)
  }

  const BLANK := Snapshot(0, 0, 0, 0, 0, 0)

  /** The first `k` fields of a snapshot are those of the counters. */
  predicate ReadSoFar(s: Snapshot, k: nat, c: Counters) {
    && (k > 0 ==> s.allocCalls == c.allocCalls)
    && (k > 1 ==> s.allocBytes == c.allocBytes)
    && (k > 2 ==> s.freeCalls == c.freeCalls)
    && (k > 3 ==> s.freeBytes == c.freeBytes)
    && (k > 4 ==> s.live == c.live)
    && (k > 5 ==> s == SnapshotOf(c))
  }

  /** The `k`-th counter is cleared. */
  function ResetField(c: Counters, k: nat): Counters {
    match k
    case 0 => c.(allocCalls := 0)
    case 1 => c.(allocBytes := 0)
    case 2 => c.(freeCalls := 0)
    case 3 => c.(freeBytes := 0)
    case 4 => c.(live := 0)
    case _ => c.(peak := 0)
  }

  predicate ResetSoFar(c: Counters, k: nat) {
    && (k > 0 ==> c.allocCalls == 0)
    && (k > 1 ==> c.allocBytes == 0)
    && (k > 2 ==> c.freeCalls == 0)
    && (k > 3 ==> c.freeBytes == 0)
    && (k > 4 ==> c.live == 0)
    && (k > 5 ==> c == ZEROED)
  }

  /** Counter updates an operation makes before the live count. */
  function Stages(op: Op): nat {
    if op.Realloc? then 4 else 2
  }

  function AddField(op: Op, k: nat, c: Counters): Counters {
    match op
    case Alloc(n) => if k == 0 then c.(allocCalls := c.allocCalls + 1) else c.(allocBytes := c.allocBytes + n)
    case Dealloc(n) => if k == 0 then c.(freeCalls := c.freeCalls + 1) else c.(freeBytes := c.freeBytes + n)
    case Realloc(from, to) =>
      if k == 0 then c.(allocCalls := c.allocCalls + 1)
      else if k == 1 then c.(allocBytes := c.allocBytes + to)
      else if k == 2 then c.(freeCalls := c.freeCalls + 1)
      else c.(freeBytes := c.freeBytes + from)
  }

  function AddedSoFar(op: Op, k: nat, c: Counters): Counters {
    if k == 0 then c else AddField(op, k - 1, AddedSoFar(op, k - 1, c))
  }

  lemma AddedAll(op: Op, c: Counters)
    ensures var added := AddedSoFar(op, Stages(op), c).(live := c.live + op.Delta());
            Record(c, op) == added.(peak := if added.live > c.peak then added.live else c.peak)
    ensures AddedSoFar(op, Stages(op), c).live == c.live && AddedSoFar(op, Stages(op), c).peak == c.peak
  {
    assert AddedSoFar(op, 1, c) == AddField(op, 0, AddedSoFar(op, 0, c));
    assert AddedSoFar(op, 2, c) == AddField(op, 1, AddedSoFar(op, 1, c));
    if op.Realloc? {
      assert AddedSoFar(op, 3, c) == AddField(op, 2, AddedSoFar(op, 2, c));
      assert AddedSoFar(op, 4, c) == AddField(op, 3, AddedSoFar(op, 3, c));
    }
  }

  // ---------------------------------------------------------------- threads

  datatype Window = Window(token: nat, paused: bool)

  /** Where a thread is inside one of the module's functions. */
  datatype Pc =
    | Idle
    | Reset(k: nat)
    | TakeToken
    | SetOwner(token: nat)
    | Publish(token: nat)
    | InSystem(seen: Option<nat>, op: Op)
    | Recheck(seen: Option<nat>, op: Op, ok: bool)
    | Adding(op: Op, k: nat)
    | PeakRead(live: int)
    | PeakLoop(live: int, peak: int)
    | PauseOwner
    | ResumeCas
    | CheckOwner
    | CheckRead(k: nat, snap: Snapshot)
    | StopOwner(log: seq<Op>, since: nat)
    | StopRead(k: nat, snap: Snapshot, log: seq<Op>, since: nat)
    | DropOwner

  /** A snapshot that was handed out, and the log of the window at that moment. */
  datatype Report = Report(snap: Snapshot, log: seq<Op>, undisturbed: bool)

  datatype Thread = Thread(owner: nat, window: Option<Window>, pc: Pc, lost: bool, checked: Option<Report>,
                           stopped: Option<Report>)

  const FRESH := Thread(INACTIVE, None, Idle, false, None, None)

  /** `log` is history: what the window's thread has done, by the program's own account. `starts` counts claims. */
  datatype Shared = Shared(active: nat, next: nat, c: Counters, log: seq<Op>, starts: nat)

  datatype Step = Begin(action: Action) | Continue(ok: bool)

  datatype Action = Start | Run(op: Op) | Pause | Resume | Checkpoint | Stop | Drop

  datatype Moved = Moved(t: Thread, g: Shared)

  function Expected(w: Window): nat {
    if w.paused then INITIALIZING else w.token
  }

  /** The first atomic step of a call. Methods of a window need the window. */
  function Enter(t: Thread, g: Shared, action: Action): Moved {
    match action
    case Start =>
      if g.active == INACTIVE then
        Moved(t.(pc := Reset(0)), g.(active := INITIALIZING, log := [], starts := g.starts + 1))
      else Moved(t, g)
    case Run(op) =>
      var seen := if t.owner >= FIRST_TOKEN && g.active == t.owner then Some(t.owner) else None;
      Moved(t.(pc := InSystem(seen, op)), g)
    case _ => if t.window.None? then Moved(t, g) else EnterWindow(t, g, action)
  }

  function EnterWindow(t: Thread, g: Shared, action: Action): Moved
    requires t.window.Some?
  {
    var w := t.window.value;
    match action
    case Pause =>
      if w.paused then Moved(t, g)
      else if g.active == w.token then Moved(t.(pc := PauseOwner), g.(active := INITIALIZING))
      else Moved(t.(lost := true), g)
    case Resume => if !w.paused then Moved(t, g) else Moved(t.(owner := w.token, pc := ResumeCas), g)
    case Checkpoint =>
      if g.active == Expected(w) then Moved(t.(pc := CheckOwner), g) else Moved(t.(lost := true), g)
    case Stop =>
      if g.active == Expected(w) then Moved(t.(window := None, pc := StopOwner(g.log, g.starts)), g.(active := INACTIVE))
      else Moved(t.(lost := true), g)
    case Drop =>
      Moved(t.(window := None, pc := DropOwner), if g.active == Expected(w) then g.(active := INACTIVE) else g)
    case _ => Moved(t, g)
  }

  /** The next atomic step of a call under way; `ok` is what the system allocator or a weak compare-exchange answers. */
  function Proceed(t: Thread, g: Shared, ok: bool): Moved {
    match t.pc
    case Idle => Moved(t, g)
    case Reset(k) => Moved(t.(pc := if k < 5 then Reset(k + 1) else TakeToken), g.(c := ResetField(g.c, k)))
    case TakeToken =>
      Moved(if g.next >= FIRST_TOKEN then t.(pc := SetOwner(g.next)) else t, g.(next := (g.next + 1) % TOKENS))
    case SetOwner(token) => Moved(t.(owner := token, pc := Publish(token)), g)
    case Publish(token) => Moved(t.(window := Some(Window(token, false)), pc := Idle), g.(active := token))
    case InSystem(seen, op) =>
      var counts := ok && t.window.Some? && !t.window.value.paused;
      Moved(t.(pc := Recheck(seen, op, ok)), if counts then g.(log := g.log + [op]) else g)
    case Recheck(seen, op, done) =>
      Moved(t.(pc := if done && seen.Some? && g.active == seen.value then Adding(op, 0) else Idle), g)
    case Adding(op, k) =>
      if k < Stages(op) then Moved(t.(pc := Adding(op, k + 1)), g.(c := AddField(op, k, g.c)))
      else Moved(t.(pc := PeakRead(g.c.live + op.Delta())), g.(c := g.c.(live := g.c.live + op.Delta())))
    case PeakRead(live) => Moved(t.(pc := PeakLoop(live, g.c.peak)), g)
    case PeakLoop(live, peak) =>
      if live <= peak then Moved(t.(pc := Idle), g)
      else if g.c.peak == peak && ok then Moved(t.(pc := Idle), g.(c := g.c.(peak := live)))
      else Moved(t.(pc := PeakLoop(live, g.c.peak)), g)
    case _ => ProceedWindow(t, g)
  }

  function ProceedWindow(t: Thread, g: Shared): Moved {
    match t.pc
    case PauseOwner =>
      Moved(t.(owner := INITIALIZING,
               window := if t.window.Some? then Some(t.window.value.(paused := true)) else None,
               pc := Idle), g)
    case ResumeCas =>
      if t.window.Some? && g.active == INITIALIZING
      then Moved(t.(window := Some(t.window.value.(paused := false)), pc := Idle), g.(active := t.window.value.token))
      else Moved(t.(owner := INITIALIZING, pc := Idle, lost := true), g)
    case CheckOwner =>
      if t.window.Some? && t.owner == Expected(t.window.value) then Moved(t.(pc := CheckRead(0, BLANK)), g)
      else Moved(t.(pc := Idle, lost := true), g)
    case CheckRead(k, snap) =>
      var now := ReadField(snap, k, g.c);
      if k < 5 then Moved(t.(pc := CheckRead(k + 1, now)), g)
      else Moved(t.(pc := Idle, checked := Some(Report(now, g.log, true))), g)
    case StopOwner(log, since) => Moved(t.(owner := INACTIVE, pc := StopRead(0, BLANK, log, since)), g)
    case StopRead(k, snap, log, since) =>
      var now := ReadField(snap, k, g.c);
      if k < 5 then Moved(t.(pc := StopRead(k + 1, now, log, since)), g)
      else Moved(t.(pc := Idle, stopped := Some(Report(now, log, since == g.starts))), g)
    case DropOwner => Moved(t.(owner := INACTIVE, pc := Idle), g)
    case _ => Moved(t, g)
  }

  predicate CanStep(t: Thread, step: Step) {
    if step.Begin? then t.pc.Idle? else !t.pc.Idle?
  }

  function StepThread(t: Thread, g: Shared, step: Step): Moved
    requires CanStep(t, step)
  {
    if step.Begin? then Enter(t, g, step.action) else Proceed(t, g, step.ok)
  }

  // ---------------------------------------------------------------- the whole machine

  datatype State = State(threads: seq<Thread>, g: Shared)

  function Next(s: State, i: nat, step: Step): State
    requires i < |s.threads| && CanStep(s.threads[i], step)
  {
    var m := StepThread(s.threads[i], s.g, step);
    State(s.threads[i := m.t], m.g)
  }

  /** Any number of fresh threads; the counters may hold anything. */
  ghost predicate Initial(s: State) {
    s.g.active == INACTIVE && s.g.starts == 0 && forall i :: 0 <= i < |s.threads| ==> s.threads[i] == FRESH
  }

  predicate StepsTo(s: State, t: State, i: nat, step: Step) {
    i < |s.threads| && CanStep(s.threads[i], step) && t == Next(s, i, step)
  }

  ghost predicate Follows(s: State, t: State) {
    exists i, step :: StepsTo(s, t, i, step)
  }

  ghost predicate IsRun(run: seq<State>) {
    |run| > 0 && Initial(run[0]) && forall k :: 0 < k < |run| ==> Follows(run[k - 1], run[k])
  }
}
