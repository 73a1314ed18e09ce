/** What every interleaving of the measurement window keeps: one window, never lost, counted exactly by its own thread. */
module AllocatorRuns {
  import opened Common
  import opened Allocator

  predicate Starting(pc: Pc) {
    pc.Reset? || pc.TakeToken? || pc.SetOwner? || pc.Publish?
  }

  /** The thread has the process-wide claim: it is starting, or has a window it has not released. */
  predicate Claims(t: Thread) {
    Starting(t.pc) || t.window.Some?
  }

  predicate Counting(pc: Pc) {
    pc.Adding? || pc.PeakRead? || pc.PeakLoop?
  }

  predicate Unpaused(t: Thread) {
    t.window.Some? && !t.window.value.paused
  }

  /** The value the shared word has while this thread has the claim. */
  function ClaimWord(t: Thread): nat {
    if Starting(t.pc) || t.pc.PauseOwner? || !Unpaused(t) then INITIALIZING else t.window.value.token
  }

  /** Between calls and inside allocator calls the thread-local owner cell says whether the thread counts. */
  predicate OwnerHolds(t: Thread) {
    match t.pc
    case Reset(_) => t.owner == INACTIVE && t.window.None?
    case TakeToken => t.owner == INACTIVE && t.window.None?
    case SetOwner(token) => t.owner == INACTIVE && t.window.None? && token >= FIRST_TOKEN
    case Publish(token) => t.owner == token >= FIRST_TOKEN && t.window.None?
    case PauseOwner => Unpaused(t) && t.owner == t.window.value.token >= FIRST_TOKEN
    case ResumeCas => t.window.Some? && t.window.value.paused && t.owner == t.window.value.token >= FIRST_TOKEN
    case StopOwner(_, _) => t.window.None?
    case StopRead(_, _, _, _) => t.window.None? && t.owner == INACTIVE
    case DropOwner => t.window.None?
    case _ =>
      if t.window.None? then t.owner == INACTIVE
      else t.window.value.token >= FIRST_TOKEN && t.owner == Expected(t.window.value)
  }

  /** An allocator call saw the window's token exactly when its thread counts; only such a call updates counters. */
  predicate CallHolds(t: Thread) {
    match t.pc
    case InSystem(seen, _) => seen == if Unpaused(t) then Some(t.window.value.token) else None
    case Recheck(seen, _, _) => seen == if Unpaused(t) then Some(t.window.value.token) else None
    case Adding(op, k) => Unpaused(t) && k <= Stages(op)
    case PeakRead(_) => Unpaused(t)
    case PeakLoop(_, _) => Unpaused(t)
    case Reset(k) => k <= 5
    case CheckOwner => t.window.Some?
    case CheckRead(k, _) => k <= 5 && t.window.Some?
    case StopRead(k, _, _, _) => k <= 5
    case _ => true
  }

  /** The log without the operation being recorded. */
  function Earlier(log: seq<Op>): seq<Op> {
    if log == [] then [] else log[..|log| - 1]
  }

  predicate LastIs(log: seq<Op>, op: Op) {
    log != [] && log[|log| - 1] == op
  }

  /** What the counters are while this thread has the claim. */
  predicate CountersHold(t: Thread, g: Shared) {
    match t.pc
    case Reset(k) => g.log == [] && ResetSoFar(g.c, k)
    case TakeToken => g.log == [] && g.c == ZEROED
    case SetOwner(_) => g.log == [] && g.c == ZEROED
    case Publish(_) => g.log == [] && g.c == ZEROED
    case Recheck(_, op, ok) =>
      if ok && Unpaused(t) then LastIs(g.log, op) && g.c == Tally(Earlier(g.log)) else g.c == Tally(g.log)
    case Adding(op, k) => LastIs(g.log, op) && g.c == AddedSoFar(op, k, Tally(Earlier(g.log)))
    case PeakRead(live) => g.log != [] && g.c == Tally(g.log).(peak := Tally(Earlier(g.log)).peak) && live == g.c.live
    case PeakLoop(live, peak) =>
      g.log != [] && g.c == Tally(g.log).(peak := Tally(Earlier(g.log)).peak) && live == g.c.live && peak == g.c.peak
    case CheckRead(k, snap) => g.c == Tally(g.log) && ReadSoFar(snap, k, g.c)
    case _ => g.c == Tally(g.log)
  }

  /** While nobody has claimed since the release, the counters are still those of the released window. */
  predicate ReleaseHolds(t: Thread, g: Shared) {
    match t.pc
    case StopOwner(log, since) => since <= g.starts && (since == g.starts ==> g.active == INACTIVE && g.c == Tally(log))
    case StopRead(k, snap, log, since) =>
      since <= g.starts && (since == g.starts ==> g.active == INACTIVE && g.c == Tally(log) && ReadSoFar(snap, k, g.c))
    case _ => true
  }

  predicate ReportsHold(t: Thread) {
    && (t.checked.Some? ==> t.checked.value.snap == SnapshotOf(Tally(t.checked.value.log)))
    && (t.stopped.Some? && t.stopped.value.undisturbed ==> t.stopped.value.snap == SnapshotOf(Tally(t.stopped.value.log)))
  }

  predicate ThreadHolds(t: Thread, g: Shared) {
    && !t.lost && OwnerHolds(t) && CallHolds(t) && ReportsHold(t) && ReleaseHolds(t, g)
    && (Claims(t) ==> g.active == ClaimWord(t) && CountersHold(t, g))
  }

  // ---------------------------------------------------------------- the stepping thread

  lemma EnterKeepsThread(t: Thread, g: Shared, action: Action)
    requires ThreadHolds(t, g) && t.pc.Idle?
    ensures var m := Enter(t, g, action); ThreadHolds(m.t, m.g)
  {
  }

  lemma ResetGrows(c: Counters, k: nat)
    requires ResetSoFar(c, k) && k <= 5
    ensures ResetSoFar(ResetField(c, k), k + 1)
  {
  }

  lemma ReadGrows(s: Snapshot, k: nat, c: Counters)
    requires ReadSoFar(s, k, c) && k <= 5
    ensures ReadSoFar(ReadField(s, k, c), k + 1, c)
  {
  }

  lemma ProceedStart(t: Thread, g: Shared, ok: bool)
    requires ThreadHolds(t, g) && Starting(t.pc)
    ensures var m := Proceed(t, g, ok); ThreadHolds(m.t, m.g)
  {
    if t.pc.Reset? {
      ResetGrows(g.c, t.pc.k);
      hide ResetSoFar, ResetField;
      if t.pc.k == 5 {
        AllReset(ResetField(g.c, 5));
      }
    }
  }

  lemma AllReset(c: Counters)
    requires ResetSoFar(c, 6)
    ensures c == ZEROED
  {
  }

  lemma Extended(log: seq<Op>, op: Op)
    ensures Earlier(log + [op]) == log && LastIs(log + [op], op)
    ensures Tally(log + [op]) == Record(Tally(log), op)
  {
    assert (log + [op])[..|log|] == log;
  }

  lemma ProceedSystem(t: Thread, g: Shared, ok: bool)
    requires ThreadHolds(t, g) && t.pc.InSystem?
    ensures var m := Proceed(t, g, ok); ThreadHolds(m.t, m.g)
  {
    Extended(g.log, t.pc.op);
    hide Tally, Record, Earlier, LastIs;
  }

  lemma ProceedRecheck(t: Thread, g: Shared, ok: bool)
    requires ThreadHolds(t, g) && t.pc.Recheck?
    ensures var m := Proceed(t, g, ok); ThreadHolds(m.t, m.g)
  {
    hide Tally, Record, Earlier, LastIs;
  }

  lemma ProceedCheckedCall(t: Thread, g: Shared, ok: bool)
    requires ThreadHolds(t, g) && (t.pc.InSystem? || t.pc.Recheck?)
    ensures var m := Proceed(t, g, ok); ThreadHolds(m.t, m.g)
  {
    hide ThreadHolds, Proceed;
    if t.pc.InSystem? {
      ProceedSystem(t, g, ok);
    } else {
      ProceedRecheck(t, g, ok);
    }
  }

  lemma ProceedAdding(t: Thread, g: Shared, ok: bool)
    requires ThreadHolds(t, g) && t.pc.Adding?
    ensures var m := Proceed(t, g, ok); ThreadHolds(m.t, m.g)
  {
    var op := t.pc.op;
    var before := Tally(Earlier(g.log));
    AddedAll(op, before);
    assert Tally(g.log) == Record(before, op);
    hide Tally, Record, Stages;
    if t.pc.k < Stages(op) {
      assert AddedSoFar(op, t.pc.k + 1, before) == AddField(op, t.pc.k, AddedSoFar(op, t.pc.k, before));
    }
  }

  lemma PeakFolds(log: seq<Op>)
    requires log != []
    ensures var (was, now) := (Tally(Earlier(log)), Tally(log));
            now.peak == if now.live > was.peak then now.live else was.peak
  {
  }

  lemma ProceedPeak(t: Thread, g: Shared, ok: bool)
    requires ThreadHolds(t, g) && (t.pc.PeakRead? || t.pc.PeakLoop?)
    ensures var m := Proceed(t, g, ok); ThreadHolds(m.t, m.g)
  {
    PeakFolds(g.log);
    hide Tally, Earlier;
  }

  lemma ProceedOnWindow(t: Thread, g: Shared)
    requires ThreadHolds(t, g) && !Starting(t.pc) && !Counting(t.pc)
    ensures var m := ProceedWindow(t, g); ThreadHolds(m.t, m.g)
  {
    if t.pc.CheckRead? {
      ReadGrows(t.pc.snap, t.pc.k, g.c);
    } else if t.pc.StopRead? && t.pc.since == g.starts {
      ReadGrows(t.pc.snap, t.pc.k, g.c);
    }
    hide Tally, ReadField;
  }

  lemma StepKeepsThread(t: Thread, g: Shared, step: Step)
    requires ThreadHolds(t, g) && CanStep(t, step)
    ensures var m := StepThread(t, g, step); ThreadHolds(m.t, m.g)
  {
    if step.Begin? {
      EnterKeepsThread(t, g, step.action);
    } else if Starting(t.pc) {
      ProceedStart(t, g, step.ok);
    } else if t.pc.InSystem? || t.pc.Recheck? {
      ProceedCheckedCall(t, g, step.ok);
    } else if t.pc.Adding? {
      ProceedAdding(t, g, step.ok);
    } else if t.pc.PeakRead? || t.pc.PeakLoop? {
      ProceedPeak(t, g, step.ok);
    } else {
      ProceedOnWindow(t, g);
      hide ThreadHolds, ProceedWindow;
    }
  }

  // ---------------------------------------------------------------- the other threads

  /** A thread without the claim changes nothing shared, except by claiming when nobody has it. */
  lemma OutsiderStep(t: Thread, g: Shared, step: Step)
    requires ThreadHolds(t, g) && CanStep(t, step) && !Claims(t)
    ensures var m := StepThread(t, g, step);
            || m.g == g
            || (g.active == INACTIVE && Starting(m.t.pc)
                && m.g == g.(active := INITIALIZING, log := [], starts := g.starts + 1))
  {
  }

  /** A claiming thread stays the only one to claim, and never touches the claim count. */
  lemma ClaimantStep(t: Thread, g: Shared, step: Step)
    requires ThreadHolds(t, g) && CanStep(t, step) && Claims(t)
    ensures StepThread(t, g, step).g.starts == g.starts && g.active != INACTIVE
  {
  }

  ghost predicate Inv(s: State) {
    && (forall i :: 0 <= i < |s.threads| ==> ThreadHolds(s.threads[i], s.g))
    && (forall i, j :: 0 <= i < j < |s.threads| ==> !(Claims(s.threads[i]) && Claims(s.threads[j])))
  }

  lemma ClaimedIsNonzero(t: Thread, g: Shared)
    requires ThreadHolds(t, g) && Claims(t)
    ensures g.active != INACTIVE
  {
  }

  /** The step of one thread leaves what holds of another. */
  lemma OtherKeeps(t: Thread, g: Shared, step: Step, u: Thread)
    requires ThreadHolds(t, g) && CanStep(t, step) && ThreadHolds(u, g) && !(Claims(t) && Claims(u))
    ensures var m := StepThread(t, g, step);
            ThreadHolds(u, m.g) && !(Claims(m.t) && Claims(u))
  {
    if Claims(t) {
      ClaimantStep(t, g, step);
    } else {
      OutsiderStep(t, g, step);
      if Claims(u) {
        ClaimedIsNonzero(u, g);
        OutsiderStays(t, g, step);
      }
    }
  }

  lemma OutsiderStays(t: Thread, g: Shared, step: Step)
    requires ThreadHolds(t, g) && CanStep(t, step) && !Claims(t) && g.active != INACTIVE
    ensures !Claims(StepThread(t, g, step).t)
  {
  }

  lemma StepKeepsInv(s: State, i: nat, step: Step)
    requires Inv(s) && i < |s.threads| && CanStep(s.threads[i], step)
    ensures Inv(Next(s, i, step))
  {
    hide ThreadHolds, Claims, StepThread;
    var t := Next(s, i, step);
    StepKeepsThread(s.threads[i], s.g, step);
    forall j | 0 <= j < |t.threads|
      ensures ThreadHolds(t.threads[j], t.g)
      ensures j != i ==> !(Claims(t.threads[i]) && Claims(t.threads[j]))
    {
      if j != i {
        OtherKeeps(s.threads[i], s.g, step, s.threads[j]);
      }
    }
  }

  lemma {:induction false} RunKeepsInv(run: seq<State>, k: nat)
    requires IsRun(run) && k < |run|
    ensures Inv(run[k])
  {
    if k > 0 {
      hide Inv;
      RunKeepsInv(run, k - 1);
      assert Follows(run[k - 1], run[k]);
      var i, step :| StepsTo(run[k - 1], run[k], i, step);
      StepKeepsInv(run[k - 1], i, step);
    }
  }

  // ---------------------------------------------------------------- what runs guarantee

  /** In no interleaving are two windows open, or one open while another thread is starting one. */
  lemma OneWindow(run: seq<State>, k: nat, i: nat, j: nat)
    requires IsRun(run) && k < |run| && i < j < |run[k].threads|
    ensures !(Claims(run[k].threads[i]) && Claims(run[k].threads[j]))
  {
    RunKeepsInv(run, k);
  }

  /** No call on a window ever finds that it was lost. */
  lemma NeverLost(run: seq<State>, k: nat, i: nat)
    requires IsRun(run) && k < |run| && i < |run[k].threads|
    ensures !run[k].threads[i].lost
  {
    RunKeepsInv(run, k);
  }

  /** While a window is open, the counters change only by its own thread, and only while it is not paused. */
  lemma OnlyOwnerCounts(run: seq<State>, k: nat, i: nat, step: Step, j: nat)
    requires IsRun(run) && k < |run| && i < |run[k].threads| && CanStep(run[k].threads[i], step)
    requires j < |run[k].threads| && run[k].threads[j].window.Some?
    ensures Next(run[k], i, step).g.c != run[k].g.c ==> i == j && Unpaused(run[k].threads[j])
  {
    RunKeepsInv(run, k);
    var t, u, g := run[k].threads[i], run[k].threads[j], run[k].g;
    if i != j {
      assert !(Claims(t) && Claims(u)) by {
        if i < j {
          assert 0 <= i < j < |run[k].threads|;
        } else {
          assert 0 <= j < i < |run[k].threads|;
        }
      }
      OutsiderStep(t, g, step);
    } else {
      WindowStep(t, g, step);
    }
  }

  lemma WindowStep(t: Thread, g: Shared, step: Step)
    requires ThreadHolds(t, g) && CanStep(t, step) && t.window.Some?
    ensures StepThread(t, g, step).g.c != g.c ==> Unpaused(t)
  {
  }

  /** Every checkpoint ever taken is exactly the window's log at that moment. */
  lemma CheckpointsExact(run: seq<State>, k: nat, i: nat)
    requires IsRun(run) && k < |run| && i < |run[k].threads| && run[k].threads[i].checked.Some?
    ensures var report := run[k].threads[i].checked.value; report.snap == SnapshotOf(Tally(report.log))
  {
    RunKeepsInv(run, k);
  }

  /** A stop reads after it has released: it is exact if nobody claims before its last read. */
  lemma UndisturbedStopsExact(run: seq<State>, k: nat, i: nat)
    requires IsRun(run) && k < |run| && i < |run[k].threads| && run[k].threads[i].stopped.Some?
    requires run[k].threads[i].stopped.value.undisturbed
    ensures var report := run[k].threads[i].stopped.value; report.snap == SnapshotOf(Tally(report.log))
  {
    RunKeepsInv(run, k);
  }

  // ---------------------------------------------------------------- stops that are disturbed

  ghost function Last(run: seq<State>): State
    requires |run| > 0
  {
    run[|run| - 1]
  }

  /** Everything but thread `j` is as it was. */
  ghost predicate OthersWait(s: State, t: State, j: nat) {
    |t.threads| == |s.threads| && forall i :: 0 <= i < |s.threads| && i != j ==> t.threads[i] == s.threads[i]
  }

  /** From `run` to `more` only thread `j` takes steps. */
  ghost predicate OnlySteps(run: seq<State>, more: seq<State>, j: nat) {
    && 0 < |run| <= |more| && run <= more
    && forall m :: |run| <= m < |more| ==> OthersWait(Last(run), more[m], j)
  }

  lemma RunExtends(run: seq<State>, j: nat, step: Step) returns (more: seq<State>)
    requires IsRun(run) && j < |Last(run).threads| && CanStep(Last(run).threads[j], step)
    ensures IsRun(more) && OnlySteps(run, more, j) && more == run + [Next(Last(run), j, step)]
  {
    var t := Next(Last(run), j, step);
    more := run + [t];
    assert StepsTo(Last(run), t, j, step);
    hide Next, StepsTo;
    assert Follows(Last(run), t);
    forall k | 0 < k < |more| ensures Follows(more[k - 1], more[k]) {
      if k < |run| {
        assert Follows(run[k - 1], run[k]);
      }
    }
  }

  lemma OnlyStepsThen(run: seq<State>, mid: seq<State>, more: seq<State>, j: nat)
    requires OnlySteps(run, mid, j) && OnlySteps(mid, more, j)
    ensures OnlySteps(run, more, j)
  {
    forall m | |run| <= m < |more| ensures OthersWait(Last(run), more[m], j) {
      if m < |mid| {
        assert more[m] == mid[m];
      } else if |run| < |mid| {
        assert OthersWait(Last(run), mid[|mid| - 1], j);
      }
    }
  }

  /** Thread `j` takes the next step of its call. */
  lemma Continues(run: seq<State>, from: seq<State>, j: nat, step: Step) returns (more: seq<State>)
    requires OnlySteps(run, from, j) && IsRun(from) && j < |Last(from).threads| && CanStep(Last(from).threads[j], step)
    ensures IsRun(more) && OnlySteps(run, more, j) && Last(more) == Next(Last(from), j, step)
  {
    more := RunExtends(from, j, step);
    OnlyStepsThen(run, from, more, j);
  }

  /** A thread that does not claim can finish its call and leave the claim free. */
  lemma Idled(run: seq<State>, j: nat) returns (more: seq<State>)
    requires IsRun(run) && j < |Last(run).threads| && Last(run).g.active == INACTIVE
    ensures IsRun(more) && OnlySteps(run, more, j)
    ensures Last(more).g.active == INACTIVE && Last(more).threads[j].pc.Idle?
  {
    more := run;
    while !Last(more).threads[j].pc.Idle?
      invariant IsRun(more) && OnlySteps(run, more, j) && |Last(more).threads| == |Last(run).threads|
      invariant Last(more).g.active == INACTIVE
      decreases CallLeft(Last(more).threads[j].pc)
    {
      RunKeepsInv(more, |more| - 1);
      Unclaimed(Last(more).threads[j], Last(more).g);
      OutsiderContinues(Last(more).threads[j], Last(more).g);
      more := Continues(run, more, j, Continue(false));
    }
  }

  /** Steps left of a call of a thread that does not claim. */
  function CallLeft(pc: Pc): nat {
    match pc
    case Idle => 0
    case InSystem(_, _) => 2
    case StopOwner(_, _) => 8
    case StopRead(k, _, _, _) => if k <= 5 then 7 - k else 1
    case _ => 1
  }

  lemma Unclaimed(t: Thread, g: Shared)
    requires ThreadHolds(t, g) && g.active == INACTIVE
    ensures !Claims(t)
  {
  }

  lemma OutsiderContinues(t: Thread, g: Shared)
    requires ThreadHolds(t, g) && !Claims(t) && !t.pc.Idle?
    ensures var m := StepThread(t, g, Continue(false)); m.g == g && CallLeft(m.t.pc) < CallLeft(t.pc)
  {
  }

  /** Thread `j` is idle with an open window. */
  ghost predicate HasWindow(s: State, j: nat) {
    && j < |s.threads| && s.threads[j].pc.Idle? && s.threads[j].owner >= FIRST_TOKEN && s.g.active == s.threads[j].owner
    && s.threads[j].window == Some(Window(s.threads[j].owner, false))
  }

  /** A thread that claims clears the counters. */
  lemma Claimed(run: seq<State>, j: nat) returns (more: seq<State>)
    requires IsRun(run) && j < |Last(run).threads| && Last(run).g.active == INACTIVE && Last(run).threads[j].pc.Idle?
    ensures IsRun(more) && OnlySteps(run, more, j) && j < |Last(more).threads|
    ensures Last(more).threads[j].pc == TakeToken && Last(more).g.c == ZEROED && Last(more).g.log == []
  {
    more := RunExtends(run, j, Begin(Start));
    for k := 0 to 6
      invariant IsRun(more) && OnlySteps(run, more, j) && |Last(more).threads| == |Last(run).threads|
      invariant Last(more).threads[j].pc == (if k < 6 then Reset(k) else TakeToken)
      invariant ResetSoFar(Last(more).g.c, k) && Last(more).g.log == []
    {
      ResetGrows(Last(more).g.c, k);
      hide ResetSoFar, ResetField;
      more := Continues(run, more, j, Continue(true));
    }
  }

  /** Left alone it opens its window. */
  lemma Opened(run: seq<State>, j: nat) returns (more: seq<State>)
    requires IsRun(run) && j < |Last(run).threads| && Last(run).threads[j].pc == TakeToken
    ensures IsRun(more) && OnlySteps(run, more, j)
    ensures HasWindow(Last(more), j) && Last(more).g.c == Last(run).g.c && Last(more).g.log == Last(run).g.log
  {
    more := run;
    while Last(more).threads[j].pc.TakeToken?
      invariant IsRun(more) && OnlySteps(run, more, j) && |Last(more).threads| == |Last(run).threads|
      invariant Last(more).g.c == Last(run).g.c && Last(more).g.log == Last(run).g.log
      invariant var pc := Last(more).threads[j].pc; pc.TakeToken? || (pc.SetOwner? && pc.token >= FIRST_TOKEN)
      decreases Last(more).threads[j].pc.TakeToken?, FIRST_TOKEN - Last(more).g.next
    {
      more := Continues(run, more, j, Continue(true));
    }
    more := Continues(run, more, j, Continue(true));
    more := Continues(run, more, j, Continue(true));
  }

  lemma Issued(run: seq<State>, j: nat, n: nat) returns (more: seq<State>)
    requires IsRun(run) && HasWindow(Last(run), j)
    ensures IsRun(more) && OnlySteps(run, more, j) && |Last(more).threads| == |Last(run).threads|
    ensures Last(more).threads[j] == Last(run).threads[j].(pc := Adding(Alloc(n), 0))
    ensures Last(more).g == Last(run).g.(log := Last(run).g.log + [Alloc(n)])
  {
    more := RunExtends(run, j, Begin(Run(Alloc(n))));
    more := Continues(run, more, j, Continue(true));
    more := Continues(run, more, j, Continue(true));
  }

  lemma Added(run: seq<State>, j: nat, n: nat) returns (more: seq<State>)
    requires IsRun(run) && j < |Last(run).threads| && Last(run).threads[j].pc == Adding(Alloc(n), 0)
             && Last(run).g.c == ZEROED
    ensures IsRun(more) && OnlySteps(run, more, j) && |Last(more).threads| == |Last(run).threads|
    ensures Last(more).threads[j] == Last(run).threads[j].(pc := PeakRead(n))
    ensures Last(more).g.active == Last(run).g.active && Last(more).g.log == Last(run).g.log && Last(more).g.c.peak == 0
  {
    more := RunExtends(run, j, Continue(true));
    more := Continues(run, more, j, Continue(true));
    more := Continues(run, more, j, Continue(true));
  }

  /** Left alone it counts an allocation, which is then the peak. */
  lemma Allocated(run: seq<State>, j: nat, n: nat) returns (more: seq<State>)
    requires IsRun(run) && HasWindow(Last(run), j) && Last(run).g.c == ZEROED && n > 0
    ensures IsRun(more) && OnlySteps(run, more, j)
    ensures HasWindow(Last(more), j) && Last(more).g.c.peak == n && Last(more).g.log == Last(run).g.log + [Alloc(n)]
  {
    var issued := Issued(run, j, n);
    var added := Added(issued, j, n);
    OnlyStepsThen(run, issued, added, j);
    more := Continues(run, added, j, Continue(true));
    more := Continues(run, more, j, Continue(true));
  }

  /** From `run`, where thread `i` is stopping, to the end of that stop. */
  ghost predicate Completes(run: seq<State>, more: seq<State>, i: nat) {
    && IsRun(more) && 0 < |run| < |more| && run <= more
    && (forall m :: |run| - 1 <= m < |more| - 1 ==> i < |more[m].threads| && more[m].threads[i].pc.StopRead?)
    && i < |Last(more).threads| && Last(more).threads[i].pc.Idle?
  }

  /** The thread's last stop reported what its window's log amounts to. */
  ghost predicate ReportsLog(s: State, i: nat) {
    && i < |s.threads| && s.threads[i].stopped.Some?
    && s.threads[i].stopped.value.snap == SnapshotOf(Tally(s.threads[i].stopped.value.log))
  }

  /** A stop left alone reads the peak it finds. */
  lemma {:induction false} ReadsToEnd(run: seq<State>, i: nat) returns (more: seq<State>)
    requires IsRun(run) && i < |Last(run).threads| && Last(run).threads[i].pc.StopRead?
             && Last(run).threads[i].pc.k <= 5
    requires Last(run).g.c.peak > 0
    ensures Completes(run, more, i) && Last(more).threads[i].stopped.Some?
    ensures var report := Last(more).threads[i].stopped.value;
            report.snap.peak == Last(run).g.c.peak && report.log == Last(run).threads[i].pc.log
    decreases 6 - Last(run).threads[i].pc.k
  {
    var next := RunExtends(run, i, Continue(true));
    if Last(run).threads[i].pc.k < 5 {
      more := ReadsToEnd(next, i);
      assert more[|run| - 1] == next[|run| - 1] == Last(run);
    } else {
      more := next;
    }
  }

  lemma StillStopping(run: seq<State>, mid: seq<State>, more: seq<State>, i: nat, j: nat)
    requires OnlySteps(run, mid, j) && i != j && i < |Last(run).threads| && Last(run).threads[i].pc.StopRead?
             && Completes(mid, more, i)
    ensures Completes(run, more, i)
  {
    forall m | |run| - 1 <= m < |more| - 1 ensures i < |more[m].threads| && more[m].threads[i].pc.StopRead? {
      if m < |mid| - 1 {
        assert more[m] == mid[m];
        assert m >= |run| ==> OthersWait(Last(run), mid[m], j);
      }
    }
  }

  /**
   Otherwise it can be wrong, whatever was measured and read so far: as long as nobody has claimed, another thread can
   start before the stop's last read so that the report is not the window's log.
   */
  lemma StopCanBeWrong(run: seq<State>, i: nat, j: nat) returns (more: seq<State>)
    requires IsRun(run) && i < |Last(run).threads| && j < |Last(run).threads| && i != j
    requires Last(run).threads[i].pc.StopRead? && Last(run).g.active == INACTIVE
    ensures Completes(run, more, i) && !ReportsLog(Last(more), i)
    ensures Last(more).threads[i].stopped.Some?
            && Last(more).threads[i].stopped.value.log == Last(run).threads[i].pc.log
  {
    RunKeepsInv(run, |run| - 1);
    var log := Last(run).threads[i].pc.log;
    var idle := Idled(run, j);
    var open := Disturbed(run, idle, j, SnapshotOf(Tally(log)).peak + 1);
    assert OnlySteps(run, open, j) && OthersWait(Last(run), Last(open), j);
    more := ReadsToEnd(open, i);
    StillStopping(run, open, more, i, j);
  }

  /** An idle thread makes the peak what it likes. */
  lemma Disturbed(run: seq<State>, idle: seq<State>, j: nat, n: nat) returns (more: seq<State>)
    requires OnlySteps(run, idle, j) && IsRun(idle) && j < |Last(run).threads| && n > 0
    requires j < |Last(idle).threads| && Last(idle).g.active == INACTIVE && Last(idle).threads[j].pc.Idle?
    ensures IsRun(more) && OnlySteps(run, more, j) && |more| > |run| && Last(more).g.c.peak == n
  {
    var claimed := Claimed(idle, j);
    var window := Opened(claimed, j);
    more := Allocated(window, j, n);
    OnlyStepsThen(run, idle, claimed, j);
    OnlyStepsThen(run, claimed, window, j);
    OnlyStepsThen(run, window, more, j);
    assert Last(idle).threads[j].pc != Last(claimed).threads[j].pc;
  }

  // ---------------------------------------------------------------- a single thread

  lemma {:induction false} ThreadsStay(run: seq<State>, j: nat, k: nat)
    requires IsRun(run) && j <= k < |run|
    ensures |run[k].threads| == |run[j].threads|
    decreases k
  {
    if j < k {
      ThreadsStay(run, j, k - 1);
      assert Follows(run[k - 1], run[k]);
    }
  }

  /** Nobody can have claimed between a single thread's release and its reads. */
  predicate Alone(t: Thread, g: Shared) {
    && (t.pc.StopOwner? || t.pc.StopRead? ==> t.pc.since == g.starts)
    && (t.stopped.Some? ==> t.stopped.value.undisturbed)
  }

  lemma StepAlone(t: Thread, g: Shared, step: Step)
    requires Alone(t, g) && CanStep(t, step)
    ensures var m := StepThread(t, g, step); Alone(m.t, m.g)
  {
  }

  lemma {:induction false} RunAlone(run: seq<State>, k: nat)
    requires IsRun(run) && k < |run| && |run[k].threads| == 1
    ensures Alone(run[k].threads[0], run[k].g)
  {
    if k > 0 {
      hide StepThread, Alone;
      ThreadsStay(run, k - 1, k);
      RunAlone(run, k - 1);
      assert Follows(run[k - 1], run[k]);
      var i: nat, step :| StepsTo(run[k - 1], run[k], i, step);
      StepAlone(run[k - 1].threads[i], run[k - 1].g, step);
    }
  }

  lemma AloneReports(run: seq<State>, more: seq<State>, i: nat)
    requires Completes(run, more, i) && |Last(run).threads| == 1
    ensures ReportsLog(Last(more), i)
  {
    var n := |more| - 1;
    ThreadsStay(more, |run| - 1, n - 1);
    ThreadsStay(more, |run| - 1, n);
    assert more[n - 1].threads[i].pc.StopRead? && Follows(more[n - 1], more[n]);
    var j, step :| StepsTo(more[n - 1], more[n], j, step);
    RunAlone(more, n);
    UndisturbedStopsExact(more, n, i);
  }

  /** A stop that nobody has overtaken reports its log however the run goes on, exactly when its thread is the only one. */
  lemma StopExactIffAlone(run: seq<State>, i: nat)
    requires IsRun(run) && i < |Last(run).threads| && Last(run).threads[i].pc.StopRead?
             && Last(run).g.active == INACTIVE
    ensures (forall more :: Completes(run, more, i) ==> ReportsLog(Last(more), i)) <==> |Last(run).threads| == 1
  {
    if |Last(run).threads| == 1 {
      forall more | Completes(run, more, i) ensures ReportsLog(Last(more), i) {
        AloneReports(run, more, i);
      }
    } else {
      var more := StopCanBeWrong(run, i, if i == 0 then 1 else 0);
    }
  }

  const TWO_THREADS := State([FRESH, FRESH], Shared(INACTIVE, FIRST_TOKEN, ZEROED, [], 0))

  /** Such a run exists from the start: one thread counts one allocation, and its stop reports something else. */
  lemma DisturbedRun() returns (run: seq<State>)
    ensures IsRun(run) && |Last(run).threads| > 0 && Last(run).threads[0].stopped.Some?
    ensures Last(run).threads[0].stopped.value.log == [Alloc(1)] && !ReportsLog(Last(run), 0)
  {
    var stopping := MeasuredRun();
    run := StopCanBeWrong(stopping, 0, 1);
  }

  /** One of two threads has counted one allocation and is about to read. */
  lemma MeasuredRun() returns (run: seq<State>)
    ensures IsRun(run) && |Last(run).threads| == 2 && Last(run).g.active == INACTIVE
    ensures Last(run).threads[0].pc.StopRead? && Last(run).threads[0].pc.log == [Alloc(1)]
  {
    var claimed := Claimed([TWO_THREADS], 0);
    var window := Opened(claimed, 0);
    var counted := Allocated(window, 0, 1);
    assert |Last(counted).threads| == 2 by {
      OnlyStepsThen([TWO_THREADS], claimed, window, 0);
      OnlyStepsThen([TWO_THREADS], window, counted, 0);
    }
    run := RunExtends(counted, 0, Begin(Stop));
    run := RunExtends(run, 0, Continue(true));
  }
}
