/** Whole runs of the writer: bounds at every atomic step, nothing leaked at the end, no deadlock, exact high-water marks. */
module WriterRuns {
  import opened Sequences
  import opened Framing
  import opened Writer
  import opened WriterBounds

  // ---------------------------------------------------------------- where every item is

  predicate Settled(p: Phase) {
    p.Releasing() || p.Ended?
  }

  /** The channel holds, in order and once each, the sends in channel phase; they are the last accepted frames. */
  predicate ChannelHolds(sends: seq<Phase>, channel: seq<nat>, accepted: seq<Bytes>) {
    && |channel| <= |accepted|
    && (forall j :: 0 <= j < |channel| ==>
          channel[j] < |sends| && sends[channel[j]] == InChannel(accepted[|accepted| - |channel| + j]))
    && (forall j, k :: 0 <= j < k < |channel| ==> channel[j] != channel[k])
    && (forall i :: 0 <= i < |sends| && sends[i].InChannel? ==> i in channel)
  }

  /** Only the writer task holds a received item, and it holds the last one it took. */
  predicate HandHolds(s: State) {
    && (forall i :: 0 <= i < |s.sends| && s.sends[i].InHand? ==> s.task.Write? && s.task.id == i)
    && (s.task.Write? ==> && 0 < s.taken <= |s.accepted| && s.task.id < |s.sends|
                          && s.sends[s.task.id] == InHand(s.accepted[s.taken - 1])
                          && s.task.written <= |s.accepted[s.taken - 1]|)
    && (s.task.Release? ==> && 0 < s.taken <= |s.accepted| && s.task.id < |s.sends| && Settled(s.sends[s.task.id])
                            && s.task.len == |s.accepted[s.taken - 1]|)
    && (s.task.Dropping? ==> s.task.id < |s.sends| && Settled(s.sends[s.task.id]))
  }

  predicate LifecycleHolds(s: State) {
    && s.taken + |s.channel| <= |s.accepted|
    && (s.open ==> s.taken + |s.channel| == |s.accepted|)
    && (s.open <==> !s.task.Closing? && !s.task.Finished?)
    && (s.task.FinalFlush? || s.task.FinalSync? || s.task == Finished(true) ==>
          s.channel == [] && !s.senderAlive && s.taken == |s.accepted|)
    && (s.senderAlive || forall i :: 0 <= i < |s.sends| ==> !s.sends[i].Sending())
  }

  predicate Linked(s: State) {
    LifecycleHolds(s) && ChannelHolds(s.sends, s.channel, s.accepted) && HandHolds(s)
  }

  predicate Elsewhere(p: Phase) {
    !p.InChannel? && !p.InHand?
  }

  /** A send that is neither in the channel nor in hand moves to a phase that is not either. */
  lemma OutsideStepKeepsLinked(s: State, t: State, i: nat, p: Phase)
    requires Linked(s) && i < |s.sends| && Elsewhere(s.sends[i]) && Elsewhere(p)
    requires p.Sending() ==> s.sends[i].Sending()
    requires Settled(s.sends[i]) ==> Settled(p)
    requires t == s.(sends := s.sends[i := p], g := t.g)
    ensures Linked(t)
  {
    assert forall j :: 0 <= j < |s.channel| ==> s.channel[j] != i;
  }

  lemma AdvanceOutside(c: Config, p: Phase, g: Gauges, open: bool)
    requires Ready(c, p, g, open)
    ensures Elsewhere(p)
    ensures var q := ReservePhase(c, p, g, open).phase;
            && (p.Sendable? ==> q == InChannel(p.frame))
            && (!p.Sendable? ==> Elsewhere(q) && (q.Sending() ==> p.Sending()) && (Settled(p) ==> Settled(q)))
  {
  }

  lemma SendKeepsChannel(sends: seq<Phase>, channel: seq<nat>, accepted: seq<Bytes>, i: nat, frame: Bytes)
    requires ChannelHolds(sends, channel, accepted) && i < |sends| && !sends[i].InChannel?
    ensures ChannelHolds(sends[i := InChannel(frame)], channel + [i], accepted + [frame])
  {
    assert forall j :: 0 <= j < |channel| ==> channel[j] != i;
  }

  lemma SendKeepsLinked(s: State, i: nat, frame: Bytes)
    requires Linked(s) && i < |s.sends| && s.sends[i] == Sendable(frame)
    ensures Linked(Put(s, i, Stepped(InChannel(frame), s.g)).(channel := s.channel + [i], accepted := s.accepted + [frame]))
  {
    hide ChannelHolds;
    assert s.sends[i].Sending();
    SendKeepsChannel(s.sends, s.channel, s.accepted, i, frame);
  }

  lemma AdvanceKeepsLinked(c: Config, s: State, i: nat)
    requires Linked(s) && i < |s.sends| && Ready(c, s.sends[i], s.g, s.open)
    ensures Linked(Advance(c, s, i))
  {
    hide Linked, ReservePhase, Ready;
    var p := s.sends[i];
    var now := ReservePhase(c, p, s.g, s.open);
    AdvanceOutside(c, p, s.g, s.open);
    if p.Sendable? {
      SendKeepsLinked(s, i, p.frame);
      LinkedIgnoresGauges(Put(s, i, Stepped(InChannel(p.frame), s.g))
                            .(channel := s.channel + [i], accepted := s.accepted + [p.frame]), now.g);
    } else {
      OutsideStepKeepsLinked(s, Advance(c, s, i), i, now.phase);
    }
  }

  lemma LinkedIgnoresGauges(s: State, g: Gauges)
    requires Linked(s)
    ensures Linked(s.(g := g))
  {
  }

  lemma PopKeepsChannel(sends: seq<Phase>, channel: seq<nat>, accepted: seq<Bytes>, p: Phase)
    requires ChannelHolds(sends, channel, accepted) && channel != [] && !p.InChannel?
    ensures channel[0] < |sends| && sends[channel[0]] == InChannel(accepted[|accepted| - |channel|])
    ensures ChannelHolds(sends[channel[0] := p], channel[1..], accepted)
  {
    var now := sends[channel[0] := p];
    forall i | 0 <= i < |now| && now[i].InChannel?
      ensures i in channel[1..]
    {
      var j :| 0 <= j < |channel| && channel[j] == i;
      assert channel[1..][j - 1] == i;
    }
  }

  lemma ReceiveKeepsLinked(s: State)
    requires Linked(s) && s.task.Receive? && s.channel != []
    ensures Linked(ReceiveItem(s))
    ensures HeadInChannel(s)
  {
    var id := s.channel[0];
    PopKeepsChannel(s.sends, s.channel, s.accepted, InHand(s.accepted[s.taken]));
  }

  lemma WriteKeepsLinked(s: State, n: nat)
    requires Linked(s) && s.task.Write? && CanWork(s, n)
    ensures Linked(WriteSome(s, s.task.id, s.task.written, n))
  {
    var id := s.task.id;
    if s.task.written == |s.sends[id].frame| {
      assert forall j :: 0 <= j < |s.channel| ==> s.channel[j] != id;
    } else {
      hide ChannelHolds;
    }
  }

  lemma WorkKeepsLinked(c: Config, s: State, n: nat)
    requires Linked(s) && CanWork(s, n)
    ensures Linked(Work(c, s, n))
  {
    hide ChannelHolds, WriteSome, ReceiveItem;
    if s.task.Receive? && s.channel != [] {
      ReceiveKeepsLinked(s);
    } else if s.task.Write? {
      WriteKeepsLinked(s, n);
    }
  }

  lemma FailKeepsLinked(s: State)
    requires Linked(s) && CanFail(s)
    ensures Linked(Fail(s))
  {
    if s.task.Write? {
      assert forall j :: 0 <= j < |s.channel| ==> s.channel[j] != s.task.id;
    }
  }

  lemma DrainKeepsLinked(s: State)
    requires Linked(s) && CanDrain(s)
    ensures Linked(Drain(s))
  {
    PopKeepsChannel(s.sends, s.channel, s.accepted, Leaving(s.sends[s.channel[0]].frame));
  }

  lemma CallKeepsLinked(c: Config, s: State, step: Step)
    requires Linked(s) && CanStep(c, s, step) && (step.Begin? || step.Encodes? || step.Aborts?)
    ensures Linked(Next(c, s, step))
  {
    match step {
      case Begin =>
      case Encodes(i, first, second) =>
        OutsideStepKeepsLinked(s, Next(c, s, step), i, EncodePhase(c, s.g, first, second).phase);
      case Aborts(i) => OutsideStepKeepsLinked(s, Next(c, s, step), i, AbortPhase(s.sends[i]));
    }
  }

  lemma StepKeepsLinked(c: Config, s: State, step: Step)
    requires Linked(s) && CanStep(c, s, step)
    ensures Linked(Next(c, s, step))
  {
    hide Advance, Work, Fail, Drain, EncodePhase, ChannelHolds, HandHolds;
    match step {
      case Begin => CallKeepsLinked(c, s, step);
      case Advances(i) => AdvanceKeepsLinked(c, s, i);
      case Encodes(_, _, _) => CallKeepsLinked(c, s, step);
      case Aborts(_) => CallKeepsLinked(c, s, step);
      case Works(n) => WorkKeepsLinked(c, s, n);
      case Fails => FailKeepsLinked(s);
      case Drains => DrainKeepsLinked(s);
      case Spills(n) => LinkedIgnoresOutput(s, s.out.(disk := n));
      case DropsSender => DropKeepsLinked(s);
    }
  }

  lemma LinkedIgnoresOutput(s: State, out: Output)
    requires Linked(s)
    ensures Linked(s.(out := out))
  {
  }

  lemma DropKeepsLinked(s: State)
    requires Linked(s) && forall i :: 0 <= i < |s.sends| ==> !s.sends[i].Sending()
    ensures Linked(s.(senderAlive := false))
  {
  }

  // ---------------------------------------------------------------- every state of every run

  ghost predicate Sound(c: Config, s: State) {
    ValidateByteBounds(c).None? && Safe(c, s) && Linked(s)
  }

  lemma FollowKeepsSound(c: Config, s: State, t: State)
    requires Sound(c, s) && Follows(c, s, t)
    ensures Sound(c, t)
  {
    hide Safe, Linked, CanStep, Next;
    var step :| CanStep(c, s, step) && t == Next(c, s, step);
    StepKeepsSafe(c, s, step);
    StepKeepsLinked(c, s, step);
  }

  lemma {:induction false} RunIsSound(c: Config, run: seq<State>, k: nat)
    requires IsRun(c, run) && k < |run|
    ensures Sound(c, run[k])
  {
    hide Safe, Follows, Linked;
    if k == 0 {
      StartIsSafe(c);
      StartIsLinked(c);
    } else {
      RunIsSound(c, run, k - 1);
      FollowKeepsSound(c, run[k - 1], run[k]);
    }
  }

  lemma PrefixIsRun(c: Config, run: seq<State>, n: nat)
    requires IsRun(c, run) && 0 < n <= |run|
    ensures IsRun(c, run[..n])
  {
    hide Follows;
    forall k | 0 < k < n
      ensures Follows(c, run[..n][k - 1], run[..n][k])
    {
      assert Follows(c, run[k - 1], run[k]);
    }
  }

  lemma StartIsLinked(c: Config)
    ensures Linked(Start(c))
  {
  }

  /**
   At every atomic step of every interleaving: queued bytes are within reserved bytes, those within the byte permits
   held, those within the limit; likewise depth within entry permits held within the capacity. So no counter wraps and
   no high-water mark passes its limit.
   */
  lemma BoundsHold(c: Config, run: seq<State>, k: nat)
    requires IsRun(c, run) && k < |run|
    ensures var g := run[k].g;
            && 0 <= g.queuedBytes <= g.reserved <= c.maxQueued - g.permits <= c.maxQueued
            && 0 <= g.queued <= c.Capacity() - g.entries <= c.Capacity()
            && g.maxDepth <= c.Capacity() && g.maxQueueBytes <= c.maxQueued && g.maxReserved <= c.maxQueued
  {
    RunIsSound(c, run, k);
    SafeBounds(c, run[k]);
  }

  /** While the receiver is open, a send with an entry permit never waits for a channel slot. */
  lemma SlotAlwaysFree(c: Config, run: seq<State>, k: nat, i: nat)
    requires IsRun(c, run) && k < |run| && run[k].open && i < |run[k].sends| && run[k].sends[i].WaitSlot?
    ensures run[k].g.slots > 0
  {
    RunIsSound(c, run, k);
    SlotIsFree(c, run[k], i);
  }

  /** No send is under way or being unwound, the writer task has ended, and the channel is gone. */
  predicate AtRest(s: State) {
    && s.task.Finished? && !s.senderAlive && s.channel == []
    && forall i :: 0 <= i < |s.sends| ==> !s.sends[i].Sending() && !s.sends[i].Releasing()
  }

  lemma {:induction false} TotalOfEnded(c: Config, sends: seq<Phase>)
    requires forall i :: 0 <= i < |sends| ==> sends[i].Ended?
    ensures Total(c, sends) == NOTHING
  {
    if sends != [] {
      assert LoadOf(c, sends[0]) == NOTHING;
      hide LoadOf;
      TotalOfEnded(c, sends[1..]);
    }
  }

  /** Whatever failed on the way, at rest every counter is zero and every permit is back. */
  lemma NothingLeaks(c: Config, run: seq<State>, k: nat)
    requires IsRun(c, run) && k < |run| && AtRest(run[k])
    ensures run[k].g.queued == run[k].g.queuedBytes == run[k].g.reserved == 0
    ensures run[k].g.entries == c.Capacity() && run[k].g.permits == c.maxQueued
  {
    RunIsSound(c, run, k);
    var s := run[k];
    forall i | 0 <= i < |s.sends|
      ensures s.sends[i].Ended?
    {
      assert s.sends[i].InChannel? ==> i in s.channel;
    }
    TotalOfEnded(c, s.sends);
  }

  // ---------------------------------------------------------------- teardown ends

  /** Steps a send still needs before it holds nothing. */
  function Rank(p: Phase): nat {
    match p
    case WaitEntry => 19
    case WaitBytes => 18
    case Acquired => 17
    case Reserved(_) => 16
    case Encoding => 15
    case Shrinking(_) => 14
    case WaitSlot(_) => 13
    case HasSlot(_) => 12
    case Counted(_, _) => 11
    case Entered(_) => 10
    case Weighed(_, _) => 9
    case Sendable(_) => 8
    case InChannel(_) => 7
    case InHand(_) => 6
    case Leaving(_) => 5
    case LeavingBytes(_) => 4
    case Unreserving(_) => 3
    case Returning(_) => 2
    case ReturningEntry => 1
    case Ended => 0
  }

  function Pending(sends: seq<Phase>): nat {
    if sends == [] then 0 else Rank(sends[0]) + Pending(sends[1..])
  }

  lemma {:induction false} PendingShrinks(sends: seq<Phase>, i: nat, p: Phase)
    requires i < |sends| && Rank(p) < Rank(sends[i])
    ensures Pending(sends[i := p]) < Pending(sends)
  {
    hide Rank;
    var now := sends[i := p];
    if i == 0 {
      assert now[1..] == sends[1..];
    } else {
      PendingShrinks(sends[1..], i - 1, p);
      assert now[1..] == sends[1..][i - 1 := p];
    }
  }

  lemma PhaseMoves(c: Config, p: Phase, g: Gauges, open: bool)
    ensures Ready(c, p, g, open) ==> Rank(ReservePhase(c, p, g, open).phase) < Rank(p)
    ensures Waits(p) ==> Rank(AbortPhase(p)) < Rank(p)
  {
  }

  lemma SendMoves(c: Config, s: State, step: Step)
    requires CanStep(c, s, step) && (step.Advances? || step.Encodes? || step.Aborts?)
    ensures Pending(Next(c, s, step).sends) < Pending(s.sends)
  {
    var p, q := s.sends[step.i], Next(c, s, step).sends[step.i];
    assert Rank(q) < Rank(p) by {
      PhaseMoves(c, p, s.g, s.open);
      hide ReservePhase, AbortPhase, Ready, Waits;
    }
    hide Pending, Rank, ReservePhase, EncodePhase, AbortPhase, Ready;
    PendingShrinks(s.sends, step.i, q);
  }

  lemma DrainMoves(s: State)
    requires CanDrain(s)
    ensures Pending(Drain(s).sends) < Pending(s.sends)
  {
    PendingShrinks(s.sends, s.channel[0], Leaving(s.sends[s.channel[0]].frame));
  }

  /** Both ends of the channel are gone and no call is under way. */
  predicate TearingDown(s: State) {
    s.task.Finished? && !s.senderAlive && forall i :: 0 <= i < |s.sends| ==> !s.sends[i].Sending()
  }

  /** Until everything is at rest some drop handler has a step to take, and each such step brings rest nearer. */
  lemma TeardownEnds(c: Config, s: State)
    requires Sound(c, s) && TearingDown(s)
    ensures !AtRest(s) ==> exists step: Step :: (step.Advances? || step.Drains?) && CanStep(c, s, step)
    ensures forall step: Step :: (step.Advances? || step.Drains?) && CanStep(c, s, step) ==>
                             TearingDown(Next(c, s, step)) && Pending(Next(c, s, step).sends) < Pending(s.sends)
  {
    if s.channel != [] {
      assert CanStep(c, s, Drains);
    } else if !AtRest(s) {
      var i :| 0 <= i < |s.sends| && s.sends[i].Releasing();
      assert CanStep(c, s, Advances(i));
    }
    forall step: Step | (step.Advances? || step.Drains?) && CanStep(c, s, step)
      ensures TearingDown(Next(c, s, step)) && Pending(Next(c, s, step).sends) < Pending(s.sends)
    {
      TeardownShrinks(c, s, step);
    }
  }

  lemma TeardownShrinks(c: Config, s: State, step: Step)
    requires Linked(s) && TearingDown(s) && (step.Advances? || step.Drains?) && CanStep(c, s, step)
    ensures TearingDown(Next(c, s, step)) && Pending(Next(c, s, step).sends) < Pending(s.sends)
  {
    hide Pending, Linked;
    if step.Drains? {
      DrainMoves(s);
    } else {
      assert !s.sends[step.i].Sending();
      SendMoves(c, s, step);
    }
  }

  // ---------------------------------------------------------------- no deadlock

  predicate Progress(step: Step) {
    step.Advances? || step.Encodes? || step.Works?
  }

  /** Some step other than a timeout is possible, and it changes the state. */
  ghost predicate CanProgress(c: Config, s: State) {
    exists step :: Progress(step) && CanStep(c, s, step) && Next(c, s, step) != s
  }

  lemma AdvanceChanges(c: Config, s: State, i: nat)
    requires i < |s.sends| && Ready(c, s.sends[i], s.g, s.open)
    ensures CanProgress(c, s)
  {
    assert Next(c, s, Advances(i)).sends[i] != s.sends[i];
  }

  lemma TaskProgress(c: Config, s: State)
    requires Linked(s) && s.open && (s.task.Receive? ==> s.channel != [])
    ensures CanProgress(c, s)
  {
    if (s.task.Release? || s.task.Dropping?) && !s.sends[s.task.id].Ended? {
      AdvanceChanges(c, s, s.task.id);
    } else {
      var n := if s.task.Write? && s.task.written < |s.sends[s.task.id].frame| then 1 else 0;
      assert CanStep(c, s, Works(n));
      assert Next(c, s, Works(n)).task != s.task;
    }
  }

  /** A send past its byte permits can go on, or the writer task can. */
  lemma HolderProgress(c: Config, s: State, i: nat)
    requires Sound(c, s) && s.open && i < |s.sends|
    requires !s.sends[i].WaitEntry? && !s.sends[i].WaitBytes? && !s.sends[i].Ended?
    ensures CanProgress(c, s)
  {
    var p := s.sends[i];
    if p.Encoding? {
      var step := Encodes(i, Pass([], false), Pass([], false));
      assert CanStep(c, s, step) && Next(c, s, step).sends[i] != s.sends[i];
    } else if p.InChannel? || p.InHand? {
      assert p.InChannel? ==> i in s.channel;
      TaskProgress(c, s);
    } else {
      if p.WaitSlot? {
        SlotIsFree(c, s, i);
      }
      AdvanceChanges(c, s, i);
    }
  }

  lemma {:induction false} SomeoneHolds(c: Config, sends: seq<Phase>) returns (e: nat, p: nat)
    ensures Total(c, sends).entries > 0 ==> e < |sends| && LoadOf(c, sends[e]).entries > 0
    ensures Total(c, sends).permits > 0 ==> p < |sends| && LoadOf(c, sends[p]).permits > 0
  {
    hide LoadOf;
    e, p := 0, 0;
    if sends != [] {
      var e1, p1 := SomeoneHolds(c, sends[1..]);
      if LoadOf(c, sends[0]).entries == 0 {
        e := e1 + 1;
      }
      if LoadOf(c, sends[0]).permits == 0 {
        p := p1 + 1;
      }
    }
  }

  lemma WaitingBytesProgress(c: Config, s: State, i: nat)
    requires Sound(c, s) && s.open && i < |s.sends| && s.sends[i].WaitBytes?
    ensures CanProgress(c, s)
  {
    hide Total;
    if s.g.permits >= c.maxFrame {
      AdvanceChanges(c, s, i);
    } else {
      var _, p := SomeoneHolds(c, s.sends);
      HolderProgress(c, s, p);
    }
  }

  /** While the receiver is open, as long as some send is unfinished, some step other than a timeout changes the state. */
  lemma NoDeadlock(c: Config, run: seq<State>, k: nat, i: nat)
    requires IsRun(c, run) && k < |run| && run[k].open && i < |run[k].sends| && !run[k].sends[i].Ended?
    ensures CanProgress(c, run[k])
  {
    hide Total, Linked;
    RunIsSound(c, run, k);
    var s := run[k];
    if s.sends[i].WaitBytes? {
      WaitingBytesProgress(c, s, i);
    } else if !s.sends[i].WaitEntry? {
      HolderProgress(c, s, i);
    } else if s.g.entries > 0 {
      AdvanceChanges(c, s, i);
    } else {
      var e, _ := SomeoneHolds(c, s.sends);
      if s.sends[e].WaitBytes? {
        WaitingBytesProgress(c, s, e);
      } else {
        HolderProgress(c, s, e);
      }
    }
  }

  // ---------------------------------------------------------------- calls left to their timeout

  /** Steps the code takes of itself: not a timeout or a new call, and not a buffer that spills. */
  predicate Unprompted(step: Step) {
    !step.Begin? && !step.Aborts? && !step.Spills?
  }

  /** Some call has not returned, and nothing but its timeout will make it. */
  ghost predicate Stuck(c: Config, s: State) {
    && (exists i :: 0 <= i < |s.sends| && s.sends[i].Sending())
    && (forall step :: Unprompted(step) ==> !CanStep(c, s, step))
  }

  predicate WaitsInVain(c: Config, p: Phase, g: Gauges) {
    (p.WaitEntry? && g.entries <= 0) || (p.WaitBytes? && g.permits < c.maxFrame)
  }

  /** The task has ended, the handle is alive, and what is not over is in the channel or waits for permits that are gone. */
  predicate Stranded(c: Config, s: State) {
    && s.task.Finished? && s.senderAlive
    && (forall i :: 0 <= i < |s.sends| ==> s.sends[i].Ended? || s.sends[i].InChannel? || WaitsInVain(c, s.sends[i], s.g))
    && (exists i :: 0 <= i < |s.sends| && WaitsInVain(c, s.sends[i], s.g))
  }

  lemma StrandedIsStuck(c: Config, s: State)
    requires Stranded(c, s)
    ensures Stuck(c, s)
  {
    var i :| 0 <= i < |s.sends| && WaitsInVain(c, s.sends[i], s.g);
    assert s.sends[i].Sending();
  }

  lemma ClosedTaskEnds(c: Config, s: State)
    requires Linked(s) && !s.open && forall step :: Unprompted(step) ==> !CanStep(c, s, step)
    ensures s.task.Finished?
  {
    if s.task.Closing? {
      assert !CanStep(c, s, Works(0)) && !CanStep(c, s, Drains);
      PopKeepsChannel(s.sends, s.channel, s.accepted, Ended);
    }
  }

  lemma StuckSend(c: Config, s: State, i: nat)
    requires Linked(s) && !s.open && s.task.Finished? && i < |s.sends|
             && forall step :: Unprompted(step) ==> !CanStep(c, s, step)
    ensures s.sends[i].Ended? || s.sends[i].InChannel? || WaitsInVain(c, s.sends[i], s.g)
  {
    assert !CanStep(c, s, Advances(i)) && !CanStep(c, s, Encodes(i, Pass([], false), Pass([], false)));
  }

  /** A call is left to its timeout exactly when it waits for permits held by items in a channel that nobody drains. */
  lemma StuckIffStranded(c: Config, run: seq<State>, k: nat)
    requires IsRun(c, run) && k < |run|
    ensures Stuck(c, run[k]) <==> Stranded(c, run[k])
  {
    var s := run[k];
    RunIsSound(c, run, k);
    if Stranded(c, s) {
      StrandedIsStuck(c, s);
    }
    if Stuck(c, s) {
      var i :| 0 <= i < |s.sends| && s.sends[i].Sending();
      hide Safe, ChannelHolds, HandHolds;
      if s.open {
        NoDeadlock(c, run, k, i);
        assert false;
      }
      ClosedTaskEnds(c, s);
      forall j | 0 <= j < |s.sends|
        ensures s.sends[j].Ended? || s.sends[j].InChannel? || WaitsInVain(c, s.sends[j], s.g)
      {
        StuckSend(c, s, j);
      }
    }
  }

  lemma RunExtends(c: Config, run: seq<State>, step: Step) returns (more: seq<State>)
    requires IsRun(c, run) && CanStep(c, run[|run| - 1], step)
    ensures IsRun(c, more) && more[|more| - 1] == Next(c, run[|run| - 1], step)
  {
    hide Next;
    more := run + [Next(c, run[|run| - 1], step)];
    assert Follows(c, run[|run| - 1], more[|run|]);
    forall k | 0 < k < |more|
      ensures Follows(c, more[k - 1], more[k])
    {
      if k < |run| {
        assert Follows(c, run[k - 1], run[k]);
      }
    }
  }

  const ONE_ENTRY := Config(1, 2, 4, 1, 0)
  const ONE_BYTE := Pass([[0]], false)

  lemma OneByteFits()
    ensures Encoded(ONE_BYTE, ONE_BYTE, 2).Ok? && |Encoded(ONE_BYTE, ONE_BYTE, 2).value| == 2
  {
    assert Concat(ONE_BYTE.chunks) == [0] by {
      assert [[0]][1..] == [];
    }
  }

  /** One send has its slot when the writer task fails and ends. */
  lemma SlotThenFailure() returns (run: seq<State>)
    ensures IsRun(ONE_ENTRY, run)
    ensures var s := run[|run| - 1];
            && |s.sends| == 1 && s.sends[0].HasSlot? && s.task == Finished(false) && s.senderAlive
            && s.channel == [] && s.g.entries == 0
  {
    OneByteFits();
    hide Encoded;
    run := [Start(ONE_ENTRY)];
    run := RunExtends(ONE_ENTRY, run, Begin);
    run := RunExtends(ONE_ENTRY, run, Advances(0));
    run := RunExtends(ONE_ENTRY, run, Advances(0));
    run := RunExtends(ONE_ENTRY, run, Advances(0));
    run := RunExtends(ONE_ENTRY, run, Advances(0));
    run := RunExtends(ONE_ENTRY, run, Encodes(0, ONE_BYTE, ONE_BYTE));
    run := RunExtends(ONE_ENTRY, run, Advances(0));
    run := RunExtends(ONE_ENTRY, run, Fails);
    run := RunExtends(ONE_ENTRY, run, Works(0));
  }

  /** The item then enters the channel of the closed receiver. */
  lemma ItemStranded() returns (run: seq<State>)
    ensures IsRun(ONE_ENTRY, run)
    ensures var s := run[|run| - 1];
            |s.sends| == 1 && s.sends[0].InChannel? && s.task == Finished(false) && s.senderAlive && s.g.entries == 0
  {
    run := SlotThenFailure();
    run := RunExtends(ONE_ENTRY, run, Advances(0));
    run := RunExtends(ONE_ENTRY, run, Advances(0));
    run := RunExtends(ONE_ENTRY, run, Advances(0));
    run := RunExtends(ONE_ENTRY, run, Advances(0));
    run := RunExtends(ONE_ENTRY, run, Advances(0));
  }

  /** And a second call waits for the entry that item keeps. */
  lemma StrandedRun() returns (run: seq<State>)
    ensures IsRun(ONE_ENTRY, run) && Stuck(ONE_ENTRY, run[|run| - 1])
  {
    run := ItemStranded();
    run := RunExtends(ONE_ENTRY, run, Begin);
    hide IsRun, Stuck;
    var s := run[|run| - 1];
    assert WaitsInVain(ONE_ENTRY, s.sends[1], s.g);
    StrandedIsStuck(ONE_ENTRY, s);
  }

  // ---------------------------------------------------------------- no endless work

  /** Steps the writer task still has to take if no further item arrives. */
  function TaskLeft(s: State): int {
    match s.task
    case Write(id, k) => if id < |s.sends| && s.sends[id].InHand? then 11 + |s.sends[id].frame| - k else 11
    case Release(_, _) => 10
    case CountRecord(_) => 9
    case CountBytes(_) => 8
    case FlushCheck => 7
    case SyncCheck => 6
    case SyncData => 5
    case Receive => 4
    case FinalFlush => 3
    case FinalSync => 2
    case Dropping(_) => 2
    case Closing => 1
    case Finished(_) => 0
  }

  /** Steps by which the writer's own code moves: not a new call, not the end of the handle, not a buffer that spills. */
  predicate Moves(step: Step) {
    !step.Begin? && !step.Spills? && !step.DropsSender?
  }

  /** Fewer steps are left to the sends; or as many, and fewer to the writer task. */
  predicate Nearer(t: State, s: State) {
    Pending(t.sends) < Pending(s.sends) || (t.sends == s.sends && 0 <= TaskLeft(t) < TaskLeft(s))
  }

  lemma ItemMoves(s: State, t: State, id: nat, p: Phase)
    requires id < |s.sends| && t.sends == s.sends[id := p] && Rank(p) < Rank(s.sends[id])
    ensures Nearer(t, s)
  {
    PendingShrinks(s.sends, id, p);
  }

  lemma FailMoves(s: State)
    requires CanFail(s)
    ensures Nearer(Fail(s), s)
  {
    if s.task.Write? {
      ItemMoves(s, Fail(s), s.task.id, Leaving(s.sends[s.task.id].frame));
    }
  }

  lemma WriteMoves(s: State, n: nat)
    requires Linked(s) && s.task.Write? && CanWork(s, n)
    ensures Nearer(WriteSome(s, s.task.id, s.task.written, n), s)
  {
    hide ChannelHolds, LifecycleHolds, Pending;
    var id := s.task.id;
    if s.task.written == |s.sends[id].frame| {
      ItemMoves(s, WriteSome(s, id, s.task.written, n), id, Leaving(s.sends[id].frame));
    }
  }

  lemma WorkMoves(c: Config, s: State, n: nat)
    requires Linked(s) && CanWork(s, n)
    ensures Nearer(Work(c, s, n), s)
  {
    if s.task.Receive? && s.channel != [] {
      hide Nearer, HandHolds, LifecycleHolds, ChannelHolds;
      ReceiveKeepsLinked(s);
      ItemMoves(s, Work(c, s, n), s.channel[0], InHand(s.sends[s.channel[0]].frame));
    } else if s.task.Write? {
      WriteMoves(s, n);
    } else {
      OtherWorkMoves(c, s, n);
    }
  }

  lemma OtherWorkMoves(c: Config, s: State, n: nat)
    requires CanWork(s, n) && !s.task.Write? && (s.task.Receive? ==> s.channel == [])
    ensures Nearer(Work(c, s, n), s)
  {
    hide Pending;
    assert Work(c, s, n).sends == s.sends;
  }

  /**
   Every step of a send or of the writer task, timeouts and failures included, brings the end nearer in a well-founded
   order. So while the receiver stays open, calls that keep taking steps all finish; once it is closed, a call can be
   left to its timeout (`StuckIffStranded`).
   */
  lemma EveryStepNearer(c: Config, run: seq<State>, k: nat, step: Step)
    requires IsRun(c, run) && k < |run| && CanStep(c, run[k], step) && Moves(step)
    ensures Nearer(Next(c, run[k], step), run[k])
  {
    RunIsSound(c, run, k);
    hide Linked, Pending, TaskLeft, Work, Fail, Drain, Advance, EncodePhase, AbortPhase, IsRun, Safe;
    match step {
      case Works(n) => WorkMoves(c, run[k], n);
      case Fails => FailMoves(run[k]);
      case Drains => DrainMoves(run[k]);
      case Advances(_) => SendMoves(c, run[k], step);
      case Encodes(_, _, _) => SendMoves(c, run[k], step);
      case Aborts(_) => SendMoves(c, run[k], step);
    }
  }
}
