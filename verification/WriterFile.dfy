/** What reaches the file: the accepted frames, in channel order, flushed and synced as configured, and read back exactly. */
module WriterFile {
  import opened Sequences
  import opened Framing
  import opened Writer
  import opened WriterBounds
  import opened WriterRuns

  /** The first `k` accepted frames, as bytes. */
  function Joined(frames: seq<Bytes>, k: nat): Bytes
    requires k <= |frames|
  {
    Concat(frames[..k])
  }

  lemma JoinedNext(frames: seq<Bytes>, k: nat)
    requires k < |frames|
    ensures Joined(frames, k + 1) == Joined(frames, k) + frames[k]
  {
    assert frames[..k + 1] == frames[..k] + [frames[k]];
    ConcatSnoc(frames[..k], frames[k]);
  }

  lemma JoinedPrefix(frames: seq<Bytes>, j: nat, k: nat)
    requires j <= k <= |frames|
    ensures Joined(frames, j) <= Joined(frames, k)
  {
    ConcatPrefix(frames[..k], j);
    assert frames[..k][..j] == frames[..j];
  }

  lemma JoinedAll(frames: seq<Bytes>)
    ensures Joined(frames, |frames|) == Concat(frames)
  {
    assert frames[..|frames|] == frames;
  }

  lemma JoinedIgnoresLater(frames: seq<Bytes>, frame: Bytes, k: nat)
    requires k <= |frames|
    ensures Joined(frames + [frame], k) == Joined(frames, k)
  {
    assert (frames + [frame])[..k] == frames[..k];
  }

  // ---------------------------------------------------------------- what holds of the output

  /** The writer task has not failed. */
  predicate Live(task: Task) {
    !task.Dropping? && !task.Closing? && task != Finished(false)
  }

  /** The writer task has received a record it has not finished counting. */
  predicate Busy(task: Task) {
    task.Write? || task.Release? || task.CountRecord? || task.CountBytes?
  }

  /** Records the writer task has dealt with completely. */
  function Done(s: State): int {
    if Busy(s.task) then s.taken - 1 else s.taken
  }

  predicate Streams(s: State) {
    && Done(s) >= 0 && s.taken <= |s.accepted| && s.out.synced <= s.out.disk <= |s.out.stream|
    && s.out.stream <= Joined(s.accepted, s.taken)
    && (Live(s.task) ==>
          s.out.stream == if s.task.Write? && s.task.written <= |s.accepted[s.taken - 1]|
                          then Joined(s.accepted, s.taken - 1) + s.accepted[s.taken - 1][..s.task.written]
                          else Joined(s.accepted, s.taken))
  }

  predicate Counts(s: State) {
    && 0 <= Done(s) && s.taken <= |s.accepted|
    && (s.task.CountRecord? || s.task.CountBytes? ==> s.task.len == |s.accepted[s.taken - 1]|)
    && (Live(s.task) ==>
          && s.out.records == (if s.task.CountBytes? then s.taken else Done(s))
          && s.out.bytes == |Joined(s.accepted, Done(s))|)
  }

  predicate Flushes(c: Config, s: State) {
    && 0 <= Done(s) && s.taken <= |s.accepted|
    && (Live(s.task) ==>
          && s.out.sinceFlush <= Done(s)
          && (if s.task.FlushCheck? then s.out.sinceFlush <= c.FlushEvery() else s.out.sinceFlush < c.FlushEvery())
          && s.out.disk >= |Joined(s.accepted, Done(s) - s.out.sinceFlush)|)
  }

  predicate Syncs(c: Config, s: State) {
    && 0 <= Done(s) && s.taken <= |s.accepted|
    && (Live(s.task) ==>
          && s.out.sinceSync <= Done(s)
          && (c.fsyncEvery > 0 ==>
                if s.task.FlushCheck? || s.task.SyncCheck? || s.task.SyncData? then s.out.sinceSync <= c.fsyncEvery
                else s.out.sinceSync < c.fsyncEvery)
          && s.out.synced >= |Joined(s.accepted, Done(s) - s.out.sinceSync)|
          && (s.task.SyncData? || s.task.FinalSync? ==> s.out.disk == |s.out.stream|)
          && (s.task.Finished? ==> s.out.synced == s.out.disk == |s.out.stream|))
  }

  predicate Terminated(s: State) {
    && (forall k :: 0 <= k < |s.accepted| ==> EndsWithNewline(s.accepted[k]))
    && (forall i :: 0 <= i < |s.sends| && HasFrame(s.sends[i]) ==> EndsWithNewline(s.sends[i].frame))
  }

  predicate FileHolds(c: Config, s: State) {
    Streams(s) && Counts(s) && Flushes(c, s) && Syncs(c, s) && Terminated(s)
  }

  // ---------------------------------------------------------------- every step keeps it

  lemma AcceptKeepsFile(c: Config, s: State, t: State, frame: Bytes)
    requires Linked(s) && FileHolds(c, s) && Terminated(t)
    requires t.accepted == s.accepted + [frame] && t.out == s.out && t.task == s.task && t.taken == s.taken
    ensures FileHolds(c, t)
  {
    hide Terminated, Joined;
    JoinedIgnoresLater(s.accepted, frame, s.taken);
    JoinedIgnoresLater(s.accepted, frame, Done(s));
    if Busy(s.task) {
      JoinedIgnoresLater(s.accepted, frame, s.taken - 1);
    }
    if Live(s.task) {
      JoinedIgnoresLater(s.accepted, frame, Done(s) - s.out.sinceFlush);
      JoinedIgnoresLater(s.accepted, frame, Done(s) - s.out.sinceSync);
    }
  }

  lemma UntouchedKeepsFile(c: Config, s: State, t: State)
    requires FileHolds(c, s) && Terminated(t)
    requires t.accepted == s.accepted && t.out == s.out && t.task == s.task && t.taken == s.taken
    ensures FileHolds(c, t)
  {
  }

  lemma ReceiveKeepsFile(c: Config, s: State)
    requires Linked(s) && FileHolds(c, s) && s.task.Receive? && HeadInChannel(s)
    ensures FileHolds(c, ReceiveItem(s))
  {
    hide Terminated, Joined;
    JoinedNext(s.accepted, s.taken);
    TerminatedReceive(s);
  }

  lemma TerminatedReceive(s: State)
    requires Terminated(s) && HeadInChannel(s)
    ensures Terminated(ReceiveItem(s))
  {
  }

  lemma PieceJoins(joined: Bytes, frame: Bytes, k: nat, n: nat)
    requires k + n <= |frame|
    ensures joined + frame[..k] + frame[k..k + n] == joined + frame[..k + n] <= joined + frame
  {
    assert frame[..k] + frame[k..k + n] == frame[..k + n];
    assert frame == frame[..k + n] + frame[k + n..];
    AppendAssociates(joined, frame[..k + n], frame[k + n..]);
  }

  lemma WriteMoreKeepsFile(c: Config, s: State, n: nat)
    requires HandHolds(s) && FileHolds(c, s) && s.task.Write? && CanWork(s, n)
             && s.task.written < |s.sends[s.task.id].frame|
    ensures FileHolds(c, Work(c, s, n))
  {
    hide Joined;
    JoinedNext(s.accepted, s.taken - 1);
    PieceJoins(Joined(s.accepted, s.taken - 1), s.accepted[s.taken - 1], s.task.written, n);
  }

  lemma WriteDoneKeepsFile(c: Config, s: State, n: nat)
    requires HandHolds(s) && FileHolds(c, s) && s.task.Write? && CanWork(s, n)
             && s.task.written == |s.sends[s.task.id].frame|
    ensures FileHolds(c, Work(c, s, n))
  {
    var frame := s.accepted[s.taken - 1];
    var t := Work(c, s, n);
    assert Terminated(t) by {
      TerminatedUpdate(s, t, s.task.id, Leaving(frame));
    }
    hide Joined, Terminated;
    JoinedNext(s.accepted, s.taken - 1);
    assert frame[..|frame|] == frame;
  }

  lemma WriteKeepsFile(c: Config, s: State, n: nat)
    requires Linked(s) && FileHolds(c, s) && s.task.Write? && CanWork(s, n)
    ensures FileHolds(c, Work(c, s, n))
  {
    hide FileHolds, Work;
    if s.task.written < |s.sends[s.task.id].frame| {
      WriteMoreKeepsFile(c, s, n);
    } else {
      WriteDoneKeepsFile(c, s, n);
    }
  }

  /** The writer task deals with no item and has not failed. */
  predicate Tallies(task: Task) {
    !task.Write? && !task.Receive? && !task.Dropping? && !task.Closing?
  }

  lemma TallyKeepsCounts(c: Config, s: State)
    requires HandHolds(s) && Counts(s) && CanWork(s, 0) && Tallies(s.task)
    ensures Counts(Work(c, s, 0))
  {
    hide Joined;
    if s.task.CountBytes? {
      JoinedNext(s.accepted, s.taken - 1);
    }
  }

  lemma TallyKeepsFlushes(c: Config, s: State)
    requires Streams(s) && Flushes(c, s) && CanWork(s, 0) && Tallies(s.task)
    ensures Flushes(c, Work(c, s, 0))
  {
    hide Joined;
    JoinedPrefix(s.accepted, Done(s) - s.out.sinceFlush, Done(s));
  }

  lemma TallyKeepsSyncs(c: Config, s: State)
    requires Streams(s) && Syncs(c, s) && CanWork(s, 0) && Tallies(s.task)
    ensures Syncs(c, Work(c, s, 0))
  {
    hide Joined;
    JoinedPrefix(s.accepted, Done(s) - s.out.sinceSync, Done(s));
  }

  lemma TallyKeepsStreams(c: Config, s: State)
    requires Streams(s) && Terminated(s) && CanWork(s, 0) && Tallies(s.task)
    ensures Streams(Work(c, s, 0)) && Terminated(Work(c, s, 0))
  {
    hide Joined;
  }

  lemma TallyKeepsFile(c: Config, s: State)
    requires Linked(s) && FileHolds(c, s) && CanWork(s, 0) && Tallies(s.task)
    ensures FileHolds(c, Work(c, s, 0))
  {
    hide Joined, Streams, Counts, Flushes, Syncs, Terminated, HandHolds, ChannelHolds, Work, CanWork;
    TallyKeepsCounts(c, s);
    TallyKeepsFlushes(c, s);
    TallyKeepsSyncs(c, s);
    TallyKeepsStreams(c, s);
  }

  lemma WorkKeepsFile(c: Config, s: State, n: nat)
    requires Linked(s) && FileHolds(c, s) && CanWork(s, n)
    ensures FileHolds(c, Work(c, s, n))
  {
    if s.task.Write? {
      WriteKeepsFile(c, s, n);
    } else if s.task.Receive? && s.channel != [] {
      PopKeepsChannel(s.sends, s.channel, s.accepted, Ended);
      ReceiveKeepsFile(c, s);
    } else if Tallies(s.task) {
      TallyKeepsFile(c, s);
    } else {
      hide Joined, ChannelHolds, HandHolds, Terminated;
    }
  }

  lemma FailKeepsFile(c: Config, s: State)
    requires Linked(s) && FileHolds(c, s) && CanFail(s)
    ensures FileHolds(c, Fail(s))
  {
    hide Joined;
  }

  lemma TerminatedUpdate(s: State, t: State, i: nat, q: Phase)
    requires Terminated(s) && i < |s.sends| && t.sends == s.sends[i := q]
    requires HasFrame(q) ==> EndsWithNewline(q.frame)
    requires t.accepted == s.accepted
             || (HasFrame(s.sends[i]) && t.accepted == s.accepted + [s.sends[i].frame])
    ensures Terminated(t)
  {
  }

  lemma AdvanceKeepsFile(c: Config, s: State, i: nat)
    requires Linked(s) && FileHolds(c, s) && i < |s.sends| && Ready(c, s.sends[i], s.g, s.open)
    ensures FileHolds(c, Advance(c, s, i))
  {
    var p, t := s.sends[i], Advance(c, s, i);
    FrameCarries(c, p, s.g, s.open);
    hide ReservePhase, FileHolds, Linked;
    assert Terminated(t) by {
      KnownTerminated(c, s, i);
      TerminatedUpdate(s, t, i, ReservePhase(c, p, s.g, s.open).phase);
    }
    if p.Sendable? {
      AcceptKeepsFile(c, s, t, p.frame);
    } else {
      UntouchedKeepsFile(c, s, t);
    }
  }

  lemma KnownTerminated(c: Config, s: State, i: nat)
    requires FileHolds(c, s) && i < |s.sends|
    ensures Terminated(s) && (HasFrame(s.sends[i]) ==> EndsWithNewline(s.sends[i].frame))
  {
  }

  lemma FrameCarries(c: Config, p: Phase, g: Gauges, open: bool)
    requires Ready(c, p, g, open)
    ensures var q := ReservePhase(c, p, g, open).phase; HasFrame(q) ==> HasFrame(p) && q.frame == p.frame
  {
  }

  /** A call begins, encodes or gives up, an item is dropped, or the handle goes: the file is not involved. */
  lemma CallKeepsFile(c: Config, s: State, step: Step)
    requires FileHolds(c, s) && CanStep(c, s, step)
    requires step.Begin? || step.Encodes? || step.Aborts? || step.Drains? || step.DropsSender?
    ensures FileHolds(c, Next(c, s, step))
  {
    hide Streams, Counts, Flushes, Syncs;
    var t := Next(c, s, step);
    if step.Encodes? || step.Aborts? {
      TerminatedUpdate(s, t, step.i, t.sends[step.i]);
    } else if step.Drains? {
      TerminatedUpdate(s, t, s.channel[0], t.sends[s.channel[0]]);
    }
    UntouchedKeepsFile(c, s, t);
  }

  lemma SpillKeepsFile(c: Config, s: State, n: nat)
    requires FileHolds(c, s) && s.out.disk <= n <= |s.out.stream|
    ensures FileHolds(c, s.(out := s.out.(disk := n)))
  {
    hide Joined;
  }

  lemma StepKeepsFile(c: Config, s: State, step: Step)
    requires Linked(s) && FileHolds(c, s) && CanStep(c, s, step)
    ensures FileHolds(c, Next(c, s, step))
  {
    hide FileHolds, Linked, Advance, Work, Fail, Drain, EncodePhase, AbortPhase;
    match step {
      case Advances(i) => AdvanceKeepsFile(c, s, i);
      case Works(n) => WorkKeepsFile(c, s, n);
      case Fails => FailKeepsFile(c, s);
      case Spills(n) => SpillKeepsFile(c, s, n);
      case Begin => CallKeepsFile(c, s, step);
      case Encodes(_, _, _) => CallKeepsFile(c, s, step);
      case Aborts(_) => CallKeepsFile(c, s, step);
      case Drains => CallKeepsFile(c, s, step);
      case DropsSender => CallKeepsFile(c, s, step);
    }
  }

  lemma {:induction false} RunKeepsFile(c: Config, run: seq<State>, k: nat)
    requires IsRun(c, run) && k < |run|
    ensures FileHolds(c, run[k]) && Linked(run[k])
  {
    hide FileHolds, CanStep, Next, Linked;
    RunIsSound(c, run, k);
    if k == 0 {
      StartFile(c);
    } else {
      RunKeepsFile(c, run, k - 1);
      var step :| CanStep(c, run[k - 1], step) && run[k] == Next(c, run[k - 1], step);
      StepKeepsFile(c, run[k - 1], step);
    }
  }

  lemma StartFile(c: Config)
    ensures FileHolds(c, Start(c))
  {
    assert Joined([], 0) == [];
  }

  // ---------------------------------------------------------------- the file

  function File(s: State): Bytes
    requires s.out.disk <= |s.out.stream|
  {
    s.out.stream[..s.out.disk]
  }

  /** At every moment the file is a prefix of the accepted frames in channel order. */
  lemma FileIsPrefix(c: Config, run: seq<State>, k: nat)
    requires IsRun(c, run) && k < |run|
    ensures run[k].out.disk <= |run[k].out.stream| && File(run[k]) <= Concat(run[k].accepted)
  {
    RunKeepsFile(c, run, k);
    var s := run[k];
    JoinedPrefix(s.accepted, s.taken, |s.accepted|);
    JoinedAll(s.accepted);
  }

  /** After a clean end the file is all accepted frames, synced, and the reported records and bytes are exact. */
  lemma CleanEndIsComplete(c: Config, run: seq<State>, k: nat)
    requires IsRun(c, run) && k < |run| && run[k].task == Finished(true)
    ensures run[k].out.disk <= |run[k].out.stream| && File(run[k]) == Concat(run[k].accepted)
    ensures run[k].out.synced == run[k].out.disk
    ensures run[k].out.records == |run[k].accepted| && run[k].out.bytes == |Concat(run[k].accepted)|
  {
    RunKeepsFile(c, run, k);
    hide Joined, Terminated, ChannelHolds, HandHolds;
    JoinedAll(run[k].accepted);
  }

  /** Whenever the writer task waits for a record, fewer than `flushEvery` counted records are missing from the file. */
  lemma FlushBound(c: Config, run: seq<State>, k: nat) returns (n: nat)
    requires IsRun(c, run) && k < |run| && run[k].task.Receive?
    ensures n <= run[k].out.records <= |run[k].accepted| && run[k].out.records - n < c.FlushEvery()
    ensures run[k].out.disk <= |run[k].out.stream| && Concat(run[k].accepted[..n]) <= File(run[k])
  {
    RunKeepsFile(c, run, k);
    var s := run[k];
    n := s.out.records - s.out.sinceFlush;
    JoinedPrefix(s.accepted, n, s.taken);
    assert Joined(s.accepted, n) == s.out.stream[..|Joined(s.accepted, n)|];
  }

  /** Likewise, with syncing on, fewer than `fsyncEvery` counted records are not durable. */
  lemma SyncBound(c: Config, run: seq<State>, k: nat) returns (n: nat)
    requires IsRun(c, run) && k < |run| && run[k].task.Receive? && c.fsyncEvery > 0
    ensures n <= run[k].out.records <= |run[k].accepted| && run[k].out.records - n < c.fsyncEvery
    ensures run[k].out.synced <= |run[k].out.stream|
    ensures Concat(run[k].accepted[..n]) <= run[k].out.stream[..run[k].out.synced]
  {
    RunKeepsFile(c, run, k);
    var s := run[k];
    n := s.out.records - s.out.sinceSync;
    JoinedPrefix(s.accepted, n, s.taken);
    assert Joined(s.accepted, n) == s.out.stream[..|Joined(s.accepted, n)|];
  }

  // ---------------------------------------------------------------- write, then scan

  /** JSON escapes control characters, so a serialized payload has no newline; the frame adds the only one. */
  predicate PayloadsNewlineFree(frames: seq<Bytes>) {
    forall k :: 0 <= k < |frames| && frames[k] != [] ==> NewlineFree(frames[k][..|frames[k]| - 1])
  }

  /** Whatever happened, a scan of the file finds the first accepted frames and at most one partial record. */
  lemma FileSplits(c: Config, run: seq<State>, k: nat) returns (n: nat, p: Bytes)
    requires IsRun(c, run) && k < |run| && PayloadsNewlineFree(run[k].accepted)
    ensures run[k].out.disk <= |run[k].out.stream| && n <= |run[k].accepted|
    ensures Split(File(run[k])) == run[k].accepted[..n] + Partial(p)
    ensures n < |run[k].accepted| ==> p < run[k].accepted[n]
    ensures n == |run[k].accepted| ==> p == []
  {
    hide Split;
    RunKeepsFile(c, run, k);
    FileIsPrefix(c, run, k);
    var s := run[k];
    hide Linked, Streams, Counts, Flushes, Syncs;
    assert AreFrames(s.accepted);
    n, p := TruncatedFileSplits(s.accepted, s.out.disk);
    assert File(s) == Concat(s.accepted)[..s.out.disk];
  }

  /** After a clean end both scanners find exactly the accepted frames, as many as the writer task counted. */
  lemma CleanFileSplits(c: Config, run: seq<State>, k: nat)
    requires IsRun(c, run) && k < |run| && run[k].task == Finished(true) && PayloadsNewlineFree(run[k].accepted)
    ensures run[k].out.disk <= |run[k].out.stream|
    ensures Split(File(run[k])) == run[k].accepted && |Split(File(run[k]))| == run[k].out.records
  {
    hide Split;
    RunKeepsFile(c, run, k);
    CleanEndIsComplete(c, run, k);
    var s := run[k];
    hide Linked, Streams, Counts, Flushes, Syncs;
    assert AreFrames(s.accepted);
    SplitOfConcat(s.accepted, []);
    assert Concat(s.accepted) + [] == Concat(s.accepted);
  }
}
