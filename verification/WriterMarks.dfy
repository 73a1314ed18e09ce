/** The three high-water marks of the writer are exact: they equal the largest value their counter ever had. */
module WriterMarks {
  import opened Common
  import opened Writer
  import opened WriterBounds
  import opened WriterRuns

  datatype Meter = Depth | QueueBytes | ReservedBytes

  function Level(g: Gauges, m: Meter): int {
    match m
    case Depth => g.queued
    case QueueBytes => g.queuedBytes
    case ReservedBytes => g.reserved
  }

  function Mark(g: Gauges, m: Meter): int {
    match m
    case Depth => g.maxDepth
    case QueueBytes => g.maxQueueBytes
    case ReservedBytes => g.maxReserved
  }

  /** A counter value a send has seen and not yet folded into the high-water mark. */
  function Unfolded(p: Phase, m: Meter): Option<int> {
    if (p.Counted? && m.Depth?) || (p.Weighed? && m.QueueBytes?) || (p.Reserved? && m.ReservedBytes?)
    then Some(p.mark) else None
  }

  /** A step of one send raises a counter only while remembering its value, and folds exactly what it remembered. */
  predicate Meters(p: Phase, g: Gauges, q: Phase, h: Gauges, m: Meter) {
    && (Level(h, m) > Level(g, m) ==> Unfolded(q, m) == Some(Level(h, m)))
    && (Unfolded(q, m).Some? ==> Unfolded(q, m).value == Level(h, m))
    && Mark(h, m) == if Unfolded(p, m).Some? then Max(Mark(g, m), Unfolded(p, m).value) else Mark(g, m)
  }

  lemma AdvanceMeters(c: Config, p: Phase, g: Gauges, open: bool, m: Meter)
    requires Sane(c, p) && Ready(c, p, g, open)
    ensures var now := ReservePhase(c, p, g, open); Meters(p, g, now.phase, now.g, m)
  {
  }

  predicate Behind(s: State, m: Meter, peak: int) {
    && Mark(s.g, m) <= peak && Level(s.g, m) <= peak
    && forall i :: 0 <= i < |s.sends| && Unfolded(s.sends[i], m).Some? ==> Unfolded(s.sends[i], m).value <= peak
  }

  predicate Tracks(s: State, m: Meter, peak: int) {
    && Behind(s, m, peak)
    && (Mark(s.g, m) == peak || exists i :: 0 <= i < |s.sends| && Unfolded(s.sends[i], m) == Some(peak))
  }

  lemma MoveTracks(s: State, t: State, i: nat, q: Phase, m: Meter, peak: int)
    requires Tracks(s, m, peak) && i < |s.sends| && t.sends == s.sends[i := q]
    requires Meters(s.sends[i], s.g, q, t.g, m)
    ensures Tracks(t, m, Max(peak, Level(t.g, m)))
  {
    hide Level, Mark, Unfolded;
    var now := Max(peak, Level(t.g, m));
    assert t.sends[i] == q;
    if now == peak && Mark(s.g, m) != peak {
      var j :| 0 <= j < |s.sends| && Unfolded(s.sends[j], m) == Some(peak);
      if j != i {
        assert Unfolded(t.sends[j], m) == Some(peak);
      }
    }
  }

  lemma StillTracks(s: State, t: State, m: Meter, peak: int)
    requires Tracks(s, m, peak) && t.g == s.g && |s.sends| <= |t.sends|
    requires forall i :: 0 <= i < |s.sends| ==> t.sends[i] == s.sends[i]
    requires forall i :: |s.sends| <= i < |t.sends| ==> Unfolded(t.sends[i], m).None?
    ensures Tracks(t, m, Max(peak, Level(t.g, m)))
  {
    hide Level, Mark, Unfolded;
  }

  lemma SendTracks(c: Config, s: State, step: Step, m: Meter, peak: int)
    requires Safe(c, s) && CanStep(c, s, step) && Tracks(s, m, peak)
    requires step.Advances? || step.Encodes? || step.Aborts?
    ensures var t := Next(c, s, step); Tracks(t, m, Max(peak, Level(t.g, m)))
  {
    hide Tracks, ReservePhase, Balances;
    var t := Next(c, s, step);
    if step.Advances? {
      AdvanceMeters(c, s.sends[step.i], s.g, s.open, m);
      MoveTracks(s, t, step.i, ReservePhase(c, s.sends[step.i], s.g, s.open).phase, m, peak);
    } else {
      MoveTracks(s, t, step.i, t.sends[step.i], m, peak);
    }
  }

  lemma TaskTracks(c: Config, s: State, step: Step, m: Meter, peak: int)
    requires CanStep(c, s, step) && Tracks(s, m, peak)
    requires step.Works? || step.Fails? || step.Drains?
    ensures var t := Next(c, s, step); Tracks(t, m, Max(peak, Level(t.g, m)))
  {
    hide Tracks;
    var t := Next(c, s, step);
    if step.Drains? {
      MoveTracks(s, t, s.channel[0], t.sends[s.channel[0]], m, peak);
    } else if s.task.Write? && t.sends != s.sends {
      MoveTracks(s, t, s.task.id, t.sends[s.task.id], m, peak);
    } else if step.Works? && s.task.Receive? && HeadInChannel(s) {
      MoveTracks(s, t, s.channel[0], t.sends[s.channel[0]], m, peak);
    } else {
      StillTracks(s, t, m, peak);
    }
  }

  lemma StepTracks(c: Config, s: State, step: Step, m: Meter, peak: int)
    requires Safe(c, s) && CanStep(c, s, step) && Tracks(s, m, peak)
    ensures var t := Next(c, s, step); Tracks(t, m, Max(peak, Level(t.g, m)))
  {
    match step {
      case Advances(_) => SendTracks(c, s, step, m, peak);
      case Encodes(_, _, _) => SendTracks(c, s, step, m, peak);
      case Aborts(_) => SendTracks(c, s, step, m, peak);
      case Works(_) => TaskTracks(c, s, step, m, peak);
      case Fails => TaskTracks(c, s, step, m, peak);
      case Drains => TaskTracks(c, s, step, m, peak);
      case Begin => StillTracks(s, Next(c, s, step), m, peak);
      case Spills(_) => StillTracks(s, Next(c, s, step), m, peak);
      case DropsSender => StillTracks(s, Next(c, s, step), m, peak);
    }
  }

  /** The largest value the counter had in any state of the run. */
  function Peak(run: seq<State>, m: Meter): (peak: int)
    requires run != []
    ensures forall k :: 0 <= k < |run| ==> Level(run[k].g, m) <= peak
    ensures exists k :: 0 <= k < |run| && Level(run[k].g, m) == peak
  {
    var last := Level(run[|run| - 1].g, m);
    if |run| == 1 then last else Max(Peak(run[..|run| - 1], m), last)
  }

  lemma {:induction false} RunTracks(c: Config, run: seq<State>, m: Meter)
    requires IsRun(c, run)
    ensures Tracks(run[|run| - 1], m, Peak(run, m))
  {
    hide Tracks, Safe, CanStep, Next, Level;
    if |run| == 1 {
      StartTracks(c, m);
    } else {
      var before := run[..|run| - 1];
      PrefixIsRun(c, run, |run| - 1);
      RunTracks(c, before, m);
      RunIsSound(c, run, |run| - 2);
      var s, t := run[|run| - 2], run[|run| - 1];
      var step :| CanStep(c, s, step) && t == Next(c, s, step);
      StepTracks(c, s, step, m, Peak(before, m));
    }
  }

  lemma StartTracks(c: Config, m: Meter)
    ensures Tracks(Start(c), m, Level(Start(c).g, m))
  {
  }

  predicate Folded(s: State, m: Meter) {
    forall i :: 0 <= i < |s.sends| ==> Unfolded(s.sends[i], m).None?
  }

  /** When no send is between raising a counter and updating its mark, the mark is the counter's maximum over the run. */
  lemma HighWaterIsExact(c: Config, run: seq<State>, m: Meter)
    requires IsRun(c, run) && Folded(run[|run| - 1], m)
    ensures Mark(run[|run| - 1].g, m) == Peak(run, m)
  {
    RunTracks(c, run, m);
  }
}
