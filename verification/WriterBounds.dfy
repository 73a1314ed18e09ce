/** What every interleaving of the writer keeps: permits and counters balance, bounds hold, and nothing leaks. */
module WriterBounds {
  import opened Framing
  import opened Writer

  // ---------------------------------------------------------------- what a send holds

  datatype Load = Load(entries: nat, permits: nat, reserved: nat, depth: nat, bytes: nat, slots: nat) {
    function Plus(o: Load): Load {
      Load(entries + o.entries, permits + o.permits, reserved + o.reserved, depth + o.depth,
           bytes + o.bytes, slots + o.slots)
    }
  }

  const NOTHING := Load(0, 0, 0, 0, 0, 0)

  /** What a send in this phase holds of each permit, and how much of each counter is its doing. */
  function LoadOf(c: Config, p: Phase): Load {
    match p
    case WaitEntry => NOTHING
    case WaitBytes => Load(1, 0, 0, 0, 0, 0)
    case Acquired => Load(1, c.maxFrame, 0, 0, 0, 0)
    case Reserved(_) => Load(1, c.maxFrame, c.maxFrame, 0, 0, 0)
    case Encoding => Load(1, c.maxFrame, c.maxFrame, 0, 0, 0)
    case Shrinking(f) => Load(1, c.maxFrame, |f|, 0, 0, 0)
    case WaitSlot(f) => Load(1, |f|, |f|, 0, 0, 0)
    case HasSlot(f) => Load(1, |f|, |f|, 0, 0, 1)
    case Counted(f, _) => Load(1, |f|, |f|, 1, 0, 1)
    case Entered(f) => Load(1, |f|, |f|, 1, 0, 1)
    case Weighed(f, _) => Load(1, |f|, |f|, 1, |f|, 1)
    case Sendable(f) => Load(1, |f|, |f|, 1, |f|, 1)
    case InChannel(f) => Load(1, |f|, |f|, 1, |f|, 1)
    case InHand(f) => Load(1, |f|, |f|, 1, |f|, 0)
    case Leaving(f) => Load(1, |f|, |f|, 1, |f|, 0)
    case LeavingBytes(f) => Load(1, |f|, |f|, 0, |f|, 0)
    case Unreserving(n) => Load(1, n, n, 0, 0, 0)
    case Returning(n) => Load(1, n, 0, 0, 0, 0)
    case ReturningEntry => Load(1, 0, 0, 0, 0, 0)
    case Ended => NOTHING
  }

  function Total(c: Config, sends: seq<Phase>): Load {
    if sends == [] then NOTHING else LoadOf(c, sends[0]).Plus(Total(c, sends[1..]))
  }

  lemma {:induction false} TotalUpdate(c: Config, sends: seq<Phase>, i: nat, p: Phase)
    requires i < |sends|
    ensures Total(c, sends[i := p]).Plus(LoadOf(c, sends[i])) == Total(c, sends).Plus(LoadOf(c, p))
  {
    hide LoadOf;
    var now := sends[i := p];
    if i == 0 {
      assert now[1..] == sends[1..];
    } else {
      TotalUpdate(c, sends[1..], i - 1, p);
      assert now[1..] == sends[1..][i - 1 := p];
    }
  }

  lemma {:induction false} TotalAppend(c: Config, sends: seq<Phase>, last: Phase)
    ensures Total(c, sends + [last]) == Total(c, sends).Plus(LoadOf(c, last))
  {
    hide LoadOf;
    var now := sends + [last];
    if sends == [] {
      assert now == [last];
    } else {
      TotalAppend(c, sends[1..], last);
      assert now[1..] == sends[1..] + [last];
    }
  }

  predicate Ordered(l: Load) {
    l.bytes <= l.reserved <= l.permits && l.depth <= l.entries && l.slots <= l.entries
  }

  predicate HasFrame(p: Phase) {
    || p.Shrinking? || p.WaitSlot? || p.HasSlot? || p.Counted? || p.Entered? || p.Weighed? || p.Sendable?
    || p.InChannel? || p.InHand? || p.Leaving? || p.LeavingBytes?
  }

  /** Frames fit the limit, and remembered counter values are within their limits. */
  predicate Sane(c: Config, p: Phase) {
    && (HasFrame(p) ==> 0 < |p.frame| <= c.maxFrame)
    && (p.Reserved? || p.Weighed? ==> 0 <= p.mark <= c.maxQueued)
    && (p.Counted? ==> 0 <= p.mark <= c.Capacity())
  }

  predicate AllSane(c: Config, sends: seq<Phase>) {
    forall i :: 0 <= i < |sends| ==> Sane(c, sends[i])
  }

  lemma LoadOrdered(c: Config, p: Phase)
    requires Sane(c, p)
    ensures Ordered(LoadOf(c, p))
  {
  }

  lemma {:induction false} TotalOrdered(c: Config, sends: seq<Phase>)
    requires AllSane(c, sends)
    ensures Ordered(Total(c, sends))
  {
    hide LoadOf;
    if sends != [] {
      LoadOrdered(c, sends[0]);
      TotalOrdered(c, sends[1..]);
    }
  }

  // ---------------------------------------------------------------- the balance

  /** Every free permit is one nobody holds, and every counter is the sum of what the sends put there. */
  predicate Balances(c: Config, g: Gauges, open: bool, t: Load) {
    && g.entries + t.entries == c.Capacity()
    && g.permits + t.permits == c.maxQueued
    && g.reserved == t.reserved
    && g.queued == t.depth
    && g.queuedBytes == t.bytes
    && (open ==> g.slots + t.slots == c.Capacity())
    && g.entries >= 0 && g.permits >= 0
  }

  predicate WithinLimits(c: Config, g: Gauges) {
    0 <= g.maxDepth <= c.Capacity() && 0 <= g.maxQueueBytes <= c.maxQueued && 0 <= g.maxReserved <= c.maxQueued
  }

  predicate Safe(c: Config, s: State) {
    AllSane(c, s.sends) && Balances(c, s.g, s.open, Total(c, s.sends)) && WithinLimits(c, s.g)
  }

  /** The account of one send goes from `a` to `b`, and counters and permits change by the difference. */
  predicate Moved(g: Gauges, h: Gauges, open: bool, a: Load, b: Load) {
    && h.entries - g.entries == a.entries - b.entries
    && h.permits - g.permits == a.permits - b.permits
    && h.reserved - g.reserved == b.reserved - a.reserved
    && h.queued - g.queued == b.depth - a.depth
    && h.queuedBytes - g.queuedBytes == b.bytes - a.bytes
    && (open ==> h.slots - g.slots == a.slots - b.slots)
    && h.entries >= 0 && h.permits >= 0
  }

  /** The step of one send from phase `p` is accounted for, and leaves it and the high-water marks within limits. */
  predicate Accounted(c: Config, p: Phase, g: Gauges, open: bool, now: Stepped) {
    && Moved(g, now.g, open, LoadOf(c, p), LoadOf(c, now.phase))
    && Sane(c, now.phase) && WithinLimits(c, now.g)
  }

  lemma AccountedKeepsSafe(c: Config, s: State, t: State, i: nat, now: Stepped)
    requires Safe(c, s) && i < |s.sends| && Accounted(c, s.sends[i], s.g, t.open, now)
    requires t.sends == s.sends[i := now.phase] && t.g == now.g && (t.open ==> s.open)
    ensures Safe(c, t)
  {
    hide LoadOf, Total, Sane;
    TotalUpdate(c, s.sends, i, now.phase);
  }

  // ---------------------------------------------------------------- bounds

  /** The chains of inequalities that hold at every atomic step. */
  lemma SafeBounds(c: Config, s: State)
    requires Safe(c, s)
    ensures 0 <= s.g.queuedBytes <= s.g.reserved <= c.maxQueued - s.g.permits <= c.maxQueued
    ensures 0 <= s.g.queued <= c.Capacity() - s.g.entries <= c.Capacity()
  {
    hide Total, LoadOf;
    TotalOrdered(c, s.sends);
  }

  lemma {:induction false} TotalHasOne(c: Config, sends: seq<Phase>, i: nat)
    requires i < |sends| && AllSane(c, sends)
    ensures Ordered(LoadOf(c, sends[i]))
    ensures var (all, one) := (Total(c, sends), LoadOf(c, sends[i]));
            && all.entries - one.entries >= all.slots - one.slots
            && all.permits - one.permits >= all.reserved - one.reserved >= all.bytes - one.bytes
            && all.entries - one.entries >= all.depth - one.depth
            && all.bytes >= one.bytes && all.slots >= one.slots && all.depth >= one.depth
  {
    hide LoadOf, Sane;
    LoadOrdered(c, sends[0]);
    TotalOrdered(c, sends[1..]);
    if i > 0 {
      TotalHasOne(c, sends[1..], i - 1);
    }
  }

  /** A sender that holds an entry permit finds a free slot as long as the receiver is open. */
  lemma SlotIsFree(c: Config, s: State, i: nat)
    requires Safe(c, s) && s.open && i < |s.sends| && s.sends[i].WaitSlot?
    ensures s.g.slots > 0
  {
    hide Total;
    TotalHasOne(c, s.sends, i);
  }

  // ---------------------------------------------------------------- every step of a send is accounted for

  /** The room there is for the send's own next step, given what everyone holds. */
  predicate Room(c: Config, p: Phase, g: Gauges) {
    var own := LoadOf(c, p);
    && g.entries >= 0 && g.permits >= 0
    && 0 <= g.reserved - own.reserved <= c.maxQueued - g.permits - own.permits
    && 0 <= g.queuedBytes - own.bytes <= g.reserved - own.reserved
    && 0 <= g.queued - own.depth <= c.Capacity() - g.entries - own.entries
    && WithinLimits(c, g)
  }

  lemma SafeHasRoom(c: Config, s: State, i: nat)
    requires Safe(c, s) && i < |s.sends|
    ensures Room(c, s.sends[i], s.g) && Sane(c, s.sends[i])
  {
    hide Total, LoadOf, Sane;
    TotalHasOne(c, s.sends, i);
  }

  lemma ReserveAccounted(c: Config, p: Phase, g: Gauges, open: bool)
    requires Room(c, p, g) && Sane(c, p) && Ready(c, p, g, open)
    ensures Accounted(c, p, g, open, ReservePhase(c, p, g, open))
  {
    hide EnqueuePhase, ReleasePhase;
    match p {
      case WaitEntry =>
      case WaitBytes =>
      case Acquired =>
      case Reserved(mark) =>
      case Shrinking(frame) =>
      case WaitSlot(frame) =>
      case _ => EnqueueAccounted(c, p, g, open);
    }
  }

  lemma EnqueueAccounted(c: Config, p: Phase, g: Gauges, open: bool)
    requires Room(c, p, g) && Sane(c, p)
    ensures Accounted(c, p, g, open, EnqueuePhase(p, g))
  {
    hide ReleasePhase;
    match p {
      case HasSlot(frame) =>
      case Counted(frame, mark) =>
      case Entered(frame) =>
      case Weighed(frame, mark) =>
      case Sendable(frame) =>
      case _ => ReleaseAccounted(c, p, g, open);
    }
  }

  lemma ReleaseAccounted(c: Config, p: Phase, g: Gauges, open: bool)
    requires Room(c, p, g) && Sane(c, p)
    ensures Accounted(c, p, g, open, ReleasePhase(p, g))
  {
  }

  lemma EncodeAccounted(c: Config, g: Gauges, open: bool, first: Pass, second: Pass)
    requires Room(c, Encoding, g)
    ensures Accounted(c, Encoding, g, open, EncodePhase(c, g, first, second))
  {
  }

  lemma AbortAccounted(c: Config, p: Phase, g: Gauges, open: bool)
    requires Room(c, p, g) && Sane(c, p) && Waits(p)
    ensures Accounted(c, p, g, open, Stepped(AbortPhase(p), g))
  {
  }

  lemma HandoverAccounted(c: Config, frame: Bytes, g: Gauges, open: bool)
    requires Sane(c, InChannel(frame))
    ensures Room(c, InChannel(frame), g) ==>
              Accounted(c, InChannel(frame), g, open, Stepped(InHand(frame), g.(slots := g.slots + 1)))
    ensures Room(c, InChannel(frame), g) ==> Accounted(c, InChannel(frame), g, false, Stepped(Leaving(frame), g))
    ensures Room(c, InHand(frame), g) ==> Accounted(c, InHand(frame), g, open, Stepped(Leaving(frame), g))
  {
  }

  lemma StartIsSafe(c: Config)
    ensures Safe(c, Start(c))
  {
  }

  lemma AppendKeepsSafe(c: Config, s: State, p: Phase)
    requires Safe(c, s) && LoadOf(c, p) == NOTHING && Sane(c, p)
    ensures Safe(c, s.(sends := s.sends + [p]))
  {
    hide LoadOf, Total, Sane, WithinLimits;
    TotalAppend(c, s.sends, p);
    var t := Total(c, s.sends);
    assert t.Plus(NOTHING) == t;
  }

  lemma BeginKeepsSafe(c: Config, s: State)
    requires Safe(c, s)
    ensures Safe(c, s.(sends := s.sends + [WaitEntry]))
  {
    hide Safe;
    AppendKeepsSafe(c, s, WaitEntry);
  }

  lemma AdvanceKeepsSafe(c: Config, s: State, i: nat)
    requires Safe(c, s) && i < |s.sends| && Ready(c, s.sends[i], s.g, s.open)
    ensures Safe(c, Advance(c, s, i))
  {
    hide Total, LoadOf, Sane, ReservePhase, Moved, WithinLimits;
    SafeHasRoom(c, s, i);
    ReserveAccounted(c, s.sends[i], s.g, s.open);
    AccountedKeepsSafe(c, s, Advance(c, s, i), i, ReservePhase(c, s.sends[i], s.g, s.open));
  }

  lemma WorkKeepsSafe(c: Config, s: State, n: nat)
    requires Safe(c, s) && CanWork(s, n)
    ensures Safe(c, Work(c, s, n))
  {
    hide Total, LoadOf, Room, Sane;
    var t := Work(c, s, n);
    if s.task.Receive? && HeadInChannel(s) {
      var id := s.channel[0];
      SafeHasRoom(c, s, id);
      HandoverAccounted(c, s.sends[id].frame, s.g, s.open);
      AccountedKeepsSafe(c, s, t, id, Stepped(InHand(s.sends[id].frame), s.g.(slots := s.g.slots + 1)));
    } else if s.task.Write? {
      var id := s.task.id;
      SafeHasRoom(c, s, id);
      HandSane(c, s.sends[id].frame);
      HandoverAccounted(c, s.sends[id].frame, s.g, s.open);
      if s.task.written == |s.sends[id].frame| {
        AccountedKeepsSafe(c, s, t, id, Stepped(Leaving(s.sends[id].frame), s.g));
      }
    }
  }

  lemma HandSane(c: Config, frame: Bytes)
    ensures Sane(c, InHand(frame)) <==> Sane(c, InChannel(frame))
  {
  }

  lemma FailKeepsSafe(c: Config, s: State)
    requires Safe(c, s) && CanFail(s)
    ensures Safe(c, Fail(s))
  {
    hide Total, LoadOf, Room, Sane;
    if s.task.Write? {
      var id := s.task.id;
      SafeHasRoom(c, s, id);
      HandSane(c, s.sends[id].frame);
      HandoverAccounted(c, s.sends[id].frame, s.g, s.open);
      AccountedKeepsSafe(c, s, Fail(s), id, Stepped(Leaving(s.sends[id].frame), s.g));
    }
  }

  lemma DrainKeepsSafe(c: Config, s: State)
    requires Safe(c, s) && CanDrain(s)
    ensures Safe(c, Drain(s))
  {
    hide Total, LoadOf, Room, Sane;
    var id := s.channel[0];
    SafeHasRoom(c, s, id);
    HandoverAccounted(c, s.sends[id].frame, s.g, false);
    AccountedKeepsSafe(c, s, Drain(s), id, Stepped(Leaving(s.sends[id].frame), s.g));
  }

  lemma StepKeepsSafe(c: Config, s: State, step: Step)
    requires Safe(c, s) && CanStep(c, s, step)
    ensures Safe(c, Next(c, s, step))
  {
    hide Total, LoadOf, Room, Sane, Advance, Work, Fail, Drain, ReservePhase, EncodePhase, AbortPhase, Accounted;
    match step {
      case Begin => BeginKeepsSafe(c, s);
      case Advances(i) => AdvanceKeepsSafe(c, s, i);
      case Encodes(i, first, second) =>
        SafeHasRoom(c, s, i);
        EncodeAccounted(c, s.g, s.open, first, second);
        AccountedKeepsSafe(c, s, Next(c, s, step), i, EncodePhase(c, s.g, first, second));
      case Aborts(i) =>
        SafeHasRoom(c, s, i);
        AbortAccounted(c, s.sends[i], s.g, s.open);
        AccountedKeepsSafe(c, s, Next(c, s, step), i, Stepped(AbortPhase(s.sends[i]), s.g));
      case Works(n) => WorkKeepsSafe(c, s, n);
      case Fails => FailKeepsSafe(c, s);
      case Drains => DrainKeepsSafe(c, s);
      case Spills(n) =>
      case DropsSender =>
    }
  }
}
