/**
 The byte-bounded JSON-lines writer as a step machine. Many sends and one writer task share an entry semaphore, a byte
 semaphore, a bounded channel and atomic counters; each atomic operation, permit acquisition and permit return is one
 step, and steps of different sends and of the writer task interleave freely. A timeout or a cancelled send is an abort
 at any point where the send waits.
 */
module Writer {
  import opened Common
  import opened Framing

  const U32_MAX := 0xFFFF_FFFF

  datatype Config = Config(capacity: nat, maxFrame: nat, maxQueued: nat, flushEvery: nat, fsyncEvery: nat) {
    function Capacity(): nat {
      Max(capacity, 1)
    }

    function FlushEvery(): nat {
      Max(flushEvery, 1)
    }
  }

  datatype BoundsError = ZeroFrameLimit | ZeroQueueLimit | FrameOverQueue | QueueOverSemaphore

  function ValidateByteBounds(c: Config): (r: Option<BoundsError>)
    ensures r.None? <==> 0 < c.maxFrame <= c.maxQueued <= U32_MAX
  {
    if c.maxFrame == 0 then Some(ZeroFrameLimit)
    else if c.maxQueued == 0 then Some(ZeroQueueLimit)
    else if c.maxFrame > c.maxQueued then Some(FrameOverQueue)
    else if c.maxQueued > U32_MAX then Some(QueueOverSemaphore)
    else None
  }

  // ---------------------------------------------------------------- one send

  /** Where one send is: from waiting for its entry permit to the return of the last permit it held. */
  datatype Phase =
    | WaitEntry
    | WaitBytes
    | Acquired
    | Reserved(mark: int)                 // counted; the reservation high-water is not updated yet
    | Encoding
    | Shrinking(frame: Bytes)             // the surplus is off the counter; its permits are still held
    | WaitSlot(frame: Bytes)
    | HasSlot(frame: Bytes)
    | Counted(frame: Bytes, mark: int)    // one deeper; the depth high-water is not updated yet
    | Entered(frame: Bytes)
    | Weighed(frame: Bytes, mark: int)    // its bytes are queued; the byte high-water is not updated yet
    | Sendable(frame: Bytes)
    | InChannel(frame: Bytes)
    | InHand(frame: Bytes)
    | Leaving(frame: Bytes)
    | LeavingBytes(frame: Bytes)
    | Unreserving(held: nat)
    | Returning(held: nat)
    | ReturningEntry
    | Ended
  {
    /** The call itself has not returned: it has neither entered the channel nor begun to give up. */
    predicate Sending() {
      !InChannel? && !InHand? && !Releasing() && !Ended?
    }

    predicate Releasing() {
      Leaving? || LeavingBytes? || Unreserving? || Returning? || ReturningEntry?
    }
  }

  // ---------------------------------------------------------------- the writer task

  datatype Task =
    | Receive
    | Write(id: nat, written: nat)
    | Release(id: nat, len: nat)
    | CountRecord(len: nat)
    | CountBytes(len: nat)
    | FlushCheck
    | SyncCheck
    | SyncData
    | FinalFlush
    | FinalSync
    | Dropping(id: nat)
    | Closing
    | Finished(clean: bool)

  /** The shared semaphores' free permits and the atomic counters. */
  datatype Gauges = Gauges(
    entries: int, permits: int, slots: int,
    queued: int, queuedBytes: int, reserved: int,
    maxDepth: int, maxQueueBytes: int, maxReserved: int)

  /** What the writer task has done: bytes given to the buffer, how many reached the file, and how many are synced. */
  datatype Output = Output(
    stream: Bytes, disk: nat, synced: nat,
    records: nat, bytes: nat, sinceFlush: nat, sinceSync: nat)

  datatype State = State(
    g: Gauges,
    sends: seq<Phase>,
    channel: seq<nat>,
    open: bool,
    senderAlive: bool,
    accepted: seq<Bytes>,
    taken: nat,
    task: Task,
    out: Output)

  function Start(c: Config): State {
    State(Gauges(c.Capacity(), c.maxQueued, c.Capacity(), 0, 0, 0, 0, 0, 0), [], [], true, true, [], 0, Receive,
          Output([], 0, 0, 0, 0, 0, 0))
  }

  // ---------------------------------------------------------------- steps of a send

  datatype Stepped = Stepped(phase: Phase, g: Gauges)

  /** The one step a send can take by itself; waiting phases need what they wait for. */
  predicate Ready(c: Config, p: Phase, g: Gauges, open: bool) {
    match p
    case WaitEntry => g.entries > 0
    case WaitBytes => g.permits >= c.maxFrame
    case WaitSlot(_) => !open || g.slots > 0
    case Encoding => false
    case InChannel(_) => false
    case InHand(_) => false
    case Ended => false
    case _ => true
  }

  /** From the entry permit to the channel slot. */
  function ReservePhase(c: Config, p: Phase, g: Gauges, open: bool): Stepped {
    match p
    case WaitEntry => Stepped(WaitBytes, g.(entries := g.entries - 1))
    case WaitBytes => Stepped(Acquired, g.(permits := g.permits - c.maxFrame))
    case Acquired => Stepped(Reserved(g.reserved + c.maxFrame), g.(reserved := g.reserved + c.maxFrame))
    case Reserved(mark) => Stepped(Encoding, g.(maxReserved := Max(g.maxReserved, mark)))
    case Shrinking(frame) => Stepped(WaitSlot(frame), g.(permits := g.permits + (c.maxFrame - |frame|)))
    case WaitSlot(frame) =>
      if open then Stepped(HasSlot(frame), g.(slots := g.slots - 1)) else Stepped(Unreserving(|frame|), g)
    case _ => EnqueuePhase(p, g)
  }

  /** From the channel slot into the channel. */
  function EnqueuePhase(p: Phase, g: Gauges): Stepped {
    match p
    case HasSlot(frame) => Stepped(Counted(frame, g.queued + 1), g.(queued := g.queued + 1))
    case Counted(frame, mark) => Stepped(Entered(frame), g.(maxDepth := Max(g.maxDepth, mark)))
    case Entered(frame) => Stepped(Weighed(frame, g.queuedBytes + |frame|), g.(queuedBytes := g.queuedBytes + |frame|))
    case Weighed(frame, mark) => Stepped(Sendable(frame), g.(maxQueueBytes := Max(g.maxQueueBytes, mark)))
    case Sendable(frame) => Stepped(InChannel(frame), g)
    case _ => ReleasePhase(p, g)
  }

  /** Giving back, in the order of the drop handlers: depth, queued bytes, reservation, byte permits, entry permit. */
  function ReleasePhase(p: Phase, g: Gauges): Stepped {
    match p
    case Leaving(frame) => Stepped(LeavingBytes(frame), g.(queued := g.queued - 1))
    case LeavingBytes(frame) => Stepped(Unreserving(|frame|), g.(queuedBytes := g.queuedBytes - |frame|))
    case Unreserving(held) => Stepped(Returning(held), g.(reserved := g.reserved - held))
    case Returning(held) => Stepped(ReturningEntry, g.(permits := g.permits + held))
    case ReturningEntry => Stepped(Ended, g.(entries := g.entries + 1))
    case _ => Stepped(p, g)
  }

  /** Encoding either fails, and the whole reservation is given back, or the reservation shrinks to the frame. */
  function EncodePhase(c: Config, g: Gauges, first: Pass, second: Pass): Stepped {
    match Encoded(first, second, c.maxFrame)
    case Err(_) => Stepped(Unreserving(c.maxFrame), g)
    case Ok(frame) =>
      if |frame| == c.maxFrame then Stepped(WaitSlot(frame), g)
      else Stepped(Shrinking(frame), g.(reserved := g.reserved - (c.maxFrame - |frame|)))
  }

  /** A timeout, a closed channel or a cancelled call, at a point where the send waits. */
  predicate Waits(p: Phase) {
    p.WaitEntry? || p.WaitBytes? || p.WaitSlot?
  }

  function AbortPhase(p: Phase): Phase {
    match p
    case WaitEntry => Ended
    case WaitBytes => ReturningEntry
    case WaitSlot(frame) => Unreserving(|frame|)
    case _ => p
  }

  function Put(s: State, i: nat, now: Stepped): State
    requires i < |s.sends|
  {
    s.(sends := s.sends[i := now.phase], g := now.g)
  }

  function Advance(c: Config, s: State, i: nat): State
    requires i < |s.sends|
  {
    var p := s.sends[i];
    var t := Put(s, i, ReservePhase(c, p, s.g, s.open));
    if p.Sendable? then t.(channel := s.channel + [i], accepted := s.accepted + [p.frame]) else t
  }

  // ---------------------------------------------------------------- steps of the writer task

  /** The writer task's next step when nothing goes wrong; `n` is how many bytes one write accepts. */
  predicate CanWork(s: State, n: nat) {
    match s.task
    case Receive => s.channel != [] || !s.senderAlive
    case Write(id, k) => id < |s.sends| && s.sends[id].InHand? && Accepts(|s.sends[id].frame| - k, n)
    case Release(id, _) => id < |s.sends| && s.sends[id].Ended?
    case Dropping(id) => id < |s.sends| && s.sends[id].Ended?
    case Closing => s.channel == []
    case Finished(_) => false
    case _ => true
  }

  /** A write accepts some of the bytes that are left; accepting none of them is an error. */
  predicate Accepts(left: int, n: nat) {
    n <= left && (0 < left ==> 0 < n)
  }

  function Work(c: Config, s: State, n: nat): State
    requires CanWork(s, n)
  {
    match s.task
    case Receive => if s.channel == [] then s.(task := FinalFlush) else ReceiveItem(s)
    case Write(id, k) => WriteSome(s, id, k, n)
    case Release(_, len) => s.(task := CountRecord(len))
    case Dropping(_) => s.(task := Closing, open := false)
    case Closing => s.(task := Finished(false))
    case _ => Tally(c, s)
  }

  /** Counting the record, then flushing and syncing as configured, and at the end flushing and syncing once more. */
  function Tally(c: Config, s: State): State {
    var o := s.out;
    match s.task
    case CountRecord(len) => s.(task := CountBytes(len), out := o.(records := o.records + 1))
    case CountBytes(len) =>
      s.(task := FlushCheck, out := o.(bytes := o.bytes + len, sinceFlush := o.sinceFlush + 1, sinceSync := o.sinceSync + 1))
    case FlushCheck =>
      s.(task := SyncCheck,
         out := if o.sinceFlush >= c.FlushEvery() then o.(disk := |o.stream|, sinceFlush := 0) else o)
    case SyncCheck =>
      if c.fsyncEvery > 0 && o.sinceSync >= c.fsyncEvery then s.(task := SyncData, out := o.(disk := |o.stream|))
      else s.(task := Receive)
    case SyncData => s.(task := Receive, out := o.(synced := o.disk, sinceSync := 0))
    case FinalFlush => s.(task := FinalSync, out := o.(disk := |o.stream|))
    case FinalSync => s.(task := Finished(true), out := o.(synced := o.disk), open := false)
    case _ => s
  }

  predicate HeadInChannel(s: State) {
    s.channel != [] && s.channel[0] < |s.sends| && s.sends[s.channel[0]].InChannel?
  }

  /** Receiving frees the channel slot; the entry and byte permits stay with the item. */
  function ReceiveItem(s: State): State {
    if !HeadInChannel(s) then s
    else
      var id := s.channel[0];
      Put(s, id, Stepped(InHand(s.sends[id].frame), s.g.(slots := s.g.slots + 1)))
        .(channel := s.channel[1..], taken := s.taken + 1, task := Write(id, 0))
  }

  /** Part of the frame reaches the buffered stream; after all of it the item gives back what it holds. */
  function WriteSome(s: State, id: nat, k: nat, n: nat): State
    requires id < |s.sends| && s.sends[id].InHand? && Accepts(|s.sends[id].frame| - k, n)
  {
    var frame := s.sends[id].frame;
    if k == |frame| then Put(s, id, Stepped(Leaving(frame), s.g)).(task := Release(id, |frame|))
    else s.(out := s.out.(stream := s.out.stream + frame[k..k + n]), task := Write(id, k + n))
  }

  /**
   An I/O error, or the writer task being aborted, at any of its awaits. An item in hand is dropped first and gives back
   what it holds; then the receiver is dropped.
   */
  predicate CanFail(s: State) {
    match s.task
    case Write(id, _) => id < |s.sends| && s.sends[id].InHand?
    case Receive => true
    case FlushCheck => true
    case SyncCheck => true
    case SyncData => true
    case FinalFlush => true
    case FinalSync => true
    case _ => false
  }

  function Fail(s: State): State
    requires CanFail(s)
  {
    if s.task.Write? then
      Put(s, s.task.id, Stepped(Leaving(s.sends[s.task.id].frame), s.g)).(task := Dropping(s.task.id))
    else s.(task := Closing, open := false)
  }

  /** A dropped receiver, or the channel itself once both ends are gone, drops the items still in it. */
  predicate CanDrain(s: State) {
    !s.open && HeadInChannel(s) && (s.task.Closing? || !s.senderAlive)
  }

  function Drain(s: State): State
    requires CanDrain(s)
  {
    var id := s.channel[0];
    Put(s, id, Stepped(Leaving(s.sends[id].frame), s.g)).(channel := s.channel[1..])
  }

  // ---------------------------------------------------------------- runs

  datatype Step =
    | Begin
    | Advances(i: nat)
    | Encodes(i: nat, first: Pass, second: Pass)
    | Aborts(i: nat)
    | Works(n: nat)
    | Fails
    | Drains
    | Spills(n: nat)
    | DropsSender

  /** The writer handle is consumed by shutdown, so it can go only when no call is using it. */
  predicate CanStep(c: Config, s: State, step: Step) {
    match step
    case Begin => s.senderAlive
    case Advances(i) => i < |s.sends| && Ready(c, s.sends[i], s.g, s.open)
    case Encodes(i, _, _) => i < |s.sends| && s.sends[i].Encoding?
    case Aborts(i) => i < |s.sends| && Waits(s.sends[i])
    case Works(n) => CanWork(s, n)
    case Fails => CanFail(s)
    case Drains => CanDrain(s)
    case Spills(n) => s.out.disk <= n <= |s.out.stream|
    case DropsSender => s.senderAlive && forall i :: 0 <= i < |s.sends| ==> !s.sends[i].Sending()
  }

  function Next(c: Config, s: State, step: Step): State
    requires CanStep(c, s, step)
  {
    match step
    case Begin => s.(sends := s.sends + [WaitEntry])
    case Advances(i) => Advance(c, s, i)
    case Encodes(i, first, second) => Put(s, i, EncodePhase(c, s.g, first, second))
    case Aborts(i) => Put(s, i, Stepped(AbortPhase(s.sends[i]), s.g))
    case Works(n) => Work(c, s, n)
    case Fails => Fail(s)
    case Drains => Drain(s)
    case Spills(n) => s.(out := s.out.(disk := n))
    case DropsSender => s.(senderAlive := false)
  }

  /** The states a run passes through: it starts fresh and each state follows from the one before by one step. */
  ghost predicate IsRun(c: Config, run: seq<State>) {
    && ValidateByteBounds(c).None?
    && |run| > 0 && run[0] == Start(c)
    && forall k :: 0 < k < |run| ==> Follows(c, run[k - 1], run[k])
  }

  ghost predicate Follows(c: Config, s: State, t: State) {
    exists step :: CanStep(c, s, step) && t == Next(c, s, step)
  }
}
