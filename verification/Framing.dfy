/**
 JSON-lines framing: the two-pass bounded encoder and the two scanners that read frames back.
 A file is a byte sequence; the serializer is any pair of passes, each a list of written chunks.
 */
module Framing {
  import opened Common
  import opened Sequences

  type Byte = x: int | 0 <= x < 256
  type Bytes = seq<Byte>

  const NEWLINE: Byte := 10
  const USIZE_MAX := U64_MAX

  function SaturatingSub(a: nat, b: nat): nat {
    if a < b then 0 else a - b
  }

  // ---------------------------------------------------------------- encoding

  /** One run of a serializer over a value: the chunks it writes, then its own verdict. A failed write ends the pass. */
  datatype Pass = Pass(chunks: seq<Bytes>, fails: bool)

  datatype FrameError =
    | Serialization
    | FrameTooLarge(observedAtLeast: nat, limit: nat)
    | SizeChanged(measured: nat, secondPass: nat)

  datatype Result<T, E> = Ok(value: T) | Err(error: E)

  class CountingWriter {
    var bytes: nat
    const limit: nat
    var overflowed: bool

    constructor (limit: nat)
      ensures this.limit == limit && bytes == 0 && !overflowed
    {
      this.limit := limit;
      bytes := 0;
      overflowed := false;
    }

    method Write(buffer: Bytes) returns (ok: bool)
      modifies this
      ensures ok <==> SaturatingAdd(old(bytes), |buffer|) <= limit
      ensures ok ==> bytes == SaturatingAdd(old(bytes), |buffer|) && overflowed == old(overflowed)
      ensures !ok ==> overflowed && bytes == SaturatingAdd(limit, 1)
    {
      var next := SaturatingAdd(bytes, |buffer|);
      if next > limit {
        overflowed := true;
        bytes := SaturatingAdd(limit, 1);
        return false;
      }
      bytes := next;
      return true;
    }

    /** The serializer drives the counter; the counter overflows exactly when the pass is longer than its limit. */
    method Serialize(pass: Pass) returns (ok: bool)
      requires limit < USIZE_MAX && bytes == 0 && !overflowed
      modifies this
      ensures overflowed <==> |Concat(pass.chunks)| > limit
      ensures ok <==> !overflowed && !pass.fails
      ensures !overflowed ==> bytes == |Concat(pass.chunks)|
    {
      var i := 0;
      assert pass.chunks[..0] == [];
      while i < |pass.chunks|
        invariant 0 <= i <= |pass.chunks|
        invariant !overflowed && bytes == |Concat(pass.chunks[..i])| <= limit
      {
        assert pass.chunks[..i + 1] == pass.chunks[..i] + [pass.chunks[i]];
        ConcatSnoc(pass.chunks[..i], pass.chunks[i]);
        ConcatPrefix(pass.chunks, i + 1);
        var written := Write(pass.chunks[i]);
        if !written {
          return false;
        }
        i := i + 1;
      }
      assert pass.chunks[..i] == pass.chunks;
      return !pass.fails;
    }
  }

  /** Bytes a fixed-capacity writer has seen when it first refuses a chunk, that chunk included. */
  function SeenAtOverflow(chunks: seq<Bytes>, capacity: nat, seen: nat): nat {
    if chunks == [] then seen
    else if seen + |chunks[0]| > capacity then seen + |chunks[0]|
    else SeenAtOverflow(chunks[1..], capacity, seen + |chunks[0]|)
  }

  class FixedCapacityWriter {
    var bytes: Bytes
    const expected: nat
    var observed: nat
    var overflowed: bool

    constructor (expected: nat)
      ensures this.expected == expected && bytes == [] && observed == 0 && !overflowed
    {
      this.expected := expected;
      bytes, observed, overflowed := [], 0, false;
    }

    method WriteNewline()
      modifies this
      ensures observed == SaturatingAdd(old(observed), 1)
      ensures |old(bytes)| < expected ==> bytes == old(bytes) + [NEWLINE] && overflowed == old(overflowed)
      ensures |old(bytes)| >= expected ==> bytes == old(bytes) && overflowed
    {
      observed := SaturatingAdd(observed, 1);
      if |bytes| < expected {
        bytes := bytes + [NEWLINE];
      } else {
        overflowed := true;
      }
    }

    method Write(buffer: Bytes) returns (ok: bool)
      modifies this
      ensures observed == SaturatingAdd(old(observed), |buffer|)
      ensures ok <==> |buffer| <= SaturatingSub(expected, |old(bytes)|)
      ensures bytes == if ok then old(bytes) + buffer else old(bytes)
      ensures overflowed <==> old(overflowed) || !ok
    {
      observed := SaturatingAdd(observed, |buffer|);
      var remaining := SaturatingSub(expected, |bytes|);
      if |buffer| > remaining {
        overflowed := true;
        return false;
      }
      bytes := bytes + buffer;
      return true;
    }

    /** The buffer never grows past its capacity, and holds the whole pass exactly when the pass fits. */
    method Serialize(pass: Pass) returns (ok: bool)
      requires bytes == [] && observed == 0 && !overflowed && expected <= USIZE_MAX
      modifies this
      ensures |bytes| <= expected
      ensures overflowed <==> |Concat(pass.chunks)| > expected
      ensures ok <==> !overflowed && !pass.fails
      ensures !overflowed ==> bytes == Concat(pass.chunks)
      ensures var seen := SeenAtOverflow(pass.chunks, expected, 0);
              observed == if seen > USIZE_MAX then USIZE_MAX else seen
    {
      var i := 0;
      assert pass.chunks[..0] == [] && pass.chunks[0..] == pass.chunks;
      while i < |pass.chunks|
        invariant 0 <= i <= |pass.chunks|
        invariant !overflowed && bytes == Concat(pass.chunks[..i])
        invariant observed == |bytes| <= expected
        invariant SeenAtOverflow(pass.chunks, expected, 0) == SeenAtOverflow(pass.chunks[i..], expected, observed)
      {
        assert pass.chunks[..i + 1] == pass.chunks[..i] + [pass.chunks[i]];
        assert pass.chunks[i..][0] == pass.chunks[i] && pass.chunks[i..][1..] == pass.chunks[i + 1..];
        ConcatSnoc(pass.chunks[..i], pass.chunks[i]);
        ConcatPrefix(pass.chunks, i + 1);
        var written := Write(pass.chunks[i]);
        if !written {
          return false;
        }
        i := i + 1;
      }
      assert pass.chunks[..i] == pass.chunks;
      return !pass.fails;
    }
  }

  /** The admission half: the exact frame length of a pass that fits. */
  method MeasureFrame(pass: Pass, max: nat) returns (r: Result<nat, FrameError>)
    requires max <= USIZE_MAX
    ensures r.Ok? <==> !pass.fails && |Concat(pass.chunks)| + 1 <= max
    ensures r.Ok? ==> r.value == |Concat(pass.chunks)| + 1
    ensures r.Err? ==>
              r.error == if |Concat(pass.chunks)| > SaturatingSub(max, 1) then FrameTooLarge(SaturatingAdd(max, 1), max)
                         else if pass.fails then Serialization
                         else FrameTooLarge(1, 0)
  {
    var counter := new CountingWriter(SaturatingSub(max, 1));
    var ok := counter.Serialize(pass);
    if !ok {
      if counter.overflowed {
        return Err(FrameTooLarge(SaturatingAdd(max, 1), max));
      }
      return Err(Serialization);
    }
    var measured := SaturatingAdd(counter.bytes, 1);
    if measured > max {
      return Err(FrameTooLarge(measured, max));
    }
    return Ok(measured);
  }

  /**
   What the encoder answers, in terms of the two passes only. It succeeds exactly when both passes succeed with one
   length that fits, however else the passes differ; the frame is then the second pass.
   */
  function Encoded(first: Pass, second: Pass, max: nat): (r: Result<Bytes, FrameError>)
    ensures r.Ok? <==>
            && !first.fails && !second.fails
            && |Concat(first.chunks)| == |Concat(second.chunks)|
            && |Concat(second.chunks)| + 1 <= max
    ensures r.Ok? ==> r.value == Concat(second.chunks) + [NEWLINE] && |r.value| <= max
  {
    var a, b := |Concat(first.chunks)|, |Concat(second.chunks)|;
    if a > SaturatingSub(max, 1) then Err(FrameTooLarge(SaturatingAdd(max, 1), max))
    else if first.fails then Err(Serialization)
    else if max == 0 then Err(FrameTooLarge(1, 0))
    else if b > a + 1 then Err(SizeChanged(a + 1, SaturatingAdd(SeenAtOverflow(second.chunks, a + 1, 0), 1)))
    else if second.fails then Err(Serialization)
    else if b != a then Err(SizeChanged(a + 1, SaturatingAdd(b, 1)))
    else Ok(Concat(second.chunks) + [NEWLINE])
  }

  lemma {:induction false} SeenWithoutOverflow(chunks: seq<Bytes>, capacity: nat, seen: nat)
    requires seen + |Concat(chunks)| <= capacity
    ensures SeenAtOverflow(chunks, capacity, seen) == seen + |Concat(chunks)|
  {
    if chunks != [] {
      SeenWithoutOverflow(chunks[1..], capacity, seen + |chunks[0]|);
    }
  }

  method EncodeFrame(first: Pass, second: Pass, max: nat) returns (r: Result<Bytes, FrameError>)
    requires max <= USIZE_MAX
    ensures r == Encoded(first, second, max)
  {
    var measured := MeasureFrame(first, max);
    if measured.Err? {
      return Err(measured.error);
    }
    var n := measured.value;
    var bounded := new FixedCapacityWriter(n);
    var ok := bounded.Serialize(second);
    if |Concat(second.chunks)| <= n {
      SeenWithoutOverflow(second.chunks, n, 0);
    }
    if !ok {
      if bounded.overflowed {
        return Err(SizeChanged(n, SaturatingAdd(bounded.observed, 1)));
      }
      return Err(Serialization);
    }
    bounded.WriteNewline();
    if bounded.overflowed || |bounded.bytes| != n {
      return Err(SizeChanged(n, bounded.observed));
    }
    return Ok(bounded.bytes);
  }

  // ---------------------------------------------------------------- frames of a byte sequence

  /** Length of the first frame: up to and including the first newline, or everything if there is none. */
  function FirstLength(s: Bytes): (n: nat)
    ensures n <= |s| && (s != [] ==> n > 0)
  {
    if s == [] then 0 else if s[0] == NEWLINE then 1 else 1 + FirstLength(s[1..])
  }

  function Split(s: Bytes): seq<Bytes> {
    if s == [] then [] else [s[..FirstLength(s)]] + Split(s[FirstLength(s)..])
  }

  predicate NewlineFree(s: Bytes) {
    NEWLINE !in s
  }

  /** A complete record: a newline-free payload and its newline. */
  predicate IsFrame(f: Bytes) {
    f != [] && f[|f| - 1] == NEWLINE && NewlineFree(f[..|f| - 1])
  }

  predicate AreFrames(frames: seq<Bytes>) {
    forall k :: 0 <= k < |frames| ==> IsFrame(frames[k])
  }

  lemma {:induction false} SplitJoins(s: Bytes)
    ensures Concat(Split(s)) == s
  {
    hide FirstLength;
    if s != [] {
      var n := FirstLength(s);
      SplitJoins(s[n..]);
      var parts := [s[..n]] + Split(s[n..]);
      assert parts[0] == s[..n] && parts[1..] == Split(s[n..]);
    }
  }

  lemma {:induction false} FirstLengthOfFrame(f: Bytes, rest: Bytes)
    requires IsFrame(f)
    ensures FirstLength(f + rest) == |f|
  {
    var s := f + rest;
    if |f| > 1 {
      assert f[0] == f[..|f| - 1][0] && f[0] in f[..|f| - 1];
      assert f[1..][..|f[1..]| - 1] == f[..|f| - 1][1..];
      FirstLengthOfFrame(f[1..], rest);
      assert s[1..] == f[1..] + rest;
    }
  }

  lemma {:induction false} FirstLengthOfPartial(p: Bytes)
    requires NewlineFree(p)
    ensures FirstLength(p) == |p|
  {
    if p != [] {
      assert p[0] in p;
      FirstLengthOfPartial(p[1..]);
    }
  }

  function Partial(p: Bytes): seq<Bytes> {
    if p == [] then [] else [p]
  }

  /** Splitting undoes concatenation, with at most one incomplete record at the end. */
  lemma {:induction false} SplitOfConcat(frames: seq<Bytes>, p: Bytes)
    requires AreFrames(frames) && NewlineFree(p)
    ensures Split(Concat(frames) + p) == frames + Partial(p)
  {
    var s := Concat(frames) + p;
    if frames == [] {
      assert s == p;
      FirstLengthOfPartial(p);
      if p != [] {
        assert p[..|p|] == p && p[|p|..] == [];
        assert Split(p) == [p] + Split([]);
      }
    } else {
      var rest := Concat(frames[1..]) + p;
      assert s == frames[0] + rest;
      FirstLengthOfFrame(frames[0], rest);
      SplitOfConcat(frames[1..], p);
      assert s[..|frames[0]|] == frames[0] && s[|frames[0]|..] == rest;
    }
  }

  /** Every prefix of a concatenation of frames is some of the frames and part of the next. */
  lemma {:induction false} PrefixOfConcat(frames: seq<Bytes>, n: nat) returns (k: nat, p: Bytes)
    requires n <= |Concat(frames)|
    ensures k <= |frames| && Concat(frames)[..n] == Concat(frames[..k]) + p
    ensures k == |frames| ==> p == []
    ensures k < |frames| ==> |p| < |frames[k]| && p <= frames[k]
  {
    if frames == [] {
      k, p := 0, [];
    } else if n < |frames[0]| {
      k, p := 0, frames[0][..n];
      assert frames[..0] == [];
      assert Concat(frames)[..n] == frames[0][..n];
    } else {
      var k1, p1 := PrefixOfConcat(frames[1..], n - |frames[0]|);
      k, p := k1 + 1, p1;
      assert frames[..k][1..] == frames[1..][..k1] && frames[..k][0] == frames[0];
      assert Concat(frames)[..n] == frames[0] + Concat(frames[1..])[..n - |frames[0]|];
    }
  }

  /** A truncated file of complete frames reads back as its first frames and at most one partial record. */
  lemma TruncatedFileSplits(frames: seq<Bytes>, n: nat) returns (k: nat, p: Bytes)
    requires AreFrames(frames) && n <= |Concat(frames)|
    ensures k <= |frames| && Concat(frames)[..n] == Concat(frames[..k]) + p && NewlineFree(p)
    ensures Split(Concat(frames)[..n]) == frames[..k] + Partial(p)
    ensures k < |frames| ==> p < frames[k]
    ensures k == |frames| ==> p == []
  {
    k, p := PrefixOfConcat(frames, n);
    if k < |frames| {
      forall b | b in p
        ensures b != NEWLINE
      {
        var i :| 0 <= i < |p| && p[i] == b;
        assert frames[k][i] in frames[k][..|frames[k]| - 1];
      }
    }
    SplitOfConcat(frames[..k], p);
  }

  // ---------------------------------------------------------------- reading

  /** A buffered reader. How much each read of the file brings in is arbitrary. */
  class Reader {
    var buffered: Bytes
    var unread: Bytes

    ghost function Rest(): Bytes
      reads this
    {
      buffered + unread
    }

    constructor (file: Bytes)
      ensures Rest() == file && fresh(this)
    {
      buffered, unread := [], file;
    }

    method FillBuf() returns (available: Bytes)
      modifies this
      ensures Rest() == old(Rest()) && available == buffered
      ensures available == [] <==> Rest() == []
    {
      if buffered == [] && unread != [] {
        var n :| 1 <= n <= |unread|;
        buffered, unread := unread[..n], unread[n..];
      }
      available := buffered;
    }

    method Consume(n: nat)
      requires n <= |buffered|
      modifies this
      ensures Rest() == old(Rest())[n..] && buffered == old(buffered)[n..]
    {
      assert Rest()[n..] == buffered[n..] + unread;
      buffered := buffered[n..];
    }
  }

  lemma {:induction false} FirstLengthAcross(a: Bytes, b: Bytes)
    ensures FirstLength(a + b) == if NEWLINE in a then FirstLength(a) else |a| + FirstLength(b)
  {
    if a == [] {
      assert a + b == b;
    } else {
      assert (a + b)[1..] == a[1..] + b;
      FirstLengthAcross(a[1..], b);
    }
  }

  lemma {:induction false} FirstLengthEnds(a: Bytes)
    requires a != []
    ensures a[FirstLength(a) - 1] == NEWLINE <==> NEWLINE in a
    ensures NEWLINE !in a ==> FirstLength(a) == |a|
  {
    if a[0] != NEWLINE && |a| > 1 {
      FirstLengthEnds(a[1..]);
    }
  }

  /** Position just after the first newline of the available bytes, or all of them. */
  method TakeLength(available: Bytes) returns (take: nat)
    ensures take == FirstLength(available)
  {
    take := 0;
    assert available[0..] == available;
    while take < |available|
      invariant 0 <= take <= |available|
      invariant FirstLength(available) == take + FirstLength(available[take..])
    {
      assert available[take..][1..] == available[take + 1..];
      take := take + 1;
      if available[take - 1] == NEWLINE {
        return;
      }
    }
  }

  /** With `frame` read so far and no newline in it, what the next available bytes add to the first frame. */
  lemma NextPiece(all: Bytes, frame: Bytes, available: Bytes, unread: Bytes)
    requires all == frame + (available + unread) && NEWLINE !in frame && available != []
    ensures var take := FirstLength(available);
            && all[..|frame| + take] == frame + available[..take]
            && all[|frame| + take..] == (available + unread)[take..]
            && |frame| + take <= FirstLength(all)
            && (available[take - 1] == NEWLINE ==> FirstLength(all) == |frame| + take)
            && (available[take - 1] != NEWLINE ==> NEWLINE !in frame + available[..take])
  {
    hide FirstLength;
    FirstLengthAcross(frame, available + unread);
    FirstLengthAcross(available, unread);
    FirstLengthEnds(available);
    SliceAcross(frame, available, unread, FirstLength(available));
    assert available[..|available|] == available;
  }

  lemma SliceAcross(a: Bytes, b: Bytes, c: Bytes, n: nat)
    requires n <= |b|
    ensures (a + (b + c))[..|a| + n] == a + b[..n] && (a + (b + c))[|a| + n..] == (b + c)[n..]
  {
  }

  lemma NothingMore(all: Bytes, frame: Bytes)
    requires all == frame && NEWLINE !in frame
    ensures FirstLength(all) == |frame| && all[..|frame|] == frame && all[|frame|..] == []
  {
    FirstLengthOfPartial(frame);
  }

  /** Reads exactly the next frame, whatever the chunks, or refuses it exactly when it is over the limit. */
  method ReadFrameBounded(reader: Reader, max: nat) returns (r: Result<Bytes, nat>)
    requires max <= USIZE_MAX && |reader.Rest()| <= U64_MAX
    modifies reader
    ensures r.Ok? <==> FirstLength(old(reader.Rest())) <= max
    ensures r.Ok? ==>
              var n := FirstLength(old(reader.Rest()));
              r.value == old(reader.Rest())[..n] && reader.Rest() == old(reader.Rest())[n..]
    ensures r.Err? ==> r.error == SaturatingAdd(max, 1)
  {
    hide FirstLength;
    var frame: Bytes := [];
    ghost var all := reader.Rest();
    while true
      invariant |frame| <= max && all == frame + reader.Rest() && NEWLINE !in frame
      decreases |reader.Rest()|
    {
      var available := reader.FillBuf();
      if available == [] {
        NothingMore(all, frame);
        return Ok(frame);
      }
      NextPiece(all, frame, available, reader.unread);
      var take := TakeLength(available);
      var next := SaturatingAdd(|frame|, take);
      if next > max {
        return Err(SaturatingAdd(max, 1));
      }
      frame := frame + available[..take];
      var ended := available[take - 1] == NEWLINE;
      reader.Consume(take);
      if ended {
        return Ok(frame);
      }
      assert all == all[..|frame|] + all[|frame|..];
    }
  }

  // ---------------------------------------------------------------- the bounded scan

  datatype Scan = Scan(records: nat, bytes: nat, invalid: nat, firstInvalid: Option<nat>, trailingPartial: bool)

  datatype ScanError =
    | InvalidFrameLimit
    | InputTooLarge(actual: nat, limit: nat)
    | RecordTooLarge(record: nat, observed: nat, limit: nat)

  /** A validator may keep state between records, so its verdict on record `k` may depend on all records up to it. */
  type Validator = seq<Bytes> -> bool

  function InvalidCount(frames: seq<Bytes>, valid: Validator, k: nat): nat
    requires k <= |frames|
  {
    if k == 0 then 0 else InvalidCount(frames, valid, k - 1) + (if valid(frames[..k]) then 0 else 1)
  }

  /** The one-based position of the first invalid record among the first `k`. */
  function FirstInvalid(frames: seq<Bytes>, valid: Validator, k: nat): (first: Option<nat>)
    requires k <= |frames|
    ensures first.Some? ==>
              && 1 <= first.value <= k && !valid(frames[..first.value])
              && forall j :: 1 <= j < first.value ==> valid(frames[..j])
    ensures first.None? ==> forall j :: 1 <= j <= k ==> valid(frames[..j])
  {
    if k == 0 then None
    else if FirstInvalid(frames, valid, k - 1).Some? then FirstInvalid(frames, valid, k - 1)
    else if valid(frames[..k]) then None else Some(k)
  }

  predicate Fits(frames: seq<Bytes>, k: nat, max: nat, maxTotal: nat)
    requires k < |frames|
  {
    |frames[k]| <= max && |Concat(frames[..k + 1])| <= maxTotal
  }

  predicate EndsWithNewline(s: Bytes) {
    s != [] && s[|s| - 1] == NEWLINE
  }

  /** The scan after `k` records. */
  function ScanTo(frames: seq<Bytes>, valid: Validator, k: nat): Scan
    requires k <= |frames|
  {
    Scan(k, |Concat(frames[..k])|, InvalidCount(frames, valid, k), FirstInvalid(frames, valid, k),
         k > 0 && !EndsWithNewline(frames[k - 1]))
  }

  /** What is left of a byte sequence after its first `k` frames. */
  ghost function Remaining(s: Bytes, k: nat): Bytes
    requires k <= |Split(s)|
  {
    if k == 0 then s else Remaining(s[FirstLength(s)..], k - 1)
  }

  lemma {:induction false} NextFrame(s: Bytes, k: nat)
    requires k <= |Split(s)|
    ensures |Remaining(s, k)| <= |s|
    ensures k == |Split(s)| ==> Remaining(s, k) == []
    ensures k < |Split(s)| ==>
              var rest := Remaining(s, k);
              && rest != []
              && rest[..FirstLength(rest)] == Split(s)[k]
              && Remaining(s, k + 1) == rest[FirstLength(rest)..]
  {
    hide FirstLength;
    if k > 0 {
      NextFrame(s[FirstLength(s)..], k - 1);
    } else if s != [] {
      assert Remaining(s, 1) == Remaining(s[FirstLength(s)..], 0);
    }
  }

  /** Frames are not empty, so there are no more of them than bytes; the first ones are a prefix of the file. */
  lemma {:induction false} FramesWithin(frames: seq<Bytes>)
    requires forall k :: 0 <= k < |frames| ==> frames[k] != []
    ensures |frames| <= |Concat(frames)|
  {
    if frames != [] {
      FramesWithin(frames[1..]);
    }
  }

  lemma {:induction false} SplitFramesNonEmpty(s: Bytes)
    ensures forall k :: 0 <= k < |Split(s)| ==> Split(s)[k] != []
  {
    hide FirstLength;
    if s != [] {
      SplitFramesNonEmpty(s[FirstLength(s)..]);
    }
  }

  lemma {:induction false} InvalidWithin(frames: seq<Bytes>, valid: Validator, k: nat)
    requires k <= |frames|
    ensures InvalidCount(frames, valid, k) <= k
  {
    if k > 0 {
      InvalidWithin(frames, valid, k - 1);
    }
  }

  lemma ScanStarts(file: Bytes, valid: Validator)
    ensures ScanTo(Split(file), valid, 0) == Scan(0, 0, 0, None, false)
  {
    assert Split(file)[..0] == [];
  }

  /** One more record, with nothing saturating. */
  lemma ScanGrows(file: Bytes, valid: Validator, k: nat)
    requires |file| <= U64_MAX && k < |Split(file)|
    ensures var frames := Split(file);
            var (was, now) := (ScanTo(frames, valid, k), ScanTo(frames, valid, k + 1));
            && now.records == SaturatingAdd(was.records, 1)
            && now.bytes == SaturatingAdd(was.bytes, |frames[k]|)
            && now.invalid == (if valid(frames[..k + 1]) then was.invalid else SaturatingAdd(was.invalid, 1))
  {
    hide Split, FirstLength;
    var frames := Split(file);
    SplitJoins(file);
    SplitFramesNonEmpty(file);
    FramesWithin(frames);
    ConcatPrefix(frames, k + 1);
    assert frames[..k + 1] == frames[..k] + [frames[k]];
    ConcatSnoc(frames[..k], frames[k]);
    InvalidWithin(frames, valid, k);
  }

  /**
   For every chunking, scanning a file finds exactly its frames. It fails exactly when the frame limit is zero, the
   file is announced too long, or some frame is the first not to fit; the error names that frame.
   */
  method ScanBounded(file: Bytes, announced: nat, max: nat, maxTotal: nat, valid: Validator)
    returns (r: Result<Scan, ScanError>)
    requires max <= USIZE_MAX && |file| <= U64_MAX && maxTotal <= U64_MAX
    ensures r.Ok? <==> && max > 0 && announced <= maxTotal
                       && forall k :: 0 <= k < |Split(file)| ==> Fits(Split(file), k, max, maxTotal)
    ensures r.Ok? ==> r.value == ScanTo(Split(file), valid, |Split(file)|)
    ensures r.Err? && max == 0 ==> r.error == InvalidFrameLimit
    ensures r.Err? && max > 0 && announced > maxTotal ==> r.error == InputTooLarge(announced, maxTotal)
    ensures r.Err? && max > 0 && announced <= maxTotal ==>
              exists k :: && 0 <= k < |Split(file)| && !Fits(Split(file), k, max, maxTotal)
                          && (forall j :: 0 <= j < k ==> Fits(Split(file), j, max, maxTotal))
                          && r.error == if |Split(file)[k]| > max then RecordTooLarge(k + 1, SaturatingAdd(max, 1), max)
                                        else InputTooLarge(|Concat(Split(file)[..k + 1])|, maxTotal)
  {
    hide FirstLength, Concat, Split, SaturatingAdd;
    if max == 0 {
      return Err(InvalidFrameLimit);
    }
    if announced > maxTotal {
      return Err(InputTooLarge(announced, maxTotal));
    }
    ghost var frames := Split(file);
    var reader := new Reader(file);
    var scan := Scan(0, 0, 0, None, false);
    var seen: seq<Bytes> := [];
    ghost var k := 0;
    assert frames[..0] == [];
    ScanStarts(file, valid);
    while true
      invariant k <= |frames| && reader.Rest() == Remaining(file, k)
      invariant forall j :: 0 <= j < k ==> Fits(frames, j, max, maxTotal)
      invariant scan == ScanTo(frames, valid, k) && seen == frames[..k]
      invariant fresh(reader)
      decreases |frames| - k
    {
      NextFrame(file, k);
      if k < |frames| {
        ScanGrows(file, valid, k);
      }
      var read := ReadFrameBounded(reader, max);
      if read.Err? {
        assert !Fits(frames, k, max, maxTotal);
        return Err(RecordTooLarge(SaturatingAdd(scan.records, 1), read.error, max));
      }
      var frame := read.value;
      if frame == [] {
        break;
      }
      var records := SaturatingAdd(scan.records, 1);
      var bytes := SaturatingAdd(scan.bytes, |frame|);
      if bytes > maxTotal {
        assert !Fits(frames, k, max, maxTotal);
        return Err(InputTooLarge(bytes, maxTotal));
      }
      k := k + 1;
      seen := seen + [frame];
      assert seen == frames[..k];
      var ok := valid(seen);
      scan := Scan(records, bytes,
                   if ok then scan.invalid else SaturatingAdd(scan.invalid, 1),
                   if ok || scan.firstInvalid.Some? then scan.firstInvalid else Some(records),
                   !EndsWithNewline(frame));
    }
    return Ok(scan);
  }

  // ---------------------------------------------------------------- the writer's own evidence scan

  function Newlines(s: Bytes): nat {
    if s == [] then 0 else Newlines(s[1..]) + (if s[0] == NEWLINE then 1 else 0)
  }

  lemma {:induction false} NewlinesAcross(a: Bytes, b: Bytes)
    ensures Newlines(a + b) == Newlines(a) + Newlines(b)
  {
    if a == [] {
      assert a + b == b;
    } else {
      assert (a + b)[1..] == a[1..] + b;
      NewlinesAcross(a[1..], b);
    }
  }

  lemma {:induction false} NewlinesInFirst(s: Bytes)
    requires s != []
    ensures Newlines(s) == Newlines(s[FirstLength(s)..]) + (if s[FirstLength(s) - 1] == NEWLINE then 1 else 0)
  {
    if s[0] != NEWLINE && |s| > 1 {
      NewlinesInFirst(s[1..]);
      assert s[1..][FirstLength(s[1..])..] == s[FirstLength(s)..];
    }
  }

  /** Counting newlines, and one more for an unfinished last record, counts the frames. */
  lemma {:induction false} FramesByNewlines(s: Bytes)
    ensures |Split(s)| == Newlines(s) + (if s == [] || EndsWithNewline(s) then 0 else 1)
  {
    if s != [] {
      var n := FirstLength(s);
      NewlinesInFirst(s);
      FirstLengthEnds(s);
      FramesByNewlines(s[n..]);
      assert n == |s| ==> s[n..] == [];
      assert n < |s| ==> EndsWithNewline(s[n..]) == EndsWithNewline(s);
    }
  }

  method CountNewlines(chunk: Bytes) returns (n: nat)
    ensures n == Newlines(chunk)
  {
    n := 0;
    assert chunk[0..] == chunk;
    for i := 0 to |chunk|
      invariant Newlines(chunk) == n + Newlines(chunk[i..])
    {
      assert chunk[i..][1..] == chunk[i + 1..];
      if chunk[i] == NEWLINE {
        n := n + 1;
      }
    }
  }

  lemma NewlinesWithin(s: Bytes)
    ensures Newlines(s) <= |s|
  {
  }

  /** The running totals describe the bytes read so far. */
  predicate Counted(read: Bytes, records: nat, bytes: nat, last: Option<Byte>) {
    bytes == |read| && records == Newlines(read) && last == if read == [] then None else Some(read[|read| - 1])
  }

  lemma CountedChunk(read: Bytes, records: nat, bytes: nat, last: Option<Byte>, chunk: Bytes)
    requires Counted(read, records, bytes, last) && chunk != [] && |read + chunk| <= U64_MAX
    ensures Counted(read + chunk, SaturatingAdd(records, Newlines(chunk)), SaturatingAdd(bytes, |chunk|),
                    Some(chunk[|chunk| - 1]))
  {
    hide Newlines;
    NewlinesAcross(read, chunk);
    NewlinesWithin(read + chunk);
  }

  lemma CountedFile(file: Bytes, records: nat, bytes: nat, last: Option<Byte>)
    requires Counted(file, records, bytes, last) && |file| <= U64_MAX
    ensures |Split(file)| == if bytes > 0 && last != Some(NEWLINE) then SaturatingAdd(records, 1) else records
  {
    hide FirstLength, Split, Newlines;
    FramesByNewlines(file);
    SplitFramesNonEmpty(file);
    SplitJoins(file);
    FramesWithin(Split(file));
  }

  /** The scan after a failed shutdown: for every chunking it reports the file's length and its number of frames. */
  method ScanWriterStats(file: Bytes) returns (records: nat, bytes: nat)
    requires |file| <= U64_MAX
    ensures bytes == |file| && records == |Split(file)|
  {
    hide FirstLength, Split, Newlines;
    var reader := new Reader(file);
    records, bytes := 0, 0;
    var last: Option<Byte> := None;
    ghost var read: Bytes := [];
    NewlinesWithin([]);
    while true
      invariant fresh(reader) && file == read + reader.Rest()
      invariant Counted(read, records, bytes, last)
      decreases |reader.Rest()|
    {
      hide Counted;
      var chunk := reader.FillBuf();
      if chunk == [] {
        break;
      }
      AppendAssociates(read, chunk, reader.unread);
      reader.Consume(|chunk|);
      assert reader.Rest() == reader.unread;
      CountedChunk(read, records, bytes, last, chunk);
      var count := CountNewlines(chunk);
      bytes := SaturatingAdd(bytes, |chunk|);
      records := SaturatingAdd(records, count);
      last := Some(chunk[|chunk| - 1]);
      read := read + chunk;
    }
    assert read == file;
    CountedFile(file, records, bytes, last);
    if bytes > 0 && last != Some(NEWLINE) {
      records := SaturatingAdd(records, 1);
    }
  }
}
