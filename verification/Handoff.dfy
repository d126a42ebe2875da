/**
 The queue-based WebRTC hand-off (hazeReceiver.py:1777-1989): a reader that resamples the
 track into a bounded queue, and a writer that plays one frame per tick into the encoder,
 pads short frames and rebuffers behind silence.

 Both are coroutines of one event loop, so each runs undisturbed from one `await` to the next.
 An event of the model is one such stretch; a schedule is any sequence of them.  Clock readings
 are inputs of the stretches that take them, in milliseconds.
 */
module Handoff {
  import opened Pcm
  import RawPacer

  // ---------------------------------------------------------------- parameters and state

  datatype Params = Params(
    z: Sizes, capacity: nat, frameMs: nat, byteRate: nat, maxActiveUnderrunMs: nat, maxLagMs: nat)

  function ParamsOf(c: Config, capacity: nat): Params
    requires c.channels > 0 && c.maxActiveUnderrunMs >= 0 && c.maxLagMs >= 0
  {
    Params(HandoffSizes(c), capacity, FrameMs(c), c.inputRate * SampleBytes(c), c.maxActiveUnderrunMs, c.maxLagMs)
  }

  predicate Usable(p: Params) {
    Sound(p.z) && 0 < p.frameMs && 0 < p.byteRate && 2 * p.frameMs <= p.maxActiveUnderrunMs
  }

  /** Every configuration that comes out of the command line gives usable parameters. */
  lemma ParsedIsUsable(raw: Config, capacity: nat)
    requires 1 <= raw.channels <= 2
    ensures Usable(ParamsOf(Parsed(raw), capacity))
  {
    var c := Parsed(raw);
    SizesAreSound(c);
    AtLeastOneUnit(c.inputRate, SampleBytes(c));
    hide RawFrame, HandoffFrame, RawSizes, HandoffSizes;
  }

  /** A write to the encoder: audio, and the zeros that complete the frame. */
  datatype Write = Write(payload: Bytes, padding: nat)

  function Output(w: Write): Bytes {
    w.payload + Zeros(w.padding)
  }

  datatype Phase = AtTop | Waiting | Draining

  datatype WriterStatus = Running | Backlogged | ConcealedTooLong | EncoderFailed | DrainLagged | PacingLagged

  /** The readings when the writer primes and when it writes. */
  datatype Clock = Clock(prime: real, write: real)

  datatype ReaderStatus = Reading | QueueOverflowed | TrackEnded

  /** The state of both coroutines, followed by the histories: all bytes put into the queue, the
      writes and when they were made, when the encoder had taken those it took in time, and audio
      given up when a session ends. */
  datatype Session = Session(
    queue: seq<Bytes>,
    buffered: Bytes,
    primed: bool,
    recentActive: bool,
    rebuffer: nat,
    concealMs: nat,
    tick: real,
    phase: Phase,
    writer: WriterStatus,
    reader: ReaderStatus,
    accepted: Bytes,
    written: seq<Write>,
    times: seq<real>,
    taken: seq<real>,
    discarded: Bytes)

  function Start(p: Params, t0: real): Session {
    Session([], [], p.z.target <= p.z.frame, false, p.z.target, 0, t0, AtTop, Running, Reading, [], [], [], [], [])
  }

  // ---------------------------------------------------------------- the reader

  /** A resampled frame: its sample count and its plane, which may be longer or shorter. */
  datatype Resampled = Resampled(samples: nat, plane: Bytes)

  function Fit(f: Resampled, sample: nat): (raw: Bytes)
    ensures |raw| == f.samples * sample
  {
    var needed := f.samples * sample;
    if |f.plane| < needed then f.plane + Zeros(needed - |f.plane|) else f.plane[..needed]
  }

  function Joined(frames: seq<Resampled>, sample: nat): Bytes
    decreases |frames|
  {
    if frames == [] then []
    else Joined(frames[..|frames| - 1], sample) + Fit(frames[|frames| - 1], sample)
  }

  predicate Full(queue: seq<Bytes>, capacity: nat) {
    0 < capacity <= |queue|
  }

  /** `_push_audio_chunk`: the new queue, or None when it is full and nothing may be dropped. */
  function Pushed(queue: seq<Bytes>, capacity: nat, chunk: Bytes, dropOldest: bool): (bool, seq<Bytes>) {
    if !Full(queue, capacity) then (true, queue + [chunk])
    else if !dropOldest then (false, queue)
    else (true, queue[|queue| - (capacity - 1)..] + [chunk])
  }

  function Receive(p: Params, s: Session, frames: seq<Resampled>): Session {
    var chunk := Joined(frames, p.z.sample);
    if chunk == [] then s
    else
      var pushed := Pushed(s.queue, p.capacity, chunk, false);
      if pushed.0 then s.(queue := pushed.1, accepted := s.accepted + chunk)
      else s.(reader := QueueOverflowed)
  }

  // ---------------------------------------------------------------- the writer

  function Flatten(chunks: seq<Bytes>): Bytes
    decreases |chunks|
  {
    if chunks == [] then [] else Flatten(chunks[..|chunks| - 1]) + chunks[|chunks| - 1]
  }

  function DrainQueue(s: Session): Session {
    s.(buffered := s.buffered + Flatten(s.queue), queue := [])
  }

  /** From the top of the loop to the next `await`. */
  function Top(p: Params, s: Session, t: Clock): Session {
    var s1 := DrainQueue(s);
    if |s1.buffered| < p.z.frame then s1.(phase := Waiting) else Deliver(p, s1, t)
  }

  /** From the end of the wait for a chunk, which came or timed out, to the next `await`. */
  function Resume(p: Params, s: Session, t: Clock): Session {
    Deliver(p, DrainQueue(s), t)
  }

  function Deliver(p: Params, s: Session, t: Clock): Session {
    if |s.buffered| > p.z.limit then s.(writer := Backlogged)
    else Emit(p, Prime(p, s, t), t)
  }

  function Prime(p: Params, s: Session, t: Clock): Session {
    if !s.primed && |s.buffered| >= s.rebuffer then s.(primed := true, rebuffer := p.z.target, tick := t.prime) else s
  }

  /** What an active underrun refills to before it plays on. */
  function ActiveRebuffer(p: Params): nat {
    Max(p.z.frame, Min(p.z.target, p.z.frame * 4))
  }

  function MinPartial(p: Params): nat
    requires p.z.sample > 0
  {
    RoundDown(Max(p.z.sample, p.z.frame * 3 / 4), p.z.sample)
  }

  lemma MinPartialIsPositive(p: Params)
    requires p.z.sample > 0
    ensures p.z.sample <= MinPartial(p)
  {
    RoundDownKeepsMultiples(p.z.sample, Max(p.z.sample, p.z.frame * 3 / 4), p.z.sample);
  }

  /** The nearest integer to `n / d`, the even one of two. */
  function RoundHalfEven(n: nat, d: nat): nat
    requires d > 0
  {
    var q, twice := n / d, 2 * (n % d);
    if twice < d || (twice == d && q % 2 == 0) then q else q + 1
  }

  function PaddedMs(p: Params, padding: nat): (ms: nat)
    ensures p.byteRate > 0 ==> ms >= 1
  {
    if p.byteRate == 0 then p.frameMs else Max(1, RoundHalfEven(padding * 1000, p.byteRate))
  }

  function Emit(p: Params, s: Session, t: Clock): Session {
    if s.primed && |s.buffered| >= p.z.frame then Play(p, s, t)
    else if s.primed && p.z.sample > 0 && |s.buffered| >= MinPartial(p) then Pad(p, s, t)
    else Silence(p, s, t)
  }

  function Play(p: Params, s: Session, t: Clock): Session
    requires |s.buffered| >= p.z.frame
  {
    var w := Write(s.buffered[..p.z.frame], 0);
    s.(buffered := s.buffered[p.z.frame..], recentActive := Active(Output(w)), concealMs := 0,
       written := s.written + [w], times := s.times + [t.write], phase := Draining)
  }

  /** Completes a short frame with zeros, unless that has gone on too long in active audio. */
  function Pad(p: Params, s: Session, t: Clock): Session
    requires |s.buffered| < p.z.frame
  {
    var w := Write(s.buffered, p.z.frame - |s.buffered|);
    var active := Active(Output(w));
    var conceal := if active then s.concealMs + PaddedMs(p, w.padding) else 0;
    var s1 := s.(buffered := [], recentActive := active, concealMs := conceal);
    if active && conceal >= p.maxActiveUnderrunMs then
      s1.(writer := ConcealedTooLong, discarded := s.buffered)
    else
      s1.(written := s.written + [w], times := s.times + [t.write], phase := Draining)
  }

  function Silence(p: Params, s: Session, t: Clock): Session {
    var s1 := if s.primed then
                s.(primed := false, rebuffer := if s.recentActive then ActiveRebuffer(p) else p.z.target)
              else s;
    var conceal := if s.recentActive then s.concealMs + p.frameMs else s.concealMs;
    if s.recentActive && conceal >= p.maxActiveUnderrunMs then
      s1.(writer := ConcealedTooLong, concealMs := conceal)
    else
      s1.(concealMs := conceal, written := s.written + [Write([], p.z.frame)], times := s.times + [t.write],
          phase := Draining)
  }

  /** The longest the clock may be behind when the encoder has taken a frame. */
  function LagMs(p: Params): nat {
    Max(p.frameMs * 2, p.maxLagMs)
  }

  /** After the encoder took a frame: the next tick.  A clock that is a little behind starts anew,
      one that is far behind ends the session; neither hurries. */
  function Pace(p: Params, s: Session, now: real): Session {
    var next := s.tick + p.frameMs as real;
    if next < now && now - next >= LagMs(p) as real then s.(tick := next, writer := PacingLagged)
    else s.(tick := RawPacer.NextTick(s.tick, p.frameMs as real, now), taken := s.taken + [now], phase := AtTop)
  }

  /** The drain of a frame: refused, too slow, or done. */
  function Drain(p: Params, s: Session, took: bool, drainMs: real, now: real): Session {
    if !took then s.(writer := EncoderFailed)
    else if drainMs > p.maxLagMs as real then s.(writer := DrainLagged)
    else Pace(p, s, now)
  }

  // ---------------------------------------------------------------- schedules

  /** `Drained` says whether the encoder took the frame, how long that took, and when it was done. */
  datatype Event =
    | Received(frames: seq<Resampled>)
    | TrackEnds
    | LoopTop(t: Clock)
    | ChunkArrived(t: Clock)
    | WaitTimedOut(t: Clock)
    | Drained(took: bool, drainMs: real, now: real)

  predicate Enabled(s: Session, e: Event) {
    match e
    case Received(_) => s.reader.Reading?
    case TrackEnds => s.reader.Reading?
    case LoopTop(_) => s.writer.Running? && s.phase.AtTop?
    case ChunkArrived(_) => s.writer.Running? && s.phase.Waiting? && s.queue != []
    case WaitTimedOut(_) => s.writer.Running? && s.phase.Waiting?
    case Drained(_, _, _) => s.writer.Running? && s.phase.Draining?
  }

  function Apply(p: Params, s: Session, e: Event): Session {
    if !Enabled(s, e) then s
    else
      match e
      case Received(frames) => Receive(p, s, frames)
      case TrackEnds => s.(reader := TrackEnded)
      case LoopTop(t) => Top(p, s, t)
      case ChunkArrived(t) => Resume(p, s, t)
      case WaitTimedOut(t) => Resume(p, s, t)
      case Drained(took, drainMs, now) => Drain(p, s, took, drainMs, now)
  }

  /** Events that cannot happen in a state are skipped, so every sequence is a schedule. */
  function Run(p: Params, s: Session, events: seq<Event>): Session
    decreases |events|
  {
    if events == [] then s else Apply(p, Run(p, s, events[..|events| - 1]), events[|events| - 1])
  }

  // ---------------------------------------------------------------- the coroutines themselves

  class Coroutines {
    const p: Params
    var queue: seq<Bytes>
    var buffered: Bytes
    var primed: bool
    var recentActive: bool
    var rebuffer: nat
    var concealMs: nat
    var nextTick: real
    var phase: Phase
    var writer: WriterStatus
    var reader: ReaderStatus
    ghost var accepted: Bytes
    ghost var written: seq<Write>
    ghost var times: seq<real>
    ghost var taken: seq<real>
    ghost var discarded: Bytes

    ghost function State(): Session
      reads this
    {
      Session(queue, buffered, primed, recentActive, rebuffer, concealMs, nextTick, phase, writer, reader,
              accepted, written, times, taken, discarded)
    }

    constructor (p: Params, t0: real)
      ensures this.p == p && State() == Start(p, t0)
    {
      this.p := p;
      queue, buffered, primed, recentActive := [], [], p.z.target <= p.z.frame, false;
      rebuffer, concealMs, nextTick, phase, writer, reader := p.z.target, 0, t0, AtTop, Running, Reading;
      accepted, written, times, taken, discarded := [], [], [], [], [];
    }

    method PushAudioChunk(chunk: Bytes, dropOldest: bool) returns (pushed: bool)
      modifies this`queue
      ensures (pushed, queue) == Pushed(old(queue), p.capacity, chunk, dropOldest)
    {
      ghost var q := queue;
      ghost var k := 0;
      while Full(queue, p.capacity)
        invariant 0 <= k <= |q| && queue == q[k..]
        invariant Full(q, p.capacity) ==> |queue| >= p.capacity - 1
        invariant !Full(q, p.capacity) ==> queue == q
        invariant !dropOldest ==> queue == q
        decreases |queue|
      {
        if !dropOldest {
          return false;
        }
        queue := queue[1..];
        k := k + 1;
      }
      queue := queue + [chunk];
      return true;
    }

    method FitPlane(f: Resampled) returns (raw: Bytes)
      ensures raw == Fit(f, p.z.sample)
    {
      var needed := f.samples * p.z.sample;
      raw := f.plane;
      if |raw| < needed {
        raw := raw + Zeros(needed - |raw|);
      }
      raw := raw[..needed];
    }

    method ReceiveFrames(frames: seq<Resampled>)
      modifies this
      ensures State() == Receive(p, old(State()), frames)
    {
      hide Fit;
      var chunk: Bytes := [];
      var i := 0;
      while i < |frames|
        invariant 0 <= i <= |frames|
        invariant chunk == Joined(frames[..i], p.z.sample)
        invariant State() == old(State())
      {
        assert frames[..i + 1][..i] == frames[..i];
        var raw := FitPlane(frames[i]);
        chunk := chunk + raw;
        i := i + 1;
      }
      assert frames[..|frames|] == frames;
      if chunk == [] {
        return;
      }
      var pushed := PushAudioChunk(chunk, false);
      if pushed {
        accepted := accepted + chunk;
      } else {
        reader := QueueOverflowed;
      }
    }

    method EmptyQueue()
      modifies this
      ensures State() == DrainQueue(old(State()))
    {
      ghost var s := State();
      while queue != []
        invariant State() == s.(queue := queue, buffered := buffered)
        invariant buffered + Flatten(queue) == s.buffered + Flatten(s.queue)
        decreases |queue|
      {
        FlattenFirst(queue);
        buffered := buffered + queue[0];
        queue := queue[1..];
      }
    }

    method LoopTopStep(t: Clock)
      modifies this
      ensures State() == Top(p, old(State()), t)
    {
      EmptyQueue();
      hide Deliver;
      if |buffered| < p.z.frame {
        phase := Waiting;
      } else {
        DeliverFrame(t);
      }
    }

    /** After the wait: `arrived` takes the chunk waited for, then the queue is emptied. */
    method ResumeStep(arrived: bool, t: Clock)
      requires arrived ==> queue != []
      modifies this
      ensures State() == Resume(p, old(State()), t)
    {
      hide Deliver, Flatten;
      ghost var s := State();
      if arrived {
        FlattenFirst(queue);
        assert buffered + (queue[0] + Flatten(queue[1..])) == (buffered + queue[0]) + Flatten(queue[1..]);
        buffered := buffered + queue[0];
        queue := queue[1..];
      }
      assert DrainQueue(State()) == DrainQueue(s);
      EmptyQueue();
      DeliverFrame(t);
    }

    method DeliverFrame(t: Clock)
      modifies this
      ensures State() == Deliver(p, old(State()), t)
    {
      if |buffered| > p.z.limit {
        writer := Backlogged;
        return;
      }
      if !primed && |buffered| >= rebuffer {
        primed := true;
        rebuffer := p.z.target;
        nextTick := t.prime;
      }
      hide Play, Pad, Silence;
      if primed && |buffered| >= p.z.frame {
        PlayFrame(t);
      } else if primed && p.z.sample > 0 && |buffered| >= MinPartial(p) {
        PadFrame(t);
      } else {
        PlaySilence(t);
      }
    }

    /** The write itself, which is then drained. */
    method WriteOut(ghost w: Write, t: Clock)
      modifies this
      ensures State() == old(State()).(written := old(written) + [w], times := old(times) + [t.write], phase := Draining)
    {
      written, times, phase := written + [w], times + [t.write], Draining;
    }

    method PlayFrame(t: Clock)
      requires |buffered| >= p.z.frame
      modifies this
      ensures State() == Play(p, old(State()), t)
    {
      hide Peak;
      var chunk := buffered[..p.z.frame];
      buffered := buffered[p.z.frame..];
      assert Output(Write(chunk, 0)) == chunk;
      recentActive := Peak(chunk) > QUIET_PEAK;
      concealMs := 0;
      WriteOut(Write(chunk, 0), t);
    }

    method PadFrame(t: Clock)
      requires |buffered| < p.z.frame
      modifies this
      ensures State() == Pad(p, old(State()), t)
    {
      hide Peak, PaddedMs, Zeros, Active, Output;
      var padding := p.z.frame - |buffered|;
      var chunk := buffered + Zeros(padding);
      ghost var payload := buffered;
      OutputIsPadded(payload, padding);
      buffered := [];
      recentActive := Peak(chunk) > QUIET_PEAK;
      if recentActive {
        concealMs := concealMs + PaddedMs(p, padding);
        if concealMs >= p.maxActiveUnderrunMs {
          writer, discarded := ConcealedTooLong, payload;
          return;
        }
      } else {
        concealMs := 0;
      }
      WriteOut(Write(payload, padding), t);
    }

    method PlaySilence(t: Clock)
      modifies this
      ensures State() == Silence(p, old(State()), t)
    {
      if primed {
        primed := false;
        rebuffer := if recentActive then ActiveRebuffer(p) else p.z.target;
      }
      if recentActive {
        concealMs := concealMs + p.frameMs;
        if concealMs >= p.maxActiveUnderrunMs {
          writer := ConcealedTooLong;
          return;
        }
      }
      WriteOut(Write([], p.z.frame), t);
    }

    method Do(e: Event)
      modifies this
      ensures State() == Apply(p, old(State()), e)
    {
      hide Top, Resume, Receive;
      match e
      case Received(frames) =>
        if reader.Reading? {
          ReceiveFrames(frames);
        }
      case TrackEnds =>
        if reader.Reading? {
          reader := TrackEnded;
        }
      case LoopTop(t) =>
        if writer.Running? && phase.AtTop? {
          LoopTopStep(t);
        }
      case ChunkArrived(t) =>
        if writer.Running? && phase.Waiting? && queue != [] {
          ResumeStep(true, t);
        }
      case WaitTimedOut(t) =>
        if writer.Running? && phase.Waiting? {
          ResumeStep(false, t);
        }
      case Drained(took, drainMs, now) =>
        if writer.Running? && phase.Draining? {
          FinishDrain(took, drainMs, now);
        }
    }

    /** After the drain of a frame: ends the session, or sets the next tick. */
    method FinishDrain(took: bool, drainMs: real, now: real)
      modifies this
      ensures State() == Drain(p, old(State()), took, drainMs, now)
    {
      if !took {
        writer := EncoderFailed;
        return;
      }
      if drainMs > p.maxLagMs as real {
        writer := DrainLagged;
        return;
      }
      nextTick := nextTick + p.frameMs as real;
      if nextTick < now {
        if now - nextTick >= LagMs(p) as real {
          writer := PacingLagged;
          return;
        }
        nextTick := now + p.frameMs as real;
      }
      taken := taken + [now];
      phase := AtTop;
    }

    method RunSchedule(events: seq<Event>)
      modifies this
      ensures State() == Run(p, old(State()), events)
    {
      hide Apply;
      ghost var s := State();
      var i := 0;
      while i < |events|
        invariant 0 <= i <= |events|
        invariant State() == Run(p, s, events[..i])
      {
        assert events[..i + 1][..i] == events[..i];
        Do(events[i]);
        i := i + 1;
      }
      assert events[..|events|] == events;
    }
  }

  lemma OutputIsPadded(payload: Bytes, padding: nat)
    ensures Active(Output(Write(payload, padding))) == (Peak(payload + Zeros(padding)) > QUIET_PEAK)
  {
  }

  lemma {:induction false} FlattenFirst(chunks: seq<Bytes>)
    requires chunks != []
    ensures Flatten(chunks) == chunks[0] + Flatten(chunks[1..])
    decreases |chunks|
  {
    if |chunks| > 1 {
      FlattenFirst(chunks[..|chunks| - 1]);
      assert chunks[..|chunks| - 1][1..] == chunks[1..][..|chunks| - 2];
    }
  }

  // ---------------------------------------------------------------- conservation

  function Payload(written: seq<Write>): Bytes
    decreases |written|
  {
    if written == [] then [] else Payload(written[..|written| - 1]) + written[|written| - 1].payload
  }

  /** What was accepted is what was written without the padding, then what was given up, then
      what is buffered, then what is queued. */
  predicate InOrder(accepted: Bytes, written: seq<Write>, discarded: Bytes, buffered: Bytes, queue: seq<Bytes>) {
    accepted == Payload(written) + discarded + buffered + Flatten(queue)
  }

  predicate WholeChunks(p: Params, chunks: seq<Bytes>)
    requires p.z.sample > 0
  {
    forall i | 0 <= i < |chunks| :: |chunks[i]| % p.z.sample == 0
  }

  /** Each write is one frame of whole samples. */
  predicate WholeWrites(p: Params, written: seq<Write>)
    requires p.z.sample > 0
  {
    forall i | 0 <= i < |written| ::
      |written[i].payload| + written[i].padding == p.z.frame && |written[i].payload| % p.z.sample == 0
  }

  /** The invariant of the audio. */
  predicate AudioKept(p: Params, s: Session)
    requires p.z.sample > 0
  {
    && InOrder(s.accepted, s.written, s.discarded, s.buffered, s.queue)
    && WholeChunks(p, s.queue) && |s.buffered| % p.z.sample == 0 && WholeWrites(p, s.written)
  }

  lemma {:induction false} JoinedIsWhole(frames: seq<Resampled>, sample: nat)
    requires sample > 0
    ensures |Joined(frames, sample)| % sample == 0
    decreases |frames|
  {
    if frames != [] {
      JoinedIsWhole(frames[..|frames| - 1], sample);
      MultipleHasNoRemainder(frames[|frames| - 1].samples, sample);
      WholeSamplesAdd(|Joined(frames[..|frames| - 1], sample)|, frames[|frames| - 1].samples * sample, sample);
    }
  }

  lemma {:induction false} FlattenIsWhole(p: Params, chunks: seq<Bytes>)
    requires p.z.sample > 0 && WholeChunks(p, chunks)
    ensures |Flatten(chunks)| % p.z.sample == 0
    decreases |chunks|
  {
    if chunks != [] {
      FlattenIsWhole(p, chunks[..|chunks| - 1]);
      WholeSamplesAdd(|Flatten(chunks[..|chunks| - 1])|, |chunks[|chunks| - 1]|, p.z.sample);
    }
  }

  lemma FlattenAppends(chunks: seq<Bytes>, chunk: Bytes)
    ensures Flatten(chunks + [chunk]) == Flatten(chunks) + chunk
  {
    assert (chunks + [chunk])[..|chunks|] == chunks;
  }

  lemma ReceiveInOrder(accepted: Bytes, written: seq<Write>, discarded: Bytes, buffered: Bytes, queue: seq<Bytes>,
                       chunk: Bytes)
    requires InOrder(accepted, written, discarded, buffered, queue)
    ensures InOrder(accepted + chunk, written, discarded, buffered, queue + [chunk])
  {
    hide Payload, Flatten;
    FlattenAppends(queue, chunk);
    var rest := Payload(written) + discarded + buffered;
    assert (rest + Flatten(queue)) + chunk == rest + (Flatten(queue) + chunk);
  }

  lemma DrainInOrder(accepted: Bytes, written: seq<Write>, discarded: Bytes, buffered: Bytes, queue: seq<Bytes>)
    requires InOrder(accepted, written, discarded, buffered, queue)
    ensures InOrder(accepted, written, discarded, buffered + Flatten(queue), [])
  {
    assert Flatten([]) == [];
    hide Payload, Flatten;
    var gone := Payload(written) + discarded;
    assert (gone + buffered) + Flatten(queue) == gone + (buffered + Flatten(queue)) + [];
  }

  lemma Shift(payload: Bytes, buffered: Bytes, n: nat, queued: Bytes)
    requires n <= |buffered|
    ensures (payload + buffered[..n]) + [] + buffered[n..] + queued == payload + [] + buffered + queued
    ensures payload + buffered + [] + queued == payload + [] + buffered + queued
  {
  }

  lemma WriteInOrder(accepted: Bytes, written: seq<Write>, buffered: Bytes, queue: seq<Bytes>, n: nat, padding: nat)
    requires n <= |buffered| && InOrder(accepted, written, [], buffered, queue)
    ensures InOrder(accepted, written + [Write(buffered[..n], padding)], [], buffered[n..], queue)
    ensures InOrder(accepted, written, buffered, [], queue)
  {
    PayloadGrows(written, Write(buffered[..n], padding));
    Shift(Payload(written), buffered, n, Flatten(queue));
    hide Payload, Flatten;
  }

  lemma WriteAllInOrder(accepted: Bytes, written: seq<Write>, buffered: Bytes, queue: seq<Bytes>, padding: nat)
    requires InOrder(accepted, written, [], buffered, queue)
    ensures InOrder(accepted, written + [Write(buffered, padding)], [], [], queue)
    ensures InOrder(accepted, written, buffered, [], queue)
  {
    hide InOrder;
    var n := |buffered|;
    WriteInOrder(accepted, written, buffered, queue, n, padding);
    assert buffered[..n] == buffered && buffered[n..] == [];
  }

  lemma PayloadGrows(written: seq<Write>, w: Write)
    ensures Payload(written + [w]) == Payload(written) + w.payload
  {
    assert (written + [w])[..|written|] == written;
  }

  lemma WritesGrow(p: Params, written: seq<Write>, w: Write)
    requires p.z.sample > 0 && WholeWrites(p, written)
    requires |w.payload| + w.padding == p.z.frame && |w.payload| % p.z.sample == 0
    ensures WholeWrites(p, written + [w])
  {
  }

  lemma ChunksGrow(p: Params, chunks: seq<Bytes>, chunk: Bytes)
    requires p.z.sample > 0 && WholeChunks(p, chunks) && |chunk| % p.z.sample == 0
    ensures WholeChunks(p, chunks + [chunk])
  {
  }

  lemma ReceiveKeepsAudio(p: Params, s: Session, frames: seq<Resampled>)
    requires p.z.sample > 0 && AudioKept(p, s)
    ensures AudioKept(p, Receive(p, s, frames))
  {
    hide Joined, InOrder, WholeChunks, WholeWrites;
    var chunk := Joined(frames, p.z.sample);
    JoinedIsWhole(frames, p.z.sample);
    ChunksGrow(p, s.queue, chunk);
    ReceiveInOrder(s.accepted, s.written, s.discarded, s.buffered, s.queue, chunk);
  }

  lemma DrainKeepsAudio(p: Params, s: Session)
    requires p.z.sample > 0 && AudioKept(p, s)
    ensures AudioKept(p, DrainQueue(s))
  {
    FlattenIsWhole(p, s.queue);
    WholeSamplesAdd(|s.buffered|, |Flatten(s.queue)|, p.z.sample);
    hide Flatten, InOrder, WholeWrites;
    DrainInOrder(s.accepted, s.written, s.discarded, s.buffered, s.queue);
  }

  lemma PlayKeepsAudio(p: Params, s: Session, t: Clock)
    requires Sound(p.z) && AudioKept(p, s) && s.discarded == [] && |s.buffered| >= p.z.frame
    ensures AudioKept(p, Play(p, s, t))
  {
    WholeSamplesAdd(|s.buffered|, p.z.frame, p.z.sample);
    hide InOrder, WholeWrites, WholeChunks, Active;
    WriteInOrder(s.accepted, s.written, s.buffered, s.queue, p.z.frame, 0);
    WritesGrow(p, s.written, Write(s.buffered[..p.z.frame], 0));
  }

  lemma PadKeepsAudio(p: Params, s: Session, t: Clock)
    requires Sound(p.z) && AudioKept(p, s) && s.discarded == [] && |s.buffered| < p.z.frame
    ensures AudioKept(p, Pad(p, s, t))
  {
    hide InOrder, WholeWrites, WholeChunks, Active, PaddedMs;
    WriteAllInOrder(s.accepted, s.written, s.buffered, s.queue, p.z.frame - |s.buffered|);
    WritesGrow(p, s.written, Write(s.buffered, p.z.frame - |s.buffered|));
  }

  lemma SilenceKeepsAudio(p: Params, s: Session, t: Clock)
    requires Sound(p.z) && AudioKept(p, s) && s.discarded == []
    ensures AudioKept(p, Silence(p, s, t))
  {
    hide InOrder, WholeWrites, WholeChunks, ActiveRebuffer;
    WriteInOrder(s.accepted, s.written, s.buffered, s.queue, 0, p.z.frame);
    WritesGrow(p, s.written, Write([], p.z.frame));
    assert s.buffered[..0] == [] && s.buffered[0..] == s.buffered;
  }

  /** While the writer runs, nothing was given up and the buffer is within its limit. */
  predicate WithinLimit(p: Params, s: Session) {
    s.writer.Running? ==> s.discarded == [] && |s.buffered| <= p.z.limit
  }

  lemma EmitKeepsAudio(p: Params, s: Session, t: Clock)
    requires Sound(p.z) && AudioKept(p, s) && s.discarded == [] && |s.buffered| <= p.z.limit
    ensures AudioKept(p, Emit(p, s, t)) && WithinLimit(p, Emit(p, s, t))
  {
    hide AudioKept, PaddedMs, ActiveRebuffer, Active, MinPartial;
    if s.primed && |s.buffered| >= p.z.frame {
      PlayKeepsAudio(p, s, t);
    } else if s.primed && |s.buffered| >= MinPartial(p) {
      PadKeepsAudio(p, s, t);
    } else {
      SilenceKeepsAudio(p, s, t);
    }
  }

  lemma PrimeKeepsAudio(p: Params, s: Session, t: Clock)
    requires p.z.sample > 0 && AudioKept(p, s)
    ensures AudioKept(p, Prime(p, s, t))
  {
    hide InOrder, WholeWrites, WholeChunks;
  }

  lemma DeliverKeepsAudio(p: Params, s: Session, t: Clock)
    requires Sound(p.z) && AudioKept(p, s) && s.discarded == []
    ensures AudioKept(p, Deliver(p, s, t)) && WithinLimit(p, Deliver(p, s, t))
  {
    if |s.buffered| <= p.z.limit {
      PrimeKeepsAudio(p, s, t);
      EmitKeepsAudio(p, Prime(p, s, t), t);
    }
    hide Emit, InOrder, WholeWrites, WholeChunks;
  }

  /** The clock readings of the writer's stretches. */
  function ClockOf(e: Event): Clock {
    match e
    case LoopTop(t) => t
    case ChunkArrived(t) => t
    case WaitTimedOut(t) => t
    case _ => Clock(0.0, 0.0)
  }

  lemma ApplyKeepsAudio(p: Params, s: Session, e: Event)
    requires Sound(p.z) && AudioKept(p, s) && WithinLimit(p, s)
    ensures AudioKept(p, Apply(p, s, e)) && WithinLimit(p, Apply(p, s, e))
  {
    hide InOrder, WholeWrites, WholeChunks, Deliver, Joined, Pushed, Flatten;
    DrainKeepsAudio(p, s);
    if s.writer.Running? {
      DeliverKeepsAudio(p, DrainQueue(s), ClockOf(e));
    }
    if e.Received? {
      ReceiveKeepsAudio(p, s, e.frames);
    }
  }

  /** Over every schedule: nothing accepted from the track is dropped or reordered; writes are
      whole frames of whole samples, padded at the end; the buffer stays within its limit. */
  lemma {:induction false} NothingIsDroppedOrReordered(p: Params, t0: real, events: seq<Event>)
    requires Usable(p)
    ensures var s := Run(p, Start(p, t0), events);
            && s.accepted == Payload(s.written) + s.discarded + s.buffered + Flatten(s.queue)
            && (forall i | 0 <= i < |s.written| ::
                  |Output(s.written[i])| == p.z.frame && |s.written[i].payload| % p.z.sample == 0)
            && (s.writer.Running? ==> s.discarded == [] && |s.buffered| <= p.z.limit)
    ensures AudioKept(p, Run(p, Start(p, t0), events)) && WithinLimit(p, Run(p, Start(p, t0), events))
    decreases |events|
  {
    hide Apply, Payload, Flatten, WholeChunks;
    if events == [] {
      StartKeepsAudio(p, t0);
    } else {
      NothingIsDroppedOrReordered(p, t0, events[..|events| - 1]);
      ApplyKeepsAudio(p, Run(p, Start(p, t0), events[..|events| - 1]), events[|events| - 1]);
    }
  }

  lemma StartKeepsAudio(p: Params, t0: real)
    requires Usable(p)
    ensures AudioKept(p, Start(p, t0)) && WithinLimit(p, Start(p, t0))
  {
  }

  // ---------------------------------------------------------------- the queue

  /** The queue of the track drops nothing and refuses only when it is full; the queue of the
      other paths always takes the chunk and keeps the newest ones, in order. */
  lemma PushKeepsNewest(queue: seq<Bytes>, capacity: nat, chunk: Bytes, dropOldest: bool)
    ensures var (ok, q) := Pushed(queue, capacity, chunk, dropOldest);
            && (ok <==> dropOldest || !Full(queue, capacity))
            && (ok ==> q != [] && q[|q| - 1] == chunk && |q| - 1 <= |queue|
                       && q[..|q| - 1] == queue[|queue| - (|q| - 1)..])
            && (!dropOldest ==> q == if ok then queue + [chunk] else queue)
            && (0 < capacity && |queue| <= capacity ==> |q| <= capacity)
  {
  }

  // ---------------------------------------------------------------- priming

  /** The threshold to play on is between a frame and the target, so it is always reached at
      least one frame before the limit at which the session ends. */
  predicate CanPrime(p: Params, s: Session) {
    p.z.frame <= s.rebuffer <= p.z.target && s.rebuffer + p.z.frame <= p.z.limit
  }

  lemma ApplyKeepsPriming(p: Params, s: Session, e: Event)
    requires Sound(p.z) && CanPrime(p, s)
    ensures CanPrime(p, Apply(p, s, e))
  {
    hide Active, PaddedMs, MinPartial, Flatten, Joined, Pushed;
  }

  lemma {:induction false} PrimingComesBeforeOverflow(p: Params, t0: real, events: seq<Event>)
    requires Usable(p)
    ensures var s := Run(p, Start(p, t0), events);
            p.z.frame <= s.rebuffer <= p.z.target && s.rebuffer + p.z.frame <= p.z.limit
    decreases |events|
  {
    hide Apply;
    if events != [] {
      PrimingComesBeforeOverflow(p, t0, events[..|events| - 1]);
      ApplyKeepsPriming(p, Run(p, Start(p, t0), events[..|events| - 1]), events[|events| - 1]);
    }
  }

  // ---------------------------------------------------------------- concealment

  /** The last audio written was active. */
  predicate ActiveAfter(written: seq<Write>)
    decreases |written|
  {
    if written == [] then false
    else
      var w := written[|written| - 1];
      if w.payload == [] then ActiveAfter(written[..|written| - 1]) else Active(Output(w))
  }

  /** The milliseconds of zeros written into active audio since the last complete frame. */
  function Concealed(p: Params, written: seq<Write>): nat
    decreases |written|
  {
    if written == [] then 0
    else
      var front, w := written[..|written| - 1], written[|written| - 1];
      if w.padding == 0 || !ActiveAfter(written) then 0
      else Concealed(p, front) + if w.payload == [] then p.frameMs else PaddedMs(p, w.padding)
  }

  /** The flag and the counter say what the writes say, and the counter is below the limit. */
  predicate Counted(p: Params, s: Session) {
    s.writer.Running? ==>
      && (s.recentActive <==> ActiveAfter(s.written))
      && s.concealMs == Concealed(p, s.written)
      && s.concealMs < p.maxActiveUnderrunMs
  }

  lemma ConcealedGrows(p: Params, written: seq<Write>, w: Write)
    ensures ActiveAfter(written + [w]) == if w.payload == [] then ActiveAfter(written) else Active(Output(w))
    ensures Concealed(p, written + [w]) ==
            if w.padding == 0 || !ActiveAfter(written + [w]) then 0
            else Concealed(p, written) + if w.payload == [] then p.frameMs else PaddedMs(p, w.padding)
  {
    assert (written + [w])[..|written|] == written;
  }

  lemma {:induction false} QuietIsNotConcealed(p: Params, written: seq<Write>)
    requires !ActiveAfter(written)
    ensures Concealed(p, written) == 0
  {
  }

  lemma EmitCounts(p: Params, s: Session, t: Clock)
    requires Usable(p) && Counted(p, s) && s.writer.Running?
    ensures Counted(p, Emit(p, s, t))
  {
    hide PaddedMs, Active, ActiveRebuffer, Concealed, ActiveAfter, MinPartial;
    if s.primed && |s.buffered| >= p.z.frame {
      ConcealedGrows(p, s.written, Write(s.buffered[..p.z.frame], 0));
    } else if s.primed && |s.buffered| >= MinPartial(p) {
      MinPartialIsPositive(p);
      ConcealedGrows(p, s.written, Write(s.buffered, p.z.frame - |s.buffered|));
    } else {
      ConcealedGrows(p, s.written, Write([], p.z.frame));
      if !s.recentActive {
        QuietIsNotConcealed(p, s.written);
      }
    }
  }

  lemma DeliverCounts(p: Params, s: Session, t: Clock)
    requires Usable(p) && Counted(p, s) && s.writer.Running?
    ensures Counted(p, Deliver(p, s, t))
  {
    hide Emit, Concealed, ActiveAfter;
    if |s.buffered| <= p.z.limit {
      EmitCounts(p, Prime(p, s, t), t);
    }
  }

  lemma ApplyCounts(p: Params, s: Session, e: Event)
    requires Usable(p) && Counted(p, s)
    ensures Counted(p, Apply(p, s, e))
  {
    hide Deliver, Joined, Pushed, Flatten, Concealed, ActiveAfter, Usable;
    if s.writer.Running? {
      DeliverCounts(p, DrainQueue(s), ClockOf(e));
    }
  }

  /** Over every schedule: while the writer runs, the zeros written into active audio since the
      last complete frame count for less than the limit. */
  lemma {:induction false} ConcealmentIsBounded(p: Params, t0: real, events: seq<Event>)
    requires Usable(p)
    ensures var s := Run(p, Start(p, t0), events);
            s.writer.Running? ==> Concealed(p, s.written) < p.maxActiveUnderrunMs
    ensures Counted(p, Run(p, Start(p, t0), events))
    decreases |events|
  {
    hide Apply, Concealed, ActiveAfter;
    if events == [] {
      StartCounts(p, t0);
    } else {
      ConcealmentIsBounded(p, t0, events[..|events| - 1]);
      ApplyCounts(p, Run(p, Start(p, t0), events[..|events| - 1]), events[|events| - 1]);
    }
  }

  lemma StartCounts(p: Params, t0: real)
    requires Usable(p)
    ensures Counted(p, Start(p, t0))
  {
  }

  /** From the i-th write on, every write was short and the audio stayed active. */
  predicate StarvedSince(written: seq<Write>, i: nat)
    requires i <= |written|
  {
    forall j | i <= j < |written| :: written[j].padding > 0 && ActiveAfter(written[..j + 1])
  }

  lemma {:induction false} StarvedCounts(p: Params, written: seq<Write>, i: nat)
    requires Usable(p) && i <= |written| && StarvedSince(written, i)
    ensures Concealed(p, written) >= |written| - i
    decreases |written|
  {
    if i < |written| {
      var front := written[..|written| - 1];
      forall j | i <= j < |front|
        ensures front[j].padding > 0 && ActiveAfter(front[..j + 1])
      {
        assert front[j] == written[j] && front[..j + 1] == written[..j + 1];
      }
      StarvedCounts(p, front, i);
      assert written[..|written|] == written;
    }
  }

  /** A starved active run ends: in every schedule it lasts fewer writes than the limit has
      milliseconds, or the session has ended. */
  lemma StarvedRunsEnd(p: Params, t0: real, events: seq<Event>, i: nat)
    requires Usable(p)
    requires var s := Run(p, Start(p, t0), events);
             s.writer.Running? && i <= |s.written| && StarvedSince(s.written, i)
    ensures |Run(p, Start(p, t0), events).written| - i < p.maxActiveUnderrunMs
  {
    hide Run;
    ConcealmentIsBounded(p, t0, events);
    StarvedCounts(p, Run(p, Start(p, t0), events).written, i);
  }

  // ---------------------------------------------------------------- what a round plays

  /** The writer goes on from one of its two waits. */
  predicate GoesOn(s: Session, e: Event) {
    && s.writer == Running
    && match e
       case LoopTop(_) => s.phase == AtTop
       case ChunkArrived(_) => s.phase == Waiting && s.queue != []
       case WaitTimedOut(_) => s.phase == Waiting
       case _ => false
  }

  /** All audio the writer can have: what it holds, then what is queued. */
  function Held(s: Session): Bytes {
    s.buffered + Flatten(s.queue)
  }

  /** A round makes this write, or ends the session because it would conceal too much. */
  predicate Makes(p: Params, s: Session, s1: Session, w: Write, t: Clock) {
    if Concealed(p, s.written + [w]) >= p.maxActiveUnderrunMs then
      s1.writer == ConcealedTooLong && s1.written == s.written
    else
      && s1.writer == Running && s1.phase == Draining
      && s1.written == s.written + [w] && s1.times == s.times + [t.write]
  }

  /** The shortest rest that is played padded: three quarters of a frame, in whole samples. */
  function ShortestPart(z: Sizes): nat
    requires z.sample > 0
  {
    RoundDown(Max(z.sample, z.frame * 3 / 4), z.sample)
  }

  /** What the writer plays in a round, from the audio it has and the state it left off in: nothing
      yet while it waits for a frame, a frame once there is enough, a padded rest if it runs dry, and
      silence until there is enough again.  Too much audio ends the session. */
  predicate RoundIs(p: Params, s: Session, s1: Session, top: bool, t: Clock)
    requires p.z.sample > 0
  {
    var b, frame := Held(s), p.z.frame;
    if top && |b| < frame then
      s1 == s.(buffered := b, queue := [], phase := Waiting)
    else if |b| > p.z.limit then
      s1 == s.(buffered := b, queue := [], writer := Backlogged)
    else if |b| >= frame && (s.primed || |b| >= s.rebuffer) then
      && Makes(p, s, s1, Write(b[..frame], 0), t)
      && s1.writer == Running && s1.primed && s1.buffered == b[frame..] && s1.queue == []
      && s1.rebuffer == (if s.primed then s.rebuffer else p.z.target)
      && s1.tick == (if s.primed then s.tick else t.prime)
    else if s.primed && |b| >= ShortestPart(p.z) then
      && Makes(p, s, s1, Write(b, frame - |b|), t)
      && s1.primed && s1.buffered == [] && s1.queue == [] && s1.rebuffer == s.rebuffer && s1.tick == s.tick
    else
      && Makes(p, s, s1, Write([], frame), t)
      && !s1.primed && s1.buffered == b && s1.queue == [] && s1.tick == s.tick
      && s1.rebuffer == if !s.primed then s.rebuffer
                        else if ActiveAfter(s.written) then Max(frame, Min(p.z.target, 4 * frame))
                        else p.z.target
  }

  /** A primed writer has the target as its threshold again. */
  predicate PrimedAtTarget(p: Params, s: Session) {
    s.primed ==> s.rebuffer == p.z.target
  }

  lemma ApplyKeepsTarget(p: Params, s: Session, e: Event)
    requires PrimedAtTarget(p, s)
    ensures PrimedAtTarget(p, Apply(p, s, e))
  {
    hide Active, PaddedMs, MinPartial, Flatten, Joined, Pushed, ActiveRebuffer;
  }

  lemma PlayIs(p: Params, s: Session, t: Clock)
    requires Usable(p) && s.writer.Running? && |s.buffered| >= p.z.frame
    ensures Makes(p, s, Play(p, s, t), Write(s.buffered[..p.z.frame], 0), t) && Play(p, s, t).writer == Running
  {
    ConcealedGrows(p, s.written, Write(s.buffered[..p.z.frame], 0));
    hide Concealed, Active, ActiveAfter;
  }

  lemma PadIs(p: Params, s: Session, t: Clock)
    requires Usable(p) && Counted(p, s) && s.writer.Running? && 0 < |s.buffered| < p.z.frame
    ensures Makes(p, s, Pad(p, s, t), Write(s.buffered, p.z.frame - |s.buffered|), t)
  {
    hide Concealed, Active, ActiveAfter, PaddedMs, Output, Sound;
    ConcealedGrows(p, s.written, Write(s.buffered, p.z.frame - |s.buffered|));
  }

  lemma SilenceIs(p: Params, s: Session, t: Clock)
    requires Usable(p) && Counted(p, s) && s.writer.Running?
    ensures Makes(p, s, Silence(p, s, t), Write([], p.z.frame), t)
  {
    ConcealedGrows(p, s.written, Write([], p.z.frame));
    if !s.recentActive {
      QuietIsNotConcealed(p, s.written);
    }
    hide Concealed, Active, ActiveAfter, ActiveRebuffer;
  }

  /** A writer whose queue was emptied, as every schedule leaves it. */
  predicate IsReady(p: Params, s: Session) {
    && Usable(p) && Counted(p, s) && CanPrime(p, s) && PrimedAtTarget(p, s)
    && s.writer.Running? && s.queue == [] && |s.buffered| <= p.z.limit
  }

  lemma DeliverPlays(p: Params, s: Session, t: Clock)
    requires IsReady(p, s) && |s.buffered| >= p.z.frame && (s.primed || |s.buffered| >= s.rebuffer)
    ensures RoundIs(p, s, Deliver(p, s, t), false, t)
  {
    hide Concealed, Active, ActiveAfter, PaddedMs, Play, Pad, Silence, Makes, MinPartial, ShortestPart, Flatten, Counted;
    assert Held(s) == s.buffered by { HeldIsBuffered(s); }
    hide Held;
    var s1 := Prime(p, s, t);
    PlayIs(p, s1, t);
    PlayRest(p, s1, t);
    MakesFrom(p, s, s1, Deliver(p, s, t), t);
  }

  lemma DeliverPads(p: Params, s: Session, t: Clock)
    requires IsReady(p, s) && |s.buffered| < p.z.frame && s.primed && |s.buffered| >= MinPartial(p)
    ensures RoundIs(p, s, Deliver(p, s, t), false, t)
  {
    hide Concealed, Active, ActiveAfter, PaddedMs, Play, Pad, Silence, Makes, Flatten, Counted, Held, MinPartial,
      ShortestPart, PrimedAtTarget, CanPrime;
    PartsAgree(p);
    HeldIsBuffered(s);
    PadIs(p, s, t);
    PadRest(p, s, t);
  }

  lemma DeliverSilence(p: Params, s: Session, t: Clock)
    requires IsReady(p, s)
    requires if s.primed then |s.buffered| < p.z.frame && |s.buffered| < MinPartial(p) else |s.buffered| < s.rebuffer
    ensures RoundIs(p, s, Deliver(p, s, t), false, t)
  {
    hide Concealed, Active, ActiveAfter, PaddedMs, Play, Pad, Silence, Makes, Flatten, Held, MinPartial, ShortestPart;
    PartsAgree(p);
    HeldIsBuffered(s);
    SilenceIs(p, s, t);
    SilenceRest(p, s, t);
  }

  lemma PartsAgree(p: Params)
    requires p.z.sample > 0
    ensures MinPartial(p) == ShortestPart(p.z) >= p.z.sample
  {
    MinPartialIsPositive(p);
  }

  lemma HeldIsBuffered(s: Session)
    requires s.queue == []
    ensures Held(s) == s.buffered
  {
  }

  /** A round after the queue was emptied. */
  lemma DeliverIs(p: Params, s: Session, t: Clock)
    requires Usable(p) && Counted(p, s) && CanPrime(p, s) && PrimedAtTarget(p, s) && s.writer.Running? && s.queue == []
    ensures RoundIs(p, s, Deliver(p, s, t), false, t)
  {
    hide Counted, MinPartial;
    if |s.buffered| > p.z.limit {
      HeldIsBuffered(s);
      hide Held, Emit;
    } else if |s.buffered| >= p.z.frame && (s.primed || |s.buffered| >= s.rebuffer) {
      DeliverPlays(p, s, t);
    } else if s.primed && |s.buffered| >= MinPartial(p) {
      DeliverPads(p, s, t);
    } else {
      DeliverSilence(p, s, t);
    }
    hide RoundIs, Deliver;
  }

  lemma MakesFrom(p: Params, s: Session, s0: Session, s1: Session, t: Clock)
    requires s0.written == s.written && s0.times == s.times
    ensures forall w :: Makes(p, s0, s1, w, t) == Makes(p, s, s1, w, t)
  {
    hide Concealed;
  }

  lemma PlayRest(p: Params, s: Session, t: Clock)
    requires |s.buffered| >= p.z.frame
    ensures var s1 := Play(p, s, t);
            && s1.primed == s.primed && s1.buffered == s.buffered[p.z.frame..] && s1.queue == s.queue
            && s1.rebuffer == s.rebuffer && s1.tick == s.tick
  {
    hide Active;
  }

  lemma PadRest(p: Params, s: Session, t: Clock)
    requires |s.buffered| < p.z.frame
    ensures var s1 := Pad(p, s, t);
            && s1.primed == s.primed && s1.buffered == [] && s1.queue == s.queue
            && s1.rebuffer == s.rebuffer && s1.tick == s.tick
  {
    hide Active, PaddedMs;
  }

  lemma SilenceRest(p: Params, s: Session, t: Clock)
    ensures var s1 := Silence(p, s, t);
            && !s1.primed && s1.buffered == s.buffered && s1.queue == s.queue && s1.tick == s.tick
            && s1.rebuffer == if !s.primed then s.rebuffer
                              else if s.recentActive then Max(p.z.frame, Min(p.z.target, p.z.frame * 4))
                              else p.z.target
  {
  }

  /** Over every schedule: what each round of the writer plays.  In particular a buffer that has
      filled up to its threshold is played, frame by frame, and one below it is not. */
  lemma FilledBufferIsPlayed(p: Params, t0: real, events: seq<Event>, e: Event)
    requires Usable(p) && GoesOn(Run(p, Start(p, t0), events), e)
    ensures RoundIs(p, Run(p, Start(p, t0), events), Run(p, Start(p, t0), events + [e]), e.LoopTop?, ClockOf(e))
  {
    var s := Run(p, Start(p, t0), events);
    assert (events + [e])[..|events|] == events;
    PrimingComesBeforeOverflow(p, t0, events);
    ConcealmentIsBounded(p, t0, events);
    TargetIsKept(p, t0, events);
    hide Run, Concealed, ActiveAfter, Flatten, Makes, Deliver;
    var s1 := DrainQueue(s);
    DeliverIs(p, s1, ClockOf(e));
    assert Held(s1) == Held(s) by { NothingQueued(s); }
    hide Held;
    MakesFrom(p, s, s1, Deliver(p, s1, ClockOf(e)), ClockOf(e));
  }

  lemma NothingQueued(s: Session)
    ensures Held(DrainQueue(s)) == Held(s) == DrainQueue(s).buffered
  {
    assert Flatten([]) == [];
  }

  lemma {:induction false} TargetIsKept(p: Params, t0: real, events: seq<Event>)
    ensures PrimedAtTarget(p, Run(p, Start(p, t0), events))
    decreases |events|
  {
    hide Apply;
    if events != [] {
      TargetIsKept(p, t0, events[..|events| - 1]);
      ApplyKeepsTarget(p, Run(p, Start(p, t0), events[..|events| - 1]), events[|events| - 1]);
    }
  }

  /** Over every schedule: after a frame was written the session goes on exactly if the encoder took it,
      quickly enough, and the clock is not behind by the longest lag; then the next frame is due an
      interval after this one, or after now if that has passed. */
  lemma DrainedFrameGoesOn(p: Params, t0: real, events: seq<Event>, took: bool, drainMs: real, now: real)
    requires var s := Run(p, Start(p, t0), events); s.writer == Running && s.phase == Draining
    ensures var s, s1 := Run(p, Start(p, t0), events), Run(p, Start(p, t0), events + [Drained(took, drainMs, now)]);
            var due := s.tick + p.frameMs as real;
            var lag := if due < now then now - due else 0.0;
            var longest := if 2 * p.frameMs < p.maxLagMs then p.maxLagMs else 2 * p.frameMs;
            && (s1.writer == Running <==> took && drainMs <= p.maxLagMs as real && (lag == 0.0 || lag < longest as real))
            && (s1.writer == EncoderFailed <==> !took)
            && (s1.writer == DrainLagged <==> took && drainMs > p.maxLagMs as real)
            && s1 == s.(writer := s1.writer, tick := s1.tick, phase := s1.phase, taken := s1.taken)
            && (s1.writer == Running ==>
                  && s1.phase == AtTop && s1.taken == s.taken + [now]
                  && s1.tick == if due < now then now + p.frameMs as real else due)
  {
    assert (events + [Drained(took, drainMs, now)])[..|events|] == events;
  }

  /** Of a parsed configuration: intervals are frames, and the longest lag is the one asked for. */
  lemma IntervalsLast(c: Config, capacity: nat)
    requires Ready(c)
    ensures var p := ParamsOf(c, capacity);
            && p.z == HandoffSizes(c) && p.capacity == capacity && p.frameMs == c.frameMs
            && p.byteRate == c.inputRate * (2 * c.channels) && p.maxActiveUnderrunMs == c.maxActiveUnderrunMs
            && p.maxLagMs == LagMs(p) == c.maxLagMs
  {
  }

  /** A frame of the track gives the samples it says: those of its plane, and zeros if it is short. */
  lemma FrameIsFitted(f: Resampled, sample: nat)
    ensures var raw := Fit(f, sample);
            && |raw| == f.samples * sample
            && (forall i | 0 <= i < |raw| :: raw[i] == if i < |f.plane| then f.plane[i] else 0)
  {
  }

  /** What is received while the reader reads is queued as one chunk, unless the queue is full, which
      ends the reader; a frame more puts its samples behind. */
  lemma ReceivedIsQueued(p: Params, t0: real, events: seq<Event>, frames: seq<Resampled>)
    requires Run(p, Start(p, t0), events).reader == Reading
    ensures var s, s1 := Run(p, Start(p, t0), events), Run(p, Start(p, t0), events + [Received(frames)]);
            var chunk := Joined(frames, p.z.sample);
            if chunk == [] then s1 == s
            else if p.capacity > 0 && |s.queue| >= p.capacity then s1 == s.(reader := QueueOverflowed)
            else s1 == s.(queue := s.queue + [chunk], accepted := s.accepted + chunk)
    ensures Joined([], p.z.sample) == []
    ensures forall f :: Joined(frames + [f], p.z.sample) == Joined(frames, p.z.sample) + Fit(f, p.z.sample)
  {
    assert (events + [Received(frames)])[..|events|] == events;
    forall f
      ensures Joined(frames + [f], p.z.sample) == Joined(frames, p.z.sample) + Fit(f, p.z.sample)
    {
      assert (frames + [f])[..|frames|] == frames;
    }
    hide Fit;
  }

  // ---------------------------------------------------------------- pacing

  /** The clock does not run backwards, and the sleep before a round lasted as asked. */
  predicate Timely(s: Session, e: Event) {
    match e
    case LoopTop(t) => s.tick <= t.prime <= t.write
    case ChunkArrived(t) => s.tick <= t.prime <= t.write
    case WaitTimedOut(t) => s.tick <= t.prime <= t.write
    case Drained(_, _, now) => s.times != [] ==> s.times[|s.times| - 1] <= now
    case _ => true
  }

  predicate AllTimely(p: Params, s: Session, events: seq<Event>)
    decreases |events|
  {
    events != [] ==>
      && AllTimely(p, s, events[..|events| - 1])
      && var before, e := Run(p, s, events[..|events| - 1]), events[|events| - 1];
         (Enabled(before, e) ==> Timely(before, e))
  }

  function Interval(p: Params): real {
    p.frameMs as real
  }

  /** Between the i-th and the j-th write lies at least the duration of the frames between them. */
  predicate Apart(times: seq<real>, interval: real) {
    forall i, j | 0 <= i < j < |times| :: times[i] + RawPacer.Span(j - 1 - i, interval) <= times[j]
  }

  /** Every write that was taken was taken before a frame and the longest lag had passed. */
  predicate TakenInTime(p: Params, times: seq<real>, taken: seq<real>) {
    |taken| <= |times|
    && forall i | 0 <= i < |taken| :: times[i] <= taken[i] < times[i] + (p.frameMs + LagMs(p)) as real
  }

  /** The clock's invariant; while a write is drained the tick is still the one it was due at. */
  predicate Paced(p: Params, s: Session) {
    && |s.times| == |s.written| && Apart(s.times, Interval(p)) && TakenInTime(p, s.times, s.taken)
    && |s.times| <= |s.taken| + 1
    && (s.writer.Running? ==>
          if s.phase.Draining? then
            && |s.times| == |s.taken| + 1 && s.tick <= s.times[|s.taken|]
            && RawPacer.Spaced(s.times[..|s.taken|], Interval(p), s.tick)
          else |s.times| == |s.taken| && RawPacer.Spaced(s.times, Interval(p), s.tick))
  }

  /** A writer that is about to write or to end. */
  predicate Due(p: Params, s: Session, t: Clock) {
    Paced(p, s) && s.writer.Running? && !s.phase.Draining? && s.tick <= t.prime <= t.write
  }

  /** Only the clock's part of a state matters for pacing. */
  predicate Wrote(s: Session, s1: Session, t: Clock) {
    && |s1.written| == |s.written| + 1 && s1.times == s.times + [t.write] && s1.taken == s.taken
    && s1.tick == s.tick && s1.writer.Running? && s1.phase.Draining?
  }

  predicate Ended(s: Session, s1: Session) {
    |s1.written| == |s.written| && s1.times == s.times && s1.taken == s.taken && !s1.writer.Running?
  }

  lemma EmitWrites(p: Params, s: Session, t: Clock)
    requires s.writer.Running?
    ensures Wrote(s, Emit(p, s, t), t) || Ended(s, Emit(p, s, t))
  {
    hide Active, PaddedMs, MinPartial, ActiveRebuffer;
  }

  lemma WrotePaced(p: Params, s: Session, s1: Session, t: Clock)
    requires Due(p, s, t) && Wrote(s, s1, t)
    ensures Paced(p, s1)
  {
    RawPacer.SpacedWrite(s.times, Interval(p), s.tick, t.write);
    assert s1.times[..|s.taken|] == s.times;
    hide RawPacer.Span, RawPacer.Spaced;
    forall i | 0 <= i < |s1.taken|
      ensures s1.times[i] == s.times[i]
    {
    }
  }

  lemma DeliverPaced(p: Params, s: Session, t: Clock)
    requires Due(p, s, t)
    ensures Paced(p, Deliver(p, s, t))
  {
    hide Paced, Emit;
    PrimePaced(p, s, t);
    if |s.buffered| <= p.z.limit {
      var s1 := Prime(p, s, t);
      EmitWrites(p, s1, t);
      if Wrote(s1, Emit(p, s1, t), t) {
        WrotePaced(p, s1, Emit(p, s1, t), t);
      } else {
        EndedPaced(p, s1, Emit(p, s1, t));
      }
    } else {
      EndedPaced(p, s, Deliver(p, s, t));
    }
  }

  lemma EndedPaced(p: Params, s: Session, s1: Session)
    requires Paced(p, s) && Ended(s, s1)
    ensures Paced(p, s1)
  {
    hide Apart, TakenInTime, RawPacer.Spaced;
  }

  lemma PrimePaced(p: Params, s: Session, t: Clock)
    requires Due(p, s, t)
    ensures Due(p, Prime(p, s, t), t) && Prime(p, s, t).writer.Running?
  {
    hide Apart, TakenInTime, RawPacer.Span;
    RawPacer.SpacedLater(s.times, Interval(p), s.tick, t.prime);
  }

  lemma PacePaced(p: Params, s: Session, now: real)
    requires Usable(p) && Paced(p, s) && s.writer.Running? && s.phase.Draining? && s.times[|s.times| - 1] <= now
    ensures Paced(p, Pace(p, s, now))
  {
    var s1 := Pace(p, s, now);
    var n := |s.taken|;
    if s1.writer.Running? {
      RawPacer.SpacedGrows(s.times[..n], Interval(p), s.tick, s.tick, s.times[n], now);
      assert s.times == s.times[..n] + [s.times[n]];
      hide Apart, RawPacer.Span, RawPacer.Spaced;
    }
  }

  lemma ApplyPaced(p: Params, s: Session, e: Event)
    requires Usable(p) && Paced(p, s) && (Enabled(s, e) ==> Timely(s, e))
    ensures Paced(p, Apply(p, s, e))
  {
    if Enabled(s, e) {
      hide Apart, TakenInTime, RawPacer.Spaced, Deliver, Pace, Usable, Joined, Pushed, Flatten;
      match e {
        case LoopTop(t) => DeliverPaced(p, DrainQueue(s), t);
        case ChunkArrived(t) => DeliverPaced(p, DrainQueue(s), t);
        case WaitTimedOut(t) => DeliverPaced(p, DrainQueue(s), t);
        case Drained(took, drainMs, now) => PacePaced(p, s, now);
        case _ =>
      }
    }
  }

  /** No catch-up burst: over every schedule whose clock does not run backwards, the writes are at
      least the frames between them apart.  And no silent stall: each of them was taken by the
      encoder before a frame and the longest lag had passed, or it was the last. */
  lemma {:induction false} WritesKeepPace(p: Params, t0: real, events: seq<Event>)
    requires Usable(p) && AllTimely(p, Start(p, t0), events)
    ensures var s := Run(p, Start(p, t0), events);
            && |s.times| == |s.written| && |s.written| <= |s.taken| + 1
            && (forall i, j | 0 <= i < j < |s.times| ::
                  s.times[i] + RawPacer.Span(j - 1 - i, p.frameMs as real) <= s.times[j])
            && TakenInTime(p, s.times, s.taken)
    ensures Paced(p, Run(p, Start(p, t0), events))
    decreases |events|
  {
    hide Apply, TakenInTime, RawPacer.Spaced, Usable, RawPacer.Span;
    if events == [] {
      StartPaced(p, t0);
    } else {
      var front := events[..|events| - 1];
      WritesKeepPace(p, t0, front);
      ApplyPaced(p, Run(p, Start(p, t0), front), events[|events| - 1]);
    }
  }

  lemma StartPaced(p: Params, t0: real)
    ensures Paced(p, Start(p, t0))
  {
  }
}
