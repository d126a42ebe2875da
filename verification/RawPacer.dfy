/**
 The raw PCM writer (hazeReceiver.py:1308-1493): a jitter buffer that plays one frame per
 tick into the transmitter's pipe, drops old audio when it falls behind and plays silence
 while it rebuffers.

 Everything outside the writer is an input of a round: the chunks waiting in the queue, the
 chunks that come while it waits, the clock readings and whether the pipe accepted the frame.
 */
module RawPacer {
  import opened Pcm

  // ---------------------------------------------------------------- state

  /** What happened, in order: `Played` and `Silence` are writes to the pipe. */
  datatype Event =
    | Took(chunk: Bytes)
    | Dropped(bytes: Bytes)
    | Played(frame: Bytes, at: real)
    | Silence(at: real)

  datatype Status = Running | Underrun | PipeFailed

  datatype Pacer = Pacer(
    buffered: Bytes,
    primed: bool,
    recentActive: bool,
    tick: real,
    status: Status,
    log: seq<Event>)

  /** The inputs of one pass through the loop. */
  datatype Round = Round(
    ready: seq<Bytes>,
    late: seq<Bytes>,
    primeAt: real,
    at: real,
    now: real,
    accepted: bool)

  function Start(z: Sizes, t0: real): Pacer {
    Pacer([], z.target <= z.frame, false, t0, Running, [])
  }

  // ---------------------------------------------------------------- one round

  function Take(s: Pacer, chunk: Bytes): Pacer {
    s.(buffered := s.buffered + chunk, log := s.log + [Took(chunk)])
  }

  function TakeAll(s: Pacer, chunks: seq<Bytes>): Pacer
    decreases |chunks|
  {
    if chunks == [] then s else Take(TakeAll(s, chunks[..|chunks| - 1]), chunks[|chunks| - 1])
  }

  function Refill(z: Sizes, s: Pacer, r: Round): Pacer {
    var s1 := TakeAll(s, r.ready);
    if |s1.buffered| < z.frame then TakeAll(s1, r.late) else s1
  }

  function Drop(s: Pacer, n: nat): Pacer
    requires n <= |s.buffered|
  {
    if n == 0 then s else s.(buffered := s.buffered[n..], log := s.log + [Dropped(s.buffered[..n])])
  }

  /** Drops whole samples until about the target is left. */
  function DropToTarget(z: Sizes, s: Pacer): Pacer
    requires Sound(z) && z.target <= |s.buffered|
  {
    Drop(s, RoundDown(|s.buffered| - z.target, z.sample))
  }

  function Trim(z: Sizes, s: Pacer): Pacer
    requires Sound(z)
  {
    var s1 := if !s.primed && |s.buffered| > z.target then DropToTarget(z, s) else s;
    if |s1.buffered| > z.limit then DropToTarget(z, s1).(primed := true) else s1
  }

  function Prime(z: Sizes, s: Pacer, r: Round): Pacer {
    if !s.primed && |s.buffered| >= z.target then s.(primed := true, tick := r.primeAt) else s
  }

  /** The write, or the underrun that ends the session instead of inserting silence. */
  function Emit(z: Sizes, s: Pacer, r: Round): Pacer {
    if s.primed && |s.buffered| >= z.frame then
      var frame := s.buffered[..z.frame];
      s.(buffered := s.buffered[z.frame..], recentActive := Active(frame), log := s.log + [Played(frame, r.at)])
    else if s.primed && s.recentActive then
      s.(primed := false, status := Underrun)
    else
      s.(primed := false, log := s.log + [Silence(r.at)])
  }

  /** The next tick: late writers are re-anchored, never hurried. */
  function NextTick(tick: real, interval: real, now: real): real {
    if tick + interval < now then now + interval else tick + interval
  }

  function Advance(interval: real, s: Pacer, r: Round): Pacer {
    if !s.status.Running? then s
    else if !r.accepted then s.(status := PipeFailed)
    else s.(tick := NextTick(s.tick, interval, r.now))
  }

  function Step(z: Sizes, interval: real, s: Pacer, r: Round): Pacer
    requires Sound(z)
  {
    Advance(interval, Emit(z, Prime(z, Trim(z, Refill(z, s, r)), r), r), r)
  }

  /** The state after `rounds`; nothing happens once the session has ended. */
  function After(z: Sizes, interval: real, s: Pacer, rounds: seq<Round>): Pacer
    requires Sound(z)
    decreases |rounds|
  {
    if rounds == [] then s
    else
      var p := After(z, interval, s, rounds[..|rounds| - 1]);
      if p.status.Running? then Step(z, interval, p, rounds[|rounds| - 1]) else p
  }

  // ---------------------------------------------------------------- the writer itself

  class Writer {
    const z: Sizes
    const interval: real
    var buffered: Bytes
    var primed: bool
    var recentActive: bool
    var nextTick: real
    var status: Status
    ghost var log: seq<Event>

    ghost function State(): Pacer
      reads this
    {
      Pacer(buffered, primed, recentActive, nextTick, status, log)
    }

    constructor (c: Config, t0: real)
      requires c.channels > 0
      ensures z == RawSizes(c) && interval == FrameMs(c) as real / 1000.0
      ensures State() == Start(z, t0)
    {
      var sizes := RawSizes(c);
      z := sizes;
      interval := FrameMs(c) as real / 1000.0;
      buffered, primed, recentActive := [], sizes.target <= sizes.frame, false;
      nextTick, status, log := t0, Running, [];
    }

    /** Empties the queue into the buffer. */
    method TakeChunks(chunks: seq<Bytes>)
      modifies this
      ensures State() == TakeAll(old(State()), chunks)
    {
      ghost var s := State();
      var i := 0;
      while i < |chunks|
        invariant 0 <= i <= |chunks|
        invariant State() == TakeAll(s, chunks[..i])
      {
        assert chunks[..i + 1][..i] == chunks[..i];
        buffered := buffered + chunks[i];
        log := log + [Took(chunks[i])];
        i := i + 1;
      }
      assert chunks[..|chunks|] == chunks;
    }

    /** Deletes `n` bytes from the front of the buffer. */
    method Discard(n: nat)
      requires n <= |buffered|
      modifies this
      ensures State() == Drop(old(State()), n)
    {
      if n > 0 {
        log := log + [Dropped(buffered[..n])];
        buffered := buffered[n..];
      }
    }

    method TrimBuffer()
      requires Sound(z)
      modifies this
      ensures State() == Trim(z, old(State()))
    {
      if !primed && |buffered| > z.target {
        Discard(RoundDown(|buffered| - z.target, z.sample));
      }
      if |buffered| > z.limit {
        var drop := RoundDown(|buffered| - z.target, z.sample);
        if drop > 0 {
          Discard(drop);
          primed := |buffered| >= z.target;
        }
      }
    }

    method Write(r: Round)
      modifies this
      ensures State() == Emit(z, old(State()), r)
    {
      if primed && |buffered| >= z.frame {
        var chunk := buffered[..z.frame];
        buffered := buffered[z.frame..];
        recentActive := Peak(chunk) > QUIET_PEAK;
        log := log + [Played(chunk, r.at)];
      } else {
        if primed {
          primed := false;
          if recentActive {
            status := Underrun;
            return;
          }
        }
        log := log + [Silence(r.at)];
      }
    }

    method PlayRound(r: Round)
      requires Sound(z) && status.Running?
      modifies this
      ensures State() == Step(z, interval, old(State()), r)
    {
      hide TakeAll, Trim, Emit;
      TakeChunks(r.ready);
      if |buffered| < z.frame {
        TakeChunks(r.late);
      }
      TrimBuffer();
      if !primed && |buffered| >= z.target {
        primed := true;
        nextTick := r.primeAt;
      }
      Write(r);
      if status.Running? {
        if !r.accepted {
          status := PipeFailed;
        } else {
          nextTick := nextTick + interval;
          if nextTick - r.now < 0.0 {
            nextTick := r.now + interval;
          }
        }
      }
    }

    /** The loop, for every finite sequence of inputs. */
    method Play(rounds: seq<Round>)
      requires Sound(z) && status.Running?
      modifies this
      ensures State() == After(z, interval, old(State()), rounds)
    {
      ghost var s := State();
      var i := 0;
      while i < |rounds| && status.Running?
        invariant 0 <= i <= |rounds|
        invariant State() == After(z, interval, s, rounds[..i])
      {
        assert rounds[..i + 1][..i] == rounds[..i];
        PlayRound(rounds[i]);
        i := i + 1;
      }
      EndedStays(z, interval, s, rounds, i);
    }
  }

  lemma {:induction false} EndedStays(z: Sizes, interval: real, s: Pacer, rounds: seq<Round>, i: nat)
    requires Sound(z) && i <= |rounds|
    requires i == |rounds| || !After(z, interval, s, rounds[..i]).status.Running?
    ensures After(z, interval, s, rounds) == After(z, interval, s, rounds[..i])
    decreases |rounds|
  {
    if i == |rounds| {
      assert rounds[..i] == rounds;
    } else {
      var front := rounds[..|rounds| - 1];
      assert front[..i] == rounds[..i];
      EndedStays(z, interval, s, front, i);
    }
  }

  // ---------------------------------------------------------------- histories

  /** The bytes dequeued, in order. */
  function Taken(log: seq<Event>): Bytes
    decreases |log|
  {
    if log == [] then []
    else
      var before := Taken(log[..|log| - 1]);
      match log[|log| - 1]
      case Took(chunk) => before + chunk
      case _ => before
  }

  /** The bytes that left the buffer, played or dropped, in order. */
  function Gone(log: seq<Event>): Bytes
    decreases |log|
  {
    if log == [] then []
    else
      var before := Gone(log[..|log| - 1]);
      match log[|log| - 1]
      case Dropped(bytes) => before + bytes
      case Played(frame, _) => before + frame
      case _ => before
  }

  /** The times of the writes. */
  function Writes(log: seq<Event>): seq<real>
    decreases |log|
  {
    if log == [] then []
    else
      var before := Writes(log[..|log| - 1]);
      var last := log[|log| - 1];
      if last.Played? || last.Silence? then before + [last.at] else before
  }

  /** The last write was a frame of active audio. */
  predicate ActiveLast(log: seq<Event>)
    decreases |log|
  {
    if log == [] then false
    else
      match log[|log| - 1]
      case Played(frame, _) => Active(frame)
      case Silence(_) => false
      case _ => ActiveLast(log[..|log| - 1])
  }

  /** No silence was inserted right after a frame of active audio. */
  predicate NoGapInActiveAudio(log: seq<Event>) {
    forall j | 0 <= j < |log| :: log[j].Silence? ==> !ActiveLast(log[..j])
  }

  predicate WholeFrames(z: Sizes, log: seq<Event>) {
    forall j | 0 <= j < |log| :: log[j].Played? ==> |log[j].frame| == z.frame
  }

  predicate WholeDrops(z: Sizes, log: seq<Event>)
    requires z.sample > 0
  {
    forall j | 0 <= j < |log| :: log[j].Dropped? ==> |log[j].bytes| % z.sample == 0
  }

  // ---------------------------------------------------------------- conservation

  /** Every byte dequeued was played, was dropped or is buffered, in that order. */
  predicate Conserved(s: Pacer) {
    Taken(s.log) == Gone(s.log) + s.buffered
  }

  /** What every step does to the histories. */
  predicate Aligned(z: Sizes, s: Pacer)
    requires z.sample > 0
  {
    Conserved(s) && WholeFrames(z, s.log) && WholeDrops(z, s.log) && |Gone(s.log)| % z.sample == 0
  }

  lemma LogGrows(log: seq<Event>, e: Event)
    ensures (log + [e])[..|log|] == log && (log + [e])[|log|] == e
  {
  }

  lemma {:induction false} TakeAllAligned(z: Sizes, s: Pacer, chunks: seq<Bytes>)
    requires Sound(z) && Aligned(z, s)
    ensures Aligned(z, TakeAll(s, chunks))
    ensures TakeAll(s, chunks) == s.(buffered := TakeAll(s, chunks).buffered, log := TakeAll(s, chunks).log)
    ensures |TakeAll(s, chunks).buffered| >= |s.buffered|
    decreases |chunks|
  {
    if chunks != [] {
      TakeAllAligned(z, s, chunks[..|chunks| - 1]);
      var p := TakeAll(s, chunks[..|chunks| - 1]);
      LogGrows(p.log, Took(chunks[|chunks| - 1]));
    }
  }

  lemma DropAligned(z: Sizes, s: Pacer, n: nat)
    requires Sound(z) && Aligned(z, s) && n <= |s.buffered| && n % z.sample == 0
    ensures Aligned(z, Drop(s, n))
  {
    LogGrows(s.log, Dropped(s.buffered[..n]));
    WholeSamplesAdd(|Gone(s.log)|, n, z.sample);
  }

  lemma TrimAligned(z: Sizes, s: Pacer)
    requires Sound(z) && Aligned(z, s)
    ensures Aligned(z, Trim(z, s))
    ensures |Trim(z, s).buffered| <= z.limit
  {
    hide Aligned, Drop;
    if !s.primed && |s.buffered| > z.target {
      DropAligned(z, s, RoundDown(|s.buffered| - z.target, z.sample));
    }
    var s1 := if !s.primed && |s.buffered| > z.target then DropToTarget(z, s) else s;
    if |s1.buffered| > z.limit {
      DropAligned(z, s1, RoundDown(|s1.buffered| - z.target, z.sample));
      PrimedIsNoHistory(z, DropToTarget(z, s1));
      DropLength(s1, RoundDown(|s1.buffered| - z.target, z.sample));
    }
  }

  /** Trimming keeps the newest audio: what stays is a suffix, a primed buffer within the limit
      is untouched, and a trimmed buffer holds the target to within one sample. */
  lemma TrimKeepsTheNewest(z: Sizes, s: Pacer)
    requires Sound(z)
    ensures var b := Trim(z, s).buffered;
            && |b| <= |s.buffered| && b == s.buffered[|s.buffered| - |b|..]
            && (s.primed && |s.buffered| <= z.limit ==> b == s.buffered)
            && (!s.primed && |s.buffered| <= z.target ==> b == s.buffered)
            && (|b| < |s.buffered| ==> z.target <= |b|)
            && ((if s.primed then |s.buffered| > z.limit else |s.buffered| > z.target) ==>
                  |b| < z.target + z.sample)
  {
    if !s.primed && |s.buffered| > z.target {
      DropLength(s, RoundDown(|s.buffered| - z.target, z.sample));
    } else if |s.buffered| > z.limit {
      DropLength(s, RoundDown(|s.buffered| - z.target, z.sample));
    }
  }

  lemma DropLength(s: Pacer, n: nat)
    requires n <= |s.buffered|
    ensures |Drop(s, n).buffered| == |s.buffered| - n
  {
  }

  lemma PrimedIsNoHistory(z: Sizes, s: Pacer)
    requires Sound(z) && Aligned(z, s)
    ensures Aligned(z, s.(primed := true))
  {
  }

  lemma EmitAligned(z: Sizes, s: Pacer, r: Round)
    requires Sound(z) && Aligned(z, s)
    ensures Aligned(z, Emit(z, s, r)) && |Emit(z, s, r).buffered| <= |s.buffered|
  {
    if s.primed && |s.buffered| >= z.frame {
      LogGrows(s.log, Played(s.buffered[..z.frame], r.at));
      WholeSamplesAdd(|Gone(s.log)|, z.frame, z.sample);
    } else {
      LogGrows(s.log, Silence(r.at));
    }
  }

  lemma StepAligned(z: Sizes, interval: real, s: Pacer, r: Round)
    requires Sound(z) && Aligned(z, s)
    ensures Aligned(z, Step(z, interval, s, r)) && |Step(z, interval, s, r).buffered| <= z.limit
  {
    TakeAllAligned(z, s, r.ready);
    var s1 := TakeAll(s, r.ready);
    if |s1.buffered| < z.frame {
      TakeAllAligned(z, s1, r.late);
    }
    var s2 := Refill(z, s, r);
    TrimAligned(z, s2);
    var s3 := Trim(z, s2);
    assert Aligned(z, Prime(z, s3, r));
    EmitAligned(z, Prime(z, s3, r), r);
  }

  /** Over every run, whatever the chunk lengths: every dequeued byte was played, dropped or is
      buffered, in order; what left the buffer is whole samples, frames are whole frames, and
      the buffer is within its limit. */
  lemma {:induction false} RunConservesAudio(z: Sizes, interval: real, t0: real, rounds: seq<Round>)
    requires Sound(z)
    ensures var s := After(z, interval, Start(z, t0), rounds);
            && Taken(s.log) == Gone(s.log) + s.buffered
            && |Gone(s.log)| % z.sample == 0
            && WholeFrames(z, s.log) && WholeDrops(z, s.log)
            && |s.buffered| <= z.limit
    decreases |rounds|
  {
    if rounds != [] {
      RunConservesAudio(z, interval, t0, rounds[..|rounds| - 1]);
      var p := After(z, interval, Start(z, t0), rounds[..|rounds| - 1]);
      hide Step;
      if p.status.Running? {
        StepAligned(z, interval, p, rounds[|rounds| - 1]);
      }
    }
  }

  // ---------------------------------------------------------------- no silence in active audio

  /** An unprimed writer has just played quiet audio, and the flag remembers the last write. */
  predicate Guarded(s: Pacer) {
    && NoGapInActiveAudio(s.log)
    && (s.recentActive <==> ActiveLast(s.log))
    && (s.status.Running? && !s.primed ==> !s.recentActive)
  }

  lemma Quietly(s: Pacer, e: Event)
    requires Guarded(s) && (e.Took? || e.Dropped?)
    ensures NoGapInActiveAudio(s.log + [e]) && (ActiveLast(s.log + [e]) <==> ActiveLast(s.log))
  {
    LogGrows(s.log, e);
    NoGapGrows(s.log, e);
  }

  lemma NoGapGrows(log: seq<Event>, e: Event)
    requires NoGapInActiveAudio(log) && (e.Silence? ==> !ActiveLast(log))
    ensures NoGapInActiveAudio(log + [e])
  {
    var l := log + [e];
    LogGrows(log, e);
    forall j | 0 <= j < |l| && l[j].Silence?
      ensures !ActiveLast(l[..j])
    {
      if j < |log| {
        assert l[..j] == log[..j];
      }
    }
  }

  lemma {:induction false} TakeAllGuarded(s: Pacer, chunks: seq<Bytes>)
    requires Guarded(s)
    ensures Guarded(TakeAll(s, chunks))
    ensures var p := TakeAll(s, chunks);
            p.primed == s.primed && p.recentActive == s.recentActive && p.tick == s.tick && p.status == s.status
            && Writes(p.log) == Writes(s.log) && |p.buffered| >= |s.buffered|
    decreases |chunks|
  {
    if chunks != [] {
      TakeAllGuarded(s, chunks[..|chunks| - 1]);
      var p := TakeAll(s, chunks[..|chunks| - 1]);
      Quietly(p, Took(chunks[|chunks| - 1]));
      LogGrows(p.log, Took(chunks[|chunks| - 1]));
    }
  }

  lemma DropGuarded(s: Pacer, n: nat)
    requires Guarded(s) && n <= |s.buffered|
    ensures Guarded(Drop(s, n)) && Writes(Drop(s, n).log) == Writes(s.log)
    ensures Drop(s, n) == s.(buffered := Drop(s, n).buffered, log := Drop(s, n).log)
  {
    Quietly(s, Dropped(s.buffered[..n]));
    LogGrows(s.log, Dropped(s.buffered[..n]));
  }

  lemma TrimGuarded(z: Sizes, s: Pacer)
    requires Sound(z) && Guarded(s)
    ensures var p := Trim(z, s);
            Guarded(p) && Writes(p.log) == Writes(s.log) && p.tick == s.tick && p.status == s.status
            && (s.primed ==> p.primed)
  {
    hide Guarded, Drop, Writes, RoundDown;
    if !s.primed && |s.buffered| > z.target {
      DropGuarded(s, RoundDown(|s.buffered| - z.target, z.sample));
    }
    var s1 := if !s.primed && |s.buffered| > z.target then DropToTarget(z, s) else s;
    if |s1.buffered| > z.limit {
      DropGuarded(s1, RoundDown(|s1.buffered| - z.target, z.sample));
      PrimingIsGuarded(DropToTarget(z, s1), s1.tick);
    }
  }

  lemma EmitGuarded(z: Sizes, s: Pacer, r: Round)
    requires Guarded(s) && s.status.Running?
    ensures Guarded(Emit(z, s, r)) && Emit(z, s, r).tick == s.tick
    ensures Emit(z, s, r).status.Running? ==> Writes(Emit(z, s, r).log) == Writes(s.log) + [r.at]
    ensures !Emit(z, s, r).status.Running? ==> Emit(z, s, r).log == s.log
  {
    if s.primed && |s.buffered| >= z.frame {
      var e := Played(s.buffered[..z.frame], r.at);
      LogGrows(s.log, e);
      NoGapGrows(s.log, e);
    } else if !(s.primed && s.recentActive) {
      LogGrows(s.log, Silence(r.at));
      NoGapGrows(s.log, Silence(r.at));
    }
  }

  /** The state in which a round writes. */
  function Prepared(z: Sizes, s: Pacer, r: Round): Pacer
    requires Sound(z)
  {
    Prime(z, Trim(z, Refill(z, s, r)), r)
  }

  lemma PreparedGuarded(z: Sizes, s: Pacer, r: Round)
    requires Sound(z) && Guarded(s)
    ensures var p := Prepared(z, s, r);
            Guarded(p) && Writes(p.log) == Writes(s.log) && p.status == s.status
            && (p.tick == s.tick || p.tick == r.primeAt)
  {
    hide Guarded, Trim, TakeAll;
    TakeAllGuarded(s, r.ready);
    var s1 := TakeAll(s, r.ready);
    TakeAllGuarded(s1, r.late);
    var s2 := Refill(z, s, r);
    TrimGuarded(z, s2);
    PrimingIsGuarded(Trim(z, s2), r.primeAt);
  }

  lemma PrimingIsGuarded(s: Pacer, t: real)
    requires Guarded(s)
    ensures Guarded(s.(primed := true, tick := t))
  {
  }

  lemma AdvanceGuarded(interval: real, s: Pacer, r: Round)
    requires Guarded(s)
    ensures Guarded(Advance(interval, s, r)) && Advance(interval, s, r).log == s.log
  {
  }

  lemma StepGuarded(z: Sizes, interval: real, s: Pacer, r: Round)
    requires Sound(z) && Guarded(s) && s.status.Running?
    ensures Guarded(Step(z, interval, s, r))
  {
    hide Guarded, Prime, Emit, Advance, Trim, Refill;
    PreparedGuarded(z, s, r);
    EmitGuarded(z, Prepared(z, s, r), r);
    AdvanceGuarded(interval, Emit(z, Prepared(z, s, r), r), r);
  }

  /** Over every run: silence is never inserted right after a frame above the quiet level; the
      session ends instead. */
  lemma {:induction false} SilenceNeverFollowsActiveAudio(z: Sizes, interval: real, t0: real, rounds: seq<Round>)
    requires Sound(z)
    ensures NoGapInActiveAudio(After(z, interval, Start(z, t0), rounds).log)
    ensures Guarded(After(z, interval, Start(z, t0), rounds))
    decreases |rounds|
  {
    if rounds != [] {
      SilenceNeverFollowsActiveAudio(z, interval, t0, rounds[..|rounds| - 1]);
      var p := After(z, interval, Start(z, t0), rounds[..|rounds| - 1]);
      hide Step, Guarded;
      if p.status.Running? {
        StepGuarded(z, interval, p, rounds[|rounds| - 1]);
      }
      GuardedMeansNoGap(After(z, interval, Start(z, t0), rounds));
    }
  }

  lemma GuardedMeansNoGap(s: Pacer)
    requires Guarded(s)
    ensures NoGapInActiveAudio(s.log)
  {
  }

  // ---------------------------------------------------------------- pacing

  /** The clock of a round does not run backwards, and the sleep before it lasted as asked. */
  predicate Timely(s: Pacer, r: Round) {
    s.tick <= r.primeAt <= r.at <= r.now
  }

  predicate AllTimely(z: Sizes, interval: real, s: Pacer, rounds: seq<Round>)
    requires Sound(z)
    decreases |rounds|
  {
    rounds != [] ==>
      && AllTimely(z, interval, s, rounds[..|rounds| - 1])
      && Timely(After(z, interval, s, rounds[..|rounds| - 1]), rounds[|rounds| - 1])
  }

  /** The duration of `n` frames. */
  function Span(n: int, interval: real): real {
    n as real * interval
  }

  /** Writes lie at least the frames between them apart, and the next one waits for the tick. */
  predicate Spaced(w: seq<real>, interval: real, tick: real) {
    && (forall i | 0 <= i < |w| :: w[i] + Span(|w| - 1 - i, interval) <= tick)
    && (forall i, j | 0 <= i < j < |w| :: w[i] + Span(j - 1 - i, interval) <= w[j])
  }

  lemma SpanGrows(n: int, interval: real)
    ensures Span(n + 1, interval) == Span(n, interval) + interval && Span(0, interval) == 0.0
  {
    assert (n + 1) as real == n as real + 1.0;
  }

  lemma SpacedGrows(w: seq<real>, interval: real, tick: real, tick1: real, at: real, now: real)
    requires interval >= 0.0 && Spaced(w, interval, tick) && tick <= tick1 <= at <= now
    ensures Spaced(w + [at], interval, NextTick(tick1, interval, now))
  {
    var w1 := w + [at];
    var t := NextTick(tick1, interval, now);
    SpanGrows(0, interval);
    hide Span;
    forall i | 0 <= i < |w1|
      ensures w1[i] + Span(|w1| - 1 - i, interval) <= t
    {
      if i < |w| {
        assert w[i] + Span(|w| - 1 - i, interval) <= tick;
        SpanGrows(|w| - 1 - i, interval);
      }
    }
  }

  lemma SpacedLater(w: seq<real>, interval: real, tick: real, tick1: real)
    requires Spaced(w, interval, tick) && tick <= tick1
    ensures Spaced(w, interval, tick1)
  {
  }

  lemma SpacedWrite(w: seq<real>, interval: real, tick: real, at: real)
    requires interval >= 0.0 && Spaced(w, interval, tick) && tick <= at
    ensures forall i, j | 0 <= i < j < |w + [at]| ::
              (w + [at])[i] + Span(j - 1 - i, interval) <= (w + [at])[j]
  {
    hide Span;
  }

  predicate PacedState(interval: real, s: Pacer) {
    && (forall i, j | 0 <= i < j < |Writes(s.log)| ::
          Writes(s.log)[i] + Span(j - 1 - i, interval) <= Writes(s.log)[j])
    && (s.status.Running? ==> Spaced(Writes(s.log), interval, s.tick))
  }

  lemma StepPaced(z: Sizes, interval: real, s: Pacer, r: Round)
    requires Sound(z) && interval >= 0.0 && Guarded(s) && s.status.Running?
    requires PacedState(interval, s) && Timely(s, r)
    ensures PacedState(interval, Step(z, interval, s, r))
  {
    PreparedGuarded(z, s, r);
    var p := Prepared(z, s, r);
    EmitGuarded(z, p, r);
    var e := Emit(z, p, r);
    hide Guarded, Prime, Emit, Trim, Refill, Spaced, Writes, NextTick, Span;
    var w := Writes(s.log);
    if e.status.Running? {
      SpacedLater(w, interval, s.tick, p.tick);
      SpacedGrows(w, interval, s.tick, p.tick, r.at, r.now);
      SpacedWrite(w, interval, s.tick, r.at);
    }
  }

  /** No catch-up burst: over every run whose clock does not run backwards, between the i-th and
      the j-th write there is at least the duration of the frames strictly between them. */
  lemma {:induction false} NoCatchUpBurst(z: Sizes, interval: real, t0: real, rounds: seq<Round>)
    requires Sound(z) && interval >= 0.0 && AllTimely(z, interval, Start(z, t0), rounds)
    ensures var w := Writes(After(z, interval, Start(z, t0), rounds).log);
            forall i, j | 0 <= i < j < |w| :: w[i] + Span(j - 1 - i, interval) <= w[j]
    ensures PacedState(interval, After(z, interval, Start(z, t0), rounds))
    decreases |rounds|
  {
    if rounds != [] {
      NoCatchUpBurst(z, interval, t0, rounds[..|rounds| - 1]);
      var p := After(z, interval, Start(z, t0), rounds[..|rounds| - 1]);
      SilenceNeverFollowsActiveAudio(z, interval, t0, rounds[..|rounds| - 1]);
      hide Step, Guarded, Spaced, Writes, Span;
      if p.status.Running? {
        StepPaced(z, interval, p, rounds[|rounds| - 1]);
      }
    }
  }

  // ---------------------------------------------------------------- the jitter buffer

  /** How often silence was inserted. */
  function Silences(log: seq<Event>): nat
    decreases |log|
  {
    if log == [] then 0
    else Silences(log[..|log| - 1]) + if log[|log| - 1].Silence? then 1 else 0
  }

  function InFrames(z: Sizes, k: nat): nat {
    k * z.frame
  }

  lemma FramesGrow(z: Sizes, k: nat)
    ensures InFrames(z, k + 1) == InFrames(z, k) + z.frame
  {
  }

  lemma {:induction false} MoreFrames(z: Sizes, k: nat, n: nat)
    requires k <= n
    ensures InFrames(z, k) <= InFrames(z, n)
    decreases n - k
  {
    if k < n {
      FramesGrow(z, n - 1);
      MoreFrames(z, k, n - 1);
    }
  }

  /** A primed, running writer with audio enough for `k` more frames. */
  predicate CanPlay(z: Sizes, s: Pacer, k: nat) {
    Guarded(s) && s.status.Running? && s.primed && InFrames(z, k) <= |s.buffered|
  }

  lemma {:induction false} TakeAllIsSilent(s: Pacer, chunks: seq<Bytes>)
    ensures Silences(TakeAll(s, chunks).log) == Silences(s.log)
    decreases |chunks|
  {
    if chunks != [] {
      TakeAllIsSilent(s, chunks[..|chunks| - 1]);
      LogGrows(TakeAll(s, chunks[..|chunks| - 1]).log, Took(chunks[|chunks| - 1]));
    }
  }

  lemma DropIsSilent(s: Pacer, n: nat)
    requires n <= |s.buffered|
    ensures Silences(Drop(s, n).log) == Silences(s.log)
  {
    LogGrows(s.log, Dropped(s.buffered[..n]));
  }

  /** Arrivals and trimming keep a primed writer supplied. */
  lemma PreparedCanPlay(z: Sizes, s: Pacer, r: Round, k: nat)
    requires Sound(z) && CanPlay(z, s, k) && InFrames(z, k) <= z.target
    ensures var p := Prepared(z, s, r);
            CanPlay(z, p, k) && Silences(p.log) == Silences(s.log) && Writes(p.log) == Writes(s.log)
  {
    PreparedGuarded(z, s, r);
    TakeAllGuarded(s, r.ready);
    TakeAllIsSilent(s, r.ready);
    var s1 := TakeAll(s, r.ready);
    TakeAllGuarded(s1, r.late);
    TakeAllIsSilent(s1, r.late);
    var s2 := Refill(z, s, r);
    hide Guarded, TakeAll, Silences;
    if |s2.buffered| > z.limit {
      DropIsSilent(s2, RoundDown(|s2.buffered| - z.target, z.sample));
    }
  }

  lemma EmitPlays(z: Sizes, s: Pacer, r: Round, k: nat)
    requires Sound(z) && CanPlay(z, s, k + 1)
    ensures var p := Emit(z, s, r);
            CanPlay(z, p, k) && Silences(p.log) == Silences(s.log) && |Writes(p.log)| == |Writes(s.log)| + 1
  {
    FramesGrow(z, k);
    hide InFrames;
    EmitGuarded(z, s, r);
    LogGrows(s.log, Played(s.buffered[..z.frame], r.at));
    hide Guarded;
  }

  lemma StepPlays(z: Sizes, interval: real, s: Pacer, r: Round, k: nat)
    requires Sound(z) && CanPlay(z, s, k + 1) && InFrames(z, k + 1) <= z.target && r.accepted
    ensures var p := Step(z, interval, s, r);
            CanPlay(z, p, k) && Silences(p.log) == Silences(s.log) && |Writes(p.log)| == |Writes(s.log)| + 1
  {
    hide Prime, Trim, Refill, Emit, Guarded, NextTick, Writes, Silences, InFrames;
    PreparedCanPlay(z, s, r, k + 1);
    var p := Prepared(z, s, r);
    EmitPlays(z, p, r, k);
    AdvanceGuarded(interval, Emit(z, p, r), r);
  }

  /** What the jitter buffer is for: from any reachable primed state the writer plays as many
      frames as the buffer and the target hold without a gap, whatever arrives meanwhile. */
  lemma {:induction false} JitterIsAbsorbed(z: Sizes, interval: real, s: Pacer, rounds: seq<Round>, k: nat)
    requires Sound(z) && CanPlay(z, s, |rounds| + k) && InFrames(z, |rounds| + k) <= z.target
    requires forall i | 0 <= i < |rounds| :: rounds[i].accepted
    ensures var p := After(z, interval, s, rounds);
            && CanPlay(z, p, k)
            && Silences(p.log) == Silences(s.log)
            && |Writes(p.log)| == |Writes(s.log)| + |rounds|
    decreases |rounds|
  {
    if rounds != [] {
      var front := rounds[..|rounds| - 1];
      JitterIsAbsorbed(z, interval, s, front, k + 1);
      MoreFrames(z, k + 1, |rounds| + k);
      hide CanPlay, Step, Writes, Silences, InFrames;
      StepPlays(z, interval, After(z, interval, s, front), rounds[|rounds| - 1], k);
    }
  }

  // ---------------------------------------------------------------- what a round plays

  function Joined(chunks: seq<Bytes>): Bytes
    decreases |chunks|
  {
    if chunks == [] then [] else Joined(chunks[..|chunks| - 1]) + chunks[|chunks| - 1]
  }

  function Tooks(chunks: seq<Bytes>): seq<Event> {
    seq(|chunks|, i requires 0 <= i < |chunks| => Took(chunks[i]))
  }

  lemma {:induction false} TakeAllIs(s: Pacer, chunks: seq<Bytes>)
    ensures TakeAll(s, chunks) == s.(buffered := s.buffered + Joined(chunks), log := s.log + Tooks(chunks))
    decreases |chunks|
  {
    if chunks == [] {
      assert s.buffered + [] == s.buffered && s.log + Tooks([]) == s.log;
    } else {
      var n := |chunks| - 1;
      TakeAllIs(s, chunks[..n]);
      assert Tooks(chunks) == Tooks(chunks[..n]) + [Took(chunks[n])];
      assert s.log + Tooks(chunks) == (s.log + Tooks(chunks[..n])) + [Took(chunks[n])];
      assert s.buffered + Joined(chunks) == (s.buffered + Joined(chunks[..n])) + chunks[n];
    }
  }

  lemma {:induction false} JoinedAppends(a: seq<Bytes>, b: seq<Bytes>)
    ensures Joined(a + b) == Joined(a) + Joined(b) && Tooks(a + b) == Tooks(a) + Tooks(b)
    decreases |b|
  {
    if b == [] {
      assert a + b == a;
      assert Joined(a) + [] == Joined(a);
    } else {
      var n := |b| - 1;
      JoinedAppends(a, b[..n]);
      assert (a + b)[..|a + b| - 1] == a + b[..n];
      assert Joined(a + b) == (Joined(a) + Joined(b[..n])) + b[n];
    }
  }

  /** The chunks a round takes: those that wait, and those that come while it waits for a frame. */
  function TakenIn(z: Sizes, s: Pacer, r: Round): seq<Bytes> {
    if |s.buffered| + |Joined(r.ready)| < z.frame then r.ready + r.late else r.ready
  }

  function HeldIn(z: Sizes, s: Pacer, r: Round): Bytes {
    s.buffered + Joined(TakenIn(z, s, r))
  }

  /** How much of the held audio is dropped: nothing, unless a writer that rebuffers has more than
      the target, or one that plays more than the limit; then the oldest whole samples that leave
      the target. */
  predicate Drops(z: Sizes, primed: bool, held: nat, d: nat)
    requires z.sample > 0
  {
    if held > (if primed then z.limit else z.target) then
      d <= held && z.target <= held - d < z.target + z.sample && d % z.sample == 0
    else d == 0
  }

  /** The write was taken, and the next is due an interval after this one, or after now if that has
      passed; or it was refused. */
  predicate Goes(interval: real, due: real, s1: Pacer, r: Round) {
    if !r.accepted then s1.status == PipeFailed
    else s1.status == Running && s1.tick == if due + interval < r.now then r.now + interval else due + interval
  }

  /** What the writer plays in a round: a frame, if it plays already or has the target again, and
      otherwise silence; but right after active audio it ends the session instead. */
  predicate RoundIs(z: Sizes, interval: real, s: Pacer, s1: Pacer, r: Round, d: nat)
    requires z.sample > 0
  {
    var held := HeldIn(z, s, r);
    && Drops(z, s.primed, |held|, d) && d <= |held|
    && var kept := held[d..];
       var log := s.log + Tooks(TakenIn(z, s, r)) + if d > 0 then [Dropped(held[..d])] else [];
       if |kept| >= z.frame && (s.primed || |kept| >= z.target) then
         && s1.log == log + [Played(kept[..z.frame], r.at)] && s1.buffered == kept[z.frame..] && s1.primed
         && Goes(interval, if s.primed then s.tick else r.primeAt, s1, r)
       else if s.primed && ActiveLast(s.log) then
         s1.log == log && s1.buffered == kept && s1.status == Underrun && !s1.primed
       else
         && s1.log == log + [Silence(r.at)] && s1.buffered == kept && !s1.primed
         && Goes(interval, s.tick, s1, r)
  }

  lemma RefillIs(z: Sizes, s: Pacer, r: Round)
    ensures Refill(z, s, r) == s.(buffered := HeldIn(z, s, r), log := s.log + Tooks(TakenIn(z, s, r)))
  {
    TakeAllIs(s, r.ready);
    TakeAllIs(TakeAll(s, r.ready), r.late);
    JoinedAppends(r.ready, r.late);
    hide TakeAll, Joined, Tooks;
    assert (s.buffered + Joined(r.ready)) + Joined(r.late) == s.buffered + (Joined(r.ready) + Joined(r.late));
    assert (s.log + Tooks(r.ready)) + Tooks(r.late) == s.log + (Tooks(r.ready) + Tooks(r.late));
  }

  lemma TrimIs(z: Sizes, s: Pacer) returns (d: nat)
    requires Sound(z)
    ensures Drops(z, s.primed, |s.buffered|, d) && d <= |s.buffered|
    ensures var log := s.log + if d > 0 then [Dropped(s.buffered[..d])] else [];
            Trim(z, s) == s.(buffered := s.buffered[d..], log := log)
  {
    var h := |s.buffered|;
    d := if h > (if s.primed then z.limit else z.target) then RoundDown(h - z.target, z.sample) else 0;
    assert s.buffered[0..] == s.buffered && s.log + [] == s.log;
    DropIs(s, d);
    if !s.primed && h > z.target {
      DropLength(s, d);
    }
    hide RoundDown;
  }

  lemma DropIs(s: Pacer, n: nat)
    requires n <= |s.buffered|
    ensures Drop(s, n) == s.(buffered := s.buffered[n..],
                             log := s.log + if n > 0 then [Dropped(s.buffered[..n])] else [])
  {
  }

  lemma PlayIs(z: Sizes, interval: real, s: Pacer, r: Round)
    requires Sound(z) && s.status.Running? && (s.recentActive <==> ActiveLast(s.log))
    ensures var s1 := Advance(interval, Emit(z, Prime(z, s, r), r), r);
            if |s.buffered| >= z.frame && (s.primed || |s.buffered| >= z.target) then
              && s1.log == s.log + [Played(s.buffered[..z.frame], r.at)]
              && s1.buffered == s.buffered[z.frame..] && s1.primed
              && Goes(interval, if s.primed then s.tick else r.primeAt, s1, r)
            else if s.primed && ActiveLast(s.log) then
              s1.log == s.log && s1.buffered == s.buffered && s1.status == Underrun && !s1.primed
            else
              && s1.log == s.log + [Silence(r.at)] && s1.buffered == s.buffered && !s1.primed
              && Goes(interval, s.tick, s1, r)
  {
    hide Active, ActiveLast;
  }

  lemma {:induction false} TooksAreQuiet(log: seq<Event>, chunks: seq<Bytes>)
    ensures ActiveLast(log + Tooks(chunks)) == ActiveLast(log)
    decreases |chunks|
  {
    if chunks == [] {
      assert log + Tooks(chunks) == log;
    } else {
      var n := |chunks| - 1;
      TooksAreQuiet(log, chunks[..n]);
      assert log + Tooks(chunks) == (log + Tooks(chunks[..n])) + [Took(chunks[n])];
      LogGrows(log + Tooks(chunks[..n]), Took(chunks[n]));
      hide Tooks, Active;
    }
  }

  lemma DropIsQuiet(log: seq<Event>, bytes: Bytes)
    ensures ActiveLast(log + [Dropped(bytes)]) == ActiveLast(log)
  {
    LogGrows(log, Dropped(bytes));
    hide Active;
  }

  lemma StepIs(z: Sizes, interval: real, s: Pacer, r: Round) returns (d: nat)
    requires Sound(z) && Guarded(s) && s.status.Running?
    ensures RoundIs(z, interval, s, Step(z, interval, s, r), r, d)
  {
    hide Guarded, Refill, Prime, Emit, Advance, Tooks, TakenIn, HeldIn, ActiveLast, Goes;
    RefillIs(z, s, r);
    var s2 := Refill(z, s, r);
    d := TrimIs(z, s2);
    var s3 := Trim(z, s2);
    hide Trim, Drops;
    FlagIsLast(s);
    TooksAreQuiet(s.log, TakenIn(z, s, r));
    if d > 0 {
      DropIsQuiet(s2.log, s2.buffered[..d]);
    } else {
      assert s2.log + [] == s2.log;
    }
    PlayIs(z, interval, s3, r);
  }

  lemma FlagIsLast(s: Pacer)
    requires Guarded(s)
    ensures s.recentActive <==> ActiveLast(s.log)
  {
  }

  /** Over every run: what each round takes, drops and plays, and when the next is due.  In particular
      audio that has reached the target is played, frame by frame. */
  lemma FilledBufferIsPlayed(z: Sizes, interval: real, t0: real, rounds: seq<Round>, r: Round) returns (d: nat)
    requires Sound(z) && After(z, interval, Start(z, t0), rounds).status == Running
    ensures RoundIs(z, interval, After(z, interval, Start(z, t0), rounds),
                    After(z, interval, Start(z, t0), rounds + [r]), r, d)
  {
    assert (rounds + [r])[..|rounds|] == rounds;
    SilenceNeverFollowsActiveAudio(z, interval, t0, rounds);
    hide Guarded, Step, RoundIs;
    d := StepIs(z, interval, After(z, interval, Start(z, t0), rounds), r);
  }
}
