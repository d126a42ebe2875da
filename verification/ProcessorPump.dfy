/**
 The pump from the encoder to the transmitter (hazeReceiver.py:1991-2131): it writes the WAV
 header in one piece, then the audio in paced pieces, and gives up when it lags.

 Reads from the encoder and readings of the clock are inputs: `clock(k)` is what happens at
 the k-th write to the transmitter.
 */
module ProcessorPump {
  import opened Pcm
  import opened Wrappers

  // ---------------------------------------------------------------- parameters and state

  /** A write at time `at`; `ok` when the pipe drained in time, at time `now`. */
  datatype Reading = Reading(at: real, now: real, ok: bool)

  datatype Params = Params(piece: nat, byteRate: nat, maxLag: real, clock: nat -> Reading, resetAt: real)

  function PieceBytes(c: Config): nat
    requires c.frameMs >= 0
  {
    Max(SampleBytes(c), Max(1, c.outputRate * c.frameMs / 1000) * SampleBytes(c))
  }

  function ParamsOf(c: Config, clock: nat -> Reading, resetAt: real): Params
    requires c.frameMs >= 0
  {
    Params(PieceBytes(c),
           Max(1, c.outputRate * SampleBytes(c)),
           Max(c.frameMs * 2, c.maxLagMs) as real / 1000.0,
           clock, resetAt)
  }

  predicate Usable(p: Params) {
    p.piece > 0 && p.byteRate > 0
  }

  datatype Write = Header(bytes: Bytes) | Piece(bytes: Bytes, at: real)

  /** Where the header ended: `Raw` when none was found in time. */
  datatype Decision = Undecided | SplitAt(end: nat) | Raw

  datatype Pump = Pump(header: Bytes, decision: Decision, tick: real, writes: seq<Write>, running: bool)

  function Start(t0: real): Pump {
    Pump([], Undecided, t0, [], true)
  }

  // ---------------------------------------------------------------- the data tag

  const TAG: Bytes := [100, 97, 116, 97]

  const HEADER_LIMIT := 4096

  predicate TagAt(h: Bytes, i: nat) {
    i + 4 <= |h| && h[i..i + 4] == TAG
  }

  lemma TagsOfPrefix(h: Bytes, n: nat)
    requires n <= |h|
    ensures forall j: nat :: TagAt(h[..n], j) <==> TagAt(h, j) && j + 4 <= n
  {
    forall j: nat
      ensures TagAt(h[..n], j) <==> TagAt(h, j) && j + 4 <= n
    {
      if j + 4 <= n {
        assert h[..n][j..j + 4] == h[j..j + 4];
      }
    }
  }

  /** The first position of the tag. */
  function FirstTag(h: Bytes): (r: Option<nat>)
    ensures r.Some? ==> TagAt(h, r.value) && forall j: nat | j < r.value :: !TagAt(h, j)
    ensures r.None? ==> forall j: nat :: !TagAt(h, j)
    decreases |h|
  {
    if |h| < 4 then None
    else
      var front := h[..|h| - 1];
      TagsOfPrefix(h, |h| - 1);
      match FirstTag(front)
      case Some(i) => Some(i)
      case None =>
        if TagAt(h, |h| - 4) then Some(|h| - 4) else None
  }

  /** The header ends here: the first `data` is followed by four more bytes, its length field. */
  predicate EndsHeader(h: Bytes, end: nat) {
    && 8 <= end <= |h| && IsData(h, end - 8)
    && forall j: nat | j < end - 8 :: !IsData(h, j)
  }

  predicate IsData(h: Bytes, i: nat) {
    i + 4 <= |h| && h[i] == 'd' as int && h[i + 1] == 'a' as int && h[i + 2] == 't' as int && h[i + 3] == 'a' as int
  }

  lemma TagIsData(h: Bytes, i: nat)
    ensures TagAt(h, i) <==> IsData(h, i)
  {
    if i + 4 <= |h| {
      assert h[i..i + 4] == [h[i], h[i + 1], h[i + 2], h[i + 3]];
    }
  }

  /** Where the header ends: the tag and the length field after it are complete. */
  function TagEnd(h: Bytes): (r: Option<nat>)
    ensures forall end: nat :: r == Some(end) <==> EndsHeader(h, end)
  {
    assert forall i: nat :: TagAt(h, i) <==> IsData(h, i) by {
      forall i: nat
        ensures TagAt(h, i) <==> IsData(h, i)
      {
        TagIsData(h, i);
      }
    }
    match FirstTag(h)
    case Some(i) => if i + 8 <= |h| then Some(i + 8) else None
    case None => None
  }

  // ---------------------------------------------------------------- writing

  function Duration(p: Params, n: nat): real
    requires Usable(p)
  {
    n as real / p.byteRate as real
  }

  /** The header in one write. */
  function WriteHeader(p: Params, s: Pump, bytes: Bytes): Pump {
    if bytes == [] then s
    else s.(writes := s.writes + [Header(bytes)], running := p.clock(|s.writes|).ok)
  }

  /** One paced piece: a write, the drain, and the tick or the end of the session. */
  function WritePiece(p: Params, s: Pump, bytes: Bytes): Pump
    requires Usable(p)
  {
    var reading := p.clock(|s.writes|);
    var s1 := s.(writes := s.writes + [Piece(bytes, reading.at)]);
    var tick := s.tick + Duration(p, |bytes|);
    if !reading.ok then s1.(running := false)
    else if tick - reading.now >= 0.0 then s1.(tick := tick)
    else if reading.now - tick >= p.maxLag then s1.(tick := tick, running := false)
    else s1.(tick := reading.now)
  }

  function WritePayload(p: Params, s: Pump, data: Bytes): Pump
    requires Usable(p)
    decreases |data|
  {
    if data == [] || !s.running then s
    else
      var n := Min(|data|, p.piece);
      WritePayload(p, WritePiece(p, s, data[..n]), data[n..])
  }

  // ---------------------------------------------------------------- reading

  function Feed(p: Params, s: Pump, chunk: Bytes): Pump
    requires Usable(p)
  {
    if !s.decision.Undecided? then WritePayload(p, s, chunk)
    else
      var h := s.header + chunk;
      match TagEnd(h)
      case Some(end) =>
        var s1 := WriteHeader(p, s.(header := h), h[..end]);
        if !s1.running then s1
        else WritePayload(p, s1.(decision := SplitAt(end), tick := p.resetAt, header := []), h[end..])
      case None =>
        if |h| <= HEADER_LIMIT then s.(header := h)
        else WritePayload(p, s.(decision := Raw, tick := p.resetAt, header := []), h)
  }

  /** The state after `reads`; nothing happens once the session has ended. */
  function Run(p: Params, s: Pump, inputs: seq<Bytes>): Pump
    requires Usable(p)
    decreases |inputs|
  {
    if inputs == [] then s
    else
      var before := Run(p, s, inputs[..|inputs| - 1]);
      if before.running then Feed(p, before, inputs[|inputs| - 1]) else before
  }

  // ---------------------------------------------------------------- the pump itself

  class Processor {
    const p: Params
    var header: Bytes
    var decision: Decision
    var tick: real
    var running: bool
    ghost var writes: seq<Write>
    var written: nat

    ghost predicate Valid()
      reads this
    {
      Usable(p) && written == |writes|
    }

    ghost function State(): Pump
      reads this
    {
      Pump(header, decision, tick, writes, running)
    }

    constructor (p: Params, t0: real)
      requires Usable(p)
      ensures Valid() && this.p == p && State() == Start(t0)
    {
      this.p := p;
      header, decision, tick, running, writes, written := [], Undecided, t0, true, [], 0;
    }

    method WriteHeaderBytes(data: Bytes)
      requires Valid()
      modifies this
      ensures Valid() && State() == WriteHeader(p, old(State()), data)
    {
      if data != [] {
        running := p.clock(written).ok;
        writes := writes + [Header(data)];
        written := written + 1;
      }
    }

    method WriteOnePiece(chunk: Bytes)
      requires Valid() && running
      modifies this
      ensures Valid() && State() == WritePiece(p, old(State()), chunk)
    {
      var reading := p.clock(written);
      writes := writes + [Piece(chunk, reading.at)];
      written := written + 1;
      if !reading.ok {
        running := false;
        return;
      }
      tick := tick + |chunk| as real / p.byteRate as real;
      var sleepFor := tick - reading.now;
      if sleepFor < 0.0 {
        if -sleepFor >= p.maxLag {
          running := false;
          return;
        }
        tick := reading.now;
      }
    }

    method WriteAudioPayload(data: Bytes)
      requires Valid() && running
      modifies this
      ensures Valid() && State() == WritePayload(p, old(State()), data)
    {
      hide WritePiece;
      var pending := data;
      while pending != [] && running
        invariant Valid()
        invariant WritePayload(p, State(), pending) == WritePayload(p, old(State()), data)
        decreases |pending|
      {
        var n := Min(|pending|, p.piece);
        WriteOnePiece(pending[..n]);
        pending := pending[n..];
      }
    }

    method FeedChunk(chunk: Bytes)
      requires Valid() && running
      modifies this
      ensures Valid() && State() == Feed(p, old(State()), chunk)
    {
      hide WritePayload, TagEnd;
      if decision.Undecided? {
        header := header + chunk;
        var end := TagEnd(header);
        if end.Some? {
          TagEndIsInside(header);
          WriteHeaderBytes(header[..end.value]);
          if !running {
            return;
          }
          decision, tick := SplitAt(end.value), p.resetAt;
          var payload := header[end.value..];
          header := [];
          WriteAudioPayload(payload);
          return;
        }
        if |header| <= HEADER_LIMIT {
          return;
        }
        decision, tick := Raw, p.resetAt;
        var payload := header;
        header := [];
        WriteAudioPayload(payload);
        return;
      }
      WriteAudioPayload(chunk);
    }

    method PumpAll(inputs: seq<Bytes>)
      requires Valid() && running
      modifies this
      ensures Valid() && State() == Run(p, old(State()), inputs)
    {
      hide Feed;
      ghost var s := State();
      var i := 0;
      while i < |inputs| && running
        invariant 0 <= i <= |inputs|
        invariant Valid() && State() == Run(p, s, inputs[..i])
      {
        assert inputs[..i + 1][..i] == inputs[..i];
        FeedChunk(inputs[i]);
        i := i + 1;
      }
      EndedStays(p, s, inputs, i);
    }
  }

  lemma TagEndIsInside(h: Bytes)
    ensures TagEnd(h).Some? ==> 8 <= TagEnd(h).value <= |h|
  {
  }

  lemma {:induction false} EndedStays(p: Params, s: Pump, inputs: seq<Bytes>, i: nat)
    requires Usable(p) && i <= |inputs|
    requires i == |inputs| || !Run(p, s, inputs[..i]).running
    ensures Run(p, s, inputs) == Run(p, s, inputs[..i])
    decreases |inputs|
  {
    if i == |inputs| {
      assert inputs[..i] == inputs;
    } else {
      var front := inputs[..|inputs| - 1];
      assert front[..i] == inputs[..i];
      EndedStays(p, s, front, i);
    }
  }

  // ---------------------------------------------------------------- transparency

  function Stream(inputs: seq<Bytes>): Bytes
    decreases |inputs|
  {
    if inputs == [] then [] else Stream(inputs[..|inputs| - 1]) + inputs[|inputs| - 1]
  }

  function Written(writes: seq<Write>): Bytes
    decreases |writes|
  {
    if writes == [] then [] else Written(writes[..|writes| - 1]) + writes[|writes| - 1].bytes
  }

  predicate PiecesFit(p: Params, writes: seq<Write>) {
    forall i | 0 <= i < |writes| :: writes[i].Piece? ==> 0 < |writes[i].bytes| <= p.piece
  }

  lemma WrittenGrows(writes: seq<Write>, w: Write)
    ensures Written(writes + [w]) == Written(writes) + w.bytes
  {
    assert (writes + [w])[..|writes|] == writes;
  }

  /** The payload is written in order, all of it unless the session ends. */
  lemma {:induction false} PayloadIsWritten(p: Params, s: Pump, data: Bytes)
    requires Usable(p) && PiecesFit(p, s.writes)
    ensures var r := WritePayload(p, s, data);
            && PiecesFit(p, r.writes)
            && r.header == s.header && r.decision == s.decision
            && Written(r.writes) <= Written(s.writes) + data
            && (r.running ==> s.running && Written(r.writes) == Written(s.writes) + data)
    decreases |data|
  {
    hide Written, Duration;
    if data == [] || !s.running {
      assert Written(s.writes) + data[..0] == Written(s.writes);
    } else {
      var n := Min(|data|, p.piece);
      var s1 := WritePiece(p, s, data[..n]);
      WrittenGrows(s.writes, Piece(data[..n], p.clock(|s.writes|).at));
      PayloadIsWritten(p, s1, data[n..]);
      assert (Written(s.writes) + data[..n]) + data[n..] == Written(s.writes) + data;
    }
  }

  /** While running, what was written and what is held back are the bytes read; at the end of a
      session a prefix of them was written. */
  predicate Transparent(p: Params, s: Pump, stream: Bytes) {
    && PiecesFit(p, s.writes)
    && (s.running ==> Written(s.writes) + s.header == stream)
    && Written(s.writes) <= stream
    && (!s.decision.Undecided? ==> s.header == [])
  }

  lemma FeedIsTransparent(p: Params, s: Pump, chunk: Bytes, stream: Bytes)
    requires Usable(p) && s.running && Transparent(p, s, stream)
    ensures Transparent(p, Feed(p, s, chunk), stream + chunk)
  {
    hide Written, PiecesFit, WritePayload, TagEnd;
    var w := Written(s.writes);
    if !s.decision.Undecided? {
      PayloadIsWritten(p, s, chunk);
      NothingHeldBack(w, chunk, stream);
    } else {
      var h := s.header + chunk;
      assert w + h == (w + s.header) + chunk == stream + chunk;
      TagEndIsInside(h);
      if TagEnd(h).Some? {
        var end := TagEnd(h).value;
        var s1 := WriteHeader(p, s.(header := h), h[..end]);
        WrittenGrows(s.writes, Header(h[..end]));
        HeaderFits(p, s.writes, h[..end]);
        assert (w + h[..end]) + h[end..] == w + h;
        if s1.running {
          PayloadIsWritten(p, s1.(decision := SplitAt(end), tick := p.resetAt, header := []), h[end..]);
        }
      } else if |h| > HEADER_LIMIT {
        PayloadIsWritten(p, s.(decision := Raw, tick := p.resetAt, header := []), h);
      }
    }
  }

  lemma NothingHeldBack(w: Bytes, chunk: Bytes, stream: Bytes)
    requires w + [] == stream
    ensures w + chunk == stream + chunk && w == stream
  {
    assert w + [] == w;
  }

  lemma HeaderFits(p: Params, writes: seq<Write>, h: Bytes)
    requires PiecesFit(p, writes)
    ensures PiecesFit(p, writes + [Header(h)])
  {
  }

  /** Over every sequence of reads: nothing is lost, duplicated or reordered on the way through,
      and every paced write is one piece at most. */
  lemma {:induction false} PumpIsTransparent(p: Params, t0: real, inputs: seq<Bytes>)
    requires Usable(p)
    ensures var s := Run(p, Start(t0), inputs);
            && (s.running ==> Written(s.writes) + s.header == Stream(inputs))
            && Written(s.writes) <= Stream(inputs)
            && PiecesFit(p, s.writes)
    ensures Transparent(p, Run(p, Start(t0), inputs), Stream(inputs))
    decreases |inputs|
  {
    if inputs != [] {
      var front := inputs[..|inputs| - 1];
      PumpIsTransparent(p, t0, front);
      hide Feed, Written, PiecesFit;
      var s := Run(p, Start(t0), front);
      if s.running {
        FeedIsTransparent(p, s, inputs[|inputs| - 1], Stream(front));
      }
    }
  }

  // ---------------------------------------------------------------- the header split

  /** What the pump decides from the sizes in which the stream happens to be read. */
  function Decide(inputs: seq<Bytes>): Decision
    decreases |inputs|
  {
    if inputs == [] then Undecided
    else
      var before := Decide(inputs[..|inputs| - 1]);
      if !before.Undecided? then before
      else
        match TagEnd(Stream(inputs))
        case Some(end) => SplitAt(end)
        case None => if |Stream(inputs)| > 4096 then Raw else Undecided
  }

  lemma PayloadKeepsDecision(p: Params, s: Pump, data: Bytes)
    requires Usable(p)
    ensures WritePayload(p, s, data).decision == s.decision && WritePayload(p, s, data).header == s.header
    decreases |data|
  {
  }

  /** As long as the session runs, the pump has decided what the reads decide, and an undecided
      pump holds everything back. */
  lemma {:induction false} PumpDecides(p: Params, t0: real, inputs: seq<Bytes>)
    requires Usable(p)
    ensures var s := Run(p, Start(t0), inputs);
            && (s.running ==> s.decision == Decide(inputs))
            && (s.running && s.decision.Undecided? ==> s.header == Stream(inputs) && s.writes == [])
    decreases |inputs|
  {
    if inputs != [] {
      var front, last := inputs[..|inputs| - 1], inputs[|inputs| - 1];
      PumpDecides(p, t0, front);
      var s := Run(p, Start(t0), front);
      hide TagEnd, WritePayload;
      if s.running {
        if !s.decision.Undecided? {
          PayloadKeepsDecision(p, s, last);
        } else {
          var h := s.header + last;
          TagEndIsInside(h);
          if TagEnd(h).Some? {
            var end := TagEnd(h).value;
            var s1 := WriteHeader(p, s.(header := h), h[..end]);
            PayloadKeepsDecision(p, s1.(decision := SplitAt(end), tick := p.resetAt, header := []), h[end..]);
          } else {
            PayloadKeepsDecision(p, s.(decision := Raw, tick := p.resetAt, header := []), h);
          }
        }
      }
    }
  }

  lemma {:induction false} FirstTagOfPrefix(h: Bytes, n: nat)
    requires n <= |h|
    ensures FirstTag(h[..n]) ==
            if FirstTag(h).Some? && FirstTag(h).value + 4 <= n then FirstTag(h) else None
    decreases |h|
  {
    if n == |h| {
      assert h[..n] == h;
    } else {
      var front := h[..|h| - 1];
      assert front[..n] == h[..n];
      FirstTagOfPrefix(front, n);
    }
  }

  /** A prefix of the stream shows the same end of header, once it reaches it. */
  lemma TagEndOfPrefix(h: Bytes, n: nat)
    requires n <= |h|
    ensures TagEnd(h[..n]) == if TagEnd(h).Some? && TagEnd(h).value <= n then TagEnd(h) else None
  {
    FirstTagOfPrefix(h, n);
  }

  predicate Chunking(inputs: seq<Bytes>, stream: Bytes, most: nat) {
    Stream(inputs) == stream && forall i | 0 <= i < |inputs| :: 0 < |inputs[i]| <= most
  }

  /** The decision for every way of reading a stream: fixed when the header ends within 4097
      bytes, when it ends too far out for any read to reach, and when there is none. */
  lemma {:induction false} SplitPoint(inputs: seq<Bytes>, stream: Bytes, most: nat)
    requires Chunking(inputs, stream, most)
    ensures match TagEnd(stream)
            case None => Decide(inputs) == if |stream| > 4096 then Raw else Undecided
            case Some(end) =>
              && (end <= 4097 ==> Decide(inputs) == SplitAt(end))
              && (end > 4096 + most ==> Decide(inputs) == Raw)
              && (Decide(inputs) == SplitAt(end) || Decide(inputs) == Raw)
    decreases |inputs|
  {
    hide TagEnd;
    TagEndIsInside(stream);
    if inputs != [] {
      var front := inputs[..|inputs| - 1];
      var n := |Stream(front)|;
      assert stream[..n] == Stream(front);
      SplitPoint(front, stream[..n], most);
      TagEndOfPrefix(stream, n);
    }
  }

  function Singles(data: Bytes): (inputs: seq<Bytes>)
    ensures |inputs| == |data|
    decreases |data|
  {
    if data == [] then [] else Singles(data[..|data| - 1]) + [data[|data| - 1..]]
  }

  lemma StreamGrows(inputs: seq<Bytes>, chunk: Bytes)
    ensures Stream(inputs + [chunk]) == Stream(inputs) + chunk
  {
    assert (inputs + [chunk])[..|inputs|] == inputs;
  }

  lemma {:induction false} SinglesAreReads(data: Bytes, most: nat)
    requires most > 0
    ensures Chunking(Singles(data), data, most)
    decreases |data|
  {
    if data != [] {
      var front := data[..|data| - 1];
      SinglesAreReads(front, most);
      StreamGrows(Singles(front), data[|data| - 1..]);
    }
  }

  /** Reading on byte by byte keeps a decision once it was made. */
  lemma {:induction false} DecisionStays(inputs: seq<Bytes>, data: Bytes, most: nat)
    requires most > 0 && !Decide(inputs).Undecided? && Chunking(inputs, Stream(inputs), most)
    ensures Decide(inputs + Singles(data)) == Decide(inputs)
    ensures Chunking(inputs + Singles(data), Stream(inputs) + data, most)
    decreases |data|
  {
    if data == [] {
      assert inputs + Singles(data) == inputs;
      assert Stream(inputs) + data == Stream(inputs);
    } else {
      var front, last := data[..|data| - 1], data[|data| - 1..];
      DecisionStays(inputs, front, most);
      var all := inputs + Singles(front);
      assert inputs + Singles(data) == all + [last];
      assert (all + [last])[..|all|] == all;
      StreamGrows(all, last);
      assert (Stream(inputs) + front) + last == Stream(inputs) + data;
    }
  }

  /** A stream whose header ends between the two bounds is split or not as it is read. */
  lemma SplitDependsOnReads(stream: Bytes, most: nat) returns (split: seq<Bytes>, raw: seq<Bytes>)
    requires TagEnd(stream).Some? && 4097 < TagEnd(stream).value <= 4096 + most
    ensures Chunking(split, stream, most) && Decide(split) == SplitAt(TagEnd(stream).value)
    ensures Chunking(raw, stream, most) && Decide(raw) == Raw
  {
    var end := TagEnd(stream).value;
    TagEndIsInside(stream);
    hide TagEnd;
    split := ReadTo(stream, 4096, end, most);
    raw := ReadTo(stream, 4096, 4097, most);
  }

  /** Reads `m` bytes one by one, then up to `n` at once, then one by one. */
  lemma ReadTo(stream: Bytes, m: nat, n: nat, most: nat) returns (inputs: seq<Bytes>)
    requires m == 4096 < n <= |stream| && n <= m + most
    requires TagEnd(stream).Some? && TagEnd(stream).value > m
    ensures Chunking(inputs, stream, most)
    ensures Decide(inputs) == if TagEnd(stream).value <= n then SplitAt(TagEnd(stream).value) else Raw
  {
    hide TagEnd;
    var first := Singles(stream[..m]);
    SinglesAreReads(stream[..m], most);
    TagEndOfPrefix(stream, m);
    SplitPoint(first, stream[..m], most);
    var upTo := first + [stream[m..n]];
    StreamGrows(first, stream[m..n]);
    assert stream[..m] + stream[m..n] == stream[..n];
    assert upTo[..|first|] == first;
    TagEndOfPrefix(stream, n);
    DecisionStays(upTo, stream[n..], most);
    assert stream[..n] + stream[n..] == stream;
    inputs := upTo + Singles(stream[n..]);
  }

  /** Every way of reading the stream leads to the same decision. */
  ghost predicate Independent(stream: Bytes, most: nat) {
    forall a, b | Chunking(a, stream, most) && Chunking(b, stream, most) :: Decide(a) == Decide(b)
  }

  /** The split does not depend on the reads exactly when the stream has no complete header, or
      one that ends within 4097 bytes or more than a read beyond 4096. */
  lemma SplitIsIndependentIff(stream: Bytes, most: nat)
    requires most > 0
    ensures Independent(stream, most) <==>
            (TagEnd(stream).None?
             || TagEnd(stream).value <= 4097 || TagEnd(stream).value > 4096 + most)
  {
    hide TagEnd, Decide, Chunking;
    if TagEnd(stream).None?
       || TagEnd(stream).value <= 4097 || TagEnd(stream).value > 4096 + most {
      forall a, b | Chunking(a, stream, most) && Chunking(b, stream, most)
        ensures Decide(a) == Decide(b)
      {
        SplitPoint(a, stream, most);
        SplitPoint(b, stream, most);
      }
    } else {
      var split, raw := SplitDependsOnReads(stream, most);
    }
  }

  /** A stream of at most 4096 bytes without a complete header is never written at all. */
  lemma ShortStreamIsNeverWritten(p: Params, t0: real, inputs: seq<Bytes>, most: nat)
    requires Usable(p) && Chunking(inputs, Stream(inputs), most)
    requires TagEnd(Stream(inputs)).None? && |Stream(inputs)| <= 4096
    requires Run(p, Start(t0), inputs).running
    ensures Run(p, Start(t0), inputs).writes == []
  {
    hide TagEnd, Run;
    PumpDecides(p, t0, inputs);
    SplitPoint(inputs, Stream(inputs), most);
  }

  // ---------------------------------------------------------------- pacing

  /** The next write does not come before its tick, and the clock does not run backwards. */
  predicate Timely(p: Params, s: Pump) {
    s.tick <= p.clock(|s.writes|).at <= p.clock(|s.writes|).now
  }

  predicate TimelyPayload(p: Params, s: Pump, data: Bytes)
    requires Usable(p)
    decreases |data|
  {
    data == [] || !s.running
    || (var n := Min(|data|, p.piece);
        Timely(p, s) && TimelyPayload(p, WritePiece(p, s, data[..n]), data[n..]))
  }

  /** The payload that `Feed` writes, and the state it starts from. */
  function PayloadOf(p: Params, s: Pump, chunk: Bytes): (Pump, Bytes)
    requires Usable(p)
  {
    if !s.decision.Undecided? then (s, chunk)
    else
      var h := s.header + chunk;
      match TagEnd(h)
      case Some(end) =>
        var s1 := WriteHeader(p, s.(header := h), h[..end]);
        if !s1.running then (s1, [])
        else (s1.(decision := SplitAt(end), tick := p.resetAt, header := []), h[end..])
      case None =>
        if |h| <= HEADER_LIMIT then (s.(header := h), [])
        else (s.(decision := Raw, tick := p.resetAt, header := []), h)
  }

  lemma FeedWritesPayload(p: Params, s: Pump, chunk: Bytes)
    requires Usable(p)
    ensures Feed(p, s, chunk) == WritePayload(p, PayloadOf(p, s, chunk).0, PayloadOf(p, s, chunk).1)
  {
    hide TagEnd;
  }

  predicate TimelyRun(p: Params, s: Pump, inputs: seq<Bytes>)
    requires Usable(p)
    decreases |inputs|
  {
    inputs == []
    || (var front := inputs[..|inputs| - 1];
        var before := Run(p, s, front);
        && TimelyRun(p, s, front)
        && (before.running ==>
              var (from, payload) := PayloadOf(p, before, inputs[|inputs| - 1]);
              TimelyPayload(p, from, payload)))
  }

  /** The paced writes. */
  function Pieces(writes: seq<Write>): seq<Write>
    decreases |writes|
    ensures forall i | 0 <= i < |Pieces(writes)| :: Pieces(writes)[i].Piece?
  {
    if writes == [] then []
    else
      var front, last := Pieces(writes[..|writes| - 1]), writes[|writes| - 1];
      if last.Piece? then front + [last] else front
  }

  /** The audio strictly between the i-th and the j-th paced write, as a duration. */
  function Between(p: Params, pieces: seq<Write>, i: nat, j: nat): real
    requires Usable(p) && j <= |pieces|
    decreases j
  {
    if j <= i + 1 then 0.0 else Between(p, pieces, i, j - 1) + Duration(p, |pieces[j - 1].bytes|)
  }

  lemma {:induction false} BetweenOfPrefix(p: Params, pieces: seq<Write>, w: Write, i: nat, j: nat)
    requires Usable(p) && j <= |pieces|
    ensures Between(p, pieces + [w], i, j) == Between(p, pieces, i, j)
    decreases j
  {
    hide Duration;
    if j > i + 1 {
      BetweenOfPrefix(p, pieces, w, i, j - 1);
    }
  }

  predicate AllPieces(pieces: seq<Write>) {
    forall i | 0 <= i < |pieces| :: pieces[i].Piece?
  }

  /** Two paced writes are apart at least by the audio strictly between them. */
  predicate Spaced(p: Params, pieces: seq<Write>)
    requires Usable(p) && AllPieces(pieces)
  {
    forall i, j | 0 <= i < j < |pieces| :: pieces[i].at + Between(p, pieces, i, j) <= pieces[j].at
  }

  /** And the tick is at or after the time at which the audio written so far has played. */
  predicate Ahead(p: Params, pieces: seq<Write>, tick: real)
    requires Usable(p) && AllPieces(pieces)
  {
    forall i | 0 <= i < |pieces| :: pieces[i].at + Between(p, pieces, i, |pieces|) <= tick
  }

  lemma SpacedGrows(p: Params, pieces: seq<Write>, w: Write, tick: real, next: real)
    requires Usable(p) && AllPieces(pieces) && w.Piece? && Spaced(p, pieces) && Ahead(p, pieces, tick)
    requires tick <= w.at && tick + Duration(p, |w.bytes|) <= next && w.at <= next
    ensures Spaced(p, pieces + [w]) && Ahead(p, pieces + [w], next)
  {
    hide Duration;
    var all := pieces + [w];
    forall i, j | 0 <= i < j < |all|
      ensures all[i].at + Between(p, all, i, j) <= all[j].at
    {
      BetweenOfPrefix(p, pieces, w, i, j);
    }
    forall i | 0 <= i < |all|
      ensures all[i].at + Between(p, all, i, |all|) <= next
    {
      BetweenOfPrefix(p, pieces, w, i, |pieces|);
    }
  }

  lemma SpacedAppends(p: Params, pieces: seq<Write>, w: Write, tick: real)
    requires Usable(p) && AllPieces(pieces) && w.Piece? && Spaced(p, pieces) && Ahead(p, pieces, tick) && tick <= w.at
    ensures Spaced(p, pieces + [w])
  {
    hide Duration;
    var all := pieces + [w];
    forall i, j | 0 <= i < j < |all|
      ensures all[i].at + Between(p, all, i, j) <= all[j].at
    {
      BetweenOfPrefix(p, pieces, w, i, j);
    }
  }

  predicate Paced(p: Params, s: Pump)
    requires Usable(p)
  {
    && Spaced(p, Pieces(s.writes))
    && (s.running ==> if s.decision.Undecided? then Pieces(s.writes) == [] else Ahead(p, Pieces(s.writes), s.tick))
  }

  lemma PiecesGrow(writes: seq<Write>, w: Write)
    ensures Pieces(writes + [w]) == if w.Piece? then Pieces(writes) + [w] else Pieces(writes)
  {
    assert (writes + [w])[..|writes|] == writes;
  }

  lemma PieceIsPaced(p: Params, s: Pump, bytes: Bytes)
    requires Usable(p) && s.running && !s.decision.Undecided? && Paced(p, s) && Timely(p, s)
    ensures Paced(p, WritePiece(p, s, bytes))
  {
    hide Duration, Spaced, Ahead, Pieces;
    var w := Piece(bytes, p.clock(|s.writes|).at);
    PiecesGrow(s.writes, w);
    var r := WritePiece(p, s, bytes);
    if r.running {
      SpacedGrows(p, Pieces(s.writes), w, s.tick, r.tick);
    } else {
      SpacedAppends(p, Pieces(s.writes), w, s.tick);
    }
  }

  lemma {:induction false} PayloadIsPaced(p: Params, s: Pump, data: Bytes)
    requires Usable(p) && Paced(p, s) && TimelyPayload(p, s, data)
    requires s.running && data != [] ==> !s.decision.Undecided?
    ensures Paced(p, WritePayload(p, s, data))
    decreases |data|
  {
    if data != [] && s.running {
      var n := Min(|data|, p.piece);
      PieceIsPaced(p, s, data[..n]);
      PayloadIsPaced(p, WritePiece(p, s, data[..n]), data[n..]);
    }
  }

  lemma PayloadStartIsPaced(p: Params, s: Pump, chunk: Bytes)
    requires Usable(p) && s.running && Paced(p, s)
    ensures var (from, payload) := PayloadOf(p, s, chunk);
            Paced(p, from) && (from.running && payload != [] ==> !from.decision.Undecided?)
  {
    hide TagEnd, Spaced, Pieces, Between;
    if s.decision.Undecided? && TagEnd(s.header + chunk).Some? {
      TagEndIsInside(s.header + chunk);
      PiecesGrow(s.writes, Header((s.header + chunk)[..TagEnd(s.header + chunk).value]));
    }
  }

  /** No catch-up burst: over every run, the audio of the pieces strictly between two paced
      writes never exceeds the time between them. */
  lemma {:induction false} NoCatchUpBurst(p: Params, t0: real, inputs: seq<Bytes>)
    requires Usable(p) && TimelyRun(p, Start(t0), inputs)
    ensures var w := Pieces(Run(p, Start(t0), inputs).writes);
            forall i, j | 0 <= i < j < |w| :: w[i].at + Between(p, w, i, j) <= w[j].at
    ensures Paced(p, Run(p, Start(t0), inputs))
    decreases |inputs|
  {
    if inputs != [] {
      var front, last := inputs[..|inputs| - 1], inputs[|inputs| - 1];
      NoCatchUpBurst(p, t0, front);
      var s := Run(p, Start(t0), front);
      hide Feed, PayloadOf, TimelyPayload, WritePayload, Between, Pieces;
      if s.running {
        PayloadStartIsPaced(p, s, last);
        var (from, payload) := PayloadOf(p, s, last);
        PayloadIsPaced(p, from, payload);
        FeedWritesPayload(p, s, last);
      }
    }
  }

  // ---------------------------------------------------------------- what is written

  /** The writes are as the reads decide: none before the decision, then the header, if one was
      found in time, and otherwise pieces of audio, each at the time of its own reading. */
  predicate WrittenAs(p: Params, s: Pump, d: Decision, stream: Bytes) {
    && (forall i | 0 <= i < |s.writes| :: s.writes[i].Piece? ==> s.writes[i].at == p.clock(i).at)
    && match d
       case Undecided => s.writes == []
       case SplitAt(end) =>
         && end <= |stream| && s.writes != [] && s.writes[0] == Header(stream[..end])
         && forall i | 0 < i < |s.writes| :: s.writes[i].Piece?
       case Raw => forall i | 0 <= i < |s.writes| :: s.writes[i].Piece?
  }

  /** Pieces were appended, all full but the last. */
  predicate Appends(p: Params, s: Pump, r: Pump) {
    && |s.writes| <= |r.writes| && r.writes[..|s.writes|] == s.writes
    && forall i | |s.writes| <= i < |r.writes| ::
         && r.writes[i].Piece? && r.writes[i].at == p.clock(i).at
         && (i < |r.writes| - 1 ==> |r.writes[i].bytes| == p.piece)
  }

  lemma {:induction false} PayloadAppends(p: Params, s: Pump, data: Bytes)
    requires Usable(p)
    ensures Appends(p, s, WritePayload(p, s, data))
    decreases |data|
  {
    if data != [] && s.running {
      var n := Min(|data|, p.piece);
      var s1 := WritePiece(p, s, data[..n]);
      PayloadAppends(p, s1, data[n..]);
      var r := WritePayload(p, s1, data[n..]);
      hide Duration, WritePayload;
      assert s1.writes == s.writes + [Piece(data[..n], p.clock(|s.writes|).at)];
      assert r.writes[..|s.writes|] == r.writes[..|s1.writes|][..|s.writes|];
      assert r.writes[|s.writes|] == r.writes[..|s1.writes|][|s.writes|];
      if n < p.piece {
        NothingToWrite(p, s1, data[n..]);
      }
    }
  }

  lemma NothingToWrite(p: Params, s: Pump, data: Bytes)
    requires Usable(p) && data == []
    ensures WritePayload(p, s, data) == s
  {
  }

  lemma AppendsAs(p: Params, s: Pump, r: Pump, d: Decision, stream: Bytes, more: Bytes)
    requires Appends(p, s, r) && WrittenAs(p, s, d, stream) && !d.Undecided?
    ensures WrittenAs(p, r, d, stream + more)
  {
    assert forall i | 0 <= i < |s.writes| :: r.writes[i] == r.writes[..|s.writes|][i];
    if d.SplitAt? {
      assert (stream + more)[..d.end] == stream[..d.end];
    }
  }

  /** The state in which the payload of the deciding read is written. */
  lemma DecidedAs(p: Params, s: Pump, chunk: Bytes)
    requires Usable(p) && s.running && s.decision.Undecided? && s.writes == []
    ensures var h := s.header + chunk;
            var d := match TagEnd(h) case Some(end) => SplitAt(end)
                                     case None => if |h| > 4096 then Raw else Undecided;
            WrittenAs(p, Feed(p, s, chunk), d, h)
  {
    hide TagEnd, WritePayload;
    var h := s.header + chunk;
    TagEndIsInside(h);
    match TagEnd(h) {
      case Some(end) =>
        var s1 := WriteHeader(p, s.(header := h), h[..end]);
        assert s1.writes == [Header(h[..end])];
        if s1.running {
          var s2 := s1.(decision := SplitAt(end), tick := p.resetAt, header := []);
          PayloadAppends(p, s2, h[end..]);
          AppendsAs(p, s2, WritePayload(p, s2, h[end..]), SplitAt(end), h, []);
          assert h + [] == h;
        }
      case None =>
        if |h| > 4096 {
          var s2 := s.(decision := Raw, tick := p.resetAt, header := []);
          PayloadAppends(p, s2, h);
          AppendsAs(p, s2, WritePayload(p, s2, h), Raw, h, []);
          assert h + [] == h;
        }
    }
  }

  /** Over every run: the header of the stream is written first, in one piece, exactly if the reads
      show its end in time; everything else is written as audio, and nothing before that. */
  lemma {:induction false} WritesAre(p: Params, t0: real, inputs: seq<Bytes>)
    requires Usable(p)
    ensures WrittenAs(p, Run(p, Start(t0), inputs), Decide(inputs), Stream(inputs))
    decreases |inputs|
  {
    if inputs != [] {
      var front, last := inputs[..|inputs| - 1], inputs[|inputs| - 1];
      var s, stream := Run(p, Start(t0), front), Stream(front);
      WritesAre(p, t0, front);
      PumpDecides(p, t0, front);
      hide WrittenAs, WritePayload, TagEnd;
      if !s.running {
        EndedDecided(p, t0, front);
        SameWrites(p, s, Decide(front), stream, last);
      } else if s.decision.Undecided? {
        DecidedAs(p, s, last);
      } else {
        PayloadAppends(p, s, last);
        AppendsAs(p, s, WritePayload(p, s, last), s.decision, stream, last);
      }
    }
  }

  lemma SameWrites(p: Params, s: Pump, d: Decision, stream: Bytes, more: Bytes)
    requires WrittenAs(p, s, d, stream) && !d.Undecided?
    ensures WrittenAs(p, s, d, stream + more)
  {
    AppendsAs(p, s, s, d, stream, more);
  }

  /** A session does not end before the decision. */
  lemma {:induction false} EndedDecided(p: Params, t0: real, inputs: seq<Bytes>)
    requires Usable(p)
    ensures !Run(p, Start(t0), inputs).running ==> !Decide(inputs).Undecided?
    decreases |inputs|
  {
    if inputs != [] {
      var front, last := inputs[..|inputs| - 1], inputs[|inputs| - 1];
      EndedDecided(p, t0, front);
      PumpDecides(p, t0, front);
      hide TagEnd, WritePayload;
    }
  }

  /** Over every run: a read after the decision is written in full pieces, the last one with what is
      left. */
  lemma PiecesAreFull(p: Params, t0: real, inputs: seq<Bytes>, chunk: Bytes)
    requires Usable(p) && Run(p, Start(t0), inputs).running && !Decide(inputs).Undecided?
    ensures Appends(p, Run(p, Start(t0), inputs), Run(p, Start(t0), inputs + [chunk]))
    ensures var s, s1 := Run(p, Start(t0), inputs), Run(p, Start(t0), inputs + [chunk]);
            s1.running ==> Written(s1.writes) == Written(s.writes) + chunk
  {
    assert (inputs + [chunk])[..|inputs|] == inputs;
    PumpDecides(p, t0, inputs);
    PumpIsTransparent(p, t0, inputs);
    var s := Run(p, Start(t0), inputs);
    PayloadAppends(p, s, chunk);
    PayloadIsWritten(p, s, chunk);
    hide WritePayload, TagEnd, Written, Appends;
  }

  // ---------------------------------------------------------------- when it ends

  /** Every write but the last one of a session that ended was taken, and audio before its own
      length and the longest lag had passed. */
  predicate KeptUp(p: Params, s: Pump)
    requires Usable(p)
  {
    && (forall i | 0 <= i < |s.writes| && (i < |s.writes| - 1 || s.running) :: IsTaken(p, s.writes, i))
    && (!s.running ==>
          s.writes != [] && (!p.clock(|s.writes| - 1).ok || p.clock(|s.writes| - 1).now - s.tick >= p.maxLag))
  }

  predicate IsTaken(p: Params, writes: seq<Write>, i: nat)
    requires Usable(p) && i < |writes|
  {
    && p.clock(i).ok
    && (writes[i].Piece? ==> p.clock(i).now < writes[i].at + Duration(p, |writes[i].bytes|) + p.maxLag)
  }

  lemma PieceKeepsUp(p: Params, s: Pump, bytes: Bytes)
    requires Usable(p) && p.maxLag > 0.0 && s.running && KeptUp(p, s) && Timely(p, s)
    ensures KeptUp(p, WritePiece(p, s, bytes))
  {
    var r := WritePiece(p, s, bytes);
    hide Duration;
    forall i | 0 <= i < |r.writes| && (i < |r.writes| - 1 || r.running)
      ensures IsTaken(p, r.writes, i)
    {
      if i < |s.writes| {
        assert IsTaken(p, s.writes, i);
      }
    }
  }

  lemma {:induction false} PayloadKeepsUp(p: Params, s: Pump, data: Bytes)
    requires Usable(p) && p.maxLag > 0.0 && KeptUp(p, s) && TimelyPayload(p, s, data)
    ensures KeptUp(p, WritePayload(p, s, data))
    decreases |data|
  {
    if data != [] && s.running {
      hide KeptUp, Duration;
      var n := Min(|data|, p.piece);
      PieceKeepsUp(p, s, data[..n]);
      PayloadKeepsUp(p, WritePiece(p, s, data[..n]), data[n..]);
    }
  }

  lemma PayloadStartKeepsUp(p: Params, s: Pump, chunk: Bytes)
    requires Usable(p) && s.running && KeptUp(p, s)
    ensures KeptUp(p, PayloadOf(p, s, chunk).0)
  {
    hide TagEnd, Duration;
    var r := PayloadOf(p, s, chunk).0;
    forall i | 0 <= i < |r.writes| && (i < |r.writes| - 1 || r.running)
      ensures IsTaken(p, r.writes, i)
    {
      if i < |s.writes| {
        assert IsTaken(p, s.writes, i);
      }
    }
  }

  /** Over every run whose clock does not run backwards: a session goes on exactly as long as the pipe
      takes every write and the clock stays within the longest lag. */
  lemma {:induction false} StallsEndTheSession(p: Params, t0: real, inputs: seq<Bytes>)
    requires Usable(p) && p.maxLag > 0.0 && TimelyRun(p, Start(t0), inputs)
    ensures KeptUp(p, Run(p, Start(t0), inputs))
    decreases |inputs|
  {
    if inputs != [] {
      var front, last := inputs[..|inputs| - 1], inputs[|inputs| - 1];
      StallsEndTheSession(p, t0, front);
      var s := Run(p, Start(t0), front);
      hide Feed, PayloadOf, TimelyPayload, WritePayload, KeptUp;
      if s.running {
        PayloadStartKeepsUp(p, s, last);
        var (from, payload) := PayloadOf(p, s, last);
        PayloadKeepsUp(p, from, payload);
        FeedWritesPayload(p, s, last);
      }
    }
  }

  /** Of a parsed configuration: a piece is a frame of audio, and the longest lag the one asked for. */
  lemma PiecesLast(c: Config, clock: nat -> Reading, resetAt: real) returns (samples: nat)
    requires Ready(c)
    ensures var p := ParamsOf(c, clock, resetAt);
            && Usable(p) && p.maxLag > 0.0 && p.maxLag * 1000.0 == c.maxLagMs as real
            && Lasts(samples, c.outputRate, c.frameMs) && p.piece == samples * (2 * c.channels)
            && p.byteRate == c.outputRate * (2 * c.channels)
            && p.clock == clock && p.resetAt == resetAt
  {
    FrameHasSamples(c.outputRate, c.frameMs);
    samples := c.outputRate * c.frameMs / 1000;
    FloorLasts(samples, c.outputRate, c.frameMs);
    AtLeastOneUnit(samples, SampleBytes(c));
    AtLeastOneUnit(c.outputRate, SampleBytes(c));
    hide Lasts;
  }
}
