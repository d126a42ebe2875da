/**
 Durable delivery of CAP alerts to the event router (crates/haze-cap/src/bridge.rs).

 A publisher writes its alert to a journal file, publishes it on the bridge once a
 second until the router acknowledges its delivery id, and then deletes the file.
 Publishers of the same id may run concurrently, the process may crash at any step,
 and a restart replays the files that are left.

 The protocol is a state machine.  An `Action` carries every nondeterministic choice
 (which publisher moves, whether its I/O succeeds, what the router sends), so
 `Run(Start(..), actions)` over all action sequences ranges over all interleavings.
 An action that is not enabled leaves the state as it is.
 */
module CapBridge {
  import opened Wrappers

  // ---------------------------------------------------------------- delivery ids

  type Bytes = seq<int>

  const CAP_PREFIX := "cap-"

  /** The part of a serialized event the protocol looks at; `body` stands for the rest. */
  datatype Event = Event(deliveryId: Option<string>, dataDeliveryId: Option<string>, body: Bytes)

  /** `delivery_id` at the top level, else the one nested in `data`. */
  function DeliveryId(event: Event): Option<string> {
    if event.deliveryId.Some? then event.deliveryId else event.dataDeliveryId
  }

  function StripCapPrefix(id: string): string {
    if CAP_PREFIX <= id then id[|CAP_PREFIX|..] else id
  }

  function JournalPath(id: string): string {
    StripCapPrefix(id) + ".json"
  }

  /** Exactly which ids share a journal file. */
  lemma JournalPathCollision(a: string, b: string)
    ensures JournalPath(a) == JournalPath(b) <==>
            a == b
            || (a == CAP_PREFIX + b && !(CAP_PREFIX <= b))
            || (b == CAP_PREFIX + a && !(CAP_PREFIX <= a))
  {
    var x, y := StripCapPrefix(a), StripCapPrefix(b);
    assert JournalPath(a)[..|JournalPath(a)| - 5] == x;
    assert JournalPath(b)[..|JournalPath(b)| - 5] == y;
    if CAP_PREFIX <= a {
      assert a == CAP_PREFIX + x;
    }
    if CAP_PREFIX <= b {
      assert b == CAP_PREFIX + y;
    }
  }

  const JSON_EXTENSION := ".json"

  /** The test of the directory scan: a file of the journal directory itself, whose extension is
      `json`.  A name that is nothing but `.json` has no extension. */
  predicate IsListed(path: string) {
    '/' !in path && |path| > |JSON_EXTENSION| && path[|path| - |JSON_EXTENSION|..] == JSON_EXTENSION
  }

  /** Exactly which ids have a journal file that a scan finds; ids made by `CapAlert` do. */
  lemma ListedIff(id: string)
    ensures IsListed(JournalPath(id)) <==> StripCapPrefix(id) != "" && '/' !in StripCapPrefix(id)
  {
    var name := StripCapPrefix(id);
    var path := JournalPath(id);
    assert path == name + JSON_EXTENSION && path[|name|..] == JSON_EXTENSION;
    assert '/' !in JSON_EXTENSION;
    if '/' in name {
      var i :| 0 <= i < |name| && name[i] == '/';
      assert path[i] == '/';
    }
  }

  // `raw_xml` is None when the alert has no such string.
  datatype Alert = Alert(rawXml: Option<Bytes>, json: Bytes)

  predicate IsBlank(text: Bytes) {
    forall c | c in text :: c == 32 || 9 <= c <= 13
  }

  /** The document an alert is identified by: its XML, or its JSON form when there is none. */
  function Document(alert: Alert): Bytes {
    if alert.rawXml.Some? && !IsBlank(alert.rawXml.value) then alert.rawXml.value else alert.json
  }

  /** The envelope built for an alert; `hexDigest` stands for SHA-256 in hexadecimal. */
  function CapAlert(hexDigest: Bytes -> string, source: Bytes, alert: Alert, body: Bytes): Event {
    var id := CAP_PREFIX + hexDigest(source + [0] + Document(alert));
    Event(Some(id), Some(id), body)
  }

  /** With a collision-free digest, two alerts share a delivery id exactly when they carry the
      same document from the same source, as long as no source name holds a NUL. */
  lemma DeliveryIdIdentifiesDocument(hexDigest: Bytes -> string, s: Bytes, a: Alert, s': Bytes, a': Alert,
                                     body: Bytes, body': Bytes)
    requires forall x, y :: hexDigest(x) == hexDigest(y) ==> x == y
    requires 0 !in s && 0 !in s'
    ensures DeliveryId(CapAlert(hexDigest, s, a, body)) == DeliveryId(CapAlert(hexDigest, s', a', body')) <==>
            s == s' && Document(a) == Document(a')
  {
    var x, y := s + [0] + Document(a), s' + [0] + Document(a');
    var p, q := CAP_PREFIX + hexDigest(x), CAP_PREFIX + hexDigest(y);
    assert p[|CAP_PREFIX|..] == hexDigest(x) && q[|CAP_PREFIX|..] == hexDigest(y);
    if x == y {
      assert x[|s|] == 0 && y[|s'|] == 0;
      assert |s| == |s'|;
      assert s == x[..|s|] && s' == y[..|s|];
      assert Document(a) == x[|s| + 1..] && Document(a') == y[|s| + 1..];
    }
  }

  // ---------------------------------------------------------------- state

  /** What a publisher's one-shot acknowledgement channel shows it. */
  datatype Receiver = Unused | Waiting | Resolved(committed: bool) | Closed

  /** Where a publisher stands in `publish_durable_alert`. */
  datatype Pc =
    | Locking                  // waits for the journal lock
    | Checking                 // asks whether the journal file exists
    | Creating                 // creates the temporary file
    | Writing                  // writes and syncs it
    | Renaming                 // commits it under its final name
    | Registering              // registers a new acknowledgement channel
    | Sending                  // writes the event to the bridge
    | Selecting                // waits for the acknowledgement or for one second
    | Removing                 // acknowledged: deletes the journal file
    | Retrying                 // refused or cut off: drops the id's registrations
    | Returned(ok: bool)

  datatype Publisher = Publisher(event: Event, id: string, pc: Pc, epoch: nat, rx: Receiver)

  /** A registered channel end: the publisher it wakes and which of its channels it is. */
  datatype Sender = Sender(pid: nat, epoch: nat)

  datatype File = File(event: Event, complete: bool)

  /** `replay_pending`: the files found by the directory scan and how far it has got. */
  datatype Replay =
    | NotReplaying
    | Replaying(scan: seq<string>, next: nat, current: Option<nat>)
    | Replayed(scan: seq<string>)
    | ReplayFailed

  datatype State = State(
    hasBridge: bool,                     // a bridge address is configured
    disk: map<string, File>,             // journal files under their final names
    temp: map<string, File>,             // the same names with `.tmp` appended
    lock: Option<nat>,                   // holder of the journal lock
    publishers: map<nat, Publisher>,
    pending: map<string, seq<Sender>>,   // acknowledgement channels by delivery id
    replay: Replay,
    published: set<string>,              // history: ids of the alerts handed to a publisher
    journaled: set<string>,              // history: ids for which persist_journal has returned
    acked: set<string>)                  // history: ids acknowledged as committed or duplicate

  /** A line read from the router: not JSON, or the fields the reader looks at. */
  datatype AckLine = NotJson | Line(eventType: string, deliveryId: Option<string>, status: Option<string>)

  datatype Action =
    | Publish(pid: nat, event: Event)
    | Advance(pid: nat, ok: bool)        // ok: the I/O succeeds, or the acknowledgement branch is taken
    | Receive(line: AckLine)
    | Crash
    | ReplayScan(order: seq<string>)
    | ReplayNext(newPid: nat)

  function Start(hasBridge: bool): State {
    State(hasBridge, map[], map[], None, map[], map[], NotReplaying, {}, {}, {})
  }

  // ---------------------------------------------------------------- steps

  function At(s: State, pid: nat, p: Publisher): (r: State)
    ensures r.hasBridge == s.hasBridge && r.published == s.published && r.acked == s.acked
  {
    s.(publishers := s.publishers[pid := p])
  }

  /** `publish_durable_alert` up to the journal lock. */
  function Admit(event: Event, hasBridge: bool): Publisher {
    match DeliveryId(event)
    case None => Publisher(event, "", Returned(false), 0, Unused)
    case Some(id) => Publisher(event, id, if hasBridge then Locking else Returned(true), 0, Unused)
  }

  function Begin(s: State, pid: nat, event: Event): State {
    var p := Admit(event, s.hasBridge);
    At(s, pid, p).(published := s.published + (if DeliveryId(event).Some? then {p.id} else {}))
  }

  /** Leaves `persist_journal`, releasing the lock. */
  function Unlock(s: State, pid: nat, ok: bool): (r: State)
    requires pid in s.publishers
    ensures r.hasBridge == s.hasBridge && r.published == s.published && r.acked == s.acked
  {
    var p := s.publishers[pid];
    if ok then
      At(s, pid, p.(pc := Registering)).(lock := None, journaled := s.journaled + {p.id})
    else
      At(s, pid, p.(pc := Returned(false))).(lock := None)
  }

  /** The steps of `persist_journal`, which run under the journal lock. */
  predicate Holding(pc: Pc) {
    pc.Checking? || pc.Creating? || pc.Writing? || pc.Renaming?
  }

  function TakeLock(s: State, pid: nat): (r: State)
    requires pid in s.publishers
    ensures r.hasBridge == s.hasBridge && r.published == s.published && r.acked == s.acked
  {
    if s.lock == None then At(s, pid, s.publishers[pid].(pc := Checking)).(lock := Some(pid)) else s
  }

  function Check(s: State, pid: nat, ok: bool): (r: State)
    requires pid in s.publishers
    ensures r.hasBridge == s.hasBridge && r.published == s.published && r.acked == s.acked
  {
    var p := s.publishers[pid];
    if !ok || JournalPath(p.id) in s.disk then Unlock(s, pid, ok) else At(s, pid, p.(pc := Creating))
  }

  /** Creates the temporary file, then fills it. */
  function WriteTemp(s: State, pid: nat, ok: bool): (r: State)
    requires pid in s.publishers
    ensures r.hasBridge == s.hasBridge && r.published == s.published && r.acked == s.acked
  {
    var p := s.publishers[pid];
    var filled := p.pc.Writing?;
    if !ok then Unlock(s, pid, false)
    else At(s, pid, p.(pc := if filled then Renaming else Writing))
           .(temp := s.temp[JournalPath(p.id) := File(p.event, filled)])
  }

  function Commit(s: State, pid: nat, ok: bool): (r: State)
    requires pid in s.publishers
    ensures r.hasBridge == s.hasBridge && r.published == s.published && r.acked == s.acked
  {
    var path := JournalPath(s.publishers[pid].id);
    if !ok || path !in s.temp then Unlock(s, pid, false)
    else Unlock(s.(disk := s.disk[path := s.temp[path]], temp := s.temp - {path}), pid, true)
  }

  /** Every publisher whose current channel is among `waiters` sees `rx` on it. */
  function Settle(publishers: map<nat, Publisher>, waiters: seq<Sender>, rx: Receiver): map<nat, Publisher> {
    map pid | pid in publishers ::
      if Sender(pid, publishers[pid].epoch) in waiters then publishers[pid].(rx := rx) else publishers[pid]
  }

  function Waiters(pending: map<string, seq<Sender>>, id: string): seq<Sender> {
    if id in pending then pending[id] else []
  }

  /** Takes an id's registrations away and shows `rx` to the publishers behind them. */
  function Notify(s: State, id: string, rx: Receiver): (r: State)
    ensures r.hasBridge == s.hasBridge && r.published == s.published && r.acked == s.acked
  {
    s.(publishers := Settle(s.publishers, Waiters(s.pending, id), rx), pending := s.pending - {id})
  }

  function Register(s: State, pid: nat): (r: State)
    requires pid in s.publishers
    ensures r.hasBridge == s.hasBridge && r.published == s.published && r.acked == s.acked
  {
    var p := s.publishers[pid];
    var sender := Sender(pid, p.epoch + 1);
    At(s, pid, p.(pc := Sending, epoch := p.epoch + 1, rx := Waiting))
      .(pending := s.pending[p.id := Waiters(s.pending, p.id) + [sender]])
  }

  /** Sending goes on to the select whether or not the write succeeded; the select takes the
      acknowledgement branch (`acked`) or the one-second timer. */
  function Select(s: State, pid: nat, acked: bool): (r: State)
    requires pid in s.publishers
    ensures r.hasBridge == s.hasBridge && r.published == s.published && r.acked == s.acked
  {
    var p := s.publishers[pid];
    var next :=
      if p.pc.Sending? then Selecting
      else if !acked then Sending
      else if p.rx.Waiting? then Selecting
      else if p.rx == Resolved(true) then Removing
      else Retrying;
    At(s, pid, p.(pc := next))
  }

  /** Deletes the journal file; a missing file is an error too. */
  function Remove(s: State, pid: nat, ok: bool): (r: State)
    requires pid in s.publishers
    ensures r.hasBridge == s.hasBridge && r.published == s.published && r.acked == s.acked
  {
    var p := s.publishers[pid];
    var path := JournalPath(p.id);
    var removed := ok && path in s.disk;
    At(s, pid, p.(pc := Returned(removed))).(disk := if removed then s.disk - {path} else s.disk)
  }

  /** Drops every registration under the id, other publishers' included. */
  function Retry(s: State, pid: nat): (r: State)
    requires pid in s.publishers
    ensures r.hasBridge == s.hasBridge && r.published == s.published && r.acked == s.acked
  {
    var p := s.publishers[pid];
    var closed := Notify(s, p.id, Closed);
    At(closed, pid, closed.publishers[pid].(pc := Registering))
  }

  function Move(s: State, pid: nat, ok: bool): (r: State)
    requires pid in s.publishers
    ensures r.hasBridge == s.hasBridge && r.published == s.published && r.acked == s.acked
  {
    match s.publishers[pid].pc
    case Locking => TakeLock(s, pid)
    case Checking => Check(s, pid, ok)
    case Creating => WriteTemp(s, pid, ok)
    case Writing => WriteTemp(s, pid, ok)
    case Renaming => Commit(s, pid, ok)
    case Registering => Register(s, pid)
    case Sending => Select(s, pid, ok)
    case Selecting => Select(s, pid, ok)
    case Removing => Remove(s, pid, ok)
    case Retrying => Retry(s, pid)
    case Returned(_) => s
  }

  const ROUTER_ACK_EVENT := "cap.alert.router.acknowledged"

  /** The id and verdict a line carries, if it is an acknowledgement at all. */
  function Acknowledgement(line: AckLine): Option<(string, bool)> {
    if line.NotJson? || line.eventType != ROUTER_ACK_EVENT then None
    else if line.deliveryId.None? || line.deliveryId.value == "" then None
    else
      var status := if line.status.Some? then line.status.value else "committed";
      Some((line.deliveryId.value, status == "committed" || status == "duplicate"))
  }

  /** One turn of `read_acknowledgements`. */
  function Read(s: State, line: AckLine): (r: State)
    ensures r.hasBridge == s.hasBridge && r.published == s.published
  {
    match Acknowledgement(line)
    case None => s
    case Some((id, committed)) =>
      Notify(s.(acked := if committed then s.acked + {id} else s.acked), id, Resolved(committed))
  }

  /** The next file of the scan: read, parsed and published again. */
  function ReplayFile(s: State, newPid: nat, path: string): (r: Option<State>) {
    if path !in s.disk || !s.disk[path].complete then None
    else Some(Begin(s, newPid, s.disk[path].event))
  }

  /** The files a scan of the journal directory finds. */
  function Listed(disk: map<string, File>): set<string> {
    set path | path in disk && IsListed(path)
  }

  function ReplayStep(s: State, newPid: nat): State {
    match s.replay
    case Replaying(scan, next, None) =>
      if next >= |scan| then s.(replay := Replayed(scan))
      else if newPid in s.publishers then s
      else (
        match ReplayFile(s, newPid, scan[next])
        case None => s.(replay := ReplayFailed)
        case Some(begun) => begun.(replay := Replaying(scan, next, Some(newPid)))
      )
    case Replaying(scan, next, Some(pid)) => ReplayJoin(s, scan, next, pid)
    case _ => s
  }

  function ReplayJoin(s: State, scan: seq<string>, next: nat, pid: nat): (r: State)
    ensures r.hasBridge == s.hasBridge && r.published == s.published && r.acked == s.acked
  {
    if pid !in s.publishers || !s.publishers[pid].pc.Returned? then s
    else if s.publishers[pid].pc.ok then s.(replay := Replaying(scan, next + 1, None))
    else s.(replay := ReplayFailed)
  }

  function Apply(s: State, a: Action): State {
    match a
    case Publish(pid, event) => if pid in s.publishers then s else Begin(s, pid, event)
    case Advance(pid, ok) =>
      if pid in s.publishers then Move(s, pid, ok) else s
    case Receive(line) => Read(s, line)
    case Crash =>
      s.(lock := None, publishers := map[], pending := map[], replay := NotReplaying)
    case ReplayScan(order) =>
      if s.replay.NotReplaying? && (set path | path in order) == Listed(s.disk)
      then s.(replay := Replaying(order, 0, None)) else s
    case ReplayNext(newPid) => ReplayStep(s, newPid)
  }

  function Run(s: State, actions: seq<Action>): State
    decreases |actions|
  {
    if actions == [] then s
    else Apply(Run(s, actions[..|actions| - 1]), actions[|actions| - 1])
  }

  // ---------------------------------------------------------------- invariant

  /** The journal lock is held by exactly the publisher inside `persist_journal`, and a
      temporary file is committed only after it was written in full. */
  ghost predicate JournalStep(p: Publisher, holds: bool, temp: map<string, File>, published: set<string>) {
    && (Holding(p.pc) <==> holds)
    && (p.pc.Renaming? ==> JournalPath(p.id) in temp && temp[JournalPath(p.id)] == File(p.event, true))
    && (!p.pc.Returned? ==> DeliveryId(p.event) == Some(p.id) && p.id in published)
  }

  ghost predicate JournalInv(s: State) {
    && (s.lock.Some? ==> s.lock.value in s.publishers)
    && (forall pid <- s.publishers :: JournalStep(s.publishers[pid], s.lock == Some(pid), s.temp, s.published))
  }

  /** A committed journal file is complete and names the path it lies under, so that a replay
      can parse it and comes back to the same file. */
  ghost predicate Replayable(path: string, file: File, published: set<string>) {
    && file.complete
    && DeliveryId(file.event).Some?
    && DeliveryId(file.event).value in published
    && JournalPath(DeliveryId(file.event).value) == path
  }

  ghost predicate DiskInv(s: State) {
    forall path <- s.disk :: Replayable(path, s.disk[path], s.published)
  }

  predicate InWaitLoop(p: Publisher) {
    p.pc.Sending? || p.pc.Selecting?
  }

  ghost predicate Awaited(publishers: map<nat, Publisher>, id: string, sender: Sender) {
    && sender.pid in publishers
    && var p := publishers[sender.pid];
    && p.id == id && p.epoch == sender.epoch && p.rx.Waiting? && InWaitLoop(p)
  }

  ghost predicate Registered(pending: map<string, seq<Sender>>, pid: nat, p: Publisher) {
    p.id in pending && Sender(pid, p.epoch) in pending[p.id]
  }

  /** Every registration is awaited, and every publisher whose channel is still open is registered. */
  ghost predicate WakeInv(s: State) {
    && (forall id <- s.pending, sender <- s.pending[id] :: Awaited(s.publishers, id, sender))
    && (forall pid <- s.publishers :: InWaitLoop(s.publishers[pid]) && s.publishers[pid].rx.Waiting? ==>
          Registered(s.pending, pid, s.publishers[pid]))
  }

  /** `persist_journal` has returned and the publisher has not. */
  predicate Accepted(pc: Pc) {
    !pc.Locking? && !Holding(pc) && !pc.Returned?
  }

  /** Whatever a publisher concludes from an acknowledgement, the router did say. */
  ghost predicate Informed(p: Publisher, hasBridge: bool, acked: set<string>, journaled: set<string>) {
    && (p.rx == Resolved(true) || p.pc.Removing? ==> p.id in acked)
    && (p.pc == Returned(true) && hasBridge ==> p.id in acked && p.id in journaled)
    && (Accepted(p.pc) ==> p.id in journaled)
    && (InWaitLoop(p) ==> !p.rx.Unused?)
  }

  ghost predicate AckInv(s: State) {
    forall pid <- s.publishers :: Informed(s.publishers[pid], s.hasBridge, s.acked, s.journaled)
  }

  /** The ids that were journaled here and acknowledged by the router. */
  function Settled(s: State): set<string> {
    s.acked * s.journaled
  }

  ghost predicate PathAcked(settled: set<string>, path: string) {
    exists id :: id in settled && JournalPath(id) == path
  }

  /** A journaled alert is still on disk, or an id with the same file has been acknowledged. */
  ghost predicate KeepInv(s: State) {
    forall id <- s.journaled :: id in s.published && (JournalPath(id) in s.disk || PathAcked(Settled(s), JournalPath(id)))
  }

  ghost predicate ReplayInv(s: State) {
    match s.replay
    case Replaying(scan, next, current) =>
      && next <= |scan|
      && (s.hasBridge ==> forall i | 0 <= i < next :: PathAcked(Settled(s), scan[i]))
      && (current.Some? ==>
            next < |scan| && current.value in s.publishers
            && JournalPath(s.publishers[current.value].id) == scan[next])
    case Replayed(scan) => s.hasBridge ==> forall i | 0 <= i < |scan| :: PathAcked(Settled(s), scan[i])
    case _ => true
  }

  ghost predicate Inv(s: State) {
    JournalInv(s) && DiskInv(s) && WakeInv(s) && AckInv(s) && KeepInv(s) && ReplayInv(s)
  }

  /** A step that changes one publisher, outside its wait loop before and after, and no registration. */
  lemma OnePublisherMoved(s: State, s': State, pid: nat, p: Publisher)
    requires Inv(s)
    requires s'.publishers == s.publishers[pid := p] && s'.pending == s.pending
    requires s'.acked == s.acked && s'.hasBridge == s.hasBridge && s.journaled <= s'.journaled
    requires pid in s.publishers ==> !InWaitLoop(s.publishers[pid])
    requires !InWaitLoop(p)
    requires Informed(p, s'.hasBridge, s'.acked, s'.journaled)
    ensures WakeInv(s') && AckInv(s')
  {
    hide JournalPath;
    forall q | q in s'.publishers
      ensures Informed(s'.publishers[q], s'.hasBridge, s'.acked, s'.journaled)
      ensures InWaitLoop(s'.publishers[q]) && s'.publishers[q].rx.Waiting? ==> Registered(s'.pending, q, s'.publishers[q])
    {
      if q != pid {
        assert Informed(s.publishers[q], s.hasBridge, s.acked, s.journaled);
      }
    }
    forall id, sender | id in s'.pending && sender in s'.pending[id]
      ensures Awaited(s'.publishers, id, sender)
    {
      assert Awaited(s.publishers, id, sender);
    }
  }

  lemma TakeLockKeepsInv(s: State, pid: nat)
    requires Inv(s) && pid in s.publishers && s.publishers[pid].pc.Locking?
    ensures Inv(TakeLock(s, pid))
  {
    hide JournalPath;
    if s.lock == None {
      var s' := TakeLock(s, pid);
      assert JournalStep(s.publishers[pid], s.lock == Some(pid), s.temp, s.published);
      OnePublisherMoved(s, s', pid, s'.publishers[pid]);
    }
  }

  /** Leaving `persist_journal`: on success the id's file is on disk. */
  lemma UnlockKeepsInv(s: State, pid: nat, ok: bool)
    requires Inv(s) && pid in s.publishers && Holding(s.publishers[pid].pc)
    requires ok ==> JournalPath(s.publishers[pid].id) in s.disk
    ensures Inv(Unlock(s, pid, ok))
  {
    hide JournalPath;
    var s' := Unlock(s, pid, ok);
    assert JournalStep(s.publishers[pid], s.lock == Some(pid), s.temp, s.published);
    assert Informed(s.publishers[pid], s.hasBridge, s.acked, s.journaled);
    OnePublisherMoved(s, s', pid, s'.publishers[pid]);
  }

  lemma CheckKeepsInv(s: State, pid: nat, ok: bool)
    requires Inv(s) && pid in s.publishers && s.publishers[pid].pc.Checking?
    ensures Inv(Check(s, pid, ok))
  {
    hide JournalPath;
    if !ok || JournalPath(s.publishers[pid].id) in s.disk {
      UnlockKeepsInv(s, pid, ok);
    } else {
      var s' := Check(s, pid, ok);
      assert JournalStep(s.publishers[pid], s.lock == Some(pid), s.temp, s.published);
      OnePublisherMoved(s, s', pid, s'.publishers[pid]);
    }
  }

  lemma WriteTempKeepsInv(s: State, pid: nat, ok: bool)
    requires Inv(s) && pid in s.publishers && (s.publishers[pid].pc.Creating? || s.publishers[pid].pc.Writing?)
    ensures Inv(WriteTemp(s, pid, ok))
  {
    hide JournalPath;
    if !ok {
      UnlockKeepsInv(s, pid, false);
    } else {
      var s' := WriteTemp(s, pid, ok);
      assert JournalStep(s.publishers[pid], s.lock == Some(pid), s.temp, s.published);
      OnePublisherMoved(s, s', pid, s'.publishers[pid]);
    }
  }

  /** The rename: the file that appears is the one this publisher wrote in full. */
  lemma CommitKeepsInv(s: State, pid: nat, ok: bool)
    requires Inv(s) && pid in s.publishers && s.publishers[pid].pc.Renaming?
    ensures Inv(Commit(s, pid, ok))
  {
    hide JournalPath;
    var p := s.publishers[pid];
    var path := JournalPath(p.id);
    assert JournalStep(p, s.lock == Some(pid), s.temp, s.published);
    assert Informed(p, s.hasBridge, s.acked, s.journaled);
    if !ok {
      UnlockKeepsInv(s, pid, false);
    } else {
      var s' := Commit(s, pid, ok);
      assert Replayable(path, s.temp[path], s.published);
      OnePublisherMoved(s, s', pid, s'.publishers[pid]);
      assert JournalInv(s');
    }
  }

  lemma RemoveKeepsInv(s: State, pid: nat, ok: bool)
    requires Inv(s) && pid in s.publishers && s.publishers[pid].pc.Removing?
    ensures Inv(Remove(s, pid, ok))
  {
    hide JournalPath;
    var s' := Remove(s, pid, ok);
    assert JournalStep(s.publishers[pid], s.lock == Some(pid), s.temp, s.published);
    assert Informed(s.publishers[pid], s.hasBridge, s.acked, s.journaled);
    OnePublisherMoved(s, s', pid, s'.publishers[pid]);
  }

  lemma RegisterKeepsWakeInv(s: State, pid: nat)
    requires Inv(s) && pid in s.publishers && s.publishers[pid].pc.Registering?
    ensures WakeInv(Register(s, pid))
  {
    hide JournalPath;
    var s' := Register(s, pid);
    var p := s.publishers[pid];
    forall id, sender | id in s'.pending && sender in s'.pending[id]
      ensures Awaited(s'.publishers, id, sender)
    {
      if id != p.id || sender in Waiters(s.pending, p.id) {
        assert sender in s.pending[id];
        assert Awaited(s.publishers, id, sender);
      }
    }
    forall q | q in s'.publishers && InWaitLoop(s'.publishers[q]) && s'.publishers[q].rx.Waiting?
      ensures Registered(s'.pending, q, s'.publishers[q])
    {
      if q != pid {
        assert Registered(s.pending, q, s.publishers[q]);
      }
    }
  }

  lemma RegisterKeepsInv(s: State, pid: nat)
    requires Inv(s) && pid in s.publishers && s.publishers[pid].pc.Registering?
    ensures Inv(Register(s, pid))
  {
    hide JournalPath;
    RegisterKeepsWakeInv(s, pid);
    assert JournalStep(s.publishers[pid], s.lock == Some(pid), s.temp, s.published);
    assert Informed(s.publishers[pid], s.hasBridge, s.acked, s.journaled);
  }

  lemma SelectKeepsInv(s: State, pid: nat, acked: bool)
    requires Inv(s) && pid in s.publishers && InWaitLoop(s.publishers[pid])
    ensures Inv(Select(s, pid, acked))
  {
    hide JournalPath;
    var s' := Select(s, pid, acked);
    assert JournalStep(s.publishers[pid], s.lock == Some(pid), s.temp, s.published);
    assert Informed(s.publishers[pid], s.hasBridge, s.acked, s.journaled);
    forall id, sender | id in s'.pending && sender in s'.pending[id]
      ensures Awaited(s'.publishers, id, sender)
    {
      assert Awaited(s.publishers, id, sender);
    }
  }

  /** Taking an id's registrations away leaves none of the publishers behind them waiting. */
  lemma NotifyKeepsInv(s: State, id: string, rx: Receiver)
    requires Inv(s) && (rx.Resolved? || rx.Closed?) && (rx == Resolved(true) ==> id in s.acked)
    ensures Inv(Notify(s, id, rx))
  {
    hide JournalPath;
    var s' := Notify(s, id, rx);
    forall id', sender | id' in s'.pending && sender in s'.pending[id']
      ensures Awaited(s'.publishers, id', sender)
    {
      assert Awaited(s.publishers, id', sender);
      assert id in s.pending ==> forall other <- s.pending[id] :: Awaited(s.publishers, id, other);
    }
    forall q | q in s'.publishers
      ensures Informed(s'.publishers[q], s'.hasBridge, s'.acked, s'.journaled)
      ensures JournalStep(s'.publishers[q], s'.lock == Some(q), s'.temp, s'.published)
      ensures InWaitLoop(s'.publishers[q]) && s'.publishers[q].rx.Waiting? ==> Registered(s'.pending, q, s'.publishers[q])
    {
      assert Informed(s.publishers[q], s.hasBridge, s.acked, s.journaled);
      assert JournalStep(s.publishers[q], s.lock == Some(q), s.temp, s.published);
      if Sender(q, s.publishers[q].epoch) in Waiters(s.pending, id) {
        assert Awaited(s.publishers, id, Sender(q, s.publishers[q].epoch));
      }
    }
  }

  lemma RetryKeepsInv(s: State, pid: nat)
    requires Inv(s) && pid in s.publishers && s.publishers[pid].pc.Retrying?
    ensures Inv(Retry(s, pid))
  {
    hide JournalPath;
    var id := s.publishers[pid].id;
    NotifyKeepsInv(s, id, Closed);
    var closed := Notify(s, id, Closed);
    var s' := Retry(s, pid);
    assert JournalStep(closed.publishers[pid], s.lock == Some(pid), s.temp, s.published);
    assert Informed(closed.publishers[pid], s.hasBridge, s.acked, s.journaled);
    OnePublisherMoved(closed, s', pid, s'.publishers[pid]);
  }

  lemma {:induction false} MoveKeepsInv(s: State, pid: nat, ok: bool)
    requires Inv(s) && pid in s.publishers
    ensures Inv(Move(s, pid, ok))
  {
    hide Inv, TakeLock, Check, WriteTemp, Commit, Register, Select, Remove, Retry;
    match s.publishers[pid].pc
    case Locking => TakeLockKeepsInv(s, pid);
    case Checking => CheckKeepsInv(s, pid, ok);
    case Creating => WriteTempKeepsInv(s, pid, ok);
    case Writing => WriteTempKeepsInv(s, pid, ok);
    case Renaming => CommitKeepsInv(s, pid, ok);
    case Registering => RegisterKeepsInv(s, pid);
    case Sending => SelectKeepsInv(s, pid, ok);
    case Selecting => SelectKeepsInv(s, pid, ok);
    case Removing => RemoveKeepsInv(s, pid, ok);
    case Retrying => RetryKeepsInv(s, pid);
    case Returned(_) =>
  }

  lemma AdmitIsSound(event: Event, s: State)
    ensures var p := Admit(event, s.hasBridge);
            JournalStep(p, false, s.temp, s.published + {p.id}) && !InWaitLoop(p) && Informed(p, s.hasBridge, s.acked, s.journaled)
  {
  }

  lemma BeginKeepsInv(s: State, pid: nat, event: Event)
    requires Inv(s) && pid !in s.publishers
    ensures Inv(Begin(s, pid, event))
  {
    hide JournalPath;
    var s' := Begin(s, pid, event);
    AdmitIsSound(event, s);
    OnePublisherMoved(s, s', pid, s'.publishers[pid]);
  }

  lemma ReadKeepsInv(s: State, line: AckLine)
    requires Inv(s)
    ensures Inv(Read(s, line))
  {
    hide JournalPath;
    match Acknowledgement(line)
    case None =>
    case Some((id, committed)) =>
      var told := s.(acked := if committed then s.acked + {id} else s.acked);
      forall q | q in s.publishers
        ensures Informed(s.publishers[q], s.hasBridge, told.acked, s.journaled)
      {
        assert Informed(s.publishers[q], s.hasBridge, s.acked, s.journaled);
      }
      assert forall path :: PathAcked(Settled(s), path) ==> PathAcked(Settled(told), path);
      NotifyKeepsInv(told, id, Resolved(committed));
  }

  lemma OnlyReplayMoved(s: State, replay: Replay)
    requires Inv(s) && ReplayInv(s.(replay := replay))
    ensures Inv(s.(replay := replay))
  {
  }

  lemma ReplayJoinKeepsInv(s: State, scan: seq<string>, next: nat, pid: nat)
    requires Inv(s) && s.replay == Replaying(scan, next, Some(pid))
    ensures Inv(ReplayJoin(s, scan, next, pid))
  {
    hide JournalPath;
    assert Informed(s.publishers[pid], s.hasBridge, s.acked, s.journaled);
    OnlyReplayMoved(s, ReplayJoin(s, scan, next, pid).replay);
  }

  lemma ReplayFileKeepsInv(s: State, newPid: nat, scan: seq<string>, next: nat)
    requires Inv(s) && s.replay == Replaying(scan, next, None) && next < |scan| && newPid !in s.publishers
    requires ReplayFile(s, newPid, scan[next]).Some?
    ensures Inv(ReplayFile(s, newPid, scan[next]).value.(replay := Replaying(scan, next, Some(newPid))))
  {
    hide JournalPath;
    var path := scan[next];
    assert Replayable(path, s.disk[path], s.published);
    BeginKeepsInv(s, newPid, s.disk[path].event);
    OnlyReplayMoved(Begin(s, newPid, s.disk[path].event), Replaying(scan, next, Some(newPid)));
  }

  lemma ReplayStepKeepsInv(s: State, newPid: nat)
    requires Inv(s)
    ensures Inv(ReplayStep(s, newPid))
  {
    hide JournalPath;
    hide Begin;
    hide ReplayJoin;
    match s.replay
    case Replaying(scan, next, None) =>
      if next >= |scan| {
        OnlyReplayMoved(s, Replayed(scan));
      } else if newPid !in s.publishers {
        if ReplayFile(s, newPid, scan[next]).Some? {
          ReplayFileKeepsInv(s, newPid, scan, next);
        } else {
          OnlyReplayMoved(s, ReplayFailed);
        }
      }
    case Replaying(scan, next, Some(pid)) => ReplayJoinKeepsInv(s, scan, next, pid);
    case _ =>
  }

  lemma {:induction false} ApplyKeepsInv(s: State, a: Action)
    requires Inv(s)
    ensures Inv(Apply(s, a))
  {
    match a
    case Publish(pid, event) => if pid !in s.publishers { BeginKeepsInv(s, pid, event); }
    case Advance(pid, ok) => if pid in s.publishers { MoveKeepsInv(s, pid, ok); }
    case Receive(line) => ReadKeepsInv(s, line);
    case Crash =>
    case ReplayScan(order) =>
    case ReplayNext(newPid) => ReplayStepKeepsInv(s, newPid);
  }

  lemma {:induction false} RunKeepsInv(hasBridge: bool, actions: seq<Action>)
    ensures Inv(Run(Start(hasBridge), actions))
    decreases |actions|
  {
    if actions != [] {
      var n := |actions| - 1;
      RunKeepsInv(hasBridge, actions[..n]);
      ApplyKeepsInv(Run(Start(hasBridge), actions[..n]), actions[n]);
    }
  }

  ghost predicate PublishesOnly(actions: seq<Action>, ids: set<string>) {
    forall a <- actions :: a.Publish? && DeliveryId(a.event).Some? ==> DeliveryId(a.event).value in ids
  }

  /** Only a `Publish` action brings a new id in; a replay repeats one already known. */
  lemma {:induction false} ApplyPublishes(s: State, a: Action)
    requires Inv(s)
    ensures Apply(s, a).hasBridge == s.hasBridge
    ensures Apply(s, a).published <=
            s.published + (if a.Publish? && DeliveryId(a.event).Some? then {DeliveryId(a.event).value} else {})
  {
    hide JournalPath;
    hide Move;
    hide ReplayJoin;
    hide Read;
    if a.ReplayNext? && s.replay.Replaying? && s.replay.current == None && s.replay.next < |s.replay.scan| {
      var path := s.replay.scan[s.replay.next];
      if path in s.disk {
        assert Replayable(path, s.disk[path], s.published);
      }
    }
  }

  lemma {:induction false} RunPublishesOnly(hasBridge: bool, actions: seq<Action>, ids: set<string>)
    requires PublishesOnly(actions, ids)
    ensures var s := Run(Start(hasBridge), actions); s.published <= ids && s.hasBridge == hasBridge
    decreases |actions|
  {
    if actions != [] {
      var n := |actions| - 1;
      RunPublishesOnly(hasBridge, actions[..n], ids);
      RunKeepsInv(hasBridge, actions[..n]);
      assert actions[n] in actions;
      ApplyPublishes(Run(Start(hasBridge), actions[..n]), actions[n]);
    }
  }

  lemma RunKeepsBridge(hasBridge: bool, actions: seq<Action>)
    ensures Run(Start(hasBridge), actions).hasBridge == hasBridge
  {
    var ids := set a | a in actions && a.Publish? && DeliveryId(a.event).Some? :: DeliveryId(a.event).value;
    RunPublishesOnly(hasBridge, actions, ids);
  }

  // ---------------------------------------------------------------- safety over whole runs

  /** A publisher in its wait loop can be woken or already has been: its channel is registered
      under its id, or it is resolved or closed.  This survives another publisher of the same id
      dropping that id's registrations. */
  lemma {:induction false} NoLostWakeup(hasBridge: bool, actions: seq<Action>, pid: nat)
    requires var s := Run(Start(hasBridge), actions); pid in s.publishers && InWaitLoop(s.publishers[pid])
    ensures var s := Run(Start(hasBridge), actions);
            var p := s.publishers[pid];
            || (p.rx.Waiting? && p.id in s.pending && Sender(pid, p.epoch) in s.pending[p.id])
            || p.rx.Resolved? || p.rx.Closed?
  {
    RunKeepsInv(hasBridge, actions);
    var s := Run(Start(hasBridge), actions);
    assert Informed(s.publishers[pid], s.hasBridge, s.acked, s.journaled);
  }

  /** The router's word that an alert is safe: an acknowledgement of its id whose status is
      missing, `committed` or `duplicate`. */
  predicate SaysCommitted(a: Action, id: string) {
    && id != "" && a.Receive? && a.line.Line?
    && a.line.eventType == "cap.alert.router.acknowledged" && a.line.deliveryId == Some(id)
    && (a.line.status == None || a.line.status == Some("committed") || a.line.status == Some("duplicate"))
  }

  /** An acknowledgement of the id with any other status. */
  predicate SaysRefused(a: Action, id: string) {
    && id != "" && a.Receive? && a.line.Line?
    && a.line.eventType == "cap.alert.router.acknowledged" && a.line.deliveryId == Some(id)
    && a.line.status != None && a.line.status != Some("committed") && a.line.status != Some("duplicate")
  }

  lemma LineIsRead(line: AckLine, id: string)
    ensures SaysCommitted(Receive(line), id) <==> Acknowledgement(line) == Some((id, true))
    ensures SaysRefused(Receive(line), id) <==> Acknowledgement(line) == Some((id, false))
  {
  }

  lemma {:induction false} AckedStep(s: State, a: Action, id: string)
    ensures id in Apply(s, a).acked <==> id in s.acked || SaysCommitted(a, id)
  {
    if a.Receive? {
      LineIsRead(a.line, id);
      hide SaysCommitted, Settle, Waiters, Acknowledgement;
    }
    hide JournalPath, Move, Admit, IsListed;
  }

  /** Over every run, exactly the ids of which the router has said so count as acknowledged. */
  lemma {:induction false} AcknowledgedIff(hasBridge: bool, actions: seq<Action>, id: string)
    ensures id in Run(Start(hasBridge), actions).acked
            <==> exists k :: 0 <= k < |actions| && SaysCommitted(actions[k], id)
    decreases |actions|
  {
    hide Apply, SaysCommitted;
    if actions != [] {
      var n := |actions| - 1;
      AcknowledgedIff(hasBridge, actions[..n], id);
      AckedStep(Run(Start(hasBridge), actions[..n]), actions[n], id);
      forall k | 0 <= k < n
        ensures actions[..n][k] == actions[k]
      {
      }
    }
  }

  predicate IsWaiting(s: State, pid: nat, id: string) {
    pid in s.publishers && InWaitLoop(s.publishers[pid]) && s.publishers[pid].rx.Waiting? && s.publishers[pid].id == id
  }

  lemma RunOneMore(hasBridge: bool, actions: seq<Action>, a: Action)
    ensures Run(Start(hasBridge), actions + [a]) == Apply(Run(Start(hasBridge), actions), a)
  {
    assert (actions + [a])[..|actions|] == actions;
  }

  /** One acknowledgement wakes every publisher that waits for its id, with the router's verdict,
      and nothing else that is read does: a line that is no acknowledgement changes nothing. */
  lemma {:induction false} AcknowledgementReachesAllWaiters(hasBridge: bool, actions: seq<Action>, line: AckLine, pid: nat, id: string)
    requires IsWaiting(Run(Start(hasBridge), actions), pid, id)
    ensures var s := Run(Start(hasBridge), actions);
            var s' := Run(Start(hasBridge), actions + [Receive(line)]);
            && pid in s'.publishers && s'.publishers[pid].id == id && s'.publishers[pid].pc == s.publishers[pid].pc
            && s'.publishers[pid].rx == (if SaysCommitted(Receive(line), id) then Resolved(true)
                                         else if SaysRefused(Receive(line), id) then Resolved(false)
                                         else Waiting)
            && ((forall other :: !SaysCommitted(Receive(line), other) && !SaysRefused(Receive(line), other)) ==> s' == s)
  {
    RunKeepsInv(hasBridge, actions);
    RunOneMore(hasBridge, actions, Receive(line));
    LineIsRead(line, id);
    var s := Run(Start(hasBridge), actions);
    hide Run, SaysCommitted, SaysRefused;
    LineReaches(s, line, pid, id);
    if Acknowledgement(line).Some? {
      LineIsRead(line, Acknowledgement(line).value.0);
    }
    hide Acknowledgement, Notify;
  }

  lemma LineReaches(s: State, line: AckLine, pid: nat, id: string)
    requires Inv(s) && IsWaiting(s, pid, id)
    ensures var s' := Read(s, line);
            && pid in s'.publishers && s'.publishers[pid].id == id && s'.publishers[pid].pc == s.publishers[pid].pc
            && s'.publishers[pid].rx == match Acknowledgement(line)
                                        case None => Waiting
                                        case Some((other, verdict)) => if other == id then Resolved(verdict) else Waiting
  {
    hide Acknowledgement, JournalPath;
    assert Registered(s.pending, pid, s.publishers[pid]);
    match Acknowledgement(line)
    case None =>
    case Some((other, verdict)) =>
      var sender := Sender(pid, s.publishers[pid].epoch);
      if other in s.pending && sender in s.pending[other] {
        assert Awaited(s.publishers, other, sender);
      }
  }

  /** A publisher that takes its alert for delivered, or has returned Ok. */
  predicate Concluded(s: State, pid: nat, id: string) {
    && pid in s.publishers && s.publishers[pid].id == id
    && (s.publishers[pid].rx == Resolved(true) || s.publishers[pid].pc.Removing? || s.publishers[pid].pc == Returned(true))
  }

  lemma {:induction false} OwnMoveConcludes(s: State, pid: nat, ok: bool, id: string)
    requires pid in s.publishers && Concluded(Move(s, pid, ok), pid, id)
    ensures Concluded(s, pid, id)
  {
    hide JournalPath;
    match s.publishers[pid].pc
    case Locking => hide Check, WriteTemp, Commit, Register, Select, Remove, Retry;
    case Checking => hide TakeLock, WriteTemp, Commit, Register, Select, Remove, Retry;
    case Creating => hide TakeLock, Check, Commit, Register, Select, Remove, Retry;
    case Writing => hide TakeLock, Check, Commit, Register, Select, Remove, Retry;
    case Renaming => hide TakeLock, Check, WriteTemp, Register, Select, Remove, Retry;
    case Registering => hide TakeLock, Check, WriteTemp, Commit, Select, Remove, Retry;
    case Sending => hide TakeLock, Check, WriteTemp, Commit, Register, Remove, Retry;
    case Selecting => hide TakeLock, Check, WriteTemp, Commit, Register, Remove, Retry;
    case Removing => hide TakeLock, Check, WriteTemp, Commit, Register, Select, Retry;
    case Retrying => hide TakeLock, Check, WriteTemp, Commit, Register, Select, Remove, Waiters;
    case Returned(_) =>
  }

  lemma {:induction false} OthersMoveConcludes(s: State, pid: nat, ok: bool, q: nat, id: string)
    requires pid in s.publishers && q != pid && Concluded(Move(s, pid, ok), q, id)
    ensures Concluded(s, q, id)
  {
    hide JournalPath;
    match s.publishers[pid].pc
    case Locking => hide Check, WriteTemp, Commit, Register, Select, Remove, Retry;
    case Checking => hide TakeLock, WriteTemp, Commit, Register, Select, Remove, Retry;
    case Creating => hide TakeLock, Check, Commit, Register, Select, Remove, Retry;
    case Writing => hide TakeLock, Check, Commit, Register, Select, Remove, Retry;
    case Renaming => hide TakeLock, Check, WriteTemp, Register, Select, Remove, Retry;
    case Registering => hide TakeLock, Check, WriteTemp, Commit, Select, Remove, Retry;
    case Sending => hide TakeLock, Check, WriteTemp, Commit, Register, Remove, Retry;
    case Selecting => hide TakeLock, Check, WriteTemp, Commit, Register, Remove, Retry;
    case Removing => hide TakeLock, Check, WriteTemp, Commit, Register, Select, Retry;
    case Retrying => hide TakeLock, Check, WriteTemp, Commit, Register, Select, Remove, Waiters;
    case Returned(_) =>
  }

  lemma {:induction false} MoveConcludes(s: State, pid: nat, ok: bool, q: nat, id: string)
    requires pid in s.publishers && Concluded(Move(s, pid, ok), q, id)
    ensures Concluded(s, q, id)
  {
    hide Move, Concluded;
    if q == pid {
      OwnMoveConcludes(s, pid, ok, id);
    } else {
      OthersMoveConcludes(s, pid, ok, q, id);
    }
  }

  lemma BeginConcludes(s: State, newPid: nat, event: Event, q: nat, id: string)
    requires s.hasBridge && Concluded(Begin(s, newPid, event), q, id)
    ensures Concluded(s, q, id)
  {
  }

  lemma ReplayConcludes(s: State, newPid: nat, q: nat, id: string)
    requires s.hasBridge && Concluded(ReplayStep(s, newPid), q, id)
    ensures Concluded(s, q, id)
  {
    hide Begin;
    if s.replay.Replaying? && s.replay.current.None? && s.replay.next < |s.replay.scan| && newPid !in s.publishers {
      var path := s.replay.scan[s.replay.next];
      if path in s.disk && s.disk[path].complete {
        BeginConcludes(s, newPid, s.disk[path].event, q, id);
      }
    }
  }

  lemma ReadConcludes(s: State, line: AckLine, q: nat, id: string)
    requires Inv(s) && Concluded(Read(s, line), q, id)
    ensures Concluded(s, q, id) || (SaysCommitted(Receive(line), id) && IsWaiting(s, q, id))
  {
    LineIsRead(line, id);
    hide SaysCommitted, Acknowledgement, JournalPath;
    match Acknowledgement(line)
    case None =>
    case Some((other, verdict)) =>
      var sender := Sender(q, s.publishers[q].epoch);
      if other in s.pending && sender in s.pending[other] {
        assert Awaited(s.publishers, other, sender);
      }
  }

  lemma {:induction false} ConclusionStep(s: State, a: Action, pid: nat, id: string)
    requires Inv(s) && s.hasBridge && Concluded(Apply(s, a), pid, id)
    ensures Concluded(s, pid, id) || (SaysCommitted(a, id) && IsWaiting(s, pid, id))
  {
    hide Inv, Begin, Read, ReplayStep, Move, SaysCommitted, Concluded, IsWaiting, IsListed;
    match a
    case Publish(newPid, event) =>
      if newPid !in s.publishers {
        BeginConcludes(s, newPid, event, pid, id);
      }
    case Advance(other, ok) =>
      if other in s.publishers {
        MoveConcludes(s, other, ok, pid, id);
      }
    case Receive(line) => ReadConcludes(s, line, pid, id);
    case Crash => NobodyConcludes(s, pid, id);
    case ReplayScan(order) => OnlyPublishersConclude(s, Apply(s, a), pid, id);
    case ReplayNext(newPid) => ReplayConcludes(s, newPid, pid, id);
  }

  lemma NobodyConcludes(s: State, pid: nat, id: string)
    ensures !Concluded(s.(lock := None, publishers := map[], pending := map[], replay := NotReplaying), pid, id)
  {
  }

  lemma OnlyPublishersConclude(s: State, t: State, pid: nat, id: string)
    requires t.publishers == s.publishers
    ensures Concluded(s, pid, id) <==> Concluded(t, pid, id)
  {
  }

  /** The router said of the publisher's id that it is safe, while the publisher waited for it. */
  ghost predicate Told(actions: seq<Action>, pid: nat, id: string) {
    exists k :: 0 <= k < |actions| && ToldBy(actions, pid, id, k)
  }

  ghost predicate ToldBy(actions: seq<Action>, pid: nat, id: string, k: nat)
    requires k < |actions|
  {
    SaysCommitted(actions[k], id) && IsWaiting(Run(Start(true), actions[..k]), pid, id)
  }

  lemma {:induction false} ConcludedWasTold(actions: seq<Action>, pid: nat, id: string)
    requires Concluded(Run(Start(true), actions), pid, id)
    ensures Told(actions, pid, id)
    decreases |actions|
  {
    hide Inv, Apply, SaysCommitted, IsWaiting;
    if actions != [] {
      var n := |actions| - 1;
      var before := Run(Start(true), actions[..n]);
      RunKeepsInv(true, actions[..n]);
      RunKeepsBridge(true, actions[..n]);
      ConclusionStep(before, actions[n], pid, id);
      hide Run, Concluded;
      if Concluded(before, pid, id) {
        ConcludedWasTold(actions[..n], pid, id);
        var k :| 0 <= k < n && ToldBy(actions[..n], pid, id, k);
        assert actions[..n][..k] == actions[..k] && actions[..n][k] == actions[k];
        assert ToldBy(actions, pid, id, k);
      } else {
        assert ToldBy(actions, pid, id, n);
      }
    }
  }

  /** With a bridge configured, a publisher returns Ok, or deletes its journal file, only if the
      router said of its id, while the publisher waited, that it committed the alert or had it. */
  lemma {:induction false} OkMeansAcknowledged(actions: seq<Action>, pid: nat)
    requires var s := Run(Start(true), actions);
             pid in s.publishers && (s.publishers[pid].pc == Returned(true) || s.publishers[pid].pc.Removing?)
    ensures var id := Run(Start(true), actions).publishers[pid].id;
            exists k :: 0 <= k < |actions| && SaysCommitted(actions[k], id)
                        && IsWaiting(Run(Start(true), actions[..k]), pid, id)
  {
    var id := Run(Start(true), actions).publishers[pid].id;
    ConcludedWasTold(actions, pid, id);
    hide Run, SaysCommitted, IsWaiting;
    var k :| 0 <= k < |actions| && ToldBy(actions, pid, id, k);
  }

  // ---------------------------------------------------------------- what a publisher gets done

  /** A run without a bridge: nothing is journaled, and a call is an error only without an id. */
  lemma {:induction false} WithoutABridge(actions: seq<Action>)
    ensures var s := Run(Start(false), actions);
            && s.disk == map[] && !s.hasBridge
            && forall pid <- s.publishers ::
                 var e := s.publishers[pid].event;
                 s.publishers[pid].pc == Returned(e.deliveryId.Some? || e.dataDeliveryId.Some?)
    decreases |actions|
  {
    hide IsListed, JournalPath, Notify;
    if actions != [] {
      WithoutABridge(actions[..|actions| - 1]);
      IdleStep(Run(Start(false), actions[..|actions| - 1]), actions[|actions| - 1]);
      hide Apply;
    }
  }

  ghost predicate Idle(s: State) {
    && s.disk == map[] && !s.hasBridge
    && forall pid <- s.publishers ::
         s.publishers[pid].pc == Returned(s.publishers[pid].event.deliveryId.Some? || s.publishers[pid].event.dataDeliveryId.Some?)
  }

  lemma IdleStep(s: State, a: Action)
    requires Idle(s)
    ensures Idle(Apply(s, a))
  {
    hide IsListed, JournalPath, Acknowledgement, Waiters;
    match a
    case Advance(_, _) => hide ReplayStep, Read;
    case Receive(_) => hide ReplayStep, Move;
    case ReplayNext(pid) =>
      hide Move, Read;
      IdleReplay(s, pid);
    case _ => hide Move, Read, ReplayStep;
  }

  lemma IdleReplay(s: State, pid: nat)
    requires Idle(s)
    ensures Idle(ReplayStep(s, pid))
  {
    hide IsListed, JournalPath;
  }

  function Advances(pid: nat, n: nat): (r: seq<Action>)
    ensures |r| == n
  {
    seq(n, _ => Advance(pid, true))
  }

  lemma {:induction false} AdvanceOnce(actions: seq<Action>, pid: nat, n: nat)
    ensures Run(Start(true), actions + Advances(pid, n + 1))
            == Apply(Run(Start(true), actions + Advances(pid, n)), Advance(pid, true))
  {
    assert actions + Advances(pid, n + 1) == actions + Advances(pid, n) + [Advance(pid, true)];
    RunOneMore(true, actions + Advances(pid, n), Advance(pid, true));
  }

  ghost predicate Stands(s: State, pid: nat, event: Event, id: string, pc: Pc) {
    pid in s.publishers && s.publishers[pid].event == event && s.publishers[pid].id == id && s.publishers[pid].pc == pc
  }

  /** And what the router says is followed: the publisher goes on to delete its journal file or to
      start over. */
  lemma {:induction false} VerdictIsFollowed(hasBridge: bool, actions: seq<Action>, line: AckLine, pid: nat, id: string)
    requires IsWaiting(Run(Start(hasBridge), actions), pid, id)
    requires Run(Start(hasBridge), actions).publishers[pid].pc.Selecting?
    ensures var s := Run(Start(hasBridge), actions + [Receive(line)] + [Advance(pid, true)]);
            && pid in s.publishers
            && s.publishers[pid].pc == (if SaysCommitted(Receive(line), id) then Removing
                                        else if SaysRefused(Receive(line), id) then Retrying
                                        else Selecting)
  {
    AcknowledgementReachesAllWaiters(hasBridge, actions, line, pid, id);
    RunOneMore(hasBridge, actions + [Receive(line)], Advance(pid, true));
    hide SaysCommitted, SaysRefused, Run;
  }

  /** One step of a publisher whose I/O succeeds, up to its wait. */
  lemma {:induction false} AdvanceFrom(s: State, pid: nat, event: Event, id: string, pc: Pc)
    requires Stands(s, pid, event, id, pc)
    requires pc.Locking? || pc.Checking? || pc.Creating? || pc.Writing? || pc.Renaming?
    requires pc.Locking? ==> s.lock == None
    requires pc.Renaming? ==> JournalPath(id) in s.temp && s.temp[JournalPath(id)] == File(event, true)
    ensures var s' := Move(s, pid, true);
            var path := JournalPath(id);
            && Stands(s', pid, event, id,
                      match pc
                      case Locking => Checking
                      case Checking => if path in s.disk then Registering else Creating
                      case Creating => Writing
                      case Writing => Renaming
                      case _ => Registering)
            && s'.disk == (if pc.Renaming? then s.disk[path := File(event, true)] else s.disk)
            && (pc.Writing? ==> path in s'.temp && s'.temp[path] == File(event, true))
            && (s'.publishers[pid].pc.Registering? ==> s'.lock == None)
  {
    hide JournalPath;
    match pc
    case Locking => hide Check, WriteTemp, Commit, Register, Select, Remove, Retry;
    case Checking => hide TakeLock, WriteTemp, Commit, Register, Select, Remove, Retry;
    case Renaming => hide TakeLock, Check, WriteTemp, Register, Select, Remove, Retry;
    case _ => hide TakeLock, Check, Commit, Register, Select, Remove, Retry;
  }

  /** A step of the wait loop: a new registration, the event sent, the timer, or a retry. */
  lemma {:induction false} WaitStep(s: State, pid: nat, event: Event, id: string, pc: Pc, ok: bool)
    requires Stands(s, pid, event, id, pc)
    requires pc.Registering? || pc.Sending? || pc.Retrying? || (pc.Selecting? && !ok)
    ensures var s' := Move(s, pid, ok);
            && Stands(s', pid, event, id,
                      match pc
                      case Registering => Sending
                      case Retrying => Registering
                      case Sending => Selecting
                      case _ => Sending)
            && s'.disk == s.disk && s'.lock == s.lock
            && (pc.Registering? ==> s'.publishers[pid].rx.Waiting?)
            && (pc.Sending? || pc.Selecting? ==> s'.publishers[pid].rx == s.publishers[pid].rx)
  {
    hide JournalPath;
    match pc
    case Registering => hide TakeLock, Check, WriteTemp, Commit, Select, Remove, Retry;
    case Retrying => hide TakeLock, Check, WriteTemp, Commit, Register, Select, Remove;
    case _ => hide TakeLock, Check, WriteTemp, Commit, Register, Remove, Retry;
  }

  lemma StepsOf(actions: seq<Action>, pid: nat)
    ensures actions + Advances(pid, 0) == actions
  {
  }

  /** A publisher that gets the lock, and whose I/O succeeds, has its alert on disk, as given,
      within five steps; a file that is there already is left as it is. */
  lemma {:induction false} AlertIsJournaled(actions: seq<Action>, pid: nat, event: Event, id: string)
    requires var s := Run(Start(true), actions); pid !in s.publishers && s.lock == None
    requires DeliveryId(event) == Some(id)
    ensures var s := Run(Start(true), actions);
            var path := JournalPath(id);
            var s' := Run(Start(true), actions + [Publish(pid, event)] + Advances(pid, if path in s.disk then 2 else 5));
            && Stands(s', pid, event, id, Registering) && s'.lock == None
            && s'.disk == (if path in s.disk then s.disk else s.disk[path := File(event, true)])
  {
    var begun := actions + [Publish(pid, event)];
    RunKeepsBridge(true, actions);
    RunOneMore(true, actions, Publish(pid, event));
    hide Run, JournalPath;
    JournaledFrom(begun, pid, event, id);
  }

  lemma {:induction false} JournaledFrom(begun: seq<Action>, pid: nat, event: Event, id: string)
    requires var s := Run(Start(true), begun); Stands(s, pid, event, id, Locking) && s.lock == None
    ensures var s := Run(Start(true), begun);
            var path := JournalPath(id);
            var s' := Run(Start(true), begun + Advances(pid, if path in s.disk then 2 else 5));
            && Stands(s', pid, event, id, Registering) && s'.lock == None
            && s'.disk == (if path in s.disk then s.disk else s.disk[path := File(event, true)])
  {
    StepsOf(begun, pid);
    hide Run, Apply, JournalPath, Advances;
    OwnStep(begun, pid, 0, event, id, Locking);
    OwnStep(begun, pid, 1, event, id, Checking);
    hide Stands;
    if JournalPath(id) !in Run(Start(true), begun).disk {
      OwnStep(begun, pid, 2, event, id, Creating);
      OwnStep(begun, pid, 3, event, id, Writing);
      OwnStep(begun, pid, 4, event, id, Renaming);
    }
  }

  lemma {:induction false} OwnStep(actions: seq<Action>, pid: nat, n: nat, event: Event, id: string, pc: Pc)
    requires var s := Run(Start(true), actions + Advances(pid, n));
             && Stands(s, pid, event, id, pc)
             && (pc.Locking? ==> s.lock == None)
             && (pc.Renaming? ==> JournalPath(id) in s.temp && s.temp[JournalPath(id)] == File(event, true))
    requires pc.Locking? || pc.Checking? || pc.Creating? || pc.Writing? || pc.Renaming?
    ensures var s := Run(Start(true), actions + Advances(pid, n));
            var s' := Run(Start(true), actions + Advances(pid, n + 1));
            var path := JournalPath(id);
            && Stands(s', pid, event, id,
                      match pc
                      case Locking => Checking
                      case Checking => if path in s.disk then Registering else Creating
                      case Creating => Writing
                      case Writing => Renaming
                      case _ => Registering)
            && s'.disk == (if pc.Renaming? then s.disk[path := File(event, true)] else s.disk)
            && (pc.Writing? ==> path in s'.temp && s'.temp[path] == File(event, true))
            && (s'.publishers[pid].pc.Registering? ==> s'.lock == None)
  {
    AdvanceOnce(actions, pid, n);
    hide Run, JournalPath, Advances;
    AdvanceFrom(Run(Start(true), actions + Advances(pid, n)), pid, event, id, pc);
    hide Move;
  }

  lemma {:induction false} OwnWaitStep(actions: seq<Action>, pid: nat, n: nat, event: Event, id: string, pc: Pc)
    requires Stands(Run(Start(true), actions + Advances(pid, n)), pid, event, id, pc)
    requires pc.Registering? || pc.Sending? || pc.Retrying?
    ensures var s := Run(Start(true), actions + Advances(pid, n));
            var s' := Run(Start(true), actions + Advances(pid, n + 1));
            && Stands(s', pid, event, id, if pc.Registering? then Sending else if pc.Retrying? then Registering else Selecting)
            && s'.disk == s.disk && s'.lock == s.lock
            && (pc.Registering? ==> s'.publishers[pid].rx.Waiting?)
            && (pc.Sending? ==> s'.publishers[pid].rx == s.publishers[pid].rx)
  {
    AdvanceOnce(actions, pid, n);
    hide Run, JournalPath, Advances;
    WaitStep(Run(Start(true), actions + Advances(pid, n)), pid, event, id, pc, true);
    hide Move;
  }

  /** From its registration a publisher is two steps from waiting for its id, in the select. */
  lemma {:induction false} RegisteredIsWaiting(actions: seq<Action>, pid: nat, n: nat, event: Event, id: string)
    requires Stands(Run(Start(true), actions + Advances(pid, n)), pid, event, id, Registering)
    ensures var s := Run(Start(true), actions + Advances(pid, n + 2));
            && Stands(s, pid, event, id, Selecting) && IsWaiting(s, pid, id)
            && s.disk == Run(Start(true), actions + Advances(pid, n)).disk
            && s.lock == Run(Start(true), actions + Advances(pid, n)).lock
  {
    OwnWaitStep(actions, pid, n, event, id, Registering);
    hide Run, Advances;
    OwnWaitStep(actions, pid, n + 1, event, id, Sending);
  }

  /** An alert is delivered: once it is journaled the publisher waits in two more steps, and when
      the router then commits it the publisher returns Ok and its journal file is gone. */
  lemma {:induction false} AlertIsDelivered(actions: seq<Action>, pid: nat, event: Event, id: string, line: AckLine)
    requires var s := Run(Start(true), actions); pid !in s.publishers && s.lock == None
    requires DeliveryId(event) == Some(id) && SaysCommitted(Receive(line), id)
    ensures var path := JournalPath(id);
            var before := Run(Start(true), actions).disk;
            var waiting := actions + [Publish(pid, event)] + Advances(pid, if path in before then 4 else 7);
            var s := Run(Start(true), waiting + [Receive(line)] + Advances(pid, 2));
            && IsWaiting(Run(Start(true), waiting), pid, id)
            && pid in s.publishers && s.publishers[pid].pc == Returned(true)
            && path !in s.disk && s.disk == before - {path}
  {
    RunKeepsBridge(true, actions);
    RunOneMore(true, actions, Publish(pid, event));
    hide Run, JournalPath;
    DeliveredFrom(actions + [Publish(pid, event)], pid, event, id, line);
  }

  lemma {:induction false} DeliveredFrom(begun: seq<Action>, pid: nat, event: Event, id: string, line: AckLine)
    requires var s := Run(Start(true), begun); Stands(s, pid, event, id, Locking) && s.lock == None
    requires SaysCommitted(Receive(line), id)
    ensures var path := JournalPath(id);
            var before := Run(Start(true), begun).disk;
            var waiting := begun + Advances(pid, if path in before then 4 else 7);
            var s := Run(Start(true), waiting + [Receive(line)] + Advances(pid, 2));
            && IsWaiting(Run(Start(true), waiting), pid, id)
            && pid in s.publishers && s.publishers[pid].pc == Returned(true)
            && s.disk == before - {path} && s.lock == None
  {
    hide *;
    JournaledFrom(begun, pid, event, id);
    var before := Run(Start(true), begun).disk;
    if JournalPath(id) in before {
      RegisteredIsWaiting(begun, pid, 2, event, id);
      WaitingIsDelivered(begun + Advances(pid, 4), pid, event, id, line, before);
    } else {
      RegisteredIsWaiting(begun, pid, 5, event, id);
      WaitingIsDelivered(begun + Advances(pid, 7), pid, event, id, line, before);
    }
  }

  lemma {:induction false} WaitingIsDelivered(waiting: seq<Action>, pid: nat, event: Event, id: string, line: AckLine,
                                              before: map<string, File>)
    requires var s := Run(Start(true), waiting);
             && IsWaiting(s, pid, id) && Stands(s, pid, event, id, Selecting) && s.lock == None
             && s.disk == (if JournalPath(id) in before then before else before[JournalPath(id) := File(event, true)])
    requires SaysCommitted(Receive(line), id)
    ensures var s := Run(Start(true), waiting + [Receive(line)] + Advances(pid, 2));
            && pid in s.publishers && s.publishers[pid].pc == Returned(true)
            && s.disk == before - {JournalPath(id)} && s.lock == None
  {
    hide *;
    CommittedReturns(waiting, pid, event, id, line);
  }

  lemma {:induction false} CommittedReturns(waiting: seq<Action>, pid: nat, event: Event, id: string, line: AckLine)
    requires var s := Run(Start(true), waiting);
             IsWaiting(s, pid, id) && Stands(s, pid, event, id, Selecting) && JournalPath(id) in s.disk
    requires SaysCommitted(Receive(line), id)
    ensures var s := Run(Start(true), waiting + [Receive(line)] + Advances(pid, 2));
            && pid in s.publishers && s.publishers[pid].pc == Returned(true)
            && s.disk == Run(Start(true), waiting).disk - {JournalPath(id)}
            && s.lock == Run(Start(true), waiting).lock
  {
    var told := waiting + [Receive(line)];
    VerdictIsFollowed(true, waiting, line, pid, id);
    AcknowledgementReachesAllWaiters(true, waiting, line, pid, id);
    RunOneMore(true, waiting, Receive(line));
    ReadLeavesDisk(Run(Start(true), waiting), line);
    assert told + Advances(pid, 1) == told + [Advance(pid, true)];
    RunOneMore(true, told, Advance(pid, true));
    AdvanceOnce(told, pid, 1);
    hide Run, JournalPath, Read, SaysCommitted, Advances;
    SelectLeavesDisk(Run(Start(true), told), pid);
    RemoveReturns(Run(Start(true), told + Advances(pid, 1)), pid);
    hide Move;
  }

  lemma SelectLeavesDisk(s: State, pid: nat)
    requires pid in s.publishers && s.publishers[pid].pc.Selecting?
    ensures var s' := Move(s, pid, true);
            s'.disk == s.disk && s'.lock == s.lock && pid in s'.publishers && s'.publishers[pid].id == s.publishers[pid].id
  {
    hide JournalPath, TakeLock, Check, WriteTemp, Commit, Register, Remove, Retry;
  }

  lemma RemoveReturns(s: State, pid: nat)
    requires pid in s.publishers && s.publishers[pid].pc.Removing? && JournalPath(s.publishers[pid].id) in s.disk
    ensures var s' := Move(s, pid, true);
            && pid in s'.publishers && s'.publishers[pid].pc == Returned(true)
            && s'.disk == s.disk - {JournalPath(s.publishers[pid].id)} && s'.lock == s.lock
  {
    hide JournalPath, TakeLock, Check, WriteTemp, Commit, Register, Select, Retry;
  }

  /** A refusal is not the end either: four steps later the publisher waits again. */
  lemma {:induction false} RefusedWaitsAgain(waiting: seq<Action>, pid: nat, event: Event, id: string, line: AckLine)
    requires var s := Run(Start(true), waiting); IsWaiting(s, pid, id) && Stands(s, pid, event, id, Selecting)
    requires SaysRefused(Receive(line), id)
    ensures var s := Run(Start(true), waiting + [Receive(line)] + Advances(pid, 4));
            IsWaiting(s, pid, id) && Stands(s, pid, event, id, Selecting)
  {
    var told := waiting + [Receive(line)];
    VerdictIsFollowed(true, waiting, line, pid, id);
    RunOneMore(true, waiting, Receive(line));
    KeepsEvent(Run(Start(true), waiting), pid, line);
    assert told + Advances(pid, 1) == told + [Advance(pid, true)];
    RunOneMore(true, told, Advance(pid, true));
    hide Run, JournalPath, Read, SaysRefused, SaysCommitted, Advances;
    SelectKeepsEvent(Run(Start(true), told), pid);
    hide Move;
    assert Stands(Run(Start(true), told + Advances(pid, 1)), pid, event, id, Retrying);
    hide Stands;
    OwnWaitStep(told, pid, 1, event, id, Retrying);
    RegisteredIsWaiting(told, pid, 2, event, id);
  }

  lemma KeepsEvent(s: State, pid: nat, line: AckLine)
    requires pid in s.publishers
    ensures var s' := Read(s, line);
            && pid in s'.publishers && s'.publishers[pid].event == s.publishers[pid].event
            && s'.publishers[pid].id == s.publishers[pid].id && s'.publishers[pid].pc == s.publishers[pid].pc
  {
    hide Acknowledgement, Waiters;
  }

  lemma SelectKeepsEvent(s: State, pid: nat)
    requires pid in s.publishers && s.publishers[pid].pc.Selecting?
    ensures var s' := Move(s, pid, true);
            && pid in s'.publishers && s'.publishers[pid].event == s.publishers[pid].event
            && s'.publishers[pid].id == s.publishers[pid].id
  {
    hide JournalPath, TakeLock, Check, WriteTemp, Commit, Register, Remove, Retry;
  }

  /** Until the router answers, the event is sent again each time the timer fires. */
  lemma {:induction false} TimerSendsAgain(actions: seq<Action>, pid: nat, event: Event, id: string)
    requires Stands(Run(Start(true), actions), pid, event, id, Selecting)
    ensures Stands(Run(Start(true), actions + [Advance(pid, false)]), pid, event, id, Sending)
  {
    RunOneMore(true, actions, Advance(pid, false));
    hide Run, JournalPath;
    WaitStep(Run(Start(true), actions), pid, event, id, Selecting, false);
    hide Move;
  }

  /** Whatever is on disk at a restart can be replayed: the file is complete, and the alert
      read back from it is published under an id that leads to the same file. */
  lemma {:induction false} JournalIsReplayable(hasBridge: bool, actions: seq<Action>, path: string, pid: nat)
    requires path in Run(Start(hasBridge), actions).disk
    requires pid !in Run(Start(hasBridge), actions).publishers
    ensures var s := Run(Start(hasBridge), actions);
            var begun := ReplayFile(s, pid, path);
            && begun.Some? && pid in begun.value.publishers
            && !begun.value.publishers[pid].pc.Returned? == hasBridge
            && JournalPath(begun.value.publishers[pid].id) == path
  {
    hide JournalPath;
    RunKeepsInv(hasBridge, actions);
    RunKeepsBridge(hasBridge, actions);
    var s := Run(Start(hasBridge), actions);
    assert Replayable(path, s.disk[path], s.published);
  }

  /** `replay_pending` returns Ok only after an alert of every file it found was acknowledged. */
  lemma {:induction false} ReplayDelivers(actions: seq<Action>, path: string)
    requires var s := Run(Start(true), actions); s.replay.Replayed? && path in s.replay.scan
    ensures var s := Run(Start(true), actions); exists id :: id in s.acked && JournalPath(id) == path
  {
    RunKeepsInv(true, actions);
    RunKeepsBridge(true, actions);
    var s := Run(Start(true), actions);
    var i :| 0 <= i < |s.replay.scan| && s.replay.scan[i] == path;
    assert PathAcked(Settled(s), s.replay.scan[i]);
  }

  // ---------------------------------------------------------------- a restart that goes well

  predicate IsQuiet(a: Action) {
    a.Advance? || a.Receive?
  }

  lemma MoveKeepsReplay(s: State, pid: nat, ok: bool)
    requires pid in s.publishers
    ensures Move(s, pid, ok).replay == s.replay && Move(s, pid, ok).publishers.Keys == s.publishers.Keys
  {
    hide JournalPath, Waiters;
    assert s.publishers.Keys + {pid} == s.publishers.Keys;
    match s.publishers[pid].pc
    case Checking => hide TakeLock, WriteTemp, Commit, Register, Select, Remove, Retry;
    case Creating => hide TakeLock, Check, Commit, Register, Select, Remove, Retry;
    case Writing => hide TakeLock, Check, Commit, Register, Select, Remove, Retry;
    case Renaming => hide TakeLock, Check, WriteTemp, Register, Select, Remove, Retry;
    case Retrying => hide TakeLock, Check, WriteTemp, Commit, Register, Select, Remove;
    case _ => hide Check, WriteTemp, Commit, Retry;
  }

  lemma QuietStep(s: State, a: Action)
    requires IsQuiet(a)
    ensures Apply(s, a).replay == s.replay && Apply(s, a).publishers.Keys == s.publishers.Keys
  {
    hide JournalPath, Acknowledgement, Waiters, Move;
    match a
    case Receive(_) => hide Begin, ReplayStep;
    case Advance(pid, ok) =>
      if pid in s.publishers {
        MoveKeepsReplay(s, pid, ok);
      }
  }

  lemma {:induction false} QuietKeepsReplay(actions: seq<Action>, more: seq<Action>)
    requires forall k | 0 <= k < |more| :: IsQuiet(more[k])
    ensures Run(Start(true), actions + more).replay == Run(Start(true), actions).replay
    ensures Run(Start(true), actions + more).publishers.Keys == Run(Start(true), actions).publishers.Keys
    decreases |more|
  {
    hide Apply, IsQuiet, Run;
    if more == [] {
      assert actions + more == actions;
    } else {
      var n := |more| - 1;
      assert actions + more == actions + more[..n] + [more[n]];
      QuietKeepsReplay(actions, more[..n]);
      RunOneMore(true, actions + more[..n], more[n]);
      QuietStep(Run(Start(true), actions + more[..n]), more[n]);
    }
  }

  predicate Scans(s: State, scan: seq<string>) {
    (s.replay.Replaying? || s.replay.Replayed?) && s.replay.scan == scan
  }

  lemma ScanStep(s: State, a: Action, scan: seq<string>)
    requires Scans(Apply(s, a), scan) && !Scans(s, scan)
    ensures a == ReplayScan(scan) && forall path :: path in scan <==> path in s.disk && IsListed(path)
  {
    hide IsListed, Begin;
    if IsQuiet(a) {
      QuietStep(s, a);
    } else {
      hide Move, Read, ReplayFile;
      match a
      case ReplayScan(order) =>
        ScannedIsListed(scan, s.disk);
      case ReplayNext(pid) => NextKeepsScan(s, pid);
      case Publish(pid, event) => BeginKeepsReplay(s, pid, event);
      case _ =>
    }
  }

  lemma ScannedIsListed(scan: seq<string>, disk: map<string, File>)
    requires (set path | path in scan) == Listed(disk)
    ensures forall path :: path in scan <==> path in disk && IsListed(path)
  {
    hide IsListed;
    forall path
      ensures path in scan <==> path in disk && IsListed(path)
    {
      assert path in (set path | path in scan) <==> path in Listed(disk);
    }
  }

  lemma BeginKeepsReplay(s: State, pid: nat, event: Event)
    ensures Begin(s, pid, event).replay == s.replay
  {
    hide Admit;
  }

  lemma NextKeepsScan(s: State, pid: nat)
    ensures var s' := ReplayStep(s, pid);
            (s'.replay.Replaying? || s'.replay.Replayed?) ==>
              (s.replay.Replaying? || s.replay.Replayed?) && s'.replay.scan == s.replay.scan
  {
    hide Begin, ReplayFile, ReplayJoin;
    if s.replay.Replaying? && s.replay.current.Some? {
      JoinKeepsScan(s, s.replay.scan, s.replay.next, s.replay.current.value);
    }
  }

  lemma JoinKeepsScan(s: State, scan: seq<string>, next: nat, pid: nat)
    requires s.replay == Replaying(scan, next, Some(pid))
    ensures var s' := ReplayJoin(s, scan, next, pid);
            s'.replay.ReplayFailed? || (s'.replay.Replaying? && s'.replay.scan == scan)
  {
  }

  /** A replay goes through the files that were in the directory when it scanned it, and no others. */
  lemma {:induction false} ReplayCoversTheDirectory(hasBridge: bool, actions: seq<Action>, scan: seq<string>)
    requires Scans(Run(Start(hasBridge), actions), scan)
    ensures exists k :: 0 <= k < |actions| && ScannedAt(hasBridge, actions, scan, k)
    decreases |actions|
  {
    hide Apply, IsListed;
    var n := |actions| - 1;
    var s := Run(Start(hasBridge), actions[..n]);
    if Scans(s, scan) {
      ReplayCoversTheDirectory(hasBridge, actions[..n], scan);
      var k :| 0 <= k < n && ScannedAt(hasBridge, actions[..n], scan, k);
      assert actions[..n][..k] == actions[..k] && actions[..n][k] == actions[k];
      assert ScannedAt(hasBridge, actions, scan, k);
    } else {
      ScanStep(s, actions[n], scan);
      assert ScannedAt(hasBridge, actions, scan, n);
    }
  }

  ghost predicate ScannedAt(hasBridge: bool, actions: seq<Action>, scan: seq<string>, k: nat)
    requires k < |actions|
  {
    && actions[k] == ReplayScan(scan)
    && forall path :: path in scan <==> path in Run(Start(hasBridge), actions[..k]).disk && IsListed(path)
  }

  /** The replay stands before the files from `next` on, all of them there, each once. */
  ghost predicate Before(s: State, scan: seq<string>, next: nat) {
    && s.replay == Replaying(scan, next, None) && next <= |scan| && s.lock == None
    && (forall i | next <= i < |scan| :: scan[i] in s.disk && IsListed(scan[i]))
    && (forall i, j | next <= i < j < |scan| :: scan[i] != scan[j])
  }

  /** What a file that a replay finds is published as. */
  lemma {:induction false} FileIsPublished(actions: seq<Action>, scan: seq<string>, next: nat, pid: nat) returns (event: Event, id: string)
    requires var s := Run(Start(true), actions); Before(s, scan, next) && next < |scan| && pid !in s.publishers
    ensures var s := Run(Start(true), actions);
            var s' := Run(Start(true), actions + [ReplayNext(pid)]);
            && Stands(s', pid, event, id, Locking) && JournalPath(id) == scan[next] && id != ""
            && s'.disk == s.disk && s'.lock == None && s'.replay == Replaying(scan, next, Some(pid))
            && s'.publishers.Keys == s.publishers.Keys + {pid}
  {
    JournalIsReplayable(true, actions, scan[next], pid);
    RunKeepsBridge(true, actions);
    RunOneMore(true, actions, ReplayNext(pid));
    var s := Run(Start(true), actions);
    event := s.disk[scan[next]].event;
    id := DeliveryId(event).value;
    assert IsListed(scan[next]);
    ListedIff(id);
    hide Run, IsListed;
  }

  /** The files of a replay: published, acknowledged and deleted one after another. */
  lemma {:induction false} NextFileIsDelivered(actions: seq<Action>, scan: seq<string>, next: nat, pid: nat) returns (more: seq<Action>)
    requires var s := Run(Start(true), actions); Before(s, scan, next) && next < |scan| && pid !in s.publishers
    ensures var s := Run(Start(true), actions);
            var s' := Run(Start(true), actions + more);
            && Before(s', scan, next + 1) && s'.disk == s.disk - {scan[next]}
            && s'.publishers.Keys == s.publishers.Keys + {pid}
  {
    hide Run, JournalPath, IsListed, Advances, Stands, ReplayStep;
    var event, id := FileIsPublished(actions, scan, next, pid);
    var begun := actions + [ReplayNext(pid)];
    var line := Line("cap.alert.router.acknowledged", Some(id), Some("committed"));
    DeliveredFrom(begun, pid, event, id, line);
    var quiet := Turn(pid, line);
    assert begun + Advances(pid, 4) + [Receive(line)] + Advances(pid, 2) == begun + quiet;
    QuietKeepsReplay(begun, quiet);
    RunOneMore(true, begun + quiet, ReplayNext(pid));
    more := [ReplayNext(pid)] + quiet + [ReplayNext(pid)];
    assert actions + more == begun + quiet + [ReplayNext(pid)];
    JoinIsNext(Run(Start(true), actions), Run(Start(true), begun + quiet), scan, next, pid);
    hide Before, Turn, SaysCommitted;
  }

  /** What happens between the publication of a file that was found and its deletion. */
  function Turn(pid: nat, line: AckLine): (r: seq<Action>)
    ensures forall k | 0 <= k < |r| :: IsQuiet(r[k])
  {
    Advances(pid, 4) + [Receive(line)] + Advances(pid, 2)
  }

  lemma JoinIsNext(s: State, s': State, scan: seq<string>, next: nat, pid: nat)
    requires Before(s, scan, next) && next < |scan|
    requires s'.replay == Replaying(scan, next, Some(pid)) && pid in s'.publishers
    requires s'.publishers[pid].pc == Returned(true)
    requires s'.disk == s.disk - {scan[next]} && s'.lock == None
    ensures Before(ReplayStep(s', pid), scan, next + 1)
    ensures ReplayStep(s', pid).disk == s'.disk && ReplayStep(s', pid).publishers == s'.publishers
  {
    hide IsListed;
  }

  /** A number no publisher has. */
  lemma FreshPid(pids: set<nat>) returns (pid: nat)
    ensures forall q <- pids :: q < pid
  {
    if pids == {} {
      pid := 0;
    } else {
      var q :| q in pids;
      var r := FreshPid(pids - {q});
      pid := if q < r then r else q + 1;
      forall other | other in pids
        ensures other < pid
      {
        assert other == q || other in pids - {q};
      }
    }
  }

  lemma {:induction false} ReplayGoesOn(actions: seq<Action>, scan: seq<string>, next: nat) returns (more: seq<Action>)
    requires Before(Run(Start(true), actions), scan, next)
    ensures var s := Run(Start(true), actions + more);
            && s.replay == Replayed(scan)
            && s.disk == Run(Start(true), actions).disk - (set i | next <= i < |scan| :: scan[i])
    decreases |scan| - next
  {
    hide Run, JournalPath, IsListed;
    if next == |scan| {
      more := [ReplayNext(0)];
      RunOneMore(true, actions, ReplayNext(0));
    } else {
      var pid := FreshPid(Run(Start(true), actions).publishers.Keys);
      var first := NextFileIsDelivered(actions, scan, next, pid);
      var rest := ReplayGoesOn(actions + first, scan, next + 1);
      more := first + rest;
      assert actions + more == actions + first + rest;
      assert (set i | next <= i < |scan| :: scan[i]) == {scan[next]} + (set i | next + 1 <= i < |scan| :: scan[i]);
    }
  }

  /** After a crash in any run there is a way on in which the replay, over the directory in any
      order, delivers every journal file it finds and leaves none of them behind. */
  lemma {:induction false} ReplayCanEmptyTheJournal(actions: seq<Action>, order: seq<string>)
    requires forall path :: path in order <==> path in Run(Start(true), actions).disk && IsListed(path)
    requires forall i, j | 0 <= i < j < |order| :: order[i] != order[j]
    ensures exists more ::
              var s := Run(Start(true), actions + [Crash, ReplayScan(order)] + more);
              && s.replay == Replayed(order)
              && s.disk == map path | path in Run(Start(true), actions).disk && !IsListed(path) :: Run(Start(true), actions).disk[path]
  {
    var s := Run(Start(true), actions);
    var crashed := actions + [Crash];
    var scanned := crashed + [ReplayScan(order)];
    RunOneMore(true, actions, Crash);
    RunOneMore(true, crashed, ReplayScan(order));
    assert actions + [Crash, ReplayScan(order)] == scanned;
    hide Run, JournalPath, IsListed;
    assert (set path | path in order) == Listed(s.disk);
    assert forall i | 0 <= i < |order| :: order[i] in order;
    assert Before(Run(Start(true), scanned), order, 0);
    var more := ReplayGoesOn(scanned, order, 0);
    assert (set i | 0 <= i < |order| :: order[i]) == Listed(s.disk);
  }

  // ---------------------------------------------------------------- the journal file of an acknowledged publisher

  /** The step puts the file under its final name. */
  predicate Commits(s: State, a: Action, path: string) {
    && a.Advance? && a.ok && a.pid in s.publishers
    && s.publishers[a.pid].pc.Renaming? && JournalPath(s.publishers[a.pid].id) == path && path in s.temp
  }

  /** The step deletes the file, and its publisher returns Ok. */
  predicate Deletes(s: State, a: Action, path: string) {
    && a.Advance? && a.ok && a.pid in s.publishers
    && s.publishers[a.pid].pc.Removing? && JournalPath(s.publishers[a.pid].id) == path && path in s.disk
  }

  lemma {:induction false} MoveDisk(s: State, pid: nat, ok: bool, path: string)
    requires pid in s.publishers
    ensures var a := Advance(pid, ok);
            path in Move(s, pid, ok).disk <==> (path in s.disk && !Deletes(s, a, path)) || Commits(s, a, path)
  {
    hide JournalPath;
    match s.publishers[pid].pc
    case Renaming => hide TakeLock, Check, WriteTemp, Register, Select, Remove, Retry;
    case Removing => hide TakeLock, Check, WriteTemp, Commit, Register, Select, Retry;
    case Checking => hide TakeLock, WriteTemp, Commit, Register, Select, Remove, Retry;
    case _ => hide Check, Commit, Remove;
  }

  lemma BeginLeavesDisk(s: State, pid: nat, event: Event)
    ensures Begin(s, pid, event).disk == s.disk && Begin(s, pid, event).journaled == s.journaled
  {
    hide Admit;
  }

  lemma ReadLeavesDisk(s: State, line: AckLine)
    ensures Read(s, line).disk == s.disk && Read(s, line).journaled == s.journaled && Read(s, line).lock == s.lock
  {
    hide Acknowledgement, Settle, Waiters;
  }

  lemma ReplayLeavesDisk(s: State, newPid: nat)
    ensures ReplayStep(s, newPid).disk == s.disk && ReplayStep(s, newPid).journaled == s.journaled
  {
    hide Begin;
    if s.replay.Replaying? && s.replay.current.None? && s.replay.next < |s.replay.scan| {
      var path := s.replay.scan[s.replay.next];
      if path in s.disk {
        BeginLeavesDisk(s, newPid, s.disk[path].event);
      }
    }
  }

  lemma {:induction false} OthersLeaveDisk(s: State, a: Action)
    requires !a.Advance?
    ensures Apply(s, a).disk == s.disk && Apply(s, a).journaled == s.journaled
  {
    hide Begin, Read, ReplayStep, Move, IsListed;
    match a
    case Publish(pid, event) => BeginLeavesDisk(s, pid, event);
    case Receive(line) => ReadLeavesDisk(s, line);
    case ReplayNext(newPid) => ReplayLeavesDisk(s, newPid);
    case _ =>
  }

  /** Only these two steps change which files are there. */
  lemma {:induction false} DiskStep(s: State, a: Action, path: string)
    ensures path in Apply(s, a).disk <==> (path in s.disk && !Deletes(s, a, path)) || Commits(s, a, path)
  {
    if !a.Advance? {
      OthersLeaveDisk(s, a);
    } else if a.pid in s.publishers {
      MoveDisk(s, a.pid, a.ok, path);
    }
    hide JournalPath, Move, Begin, Read, ReplayStep;
  }

  lemma CheckJournaled(s: State, pid: nat, ok: bool, id: string)
    requires pid in s.publishers && id in Check(s, pid, ok).journaled
    ensures id in s.journaled || JournalPath(id) in Check(s, pid, ok).disk
  {
    hide JournalPath;
  }

  lemma CommitJournaled(s: State, pid: nat, ok: bool, id: string)
    requires pid in s.publishers && id in Commit(s, pid, ok).journaled
    ensures id in s.journaled || JournalPath(id) in Commit(s, pid, ok).disk
  {
    hide JournalPath;
  }

  lemma {:induction false} MoveJournaled(s: State, pid: nat, ok: bool, id: string)
    requires pid in s.publishers && id in Move(s, pid, ok).journaled
    ensures id in s.journaled || JournalPath(id) in Move(s, pid, ok).disk
  {
    hide JournalPath, Waiters, Settle, Check, Commit;
    match s.publishers[pid].pc
    case Checking => CheckJournaled(s, pid, ok, id);
    case Renaming => CommitJournaled(s, pid, ok, id);
    case _ =>
  }

  /** An id is journaled when its file is there. */
  lemma {:induction false} JournaledStep(s: State, a: Action, id: string)
    requires id in Apply(s, a).journaled
    ensures id in s.journaled || JournalPath(id) in Apply(s, a).disk
  {
    hide JournalPath, Move, Begin, Read, ReplayStep;
    if !a.Advance? {
      OthersLeaveDisk(s, a);
    } else if a.pid in s.publishers {
      MoveJournaled(s, a.pid, a.ok, id);
    }
  }

  /** A publisher past `persist_journal`. */
  predicate IsAccepted(s: State, pid: nat) {
    pid in s.publishers && Accepted(s.publishers[pid].pc)
  }

  lemma {:induction false} MoveAccepted(s: State, pid: nat, ok: bool)
    requires pid in s.publishers && IsAccepted(Move(s, pid, ok), pid)
    ensures Move(s, pid, ok).publishers[pid].id == s.publishers[pid].id
    ensures IsAccepted(s, pid) || JournalPath(s.publishers[pid].id) in Move(s, pid, ok).disk
  {
    hide JournalPath, Waiters;
    match s.publishers[pid].pc
    case Locking => hide Check, WriteTemp, Commit, Register, Select, Remove, Retry;
    case Checking => hide TakeLock, WriteTemp, Commit, Register, Select, Remove, Retry;
    case Creating => hide TakeLock, Check, Commit, Register, Select, Remove, Retry;
    case Writing => hide TakeLock, Check, Commit, Register, Select, Remove, Retry;
    case Renaming => hide TakeLock, Check, WriteTemp, Register, Select, Remove, Retry;
    case Registering => hide TakeLock, Check, WriteTemp, Commit, Select, Remove, Retry;
    case Sending => hide TakeLock, Check, WriteTemp, Commit, Register, Remove, Retry;
    case Selecting => hide TakeLock, Check, WriteTemp, Commit, Register, Remove, Retry;
    case Removing => hide TakeLock, Check, WriteTemp, Commit, Register, Select, Retry;
    case Retrying => hide TakeLock, Check, WriteTemp, Commit, Register, Select, Remove;
    case Returned(_) =>
  }

  /** The same publisher, at the same place. */
  predicate SamePlace(s: State, t: State, q: nat) {
    && (q in t.publishers <==> q in s.publishers)
    && (q in s.publishers ==> t.publishers[q].id == s.publishers[q].id && t.publishers[q].pc == s.publishers[q].pc)
  }

  lemma NotifyKeepsPlaces(s: State, id: string, rx: Receiver, q: nat)
    ensures SamePlace(s, Notify(s, id, rx), q)
  {
    hide Waiters;
  }

  lemma {:induction false} MoveLeavesOthers(s: State, pid: nat, ok: bool, q: nat)
    requires pid in s.publishers && q != pid
    ensures SamePlace(s, Move(s, pid, ok), q)
  {
    hide JournalPath, Waiters, Notify;
    NotifyKeepsPlaces(s, s.publishers[pid].id, Closed, q);
    match s.publishers[pid].pc
    case Locking => hide Check, WriteTemp, Commit, Register, Select, Remove, Retry;
    case Checking => hide TakeLock, WriteTemp, Commit, Register, Select, Remove, Retry;
    case Creating => hide TakeLock, Check, Commit, Register, Select, Remove, Retry;
    case Writing => hide TakeLock, Check, Commit, Register, Select, Remove, Retry;
    case Renaming => hide TakeLock, Check, WriteTemp, Register, Select, Remove, Retry;
    case Registering => hide TakeLock, Check, WriteTemp, Commit, Select, Remove, Retry;
    case Sending => hide TakeLock, Check, WriteTemp, Commit, Register, Remove, Retry;
    case Selecting => hide TakeLock, Check, WriteTemp, Commit, Register, Remove, Retry;
    case Removing => hide TakeLock, Check, WriteTemp, Commit, Register, Select, Retry;
    case Retrying => hide TakeLock, Check, WriteTemp, Commit, Register, Select, Remove;
    case Returned(_) =>
  }

  lemma ReadAccepts(s: State, line: AckLine, pid: nat)
    ensures SamePlace(s, Read(s, line), pid)
  {
    hide Notify, Acknowledgement;
    match Acknowledgement(line)
    case None =>
    case Some((id, committed)) =>
      NotifyKeepsPlaces(s.(acked := if committed then s.acked + {id} else s.acked), id, Resolved(committed), pid);
  }

  lemma {:induction false} OthersAccept(s: State, a: Action, pid: nat)
    requires !a.Advance? && IsAccepted(Apply(s, a), pid)
    ensures IsAccepted(s, pid) && s.publishers[pid].id == Apply(s, a).publishers[pid].id
  {
    hide JournalPath, Waiters, Move, Notify, IsListed, Read;
    if a.Receive? {
      ReadAccepts(s, a.line, pid);
    }
  }

  /** A publisher past `persist_journal` was there before the step, or comes from it with its file
      on disk. */
  lemma {:induction false} AcceptedStep(s: State, a: Action, pid: nat)
    requires IsAccepted(Apply(s, a), pid)
    ensures var p := Apply(s, a).publishers[pid];
            (IsAccepted(s, pid) && s.publishers[pid].id == p.id) || JournalPath(p.id) in Apply(s, a).disk
  {
    hide JournalPath, Accepted;
    if !a.Advance? {
      OthersAccept(s, a, pid);
    } else if a.pid in s.publishers {
      if a.pid == pid {
        MoveAccepted(s, pid, a.ok);
      } else {
        MoveLeavesOthers(s, a.pid, a.ok, pid);
      }
    }
    hide Move, Begin, Read, ReplayStep;
  }

  ghost predicate Committed(hasBridge: bool, actions: seq<Action>, path: string) {
    exists k: nat :: k < |actions| && Commits(Run(Start(hasBridge), actions[..k]), actions[k], path)
  }

  /** The file was deleted by step `j`, and none was committed in its place since. */
  ghost predicate GoneSince(hasBridge: bool, actions: seq<Action>, j: nat, path: string) {
    && j < |actions| && Deletes(Run(Start(hasBridge), actions[..j]), actions[j], path)
    && forall k: nat | j < k < |actions| :: !Commits(Run(Start(hasBridge), actions[..k]), actions[k], path)
  }

  ghost predicate IsGone(hasBridge: bool, actions: seq<Action>, path: string) {
    exists j: nat :: GoneSince(hasBridge, actions, j, path)
  }

  lemma CommittedGrows(hasBridge: bool, actions: seq<Action>, path: string)
    requires actions != []
    ensures var n := |actions| - 1;
            Committed(hasBridge, actions, path) <==>
            Committed(hasBridge, actions[..n], path) || Commits(Run(Start(hasBridge), actions[..n]), actions[n], path)
  {
    hide Commits, Run;
    var n := |actions| - 1;
    forall k: nat | k < n
      ensures actions[..n][..k] == actions[..k] && actions[..n][k] == actions[k]
    {
    }
  }

  lemma GoneGrows(hasBridge: bool, actions: seq<Action>, j: nat, path: string)
    requires actions != []
    ensures var n := |actions| - 1;
            GoneSince(hasBridge, actions, j, path) <==>
            (j == n && Deletes(Run(Start(hasBridge), actions[..n]), actions[n], path))
            || (GoneSince(hasBridge, actions[..n], j, path) && !Commits(Run(Start(hasBridge), actions[..n]), actions[n], path))
  {
    hide Commits, Deletes, Run;
    var n := |actions| - 1;
    forall k: nat | k < n
      ensures actions[..n][..k] == actions[..k] && actions[..n][k] == actions[k]
    {
    }
  }

  /** A file that is there, or was when an id was journaled, was committed by some step. */
  lemma {:induction false} JournaledWasCommitted(hasBridge: bool, actions: seq<Action>, path: string)
    ensures var s := Run(Start(hasBridge), actions);
            path in s.disk || (exists id :: id in s.journaled && JournalPath(id) == path) ==>
              Committed(hasBridge, actions, path)
    decreases |actions|
  {
    hide JournalPath, Apply, Commits, Deletes, Committed;
    if actions != [] {
      var n := |actions| - 1;
      var before, s := Run(Start(hasBridge), actions[..n]), Run(Start(hasBridge), actions);
      JournaledWasCommitted(hasBridge, actions[..n], path);
      CommittedGrows(hasBridge, actions, path);
      DiskStep(before, actions[n], path);
      if id :| id in s.journaled && JournalPath(id) == path {
        JournaledStep(before, actions[n], id);
      }
    }
  }

  lemma {:induction false} GoneIsMissing(hasBridge: bool, actions: seq<Action>, j: nat, path: string)
    requires GoneSince(hasBridge, actions, j, path)
    ensures path !in Run(Start(hasBridge), actions).disk
    decreases |actions|
  {
    var n := |actions| - 1;
    var before := Run(Start(hasBridge), actions[..n]);
    GoneGrows(hasBridge, actions, j, path);
    DiskStep(before, actions[n], path);
    hide JournalPath, Apply, GoneSince;
    if j < n {
      GoneIsMissing(hasBridge, actions[..n], j, path);
    }
  }

  lemma {:induction false} MissingWasDeleted(hasBridge: bool, actions: seq<Action>, path: string) returns (j: nat)
    requires Committed(hasBridge, actions, path) && path !in Run(Start(hasBridge), actions).disk
    ensures GoneSince(hasBridge, actions, j, path)
    decreases |actions|
  {
    var n := |actions| - 1;
    var before := Run(Start(hasBridge), actions[..n]);
    DiskStep(before, actions[n], path);
    CommittedGrows(hasBridge, actions, path);
    hide JournalPath, Apply, Commits, Deletes, GoneSince, Committed;
    if Deletes(before, actions[n], path) {
      j := n;
    } else {
      j := MissingWasDeleted(hasBridge, actions[..n], path);
    }
    GoneGrows(hasBridge, actions, j, path);
  }

  /** After every run: an acknowledged publisher whose removal is tried returns Ok exactly when the
      removal works and its file was not deleted since it was last committed. */
  lemma AcknowledgedReturnsOkIff(hasBridge: bool, actions: seq<Action>, pid: nat, ok: bool)
    requires var s := Run(Start(hasBridge), actions); pid in s.publishers && s.publishers[pid].pc.Removing?
    ensures var s := Run(Start(hasBridge), actions);
            var path := JournalPath(s.publishers[pid].id);
            && s.publishers[pid].id in s.acked
            && Apply(s, Advance(pid, ok)).publishers[pid].pc == Returned(ok && !IsGone(hasBridge, actions, path))
  {
    hide JournalPath, GoneSince;
    var s := Run(Start(hasBridge), actions);
    var p := s.publishers[pid];
    RunKeepsInv(hasBridge, actions);
    assert Informed(p, s.hasBridge, s.acked, s.journaled);
    JournaledWasCommitted(hasBridge, actions, JournalPath(p.id));
    if JournalPath(p.id) in s.disk {
      forall j: nat
        ensures !GoneSince(hasBridge, actions, j, JournalPath(p.id))
      {
        if GoneSince(hasBridge, actions, j, JournalPath(p.id)) {
          GoneIsMissing(hasBridge, actions, j, JournalPath(p.id));
        }
      }
    } else {
      var j := MissingWasDeleted(hasBridge, actions, JournalPath(p.id));
    }
  }

  /** And whoever deleted it was another publisher of the same file, which returned Ok while this
      one was already past `persist_journal`. */
  lemma {:induction false} AnotherPublisherDeleted(hasBridge: bool, actions: seq<Action>, pid: nat, j: nat)
    requires var s := Run(Start(hasBridge), actions);
             && IsAccepted(s, pid)
             && GoneSince(hasBridge, actions, j, JournalPath(s.publishers[pid].id))
    ensures var p := Run(Start(hasBridge), actions).publishers[pid];
            var s := Run(Start(hasBridge), actions[..j]);
            var q := actions[j].pid;
            && IsAccepted(s, pid) && s.publishers[pid].id == p.id
            && q != pid && JournalPath(s.publishers[q].id) == JournalPath(p.id) && s.publishers[q].id in s.acked
            && Apply(s, actions[j]).publishers[q].pc == Returned(true)
    decreases |actions|
  {
    var n := |actions| - 1;
    var before := Run(Start(hasBridge), actions[..n]);
    var p := Run(Start(hasBridge), actions).publishers[pid];
    GoneIsMissing(hasBridge, actions, j, JournalPath(p.id));
    GoneGrows(hasBridge, actions, j, JournalPath(p.id));
    AcceptedStep(before, actions[n], pid);
    hide JournalPath, Commits;
    if j == n {
      RunKeepsInv(hasBridge, actions[..n]);
      assert Informed(before.publishers[actions[n].pid], before.hasBridge, before.acked, before.journaled);
    } else {
      hide Apply, GoneSince, Deletes;
      AnotherPublisherDeleted(hasBridge, actions[..n], pid, j);
      assert actions[..n][..j] == actions[..j] && actions[..n][j] == actions[j];
    }
  }

  // ---------------------------------------------------------------- no accepted alert is lost

  ghost predicate PathsDistinct(ids: set<string>) {
    forall a <- ids, b <- ids :: JournalPath(a) == JournalPath(b) ==> a == b
  }

  /** Accepted (`persist_journal` returned) and neither on disk under its own id nor acknowledged. */
  ghost predicate Lost(s: State, id: string) {
    && id in s.journaled && id !in s.acked
    && !(JournalPath(id) in s.disk && DeliveryId(s.disk[JournalPath(id)].event) == Some(id))
  }

  lemma {:induction false} NothingLost(hasBridge: bool, actions: seq<Action>, ids: set<string>, id: string)
    requires PublishesOnly(actions, ids) && PathsDistinct(ids)
    ensures !Lost(Run(Start(hasBridge), actions), id)
  {
    hide JournalPath;
    RunKeepsInv(hasBridge, actions);
    RunPublishesOnly(hasBridge, actions, ids);
    var s := Run(Start(hasBridge), actions);
    var path := JournalPath(id);
    if id in s.journaled && path in s.disk {
      assert Replayable(path, s.disk[path], s.published);
    }
  }

  /** A run that loses `b`'s alert when `b` shares a journal file with another id `a`: the second
      publisher takes the first one's file for its own, and the first one's acknowledgement
      deletes it. */
  function LosingRun(a: string, b: string): seq<Action> {
    [Publish(0, Event(Some(a), None, [])),
     Advance(0, true), Advance(0, true), Advance(0, true), Advance(0, true), Advance(0, true),   // journals a
     Advance(0, true), Advance(0, true),                                                         // registers, sends
     Publish(1, Event(Some(b), None, [])), Advance(1, true), Advance(1, true),                   // finds the file
     Receive(Line(ROUTER_ACK_EVENT, Some(a), None)),
     Advance(0, true), Advance(0, true)]                                                         // deletes the file
  }

  /** Publisher 0 alone, inside `persist_journal`. */
  function Solo(id: string, pc: Pc, temp: map<string, File>, lock: Option<nat>): State {
    State(true, map[], temp, lock, map[0 := Publisher(Event(Some(id), None, []), id, pc, 0, Unused)], map[],
          NotReplaying, {id}, {}, {})
  }

  lemma RunPrefix(s: State, actions: seq<Action>, n: nat)
    requires n < |actions|
    ensures Run(s, actions[..n + 1]) == Apply(Run(s, actions[..n]), actions[n])
  {
    assert actions[..n + 1][..n] == actions[..n];
  }

  lemma SoloCreates(id: string)
    ensures Apply(Start(true), Publish(0, Event(Some(id), None, []))) == Solo(id, Locking, map[], None)
    ensures Apply(Solo(id, Locking, map[], None), Advance(0, true)) == Solo(id, Checking, map[], Some(0))
    ensures Apply(Solo(id, Checking, map[], Some(0)), Advance(0, true)) == Solo(id, Creating, map[], Some(0))
  {
    hide JournalPath;
  }

  lemma SoloWrites(id: string)
    ensures var path, event := JournalPath(id), Event(Some(id), None, []);
            && Apply(Solo(id, Creating, map[], Some(0)), Advance(0, true))
               == Solo(id, Writing, map[path := File(event, false)], Some(0))
            && Apply(Solo(id, Writing, map[path := File(event, false)], Some(0)), Advance(0, true))
               == Solo(id, Renaming, map[path := File(event, true)], Some(0))
  {
    hide JournalPath;
  }

  lemma SoloCommits(id: string)
    ensures var path, event := JournalPath(id), Event(Some(id), None, []);
            var s := Apply(Solo(id, Renaming, map[path := File(event, true)], Some(0)), Advance(0, true));
            && s.publishers == map[0 := Publisher(event, id, Registering, 0, Unused)]
            && path in s.disk && s.lock == None && s.pending == map[] && s.journaled == {id} && s.acked == {}
            && s.hasBridge
  {
    hide JournalPath;
  }

  lemma LosingRunJournals(a: string, b: string)
    ensures var s := Run(Start(true), LosingRun(a, b)[..6]);
            && s.publishers == map[0 := Publisher(Event(Some(a), None, []), a, Registering, 0, Unused)]
            && JournalPath(a) in s.disk && s.lock == None && s.pending == map[] && s.journaled == {a}
            && s.acked == {} && s.hasBridge
  {
    hide JournalPath;
    hide Apply;
    var r := LosingRun(a, b);
    var s := Start(true);
    SoloCreates(a);
    SoloWrites(a);
    SoloCommits(a);
    assert Run(s, r[..0]) == s;
    RunPrefix(s, r, 0);
    RunPrefix(s, r, 1);
    RunPrefix(s, r, 2);
    RunPrefix(s, r, 3);
    RunPrefix(s, r, 4);
    RunPrefix(s, r, 5);
  }

  lemma LosingRunRegisters(a: string, b: string)
    ensures var s := Run(Start(true), LosingRun(a, b)[..7]);
            && s.publishers.Keys == {0}
            && s.publishers[0] == Publisher(Event(Some(a), None, []), a, Sending, 1, Waiting)
            && JournalPath(a) in s.disk && s.lock == None && s.journaled == {a} && s.acked == {} && s.hasBridge
            && Sender(0, 1) in Waiters(s.pending, a)
  {
    hide JournalPath;
    LosingRunJournals(a, b);
    RunPrefix(Start(true), LosingRun(a, b), 6);
  }

  lemma LosingRunSends(a: string, b: string)
    ensures var s := Run(Start(true), LosingRun(a, b)[..8]);
            && s.publishers.Keys == {0}
            && s.publishers[0] == Publisher(Event(Some(a), None, []), a, Selecting, 1, Waiting)
            && JournalPath(a) in s.disk && s.lock == None && s.journaled == {a} && s.acked == {} && s.hasBridge
            && Sender(0, 1) in Waiters(s.pending, a)
  {
    hide JournalPath;
    LosingRunRegisters(a, b);
    RunPrefix(Start(true), LosingRun(a, b), 7);
  }

  /** Publisher 0 waits for its alert, whose file is on disk; publisher 1 is about its own. */
  ghost predicate Meeting(s: State, a: string, b: string, pc: Pc, lock: Option<nat>, journaled: set<string>) {
    && s.publishers == map[0 := Publisher(Event(Some(a), None, []), a, Selecting, 1, Waiting),
                           1 := Publisher(Event(Some(b), None, []), b, pc, 0, Unused)]
    && JournalPath(a) in s.disk && s.lock == lock && s.journaled == journaled && s.acked == {} && s.hasBridge
    && Sender(0, 1) in Waiters(s.pending, a)
  }

  lemma OtherPublishes(s: State, a: string, b: string)
    requires s.publishers.Keys == {0} && s.publishers[0] == Publisher(Event(Some(a), None, []), a, Selecting, 1, Waiting)
    requires JournalPath(a) in s.disk && s.lock == None && s.journaled == {a} && s.acked == {} && s.hasBridge
    requires Sender(0, 1) in Waiters(s.pending, a)
    ensures Meeting(Apply(s, Publish(1, Event(Some(b), None, []))), a, b, Locking, None, {a})
  {
    hide JournalPath;
  }

  lemma OtherLocks(s: State, a: string, b: string)
    requires Meeting(s, a, b, Locking, None, {a})
    ensures Meeting(Apply(s, Advance(1, true)), a, b, Checking, Some(1), {a})
  {
    hide JournalPath;
  }

  lemma OtherFinds(s: State, a: string, b: string)
    requires Meeting(s, a, b, Checking, Some(1), {a}) && JournalPath(a) == JournalPath(b)
    ensures Meeting(Apply(s, Advance(1, true)), a, b, Registering, None, {a, b})
  {
    hide JournalPath;
  }

  lemma LosingRunMeets(a: string, b: string)
    requires JournalPath(a) == JournalPath(b)
    ensures Meeting(Run(Start(true), LosingRun(a, b)[..11]), a, b, Registering, None, {a, b})
  {
    hide JournalPath, Apply, Run, Meeting, Waiters;
    var r := LosingRun(a, b);
    LosingRunSends(a, b);
    RunPrefix(Start(true), r, 8);
    OtherPublishes(Run(Start(true), r[..8]), a, b);
    RunPrefix(Start(true), r, 9);
    OtherLocks(Run(Start(true), r[..9]), a, b);
    RunPrefix(Start(true), r, 10);
    OtherFinds(Run(Start(true), r[..10]), a, b);
  }

  lemma LosingRunIsTold(a: string, b: string)
    requires JournalPath(a) == JournalPath(b) && a != ""
    ensures var s := Run(Start(true), LosingRun(a, b)[..12]);
            && 0 in s.publishers
            && s.publishers[0] == Publisher(Event(Some(a), None, []), a, Selecting, 1, Resolved(true))
            && JournalPath(a) in s.disk && s.journaled == {a, b} && s.acked == {a}
  {
    hide JournalPath;
    var r := LosingRun(a, b);
    LosingRunMeets(a, b);
    RunPrefix(Start(true), r, 11);
    assert Acknowledgement(r[11].line) == Some((a, true));
  }

  lemma LosingRunLoses(a: string, b: string)
    requires a != b && JournalPath(a) == JournalPath(b) && a != ""
    ensures Lost(Run(Start(true), LosingRun(a, b)), b)
  {
    hide JournalPath;
    var r := LosingRun(a, b);
    LosingRunIsTold(a, b);
    RunPrefix(Start(true), r, 12);
    RunPrefix(Start(true), r, 13);
    assert r[..14] == r;
  }

  // ---------------------------------------------------------------- two publishers of one alert

  /** A run in which two publishers of one alert are both acknowledged. */
  function TwoPublishers(id: string): seq<Action> {
    LosingRun(id, id)[..11]                                              // both journaled, 0 waits
    + [Advance(1, true), Advance(1, true),                               // 1 registers and sends
       Receive(Line(ROUTER_ACK_EVENT, Some(id), None)),
       Advance(0, true), Advance(1, true),                               // both go to delete the file
       Advance(0, true), Advance(1, true)]
  }

  /** A publisher of the alert at some place, with its first channel or none. */
  function Waiter(id: string, pc: Pc, rx: Receiver): Publisher {
    Publisher(Event(Some(id), None, []), id, pc, if rx.Unused? then 0 else 1, rx)
  }

  /** Two publishers with the journal file of their alert on disk. */
  ghost predicate Two(s: State, id: string, first: Publisher, second: Publisher, lock: Option<nat>, waiters: seq<Sender>) {
    && s.publishers == map[0 := first, 1 := second]
    && JournalPath(id) in s.disk && s.lock == lock && Waiters(s.pending, id) == waiters && s.hasBridge
  }

  lemma SecondPublishes(s: State, id: string)
    requires s.publishers == map[0 := Waiter(id, Selecting, Waiting)] && JournalPath(id) in s.disk && s.lock == None
    requires Waiters(s.pending, id) == [Sender(0, 1)] && s.hasBridge
    ensures Two(Apply(s, Publish(1, Event(Some(id), None, []))), id, Waiter(id, Selecting, Waiting),
                Waiter(id, Locking, Unused), None, [Sender(0, 1)])
  {
    hide JournalPath;
  }

  lemma SecondLocks(s: State, id: string)
    requires Two(s, id, Waiter(id, Selecting, Waiting), Waiter(id, Locking, Unused), None, [Sender(0, 1)])
    ensures Two(Apply(s, Advance(1, true)), id, Waiter(id, Selecting, Waiting), Waiter(id, Checking, Unused), Some(1),
                [Sender(0, 1)])
  {
    hide JournalPath;
  }

  lemma SecondChecks(s: State, id: string)
    requires Two(s, id, Waiter(id, Selecting, Waiting), Waiter(id, Checking, Unused), Some(1), [Sender(0, 1)])
    ensures Two(Apply(s, Advance(1, true)), id, Waiter(id, Selecting, Waiting), Waiter(id, Registering, Unused), None,
                [Sender(0, 1)])
  {
    hide JournalPath;
  }

  lemma SecondRegisters(s: State, id: string)
    requires Two(s, id, Waiter(id, Selecting, Waiting), Waiter(id, Registering, Unused), None, [Sender(0, 1)])
    ensures Two(Apply(s, Advance(1, true)), id, Waiter(id, Selecting, Waiting), Waiter(id, Sending, Waiting), None,
                [Sender(0, 1), Sender(1, 1)])
  {
    hide JournalPath;
  }

  lemma SecondSends(s: State, id: string)
    requires Two(s, id, Waiter(id, Selecting, Waiting), Waiter(id, Sending, Waiting), None, [Sender(0, 1), Sender(1, 1)])
    ensures Two(Apply(s, Advance(1, true)), id, Waiter(id, Selecting, Waiting), Waiter(id, Selecting, Waiting), None,
                [Sender(0, 1), Sender(1, 1)])
  {
    hide JournalPath;
  }

  lemma BothAreTold(s: State, id: string)
    requires id != ""
    requires Two(s, id, Waiter(id, Selecting, Waiting), Waiter(id, Selecting, Waiting), None, [Sender(0, 1), Sender(1, 1)])
    ensures var told := Apply(s, Receive(Line(ROUTER_ACK_EVENT, Some(id), None)));
            Two(told, id, Waiter(id, Selecting, Resolved(true)), Waiter(id, Selecting, Resolved(true)), None, [])
            && id in told.acked
  {
    hide JournalPath;
    assert Acknowledgement(Line(ROUTER_ACK_EVENT, Some(id), None)) == Some((id, true));
    assert Sender(0, 1) in [Sender(0, 1), Sender(1, 1)] && Sender(1, 1) in [Sender(0, 1), Sender(1, 1)];
  }

  lemma FirstTurns(s: State, id: string)
    requires Two(s, id, Waiter(id, Selecting, Resolved(true)), Waiter(id, Selecting, Resolved(true)), None, [])
    ensures var t := Apply(s, Advance(0, true));
            Two(t, id, Waiter(id, Removing, Resolved(true)), Waiter(id, Selecting, Resolved(true)), None, [])
            && t.acked == s.acked
  {
    hide JournalPath;
  }

  lemma SecondTurns(s: State, id: string)
    requires Two(s, id, Waiter(id, Removing, Resolved(true)), Waiter(id, Selecting, Resolved(true)), None, [])
    ensures var t := Apply(s, Advance(1, true));
            Two(t, id, Waiter(id, Removing, Resolved(true)), Waiter(id, Removing, Resolved(true)), None, [])
            && t.acked == s.acked
  {
    hide JournalPath;
  }

  lemma FirstDeletes(s: State, id: string)
    requires Two(s, id, Waiter(id, Removing, Resolved(true)), Waiter(id, Removing, Resolved(true)), None, [])
    ensures var t := Apply(s, Advance(0, true));
            && t.publishers == map[0 := Waiter(id, Returned(true), Resolved(true)), 1 := Waiter(id, Removing, Resolved(true))]
            && JournalPath(id) !in t.disk && t.acked == s.acked
  {
    hide JournalPath;
  }

  lemma SecondFails(s: State, id: string)
    requires s.publishers == map[0 := Waiter(id, Returned(true), Resolved(true)), 1 := Waiter(id, Removing, Resolved(true))]
    requires JournalPath(id) !in s.disk
    ensures var t := Apply(s, Advance(1, true));
            && t.publishers == map[0 := Waiter(id, Returned(true), Resolved(true)), 1 := Waiter(id, Returned(false), Resolved(true))]
            && t.acked == s.acked
  {
    hide JournalPath;
  }

  lemma FirstWaits(id: string)
    ensures var s := Run(Start(true), TwoPublishers(id)[..8]);
            && s.publishers == map[0 := Waiter(id, Selecting, Waiting)] && JournalPath(id) in s.disk && s.lock == None
            && Waiters(s.pending, id) == [Sender(0, 1)] && s.hasBridge
  {
    hide JournalPath;
    assert TwoPublishers(id)[..8] == LosingRun(id, id)[..8];
    LosingRunSends(id, id);
    OneRegistration(id);
  }

  lemma OneRegistration(id: string)
    ensures Waiters(Run(Start(true), LosingRun(id, id)[..8]).pending, id) == [Sender(0, 1)]
  {
    hide JournalPath;
    LosingRunJournals(id, id);
    RunPrefix(Start(true), LosingRun(id, id), 6);
    LosingRunRegisters(id, id);
    RunPrefix(Start(true), LosingRun(id, id), 7);
  }

  /** Both were acknowledged; the first deletes the file and returns Ok, the second finds none and
      returns an error, although its alert was delivered. */
  lemma SecondPublisherFails(id: string)
    requires id != ""
    ensures var s := Run(Start(true), TwoPublishers(id));
            && s.publishers == map[0 := Waiter(id, Returned(true), Resolved(true)), 1 := Waiter(id, Returned(false), Resolved(true))]
            && id in s.acked
  {
    hide JournalPath, Apply, Two, Waiters, Run;
    var r, s0 := TwoPublishers(id), Start(true);
    FirstWaits(id);
    RunPrefix(s0, r, 8);
    SecondPublishes(Run(s0, r[..8]), id);
    RunPrefix(s0, r, 9);
    SecondLocks(Run(s0, r[..9]), id);
    RunPrefix(s0, r, 10);
    SecondChecks(Run(s0, r[..10]), id);
    RunPrefix(s0, r, 11);
    SecondRegisters(Run(s0, r[..11]), id);
    RunPrefix(s0, r, 12);
    SecondSends(Run(s0, r[..12]), id);
    RunPrefix(s0, r, 13);
    BothAreTold(Run(s0, r[..13]), id);
    RunPrefix(s0, r, 14);
    FirstTurns(Run(s0, r[..14]), id);
    RunPrefix(s0, r, 15);
    SecondTurns(Run(s0, r[..15]), id);
    RunPrefix(s0, r, 16);
    FirstDeletes(Run(s0, r[..16]), id);
    RunPrefix(s0, r, 17);
    SecondFails(Run(s0, r[..17]), id);
    assert r[..18] == r;
  }

  // ---------------------------------------------------------------- when nothing is lost

  /** Exactly when the protocol keeps its promise: no run over the ids in `ids` loses an
      accepted alert if and only if no two of them share a journal file. */
  lemma {:induction false} NoAlertLostIff(ids: set<string>)
    ensures (forall actions, id :: PublishesOnly(actions, ids) ==> !Lost(Run(Start(true), actions), id))
            <==> PathsDistinct(ids)
  {
    if PathsDistinct(ids) {
      forall actions, id | PublishesOnly(actions, ids)
        ensures !Lost(Run(Start(true), actions), id)
      {
        NothingLost(true, actions, ids, id);
      }
    } else {
      var a, b :| a in ids && b in ids && JournalPath(a) == JournalPath(b) && a != b;
      if a != "" {
        LosingRunLoses(a, b);
        assert PublishesOnly(LosingRun(a, b), ids);
      } else {
        LosingRunLoses(b, a);
        assert PublishesOnly(LosingRun(b, a), ids);
      }
    }
  }

  /** Ids made by `CapAlert` all start with the prefix, so none of them share a file. */
  lemma {:induction false} CapAlertsAreNotLost(ids: set<string>, hasBridge: bool, actions: seq<Action>, id: string)
    requires forall i <- ids :: CAP_PREFIX <= i
    requires PublishesOnly(actions, ids)
    ensures !Lost(Run(Start(hasBridge), actions), id)
  {
    forall a, b | a in ids && b in ids && JournalPath(a) == JournalPath(b)
      ensures a == b
    {
      JournalPathCollision(a, b);
    }
    NothingLost(hasBridge, actions, ids, id);
  }
}
