/**
 The shared state of the CAP event publisher and the steps that change it
 (crates/haze-cap/src/bridge.rs:82-321): the journal directory, the journal lock and the map of
 acknowledgement channels, updated in place by publishers, by the acknowledgement reader and by
 a replay.  Each method is one step of the protocol; `CapBridge` proves what all runs keep.
 */
module CapPublisher {
  import opened Wrappers
  import opened CapBridge

  class EventPublisher {
    const hasBridge: bool
    var disk: map<string, File>
    var temp: map<string, File>
    var journalLock: Option<nat>
    var publishers: map<nat, Publisher>
    var pendingAcks: map<string, seq<Sender>>
    var replay: Replay
    ghost var published: set<string>
    ghost var journaled: set<string>
    ghost var acked: set<string>

    ghost function Now(): State
      reads this
    {
      State(hasBridge, disk, temp, journalLock, publishers, pendingAcks, replay, published, journaled, acked)
    }

    constructor (hasBridge: bool)
      ensures Now() == Start(hasBridge)
    {
      this.hasBridge := hasBridge;
      disk, temp, journalLock, publishers, pendingAcks := map[], map[], None, map[], map[];
      replay, published, journaled, acked := NotReplaying, {}, {}, {};
    }

    method PublishDurableAlert(pid: nat, event: Event)
      modifies this
      ensures Now() == Begin(old(Now()), pid, event)
    {
      var p := Admit(event, hasBridge);
      publishers := publishers[pid := p];
      if DeliveryId(event).Some? {
        published := published + {p.id};
      }
    }

    // ---------------------------------------------------------------- persist_journal

    method LockJournal(pid: nat)
      requires pid in publishers
      modifies this
      ensures Now() == TakeLock(old(Now()), pid)
    {
      if journalLock == None {
        journalLock := Some(pid);
        publishers := publishers[pid := publishers[pid].(pc := Checking)];
      }
    }

    /** Leaves `persist_journal`: the guard is dropped on every way out. */
    method LeaveJournal(pid: nat, ok: bool)
      requires pid in publishers
      modifies this
      ensures Now() == Unlock(old(Now()), pid, ok)
    {
      var p := publishers[pid];
      journalLock := None;
      if ok {
        journaled := journaled + {p.id};
        publishers := publishers[pid := p.(pc := Registering)];
      } else {
        publishers := publishers[pid := p.(pc := Returned(false))];
      }
    }

    method CheckJournal(pid: nat, ok: bool)
      requires pid in publishers
      modifies this
      ensures Now() == Check(old(Now()), pid, ok)
    {
      hide Unlock, JournalPath;
      if !ok || JournalPath(publishers[pid].id) in disk {
        LeaveJournal(pid, ok);
        return;
      }
      publishers := publishers[pid := publishers[pid].(pc := Creating)];
    }

    method WriteTemporary(pid: nat, ok: bool)
      requires pid in publishers
      modifies this
      ensures Now() == WriteTemp(old(Now()), pid, ok)
    {
      hide Unlock, JournalPath;
      if !ok {
        LeaveJournal(pid, false);
        return;
      }
      var p := publishers[pid];
      temp := temp[JournalPath(p.id) := File(p.event, p.pc.Writing?)];
      publishers := publishers[pid := p.(pc := if p.pc.Writing? then Renaming else Writing)];
    }

    method CommitJournal(pid: nat, ok: bool)
      requires pid in publishers
      modifies this
      ensures Now() == Commit(old(Now()), pid, ok)
    {
      hide Unlock, JournalPath;
      var path := JournalPath(publishers[pid].id);
      if !ok || path !in temp {
        LeaveJournal(pid, false);
        return;
      }
      disk := disk[path := temp[path]];
      temp := temp - {path};
      LeaveJournal(pid, true);
    }

    // ---------------------------------------------------------------- the wait loop

    method RegisterChannel(pid: nat)
      requires pid in publishers
      modifies this
      ensures Now() == Register(old(Now()), pid)
    {
      var p := publishers[pid];
      var waiters := if p.id in pendingAcks then pendingAcks[p.id] else [];
      pendingAcks := pendingAcks[p.id := waiters + [Sender(pid, p.epoch + 1)]];
      publishers := publishers[pid := p.(pc := Sending, epoch := p.epoch + 1, rx := Waiting)];
    }

    /** The write, then the select between the acknowledgement and the timer. */
    method SendOrSelect(pid: nat, acked: bool)
      requires pid in publishers
      modifies this
      ensures Now() == Select(old(Now()), pid, acked)
    {
      var p := publishers[pid];
      var next := p.pc;
      if p.pc.Sending? {
        next := Selecting;
      } else if !acked {
        next := Sending;
      } else if p.rx.Waiting? {
        next := Selecting;
      } else if p.rx == Resolved(true) {
        next := Removing;
      } else {
        next := Retrying;
      }
      publishers := publishers[pid := p.(pc := next)];
    }

    method RemoveJournal(pid: nat, ok: bool)
      requires pid in publishers
      modifies this
      ensures Now() == Remove(old(Now()), pid, ok)
    {
      hide JournalPath;
      var p := publishers[pid];
      var path := JournalPath(p.id);
      var removed := ok && path in disk;
      if removed {
        disk := disk - {path};
      }
      publishers := publishers[pid := p.(pc := Returned(removed))];
    }

    /** Sends `rx` down every channel, one after the other; a channel that its publisher has
        replaced reaches nobody. */
    method SendToAll(waiters: seq<Sender>, rx: Receiver)
      modifies this`publishers
      ensures publishers == Settle(old(publishers), waiters, rx)
    {
      var i := 0;
      while i < |waiters|
        invariant 0 <= i <= |waiters|
        invariant publishers == Settle(old(publishers), waiters[..i], rx)
      {
        var w := waiters[i];
        SettleOneMore(old(publishers), waiters, i, rx);
        if w.pid in publishers && publishers[w.pid].epoch == w.epoch {
          publishers := publishers[w.pid := publishers[w.pid].(rx := rx)];
        }
        i := i + 1;
      }
      assert waiters[..|waiters|] == waiters;
    }

    method TakeWaiters(id: string, rx: Receiver)
      modifies this
      ensures Now() == Notify(old(Now()), id, rx)
    {
      hide Settle;
      var waiters := if id in pendingAcks then pendingAcks[id] else [];
      pendingAcks := pendingAcks - {id};
      SendToAll(waiters, rx);
    }

    /** After a refusal or a closed channel: drops the id's channels and starts over. */
    method StartOver(pid: nat)
      requires pid in publishers
      modifies this
      ensures Now() == Retry(old(Now()), pid)
    {
      SettleKeeps(publishers, Waiters(pendingAcks, publishers[pid].id), Closed);
      hide Settle;
      TakeWaiters(publishers[pid].id, Closed);
      publishers := publishers[pid := publishers[pid].(pc := Registering)];
    }

    // ---------------------------------------------------------------- the reader and the replay

    method ReadLine(line: AckLine)
      modifies this
      ensures Now() == Read(old(Now()), line)
    {
      hide Notify;
      if line.NotJson? || line.eventType != ROUTER_ACK_EVENT {
        return;
      }
      if line.deliveryId.None? || line.deliveryId.value == "" {
        return;
      }
      var id := line.deliveryId.value;
      var status := if line.status.Some? then line.status.value else "committed";
      var committed := status == "committed" || status == "duplicate";
      if committed {
        acked := acked + {id};
      }
      TakeWaiters(id, Resolved(committed));
    }

    method ReplayNextFile(newPid: nat)
      modifies this
      ensures Now() == ReplayStep(old(Now()), newPid)
    {
      hide Begin;
      match replay {
        case Replaying(scan, next, current) =>
          if current.None? {
            if next >= |scan| {
              replay := Replayed(scan);
            } else if newPid !in publishers {
              var path := scan[next];
              if path !in disk || !disk[path].complete {
                replay := ReplayFailed;
              } else {
                PublishDurableAlert(newPid, disk[path].event);
                replay := Replaying(scan, next, Some(newPid));
              }
            }
          } else if current.value in publishers && publishers[current.value].pc.Returned? {
            replay := if publishers[current.value].pc.ok then Replaying(scan, next + 1, None) else ReplayFailed;
          }
        case _ =>
      }
    }

    // ---------------------------------------------------------------- schedules

    method AdvancePublisher(pid: nat, ok: bool)
      requires pid in publishers
      modifies this
      ensures Now() == Move(old(Now()), pid, ok)
    {
      hide TakeLock, Check, WriteTemp, Commit, Register, Select, Remove, Retry;
      match publishers[pid].pc {
        case Locking => LockJournal(pid);
        case Checking => CheckJournal(pid, ok);
        case Creating => WriteTemporary(pid, ok);
        case Writing => WriteTemporary(pid, ok);
        case Renaming => CommitJournal(pid, ok);
        case Registering => RegisterChannel(pid);
        case Sending => SendOrSelect(pid, ok);
        case Selecting => SendOrSelect(pid, ok);
        case Removing => RemoveJournal(pid, ok);
        case Retrying => StartOver(pid);
        case Returned(_) =>
      }
    }

    method Do(a: Action)
      modifies this
      ensures Now() == Apply(old(Now()), a)
    {
      hide Move, Read, ReplayStep, Begin;
      match a {
        case Publish(pid, event) =>
          if pid !in publishers {
            PublishDurableAlert(pid, event);
          }
        case Advance(pid, ok) =>
          if pid in publishers {
            AdvancePublisher(pid, ok);
          }
        case Receive(line) => ReadLine(line);
        case Crash =>
          journalLock, publishers, pendingAcks, replay := None, map[], map[], NotReplaying;
        case ReplayScan(order) =>
          if replay.NotReplaying? && (set path | path in order) == Listed(disk) {
            replay := Replaying(order, 0, None);
          }
        case ReplayNext(newPid) => ReplayNextFile(newPid);
      }
    }

    /** Any sequence of steps of any of them. */
    method RunAll(actions: seq<Action>)
      modifies this
      ensures Now() == Run(old(Now()), actions)
    {
      hide Apply;
      ghost var s := Now();
      var i := 0;
      while i < |actions|
        invariant 0 <= i <= |actions|
        invariant Now() == Run(s, actions[..i])
      {
        assert actions[..i + 1][..i] == actions[..i];
        Do(actions[i]);
        i := i + 1;
      }
      assert actions[..|actions|] == actions;
    }
  }

  lemma SettleOneMore(publishers: map<nat, Publisher>, waiters: seq<Sender>, i: nat, rx: Receiver)
    requires i < |waiters|
    ensures var w, before := waiters[i], Settle(publishers, waiters[..i], rx);
            Settle(publishers, waiters[..i + 1], rx) ==
            if w.pid in before && before[w.pid].epoch == w.epoch then before[w.pid := before[w.pid].(rx := rx)]
            else before
  {
    assert waiters[..i + 1] == waiters[..i] + [waiters[i]];
  }

  lemma SettleKeeps(publishers: map<nat, Publisher>, waiters: seq<Sender>, rx: Receiver)
    ensures Settle(publishers, waiters, rx).Keys == publishers.Keys
  {
  }
}
