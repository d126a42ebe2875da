/**
 Reconnecting the public WebRTC players (bundle/webroot/js/public.js:199-200, 1020-1037, 1143-1156,
 1278-1300, 1640-1652, 1749-1765, 1896-1997, 2081-2145, 2284-2312, 2427-2490).

 Player objects are named by numbers and live in `players` also after they were removed from
 `active`, because callbacks still hold them.  Timers are the browser's: a set of armed
 callbacks.  Everything the browser decides (connection states, statistics, whether a feed is
 offered) comes as events.
 */
module Reconnect {
  import opened Wrappers

  // ---------------------------------------------------------------- state

  datatype Player = Player(
    feed: string,
    stopping: bool,
    trackAttached: bool,
    reconnectTimer: Option<nat>,
    reconnectPending: bool,
    reconnectAttempts: nat,
    disconnectTimer: Option<nat>)

  datatype Timer = ReconnectTimer(player: nat) | DisconnectTimer(player: nat)

  /** A reconnect that was scheduled. */
  datatype Armed = Armed(feed: string, delay: nat)

  datatype Page = Page(
    players: map<nat, Player>,
    active: map<string, nat>,
    backoffs: map<string, nat>,
    timers: map<nat, Timer>,
    next: nat,
    armed: seq<Armed>)

  const EMPTY := Page(map[], map[], map[], map[], 0, [])

  // ---------------------------------------------------------------- delays

  function Pow2(n: nat): nat {
    if n == 0 then 1 else 2 * Pow2(n - 1)
  }

  const BASE_DELAY := 1000
  const MAX_DELAY := 10000

  function Delay(attempts: nat): nat {
    var d := BASE_DELAY * Pow2(attempts);
    if d < MAX_DELAY then d else MAX_DELAY
  }

  // ---------------------------------------------------------------- steps

  predicate IsActive(s: Page, p: nat) {
    p in s.players && s.players[p].feed in s.active && s.active[s.players[p].feed] == p
  }

  function Without(timers: map<nat, Timer>, t: Option<nat>): map<nat, Timer> {
    if t.Some? then timers - {t.value} else timers
  }

  /** `cancelWebRTCReconnect`. */
  function CancelReconnect(s: Page, p: nat): Page
    requires p in s.players
  {
    s.(timers := Without(s.timers, s.players[p].reconnectTimer),
       players := s.players[p := s.players[p].(reconnectTimer := None, reconnectPending := false)])
  }

  function ClearDisconnect(s: Page, p: nat): Page
    requires p in s.players
  {
    s.(timers := Without(s.timers, s.players[p].disconnectTimer),
       players := s.players[p := s.players[p].(disconnectTimer := None)])
  }

  /** The attempts that the next delay is computed from. */
  function Attempts(s: Page, p: nat): nat
    requires p in s.players
  {
    if s.players[p].feed in s.backoffs then s.backoffs[s.players[p].feed] else s.players[p].reconnectAttempts
  }

  function Arm(s: Page, p: nat): Page
    requires p in s.players
  {
    var feed := s.players[p].feed;
    var n := Attempts(s, p);
    Page(s.players[p := s.players[p].(reconnectTimer := Some(s.next), reconnectPending := true, reconnectAttempts := n + 1)],
         s.active, s.backoffs[feed := n + 1], s.timers[s.next := ReconnectTimer(p)], s.next + 1,
         s.armed + [Armed(feed, Delay(n))])
  }

  /** `scheduleWebRTCReconnect`. */
  function Schedule(s: Page, p: nat, force: bool): Page
    requires p in s.players
  {
    if !IsActive(s, p) || s.players[p].stopping then s
    else if force then Arm(CancelReconnect(s, p), p)
    else if s.players[p].reconnectPending || s.players[p].reconnectTimer.Some? then s
    else Arm(s, p)
  }

  /** `scheduleWebRTCDisconnectReconnect`. */
  function ScheduleDisconnect(s: Page, p: nat): Page
    requires p in s.players
  {
    var q := s.players[p];
    if !IsActive(s, p) || q.stopping then s
    else if q.disconnectTimer.Some? || q.reconnectPending || q.reconnectTimer.Some? then s
    else
      s.(players := s.players[p := q.(disconnectTimer := Some(s.next))],
         timers := s.timers[s.next := DisconnectTimer(p)], next := s.next + 1)
  }

  function Forget(s: Page, feed: string): Page {
    s.(backoffs := s.backoffs - {feed})
  }

  /** `stopFeed`. */
  function Stop(s: Page, feed: string, silent: bool): Page {
    var s1 := if silent then s else Forget(s, feed);
    if feed in s1.active && s1.active[feed] in s1.players then
      var p := s1.active[feed];
      var s2 := CancelReconnect(ClearDisconnect(s1, p), p);
      s2.(players := s2.players[p := s2.players[p].(stopping := true)], active := s2.active - {feed})
    else s1
  }

  /** The part of `startFeedWebRTC` before its first `await`. */
  function StartFeed(s: Page, feed: string, offered: bool, hasAudio: bool): Page {
    if feed == "" || !offered then s
    else if feed in s.active && s.active[feed] in s.players && s.players[s.active[feed]].trackAttached then s
    else
      var s1 := Stop(s, feed, true);
      if !hasAudio then s1
      else
        var n := if feed in s1.backoffs then s1.backoffs[feed] else 0;
        s1.(players := s1.players[s1.next := Player(feed, false, false, None, false, n, None)],
            active := s1.active[feed := s1.next], next := s1.next + 1)
  }

  /** `detachWebRTCPlayerForReconnect`, and the removal that follows it. */
  function Detach(s: Page, p: nat): Page
    requires IsActive(s, p)
  {
    var s1 := ClearDisconnect(s, p);
    s1.(players := s1.players[p := s1.players[p].(trackAttached := false)],
        active := s1.active - {s1.players[p].feed})
  }

  /** The callback of a reconnect timer. */
  function FireReconnect(s: Page, p: nat, offered: bool, hasAudio: bool): Page
    requires p in s.players
  {
    var s1 := s.(players := s.players[p := s.players[p].(reconnectTimer := None, reconnectPending := false)]);
    if !IsActive(s1, p) || s1.players[p].stopping then s1
    else StartFeed(Detach(s1, p), s1.players[p].feed, offered, hasAudio)
  }

  /** The callback of a disconnect timer. */
  function FireDisconnect(s: Page, p: nat, disconnected: bool, stale: bool): Page
    requires p in s.players
  {
    var s1 := s.(players := s.players[p := s.players[p].(disconnectTimer := None)]);
    if !IsActive(s1, p) || !disconnected then s1
    else if !stale then ScheduleDisconnect(s1, p)
    else Schedule(s1, p, false)
  }

  /** `markWebRTCPacketsRecent`, also for a player that was replaced in the meantime. */
  function MarkRecent(s: Page, p: nat): Page
    requires p in s.players
  {
    var s1 := Forget(s.(players := s.players[p := s.players[p].(reconnectAttempts := 0)]), s.players[p].feed);
    ClearDisconnect(CancelReconnect(s1, p), p)
  }

  datatype Event =
    | UserStarts(feed: string, offered: bool, hasAudio: bool)
    | UserStops(feed: string)
    | StopsSilently(feed: string)
    | PreferencesChange(feed: string, stop: bool)
    | TrackArrives(player: nat)
    | PacketsArrive(player: nat)
    | Healthy(player: nat)
    | ConnectionFails(player: nat)
    | CodecFallsBack(player: nat)
    | ConnectionDrops(player: nat)
    | TimerFires(timer: nat, disconnected: bool, stale: bool, offered: bool, hasAudio: bool)

  function Apply(s: Page, e: Event): Page {
    match e
    case UserStarts(feed, offered, hasAudio) => StartFeed(s, feed, offered, hasAudio)
    case UserStops(feed) => Stop(s, feed, false)
    case StopsSilently(feed) => Stop(s, feed, true)
    case PreferencesChange(feed, stop) => if stop then Stop(Forget(s, feed), feed, true) else Forget(s, feed)
    case TrackArrives(p) =>
      if p in s.players then s.(players := s.players[p := s.players[p].(trackAttached := true)]) else s
    case PacketsArrive(p) => if p in s.players then MarkRecent(s, p) else s
    case Healthy(p) => if p in s.players then ClearDisconnect(CancelReconnect(s, p), p) else s
    case ConnectionFails(p) => if p in s.players then Schedule(s, p, false) else s
    case CodecFallsBack(p) => if p in s.players then Schedule(s, p, true) else s
    case ConnectionDrops(p) => if p in s.players then ScheduleDisconnect(s, p) else s
    case TimerFires(t, disconnected, stale, offered, hasAudio) =>
      if t !in s.timers || s.timers[t].player !in s.players then s
      else
        var s1 := s.(timers := s.timers - {t});
        match s.timers[t]
        case ReconnectTimer(p) => FireReconnect(s1, p, offered, hasAudio)
        case DisconnectTimer(p) => FireDisconnect(s1, p, disconnected, stale)
  }

  function Run(s: Page, events: seq<Event>): Page
    decreases |events|
  {
    if events == [] then s else Apply(Run(s, events[..|events| - 1]), events[|events| - 1])
  }

  // ---------------------------------------------------------------- the page itself

  class PublicPage {
    var players: map<nat, Player>
    var feedPlayers: map<string, nat>
    var feedReconnectBackoffs: map<string, nat>
    var timers: map<nat, Timer>
    var next: nat
    var armed: seq<Armed>

    ghost function State(): Page
      reads this
    {
      Page(players, feedPlayers, feedReconnectBackoffs, timers, next, armed)
    }

    constructor ()
      ensures State() == EMPTY
    {
      players, feedPlayers, feedReconnectBackoffs, timers, next, armed := map[], map[], map[], map[], 0, [];
    }

    /** `window.setTimeout`. */
    method SetTimeout(timer: Timer) returns (t: nat)
      modifies this`timers, this`next
      ensures t == old(next) && next == old(next) + 1 && timers == old(timers)[t := timer]
    {
      t := next;
      timers := timers[t := timer];
      next := next + 1;
    }

    method ClearReconnectTimer(p: nat)
      requires p in players
      modifies this
      ensures State() == CancelReconnect(old(State()), p)
    {
      var player := players[p];
      if player.reconnectTimer.Some? {
        timers := timers - {player.reconnectTimer.value};
      }
      players := players[p := player.(reconnectTimer := None, reconnectPending := false)];
    }

    method ClearDisconnectTimer(p: nat)
      requires p in players
      modifies this
      ensures State() == ClearDisconnect(old(State()), p)
    {
      var player := players[p];
      if player.disconnectTimer.Some? {
        timers := timers - {player.disconnectTimer.value};
      }
      players := players[p := player.(disconnectTimer := None)];
    }

    method ScheduleReconnect(p: nat, force: bool)
      requires p in players
      modifies this
      ensures State() == Schedule(old(State()), p, force)
    {
      var feed := players[p].feed;
      if feed !in feedPlayers || feedPlayers[feed] != p || players[p].stopping {
        return;
      }
      if force {
        ClearReconnectTimer(p);
      } else if players[p].reconnectPending || players[p].reconnectTimer.Some? {
        return;
      }
      var attempts := if feed in feedReconnectBackoffs then feedReconnectBackoffs[feed]
                      else players[p].reconnectAttempts;
      feedReconnectBackoffs := feedReconnectBackoffs[feed := attempts + 1];
      armed := armed + [Armed(feed, Delay(attempts))];
      var t := SetTimeout(ReconnectTimer(p));
      players := players[p := players[p].(reconnectTimer := Some(t), reconnectPending := true,
                                          reconnectAttempts := attempts + 1)];
    }

    method ScheduleDisconnectReconnect(p: nat)
      requires p in players
      modifies this
      ensures State() == ScheduleDisconnect(old(State()), p)
    {
      var player := players[p];
      if player.feed !in feedPlayers || feedPlayers[player.feed] != p || player.stopping {
        return;
      }
      if player.disconnectTimer.Some? || player.reconnectPending || player.reconnectTimer.Some? {
        return;
      }
      var t := SetTimeout(DisconnectTimer(p));
      players := players[p := player.(disconnectTimer := Some(t))];
    }

    method StopFeed(feed: string, silent: bool)
      modifies this
      ensures State() == Stop(old(State()), feed, silent)
    {
      if !silent {
        feedReconnectBackoffs := feedReconnectBackoffs - {feed};
      }
      if feed in feedPlayers && feedPlayers[feed] in players {
        var p := feedPlayers[feed];
        ClearDisconnectTimer(p);
        ClearReconnectTimer(p);
        players := players[p := players[p].(stopping := true)];
        feedPlayers := feedPlayers - {feed};
      }
    }

    method StartFeedWebRTC(feed: string, offered: bool, hasAudio: bool)
      modifies this
      ensures State() == StartFeed(old(State()), feed, offered, hasAudio)
    {
      hide Stop;
      if feed == "" || !offered {
        return;
      }
      if feed in feedPlayers && feedPlayers[feed] in players && players[feedPlayers[feed]].trackAttached {
        return;
      }
      StopFeed(feed, true);
      if !hasAudio {
        return;
      }
      var attempts := if feed in feedReconnectBackoffs then feedReconnectBackoffs[feed] else 0;
      players := players[next := Player(feed, false, false, None, false, attempts, None)];
      feedPlayers := feedPlayers[feed := next];
      next := next + 1;
    }

    method OnReconnectTimer(p: nat, offered: bool, hasAudio: bool)
      requires p in players
      modifies this
      ensures State() == FireReconnect(old(State()), p, offered, hasAudio)
    {
      hide StartFeed;
      players := players[p := players[p].(reconnectTimer := None, reconnectPending := false)];
      var feed := players[p].feed;
      if feed !in feedPlayers || feedPlayers[feed] != p || players[p].stopping {
        return;
      }
      ClearDisconnectTimer(p);
      players := players[p := players[p].(trackAttached := false)];
      feedPlayers := feedPlayers - {feed};
      StartFeedWebRTC(feed, offered, hasAudio);
    }

    method OnDisconnectTimer(p: nat, disconnected: bool, stale: bool)
      requires p in players
      modifies this
      ensures State() == FireDisconnect(old(State()), p, disconnected, stale)
    {
      hide Schedule, ScheduleDisconnect;
      players := players[p := players[p].(disconnectTimer := None)];
      var feed := players[p].feed;
      if feed in feedPlayers && feedPlayers[feed] == p && disconnected {
        if !stale {
          ScheduleDisconnectReconnect(p);
          return;
        }
        ScheduleReconnect(p, false);
      }
    }

    method MarkPacketsRecent(p: nat)
      requires p in players
      modifies this
      ensures State() == MarkRecent(old(State()), p)
    {
      var feed := players[p].feed;
      players := players[p := players[p].(reconnectAttempts := 0)];
      feedReconnectBackoffs := feedReconnectBackoffs - {feed};
      ClearReconnectTimer(p);
      ClearDisconnectTimer(p);
    }

    method OnPreferences(feed: string, stop: bool)
      modifies this
      ensures State() == Apply(old(State()), PreferencesChange(feed, stop))
    {
      hide Stop;
      feedReconnectBackoffs := feedReconnectBackoffs - {feed};
      if stop {
        StopFeed(feed, true);
      }
    }

    /** The browser runs an armed callback, once. */
    method OnTimer(t: nat, disconnected: bool, stale: bool, offered: bool, hasAudio: bool)
      modifies this
      ensures State() == Apply(old(State()), TimerFires(t, disconnected, stale, offered, hasAudio))
    {
      hide FireReconnect, FireDisconnect;
      if t !in timers || timers[t].player !in players {
        return;
      }
      var timer := timers[t];
      timers := timers - {t};
      match timer {
        case ReconnectTimer(p) => OnReconnectTimer(p, offered, hasAudio);
        case DisconnectTimer(p) => OnDisconnectTimer(p, disconnected, stale);
      }
    }

    method OnHealthy(p: nat)
      requires p in players
      modifies this
      ensures State() == ClearDisconnect(CancelReconnect(old(State()), p), p)
    {
      ClearReconnectTimer(p);
      ClearDisconnectTimer(p);
    }

    method Handle(e: Event)
      modifies this
      ensures State() == Apply(old(State()), e)
    {
      hide StartFeed, Stop, Schedule, ScheduleDisconnect, MarkRecent, FireReconnect, FireDisconnect, CancelReconnect, ClearDisconnect;
      match e {
        case UserStarts(feed, offered, hasAudio) => StartFeedWebRTC(feed, offered, hasAudio);
        case UserStops(feed) => StopFeed(feed, false);
        case StopsSilently(feed) => StopFeed(feed, true);
        case PreferencesChange(feed, stop) => OnPreferences(feed, stop);
        case TrackArrives(p) =>
          if p in players {
            players := players[p := players[p].(trackAttached := true)];
          }
        case PacketsArrive(p) => if p in players { MarkPacketsRecent(p); }
        case Healthy(p) => if p in players { OnHealthy(p); }
        case ConnectionFails(p) => if p in players { ScheduleReconnect(p, false); }
        case CodecFallsBack(p) => if p in players { ScheduleReconnect(p, true); }
        case ConnectionDrops(p) => if p in players { ScheduleDisconnectReconnect(p); }
        case TimerFires(t, disconnected, stale, offered, hasAudio) => OnTimer(t, disconnected, stale, offered, hasAudio);
      }
    }

    /** A fresh page through any sequence of events. */
    method RunAll(events: seq<Event>)
      requires State() == EMPTY
      modifies this
      ensures State() == Run(EMPTY, events)
    {
      hide Apply;
      var i := 0;
      while i < |events|
        invariant 0 <= i <= |events| && State() == Run(EMPTY, events[..i])
      {
        assert events[..i + 1][..i] == events[..i];
        Handle(events[i]);
        i := i + 1;
      }
      assert events[..|events|] == events;
    }
  }

  // ---------------------------------------------------------------- the invariant

  predicate PlayerOk(s: Page, p: nat)
    requires p in s.players
  {
    var q := s.players[p];
    && p < s.next
    && (q.reconnectPending <==> q.reconnectTimer.Some?)
    && (q.reconnectTimer.Some? ==>
          IsActive(s, p) && q.reconnectTimer.value in s.timers
          && s.timers[q.reconnectTimer.value] == ReconnectTimer(p))
    && (q.disconnectTimer.Some? ==>
          IsActive(s, p) && q.disconnectTimer.value in s.timers
          && s.timers[q.disconnectTimer.value] == DisconnectTimer(p))
    && (IsActive(s, p) ==> !q.stopping)
  }

  predicate TimerOk(s: Page, t: nat)
    requires t in s.timers
  {
    && t < s.next
    && match s.timers[t]
       case ReconnectTimer(p) => p in s.players && s.players[p].reconnectTimer == Some(t)
       case DisconnectTimer(p) => p in s.players && s.players[p].disconnectTimer == Some(t)
  }

  predicate ActiveOk(s: Page, feed: string)
    requires feed in s.active
  {
    s.active[feed] in s.players && s.players[s.active[feed]].feed == feed
  }

  /** The backoff of a feed is what its live player has counted. */
  predicate BackoffOk(s: Page, feed: string)
    requires feed in s.backoffs
  {
    && s.backoffs[feed] >= 1
    && (feed in s.active && s.active[feed] in s.players ==>
          s.players[s.active[feed]].reconnectAttempts == s.backoffs[feed])
  }

  predicate Inv(s: Page) {
    && (forall p <- s.players :: PlayerOk(s, p))
    && (forall t <- s.timers :: TimerOk(s, t))
    && (forall feed <- s.active :: ActiveOk(s, feed))
    && (forall feed <- s.backoffs :: BackoffOk(s, feed))
  }

  lemma CancelKeepsInv(s: Page, p: nat)
    requires Inv(s) && p in s.players
    ensures Inv(CancelReconnect(s, p))
  {
    var s1 := CancelReconnect(s, p);
    assert PlayerOk(s, p);
    forall q | q in s1.players
      ensures PlayerOk(s1, q)
    {
      assert PlayerOk(s, q);
    }
    forall t | t in s1.timers
      ensures TimerOk(s1, t)
    {
      assert TimerOk(s, t);
    }
    forall feed | feed in s1.active
      ensures ActiveOk(s1, feed)
    {
      assert ActiveOk(s, feed);
    }
    forall feed | feed in s1.backoffs
      ensures BackoffOk(s1, feed)
    {
      assert BackoffOk(s, feed);
    }
  }

  lemma ClearDisconnectKeepsInv(s: Page, p: nat)
    requires Inv(s) && p in s.players
    ensures Inv(ClearDisconnect(s, p))
  {
    var s1 := ClearDisconnect(s, p);
    assert PlayerOk(s, p);
    forall q | q in s1.players
      ensures PlayerOk(s1, q)
    {
      assert PlayerOk(s, q);
    }
    forall t | t in s1.timers
      ensures TimerOk(s1, t)
    {
      assert TimerOk(s, t);
    }
    forall feed | feed in s1.active
      ensures ActiveOk(s1, feed)
    {
      assert ActiveOk(s, feed);
    }
    forall feed | feed in s1.backoffs
      ensures BackoffOk(s1, feed)
    {
      assert BackoffOk(s, feed);
    }
  }

  lemma ArmKeepsInv(s: Page, p: nat)
    requires Inv(s) && IsActive(s, p) && s.players[p].reconnectTimer.None?
    ensures Inv(Arm(s, p))
  {
    var s1 := Arm(s, p);
    hide Delay;
    assert PlayerOk(s, p);
    forall q | q in s1.players
      ensures PlayerOk(s1, q)
    {
      assert PlayerOk(s, q);
      assert forall t <- s.timers :: TimerOk(s, t) ==> t < s.next;
    }
    forall t | t in s1.timers
      ensures TimerOk(s1, t)
    {
      if t in s.timers {
        assert TimerOk(s, t);
      }
    }
    forall feed | feed in s1.active
      ensures ActiveOk(s1, feed)
    {
      assert ActiveOk(s, feed);
    }
    forall feed | feed in s1.backoffs
      ensures BackoffOk(s1, feed)
    {
      if feed in s.backoffs {
        assert BackoffOk(s, feed);
      }
      if feed in s.active {
        assert ActiveOk(s, feed);
      }
    }
  }

  lemma ScheduleKeepsInv(s: Page, p: nat, force: bool)
    requires Inv(s) && p in s.players
    ensures Inv(Schedule(s, p, force))
  {
    assert PlayerOk(s, p);
    CancelKeepsInv(s, p);
    hide Inv, Arm;
    if IsActive(s, p) && !s.players[p].stopping {
      if force {
        ArmKeepsInv(CancelReconnect(s, p), p);
      } else if s.players[p].reconnectTimer.None? {
        ArmKeepsInv(s, p);
      }
    }
  }

  lemma ScheduleDisconnectKeepsInv(s: Page, p: nat)
    requires Inv(s) && p in s.players
    ensures Inv(ScheduleDisconnect(s, p))
  {
    var s1 := ScheduleDisconnect(s, p);
    assert PlayerOk(s, p);
    forall q | q in s1.players
      ensures PlayerOk(s1, q)
    {
      assert PlayerOk(s, q);
      assert forall t <- s.timers :: TimerOk(s, t) ==> t < s.next;
    }
    forall t | t in s1.timers
      ensures TimerOk(s1, t)
    {
      if t in s.timers {
        assert TimerOk(s, t);
      }
    }
    forall feed | feed in s1.active
      ensures ActiveOk(s1, feed)
    {
      assert ActiveOk(s, feed);
    }
    forall feed | feed in s1.backoffs
      ensures BackoffOk(s1, feed)
    {
      assert BackoffOk(s, feed);
    }
  }

  lemma ForgetKeepsInv(s: Page, feed: string)
    requires Inv(s)
    ensures Inv(Forget(s, feed))
  {
    var s1 := Forget(s, feed);
    assert forall p <- s.players :: PlayerOk(s, p) ==> PlayerOk(s1, p);
    assert forall t <- s.timers :: TimerOk(s, t) ==> TimerOk(s1, t);
    assert forall f <- s.active :: ActiveOk(s, f) ==> ActiveOk(s1, f);
    assert forall f <- s1.backoffs :: BackoffOk(s, f) ==> BackoffOk(s1, f);
  }

  /** A player whose timers are clear can leave `active`; what else changes of it is free. */
  lemma LeavingKeepsInv(s: Page, p: nat, stopping: bool, attached: bool)
    requires Inv(s) && IsActive(s, p)
    requires s.players[p].reconnectTimer.None? && s.players[p].disconnectTimer.None?
    ensures Inv(s.(players := s.players[p := s.players[p].(stopping := stopping, trackAttached := attached)],
                   active := s.active - {s.players[p].feed}))
  {
    var s1 := s.(players := s.players[p := s.players[p].(stopping := stopping, trackAttached := attached)],
                 active := s.active - {s.players[p].feed});
    forall q | q in s1.players
      ensures PlayerOk(s1, q)
    {
      assert PlayerOk(s, q) && PlayerOk(s, p);
    }
    forall t | t in s1.timers
      ensures TimerOk(s1, t)
    {
      assert TimerOk(s, t);
    }
    forall feed | feed in s1.active
      ensures ActiveOk(s1, feed)
    {
      assert ActiveOk(s, feed);
    }
    forall feed | feed in s1.backoffs
      ensures BackoffOk(s1, feed)
    {
      assert BackoffOk(s, feed);
    }
  }

  lemma StopKeepsInv(s: Page, feed: string, silent: bool)
    requires Inv(s)
    ensures Inv(Stop(s, feed, silent))
  {
    ForgetKeepsInv(s, feed);
    var s1 := if silent then s else Forget(s, feed);
    if feed in s1.active {
      assert ActiveOk(s1, feed);
      var p := s1.active[feed];
      ClearDisconnectKeepsInv(s1, p);
      CancelKeepsInv(ClearDisconnect(s1, p), p);
      hide Inv;
      var s2 := CancelReconnect(ClearDisconnect(s1, p), p);
      LeavingKeepsInv(s2, p, true, s2.players[p].trackAttached);
    }
  }

  lemma NewPlayerKeepsInv(s: Page, feed: string)
    requires Inv(s) && feed !in s.active
    ensures var n := if feed in s.backoffs then s.backoffs[feed] else 0;
            Inv(s.(players := s.players[s.next := Player(feed, false, false, None, false, n, None)],
                   active := s.active[feed := s.next], next := s.next + 1))
  {
    var n := if feed in s.backoffs then s.backoffs[feed] else 0;
    var s1 := s.(players := s.players[s.next := Player(feed, false, false, None, false, n, None)],
                 active := s.active[feed := s.next], next := s.next + 1);
    assert forall q <- s.players :: PlayerOk(s, q) ==> q < s.next;
    forall q | q in s1.players
      ensures PlayerOk(s1, q)
    {
      if q in s.players {
        assert PlayerOk(s, q);
      }
    }
    forall t | t in s1.timers
      ensures TimerOk(s1, t)
    {
      assert TimerOk(s, t);
    }
    forall f | f in s1.active
      ensures ActiveOk(s1, f)
    {
      if f != feed {
        assert ActiveOk(s, f);
      }
    }
    forall f | f in s1.backoffs
      ensures BackoffOk(s1, f)
    {
      assert BackoffOk(s, f);
      if f in s.active {
        assert ActiveOk(s, f);
      }
    }
  }

  lemma StopLeaves(s: Page, feed: string, silent: bool)
    requires Inv(s)
    ensures feed !in Stop(s, feed, silent).active
  {
    if feed in s.active {
      assert ActiveOk(s, feed);
    }
    hide Inv;
  }

  lemma StartKeepsInv(s: Page, feed: string, offered: bool, hasAudio: bool)
    requires Inv(s)
    ensures Inv(StartFeed(s, feed, offered, hasAudio))
  {
    StopKeepsInv(s, feed, true);
    StopLeaves(s, feed, true);
    NewPlayerKeepsInv(Stop(s, feed, true), feed);
    hide Inv, Stop;
  }

  lemma MarkKeepsInv(s: Page, p: nat)
    requires Inv(s) && p in s.players
    ensures Inv(MarkRecent(s, p))
  {
    ForgetKeepsInv(s, s.players[p].feed);
    var s1 := Forget(s, s.players[p].feed);
    assert forall f <- s.active :: ActiveOk(s, f);
    CountIsFree(s1, p, 0);
    var s2 := Forget(s.(players := s.players[p := s.players[p].(reconnectAttempts := 0)]), s.players[p].feed);
    assert s2 == s1.(players := s1.players[p := s1.players[p].(reconnectAttempts := 0)]);
    CancelKeepsInv(s2, p);
    ClearDisconnectKeepsInv(CancelReconnect(s2, p), p);
    hide Inv;
  }

  /** Without an entry in the backoffs, the count of a player is free. */
  lemma CountIsFree(s: Page, p: nat, n: nat)
    requires Inv(s) && p in s.players && s.players[p].feed !in s.backoffs
    ensures Inv(s.(players := s.players[p := s.players[p].(reconnectAttempts := n)]))
  {
    var s1 := s.(players := s.players[p := s.players[p].(reconnectAttempts := n)]);
    forall q | q in s1.players
      ensures PlayerOk(s1, q)
    {
      assert PlayerOk(s, q);
    }
    forall t | t in s1.timers
      ensures TimerOk(s1, t)
    {
      assert TimerOk(s, t);
    }
    forall f | f in s1.active
      ensures ActiveOk(s1, f)
    {
      assert ActiveOk(s, f);
    }
    forall f | f in s1.backoffs
      ensures BackoffOk(s1, f)
    {
      assert BackoffOk(s, f);
      if f in s.active {
        assert ActiveOk(s, f);
      }
    }
  }

  lemma AttachKeepsInv(s: Page, p: nat)
    requires Inv(s) && p in s.players
    ensures Inv(s.(players := s.players[p := s.players[p].(trackAttached := true)]))
  {
    var s1 := s.(players := s.players[p := s.players[p].(trackAttached := true)]);
    forall q | q in s1.players
      ensures PlayerOk(s1, q)
    {
      assert PlayerOk(s, q);
    }
    forall t | t in s1.timers
      ensures TimerOk(s1, t)
    {
      assert TimerOk(s, t);
    }
    forall f | f in s1.active
      ensures ActiveOk(s1, f)
    {
      assert ActiveOk(s, f);
    }
    forall f | f in s1.backoffs
      ensures BackoffOk(s1, f)
    {
      assert BackoffOk(s, f);
    }
  }

  /** A reconnect timer that fires finds its player live: it always replaces it. */
  lemma FiringReconnects(s: Page, t: nat, p: nat, offered: bool, hasAudio: bool)
    requires Inv(s) && t in s.timers && s.timers[t] == ReconnectTimer(p)
    ensures p in s.players && IsActive(s, p) && !s.players[p].stopping
    ensures IsActive(CancelReconnect(s, p), p)
    ensures FireReconnect(s.(timers := s.timers - {t}), p, offered, hasAudio)
            == StartFeed(Detach(CancelReconnect(s, p), p), s.players[p].feed, offered, hasAudio)
  {
    assert TimerOk(s, t);
    assert PlayerOk(s, p);
    hide Inv, StartFeed, Detach;
  }

  lemma FireReconnectKeepsInv(s: Page, t: nat, p: nat, offered: bool, hasAudio: bool)
    requires Inv(s) && t in s.timers && s.timers[t] == ReconnectTimer(p) && p in s.players
    ensures Inv(FireReconnect(s.(timers := s.timers - {t}), p, offered, hasAudio))
  {
    FiringReconnects(s, t, p, offered, hasAudio);
    CancelKeepsInv(s, p);
    var s1 := CancelReconnect(s, p);
    ClearDisconnectKeepsInv(s1, p);
    hide Inv, StartFeed, FireReconnect;
    LeavingKeepsInv(ClearDisconnect(s1, p), p, s.players[p].stopping, false);
    StartKeepsInv(Detach(s1, p), s.players[p].feed, offered, hasAudio);
  }

  lemma FireDisconnectKeepsInv(s: Page, t: nat, p: nat, disconnected: bool, stale: bool)
    requires Inv(s) && t in s.timers && s.timers[t] == DisconnectTimer(p) && p in s.players
    ensures Inv(FireDisconnect(s.(timers := s.timers - {t}), p, disconnected, stale))
  {
    assert TimerOk(s, t);
    ClearDisconnectKeepsInv(s, p);
    hide Inv, Schedule, ScheduleDisconnect;
    ScheduleKeepsInv(ClearDisconnect(s, p), p, false);
    ScheduleDisconnectKeepsInv(ClearDisconnect(s, p), p);
  }

  lemma ApplyKeepsInv(s: Page, e: Event)
    requires Inv(s)
    ensures Inv(Apply(s, e))
  {
    hide Inv, StartFeed, Stop, Schedule, ScheduleDisconnect, MarkRecent, FireReconnect, FireDisconnect,
      CancelReconnect, ClearDisconnect, Forget;
    match e {
      case UserStarts(feed, offered, hasAudio) => StartKeepsInv(s, feed, offered, hasAudio);
      case UserStops(feed) => StopKeepsInv(s, feed, false);
      case StopsSilently(feed) => StopKeepsInv(s, feed, true);
      case PreferencesChange(feed, stop) => ForgetKeepsInv(s, feed); StopKeepsInv(Forget(s, feed), feed, true);
      case TrackArrives(p) => if p in s.players { AttachKeepsInv(s, p); }
      case PacketsArrive(p) => if p in s.players { MarkKeepsInv(s, p); }
      case Healthy(p) =>
        if p in s.players {
          CancelKeepsInv(s, p);
          assert p in CancelReconnect(s, p).players by { KeepsPlayers(s, p); }
          ClearDisconnectKeepsInv(CancelReconnect(s, p), p);
        }
      case ConnectionFails(p) => if p in s.players { ScheduleKeepsInv(s, p, false); }
      case CodecFallsBack(p) => if p in s.players { ScheduleKeepsInv(s, p, true); }
      case ConnectionDrops(p) => if p in s.players { ScheduleDisconnectKeepsInv(s, p); }
      case TimerFires(t, disconnected, stale, offered, hasAudio) =>
        if t in s.timers && s.timers[t].player in s.players {
          if s.timers[t].ReconnectTimer? {
            FireReconnectKeepsInv(s, t, s.timers[t].player, offered, hasAudio);
          } else {
            FireDisconnectKeepsInv(s, t, s.timers[t].player, disconnected, stale);
          }
        }
    }
  }

  lemma KeepsPlayers(s: Page, p: nat)
    requires p in s.players
    ensures p in CancelReconnect(s, p).players
  {
  }

  /** Over every run: a reconnect is pending exactly when its timer is set, only live players own
      timers, and every armed timer belongs to the player it names. */
  lemma {:induction false} RunKeepsInv(events: seq<Event>)
    ensures Inv(Run(EMPTY, events))
    ensures var s := Run(EMPTY, events);
            forall p <- s.players ::
              && (s.players[p].reconnectPending <==> s.players[p].reconnectTimer.Some?)
              && (!IsActive(s, p) ==> s.players[p].reconnectTimer.None? && s.players[p].disconnectTimer.None?)
    decreases |events|
  {
    hide Apply;
    if events != [] {
      RunKeepsInv(events[..|events| - 1]);
      hide Inv;
      ApplyKeepsInv(Run(EMPTY, events[..|events| - 1]), events[|events| - 1]);
    }
    InvOwnsTimers(Run(EMPTY, events));
  }

  lemma InvOwnsTimers(s: Page)
    requires Inv(s)
    ensures forall p <- s.players ::
              && (s.players[p].reconnectPending <==> s.players[p].reconnectTimer.Some?)
              && (!IsActive(s, p) ==> s.players[p].reconnectTimer.None? && s.players[p].disconnectTimer.None?)
  {
    forall p | p in s.players
      ensures (s.players[p].reconnectPending <==> s.players[p].reconnectTimer.Some?)
      ensures !IsActive(s, p) ==> s.players[p].reconnectTimer.None? && s.players[p].disconnectTimer.None?
    {
      assert PlayerOk(s, p);
    }
  }

  // ---------------------------------------------------------------- the backoff outlives its players

  function Level(s: Page, feed: string): nat {
    if feed in s.backoffs then s.backoffs[feed] else 0
  }

  /** The attempts that the next delay of a feed will be computed from. */
  function NextAttempts(s: Page, feed: string): nat {
    if feed in s.active && s.active[feed] in s.players && s.players[s.active[feed]].feed == feed
    then Attempts(s, s.active[feed])
    else Level(s, feed)
  }

  /** Audio packets, a change of preferences or a stop by the user: each deletes the backoff. */
  predicate Resets(s: Page, e: Event, feed: string) {
    match e
    case UserStops(f) => f == feed
    case PreferencesChange(f, _) => f == feed
    case PacketsArrive(p) => p in s.players && s.players[p].feed == feed
    case _ => false
  }

  /** The event scheduled a reconnect of the feed. */
  predicate Arms(s: Page, e: Event, feed: string) {
    |Apply(s, e).armed| > |s.armed| && Apply(s, e).armed[|s.armed|].feed == feed
  }

  /** The live player of the feed is another one, or there is none any more. */
  predicate LiveChanges(s: Page, s1: Page, feed: string) {
    feed in s.active && (feed in s1.active ==> s1.active[feed] != s.active[feed])
  }

  /** A reset that reaches the live player, or finds none: a stop, packets of that player, or any
      reset without one. */
  predicate ResetsLive(s: Page, e: Event, feed: string) {
    Resets(s, e, feed)
    && match e
       case UserStops(_) => true
       case PreferencesChange(_, stop) => stop || feed !in s.active
       case PacketsArrive(p) => IsActive(s, p) || feed !in s.active
       case _ => false
  }

  /** A reset takes effect at once when it reaches the live player; one that only deleted the
      backoff behind it takes effect when that player goes, unless it scheduled again before. */
  predicate TakesEffect(s: Page, e: Event, feed: string) {
    ResetsLive(s, e, feed) || (feed !in s.backoffs && LiveChanges(s, Apply(s, e), feed))
  }

  /** Schedules of the feed since a reset of it last took effect. */
  function Since(events: seq<Event>, feed: string): nat
    decreases |events|
  {
    if events == [] then 0
    else
      var front, e := events[..|events| - 1], events[|events| - 1];
      var s := Run(EMPTY, front);
      if TakesEffect(s, e, feed) then 0
      else if Arms(s, e, feed) then Since(front, feed) + 1
      else Since(front, feed)
  }

  /** The step scheduled one reconnect of the feed, and counted it. */
  predicate CountsOne(s: Page, s1: Page, feed: string) {
    && s1.armed == s.armed + [Armed(feed, Delay(NextAttempts(s, feed)))]
    && s1.backoffs == s.backoffs[feed := NextAttempts(s, feed) + 1]
  }

  lemma ScheduleCounts(s: Page, p: nat, force: bool)
    requires Inv(s) && p in s.players
    ensures var s1 := Schedule(s, p, force);
            Counted(s, s1, s.players[p].feed)
  {
    hide Delay, Inv;
  }

  lemma StopCounts(s: Page, feed: string, silent: bool)
    ensures var s1 := Stop(s, feed, silent);
            s1.armed == s.armed && s1.backoffs == if silent then s.backoffs else s.backoffs - {feed}
  {
  }

  lemma StartCounts(s: Page, feed: string, offered: bool, hasAudio: bool)
    ensures var s1 := StartFeed(s, feed, offered, hasAudio); s1.armed == s.armed && s1.backoffs == s.backoffs
  {
    StopCounts(s, feed, true);
    hide Stop;
  }

  /** These events schedule nothing; only the resets touch the backoffs. */
  lemma QuietCounts(s: Page, e: Event, feed: string)
    requires !e.ConnectionFails? && !e.CodecFallsBack? && !e.TimerFires?
    ensures !Arms(s, e, feed) && Level(Apply(s, e), feed) == if Resets(s, e, feed) then 0 else Level(s, feed)
  {
    hide StartFeed, Stop;
    match e {
      case UserStarts(f, offered, hasAudio) => StartCounts(s, f, offered, hasAudio);
      case UserStops(f) => StopCounts(s, f, false);
      case StopsSilently(f) => StopCounts(s, f, true);
      case PreferencesChange(f, stop) => StopCounts(Forget(s, f), f, true);
      case _ =>
    }
  }

  predicate Counted(s: Page, s1: Page, feed: string) {
    (s1.armed == s.armed && s1.backoffs == s.backoffs) || CountsOne(s, s1, feed)
  }

  /** Every delay is computed from what the feed has counted; nothing else schedules. */
  lemma ApplyCounts(s: Page, e: Event, feed: string)
    requires Inv(s)
    ensures Arms(s, e, feed) ==>
              && !Resets(s, e, feed)
              && Apply(s, e).armed == s.armed + [Armed(feed, Delay(NextAttempts(s, feed)))]
              && Level(Apply(s, e), feed) == NextAttempts(s, feed) + 1
    ensures !Arms(s, e, feed) ==> Level(Apply(s, e), feed) == if Resets(s, e, feed) then 0 else Level(s, feed)
  {
    if !e.ConnectionFails? && !e.CodecFallsBack? && !e.TimerFires? {
      QuietCounts(s, e, feed);
    } else {
      var counted := ArmingCounts(s, e);
      hide Apply, Inv, Delay, NextAttempts;
    }
    hide Apply, Inv, Delay, NextAttempts, Level;
  }

  lemma ArmingCounts(s: Page, e: Event) returns (feed: string)
    requires Inv(s) && (e.ConnectionFails? || e.CodecFallsBack? || e.TimerFires?)
    ensures Counted(s, Apply(s, e), feed)
  {
    hide Inv, Schedule, Counted;
    feed := "";
    match e {
      case ConnectionFails(p) =>
        if p in s.players {
          ScheduleCounts(s, p, false);
          feed := s.players[p].feed;
        } else {
          NothingCounted(s);
        }
      case CodecFallsBack(p) =>
        if p in s.players {
          ScheduleCounts(s, p, true);
          feed := s.players[p].feed;
        } else {
          NothingCounted(s);
        }
      case TimerFires(t, disconnected, stale, offered, hasAudio) =>
        if t in s.timers && s.timers[t].player in s.players {
          TimerCounts(s, t, s.timers[t].player, disconnected, stale, offered, hasAudio);
          feed := s.players[s.timers[t].player].feed;
        } else {
          NothingCounted(s);
        }
    }
  }

  lemma NothingCounted(s: Page)
    ensures Counted(s, s, "")
  {
  }

  lemma TimerCounts(s: Page, t: nat, p: nat, disconnected: bool, stale: bool, offered: bool, hasAudio: bool)
    requires Inv(s) && t in s.timers && s.timers[t].player == p && p in s.players
    ensures var s1 := Apply(s, TimerFires(t, disconnected, stale, offered, hasAudio));
            Counted(s, s1, s.players[p].feed)
  {
    assert TimerOk(s, t);
    if s.timers[t].ReconnectTimer? {
      FiringReconnects(s, t, p, offered, hasAudio);
      StartCounts(Detach(CancelReconnect(s, p), p), s.players[p].feed, offered, hasAudio);
      hide StartFeed, FireReconnect, Inv;
    } else {
      ClearDisconnectKeepsInv(s, p);
      var s1 := ClearDisconnect(s, p);
      ScheduleCounts(s1, p, false);
      SameNextAttempts(s, p);
      hide Schedule, Inv, NextAttempts;
    }
  }

  lemma SameNextAttempts(s: Page, p: nat)
    requires p in s.players
    ensures NextAttempts(ClearDisconnect(s, p), s.players[p].feed) == NextAttempts(s, s.players[p].feed)
  {
  }

  // ---------------------------------------------------------------- what the next delay is computed from

  lemma StopNext(s: Page, f: string, silent: bool, feed: string)
    requires Inv(s)
    ensures var s1 := Stop(s, f, silent);
            NextAttempts(s1, feed) == if feed == f && (!silent || (feed !in s.backoffs && feed in s.active)) then 0
                                      else NextAttempts(s, feed)
  {
    InvAt(s, feed);
    InvAt(s, f);
    hide Inv, BackoffOk;
  }

  /** The parts of the invariant for one feed. */
  lemma InvAt(s: Page, feed: string)
    requires Inv(s)
    ensures feed in s.active ==> ActiveOk(s, feed) && s.active[feed] < s.next
    ensures feed in s.backoffs ==> BackoffOk(s, feed)
  {
    if feed in s.active {
      assert ActiveOk(s, feed);
      assert PlayerOk(s, s.active[feed]);
    }
  }

  lemma StartNext(s: Page, f: string, offered: bool, hasAudio: bool, feed: string)
    requires Inv(s)
    ensures var s1 := StartFeed(s, f, offered, hasAudio);
            NextAttempts(s1, feed) == if feed !in s.backoffs && LiveChanges(s, s1, feed) then 0 else NextAttempts(s, feed)
  {
    StopKeepsInv(s, f, true);
    StopLeaves(s, f, true);
    StopNext(s, f, true, feed);
    StopCounts(s, f, true);
    StopLeavesOthers(s, f, feed);
    InvAt(s, feed);
    var s1 := Stop(s, f, true);
    InvAt(s1, feed);
    hide Inv, Stop, BackoffOk;
  }

  lemma StopLeavesOthers(s: Page, f: string, feed: string)
    ensures var s1 := Stop(s, f, true);
            s1.next == s.next && (feed != f && feed in s.active ==> feed in s1.active && s1.active[feed] == s.active[feed])
  {
  }

  lemma MarkNext(s: Page, p: nat, feed: string)
    requires Inv(s) && p in s.players
    ensures NextAttempts(MarkRecent(s, p), feed)
            == if ResetsLive(s, PacketsArrive(p), feed) then 0 else NextAttempts(s, feed)
    ensures MarkRecent(s, p).active == s.active
  {
    InvAt(s, feed);
    InvAt(s, s.players[p].feed);
    hide Inv;
  }

  lemma ForgetNext(s: Page, f: string, feed: string)
    requires Inv(s)
    ensures NextAttempts(Forget(s, f), feed) == if feed == f && feed !in s.active then 0 else NextAttempts(s, feed)
  {
    InvAt(s, feed);
    hide Inv;
  }

  /** Changes of timers and flags do not matter. */
  predicate SameCounts(s: Page, s1: Page) {
    && s1.active == s.active && s1.backoffs == s.backoffs && s1.players.Keys == s.players.Keys
    && forall p <- s.players :: s1.players[p].reconnectAttempts == s.players[p].reconnectAttempts
                                && s1.players[p].feed == s.players[p].feed
  }

  lemma SameNext(s: Page, s1: Page, feed: string)
    requires SameCounts(s, s1)
    ensures NextAttempts(s1, feed) == NextAttempts(s, feed)
  {
    assert feed in s.active ==> (s.active[feed] in s1.players.Keys <==> s.active[feed] in s.players.Keys);
  }

  lemma ScheduleNext(s: Page, p: nat, force: bool, feed: string)
    requires Inv(s) && p in s.players
    ensures var s1 := Schedule(s, p, force);
            && s1.active == s.active
            && NextAttempts(s1, feed) == NextAttempts(s, feed)
                                         + if |s1.armed| > |s.armed| && s1.armed[|s.armed|].feed == feed then 1 else 0
  {
    InvAt(s, feed);
    InvAt(s, s.players[p].feed);
    hide Inv, Delay;
  }

  lemma DetachNext(s: Page, p: nat, feed: string)
    requires Inv(s) && IsActive(s, p)
    ensures var s1 := Detach(CancelReconnect(s, p), p);
            && Inv(s1) && s1.next == s.next && s1.backoffs == s.backoffs
            && s1.active == s.active - {s.players[p].feed}
            && NextAttempts(s1, feed) == if feed == s.players[p].feed && feed !in s.backoffs then 0 else NextAttempts(s, feed)
  {
    DetachedIsInv(s, p);
    InvAt(s, feed);
    hide Inv;
  }

  lemma DetachedIsInv(s: Page, p: nat)
    requires Inv(s) && IsActive(s, p)
    ensures Inv(Detach(CancelReconnect(s, p), p))
  {
    CancelKeepsInv(s, p);
    ClearDisconnectKeepsInv(CancelReconnect(s, p), p);
    hide Inv;
    LeavingKeepsInv(ClearDisconnect(CancelReconnect(s, p), p), p, s.players[p].stopping, false);
  }

  lemma FireReconnectNext(s: Page, t: nat, p: nat, offered: bool, hasAudio: bool, feed: string)
    requires Inv(s) && t in s.timers && s.timers[t] == ReconnectTimer(p) && p in s.players
    ensures var s1 := FireReconnect(s.(timers := s.timers - {t}), p, offered, hasAudio);
            && s1.armed == s.armed
            && NextAttempts(s1, feed) == if feed !in s.backoffs && LiveChanges(s, s1, feed) then 0 else NextAttempts(s, feed)
  {
    FiringReconnects(s, t, p, offered, hasAudio);
    DetachNext(s, p, feed);
    InvAt(s, feed);
    var s1 := Detach(CancelReconnect(s, p), p);
    StartNext(s1, s.players[p].feed, offered, hasAudio, feed);
    StartCounts(s1, s.players[p].feed, offered, hasAudio);
    StartIsNew(s1, s.players[p].feed, offered, hasAudio, feed);
    hide Inv, StartFeed, FireReconnect, NextAttempts;
  }

  /** A new player has a number no player had; other feeds keep theirs. */
  lemma StartIsNew(s: Page, f: string, offered: bool, hasAudio: bool, feed: string)
    requires f !in s.active
    ensures var s1 := StartFeed(s, f, offered, hasAudio);
            && (f in s1.active ==> s1.active[f] == s.next)
            && (feed != f ==> (feed in s1.active <==> feed in s.active))
            && (feed != f && feed in s.active ==> s1.active[feed] == s.active[feed])
  {
  }

  lemma FireDisconnectNext(s: Page, t: nat, p: nat, disconnected: bool, stale: bool, feed: string)
    requires Inv(s) && t in s.timers && s.timers[t] == DisconnectTimer(p) && p in s.players
    ensures var s1 := FireDisconnect(s.(timers := s.timers - {t}), p, disconnected, stale);
            && s1.active == s.active
            && NextAttempts(s1, feed) == NextAttempts(s, feed)
                                         + if |s1.armed| > |s.armed| && s1.armed[|s.armed|].feed == feed then 1 else 0
  {
    assert TimerOk(s, t);
    ClearDisconnectKeepsInv(s, p);
    var s1 := ClearDisconnect(s, p);
    SameNext(s, s1, feed);
    SameNext(s1, ScheduleDisconnect(s1, p), feed);
    ScheduleNext(s1, p, false, feed);
    assert ScheduleDisconnect(s1, p).armed == s.armed;
    hide Inv, Schedule, ScheduleDisconnect, NextAttempts;
  }

  /** What one event does to the count of a feed. */
  predicate Steps(s: Page, e: Event, feed: string) {
    NextAttempts(Apply(s, e), feed)
    == if TakesEffect(s, e, feed) then 0 else if Arms(s, e, feed) then NextAttempts(s, feed) + 1 else NextAttempts(s, feed)
  }

  lemma StopSteps(s: Page, f: string, silent: bool, feed: string)
    requires Inv(s)
    ensures Steps(s, if silent then StopsSilently(f) else UserStops(f), feed)
  {
    QuietCounts(s, if silent then StopsSilently(f) else UserStops(f), feed);
    StopNext(s, f, silent, feed);
    StopActive(s, f, silent, feed);
    NothingLeft(s, feed);
    hide Stop, Inv, NextAttempts, Forget, Arms;
  }

  lemma PreferencesSteps(s: Page, f: string, stop: bool, feed: string)
    requires Inv(s)
    ensures Steps(s, PreferencesChange(f, stop), feed)
  {
    QuietCounts(s, PreferencesChange(f, stop), feed);
    if stop {
      ForgetThenStop(s, f);
      StopNext(s, f, false, feed);
      StopActive(s, f, false, feed);
    } else {
      ForgetNext(s, f, feed);
      ForgetActive(s, f);
    }
    NothingLeft(s, feed);
    hide Stop, Inv, NextAttempts, Forget, Arms;
  }

  lemma QuietNext(s: Page, e: Event, feed: string)
    requires Inv(s) && !e.ConnectionFails? && !e.CodecFallsBack? && !e.TimerFires?
    ensures Steps(s, e, feed)
  {
    hide Inv, NextAttempts, Steps;
    match e {
      case UserStarts(f, offered, hasAudio) => StartSteps(s, f, offered, hasAudio, feed);
      case UserStops(f) => StopSteps(s, f, false, feed);
      case StopsSilently(f) => StopSteps(s, f, true, feed);
      case PreferencesChange(f, stop) => PreferencesSteps(s, f, stop, feed);
      case PacketsArrive(p) => PacketsSteps(s, p, feed);
      case _ => SameSteps(s, e, feed);
    }
  }

  lemma StartSteps(s: Page, f: string, offered: bool, hasAudio: bool, feed: string)
    requires Inv(s)
    ensures Steps(s, UserStarts(f, offered, hasAudio), feed)
  {
    QuietCounts(s, UserStarts(f, offered, hasAudio), feed);
    StartNext(s, f, offered, hasAudio, feed);
    hide StartFeed, Inv, NextAttempts, Arms;
  }

  lemma PacketsSteps(s: Page, p: nat, feed: string)
    requires Inv(s)
    ensures Steps(s, PacketsArrive(p), feed)
  {
    QuietCounts(s, PacketsArrive(p), feed);
    if p in s.players {
      MarkNext(s, p, feed);
    }
    hide MarkRecent, Inv, NextAttempts, Arms;
  }

  lemma SameCountsAfter(s: Page, e: Event)
    requires e.TrackArrives? || e.Healthy? || e.ConnectionDrops?
    ensures SameCounts(s, Apply(s, e)) && Apply(s, e).active == s.active
  {
  }

  lemma SameSteps(s: Page, e: Event, feed: string)
    requires Inv(s) && (e.TrackArrives? || e.Healthy? || e.ConnectionDrops?)
    ensures Steps(s, e, feed)
  {
    QuietCounts(s, e, feed);
    SameCountsAfter(s, e);
    SameNext(s, Apply(s, e), feed);
    hide Inv, NextAttempts, Arms, Apply, SameCounts;
  }

  lemma ForgetActive(s: Page, f: string)
    ensures Forget(s, f).active == s.active
  {
  }

  lemma StopActive(s: Page, f: string, silent: bool, feed: string)
    requires Inv(s)
    ensures Stop(s, f, silent).active == s.active - {f}
  {
    InvAt(s, f);
    hide Inv, BackoffOk;
    if f !in s.active {
      assert s.active - {f} == s.active;
    }
  }

  /** A feed without player and backoff has counted nothing. */
  lemma NothingLeft(s: Page, feed: string)
    ensures feed !in s.active && feed !in s.backoffs ==> NextAttempts(s, feed) == 0
  {
  }

  lemma ForgetThenStop(s: Page, feed: string)
    ensures Stop(Forget(s, feed), feed, true) == Stop(s, feed, false)
  {
  }

  /** Every event changes the count of a feed by a reset that takes effect, or by a schedule. */
  lemma NextStep(s: Page, e: Event, feed: string)
    requires Inv(s)
    ensures Steps(s, e, feed)
  {
    hide Inv, Schedule, FireReconnect, FireDisconnect, NextAttempts;
    match e {
      case ConnectionFails(p) => if p in s.players { ScheduleNext(s, p, false, feed); }
      case CodecFallsBack(p) => if p in s.players { ScheduleNext(s, p, true, feed); }
      case TimerFires(t, disconnected, stale, offered, hasAudio) =>
        if t in s.timers && s.timers[t].player in s.players {
          if s.timers[t].ReconnectTimer? {
            FireReconnectNext(s, t, s.timers[t].player, offered, hasAudio, feed);
          } else {
            FireDisconnectNext(s, t, s.timers[t].player, disconnected, stale, feed);
          }
        }
      case _ => QuietNext(s, e, feed);
    }
  }

  /** The count of a feed is the number of schedules since a reset last took effect, although every
      reconnect replaces the player that counts. */
  lemma {:induction false} CountIsSince(events: seq<Event>, feed: string)
    ensures NextAttempts(Run(EMPTY, events), feed) == Since(events, feed)
    decreases |events|
  {
    if events != [] {
      var front, e := events[..|events| - 1], events[|events| - 1];
      CountIsSince(front, feed);
      RunKeepsInv(front);
      hide Apply, Arms, TakesEffect, Inv, NextAttempts;
      NextStep(Run(EMPTY, front), e, feed);
    }
  }

  lemma {:induction false} DelayIs(k: nat)
    ensures Delay(k) == if k == 0 then 1000 else if k == 1 then 2000 else if k == 2 then 4000
                        else if k == 3 then 8000 else 10000
    decreases k
  {
    assert Pow2(1) == 2;
    assert Pow2(2) == 4;
    assert Pow2(3) == 8;
    assert Pow2(4) == 16;
    if k >= 5 {
      DelayIs(k - 1);
    }
  }

  /** In every run the next reconnect of a feed waits min(1000 * 2^k, 10000) ms after k schedules
      since a reset of it last took effect, whichever player is live by then. */
  lemma BackoffOutlivesPlayers(events: seq<Event>, e: Event, feed: string)
    requires Arms(Run(EMPTY, events), e, feed)
    ensures var s, s1 := Run(EMPTY, events), Apply(Run(EMPTY, events), e);
            var k := Since(events, feed);
            && s1.armed == s.armed + [Armed(feed, if 1000 * Pow2(k) < 10000 then 1000 * Pow2(k) else 10000)]
            && NextAttempts(s1, feed) == Since(events + [e], feed) == k + 1
  {
    CountIsSince(events, feed);
    CountIsSince(events + [e], feed);
    assert (events + [e])[..|events|] == events;
    RunKeepsInv(events);
    ApplyCounts(Run(EMPTY, events), e, feed);
    ApplyKeepsInv(Run(EMPTY, events), e);
    CountedIsNext(Apply(Run(EMPTY, events), e), feed);
    hide Apply, Inv, NextAttempts, Level, Arms;
  }

  lemma CountedIsNext(s: Page, feed: string)
    requires Inv(s) && Level(s, feed) > 0
    ensures NextAttempts(s, feed) == Level(s, feed)
  {
  }

  /** A change of preferences resets the delay of a feed with a live player exactly when it stops
      that player, or there was nothing to reset: a live player remembers its own count. */
  lemma PreferencesResetIff(s: Page, feed: string, stop: bool)
    requires Inv(s) && feed in s.active
    ensures NextAttempts(Apply(s, PreferencesChange(feed, stop)), feed) == 0 <==> stop || NextAttempts(s, feed) == 0
  {
    ForgetNext(s, feed, feed);
    StopNext(s, feed, false, feed);
    ForgetThenStop(s, feed);
    hide Inv, Stop, Forget, NextAttempts;
  }

  /** Late packets of a player that was replaced do not shorten the delay of the one that is live. */
  lemma LatePacketsKeepTheDelay(s: Page, p: nat)
    requires Inv(s) && p in s.players && !IsActive(s, p) && s.players[p].feed in s.active
    ensures NextAttempts(Apply(s, PacketsArrive(p)), s.players[p].feed) == NextAttempts(s, s.players[p].feed)
  {
    MarkNext(s, p, s.players[p].feed);
    hide Inv, MarkRecent, NextAttempts;
  }

  // ---------------------------------------------------------------- what each event does

  /** The feed has this live player, which is not being stopped. */
  predicate IsLive(s: Page, feed: string, p: nat) {
    feed in s.active && s.active[feed] == p && p in s.players && !s.players[p].stopping
  }

  predicate HasReconnect(s: Page, p: nat) {
    exists t :: t in s.timers && s.timers[t] == ReconnectTimer(p)
  }

  predicate HasDisconnect(s: Page, p: nat) {
    exists t :: t in s.timers && s.timers[t] == DisconnectTimer(p)
  }

  /** The live player of the feed is given up: its codec falls back, or it has no reconnect under
      way and its connection fails, or it is still disconnected, and stale, when its grace is over. */
  predicate GivesUp(s: Page, e: Event, feed: string, p: nat) {
    && IsLive(s, feed, p)
    && match e
       case CodecFallsBack(q) => q == p
       case ConnectionFails(q) => q == p && !HasReconnect(s, p)
       case TimerFires(t, disconnected, stale, _, _) =>
         t in s.timers && s.timers[t] == DisconnectTimer(p) && disconnected && stale && !HasReconnect(s, p)
       case _ => false
  }

  /** The live player of the feed gets a grace: its connection drops while it has no timer, or it is
      still disconnected, but not stale, when its grace is over. */
  predicate GetsGrace(s: Page, e: Event, feed: string, p: nat) {
    && IsLive(s, feed, p) && !HasReconnect(s, p)
    && match e
       case ConnectionDrops(q) => q == p && !HasDisconnect(s, p)
       case TimerFires(t, disconnected, stale, _, _) =>
         t in s.timers && s.timers[t] == DisconnectTimer(p) && disconnected && !stale
       case _ => false
  }

  /** Exactly one armed timer is to reconnect this player, which knows it. */
  predicate Waits(s: Page, p: nat) {
    && p in s.players && s.players[p].reconnectPending && s.players[p].reconnectTimer.Some?
    && var t := s.players[p].reconnectTimer.value;
       && t in s.timers && s.timers[t] == ReconnectTimer(p)
       && forall u | u in s.timers && s.timers[u] == ReconnectTimer(p) :: u == t
  }

  lemma TimersAre(s: Page, p: nat)
    requires Inv(s) && p in s.players
    ensures HasReconnect(s, p) <==> s.players[p].reconnectTimer.Some?
    ensures HasDisconnect(s, p) <==> s.players[p].disconnectTimer.Some?
    ensures s.players[p].reconnectPending <==> s.players[p].reconnectTimer.Some?
    ensures s.players[p].reconnectTimer.Some? ==> Waits(s, p)
    ensures IsActive(s, p) ==> !s.players[p].stopping
  {
    assert PlayerOk(s, p);
    forall t | t in s.timers
      ensures s.timers[t] == ReconnectTimer(p) ==> s.players[p].reconnectTimer == Some(t)
      ensures s.timers[t] == DisconnectTimer(p) ==> s.players[p].disconnectTimer == Some(t)
    {
      assert TimerOk(s, t);
    }
  }

  lemma LiveIsActive(s: Page, feed: string, p: nat)
    requires Inv(s)
    ensures feed in s.active && s.active[feed] == p ==> p in s.players && IsActive(s, p) && s.players[p].feed == feed
                                                        && !s.players[p].stopping
  {
    if feed in s.active && s.active[feed] == p {
      assert ActiveOk(s, feed);
      assert PlayerOk(s, p);
    }
  }

  lemma ScheduleArms(s: Page, p: nat, force: bool)
    requires Inv(s) && p in s.players
    ensures var s1 := Schedule(s, p, force);
            if IsActive(s, p) && (force || s.players[p].reconnectTimer.None?) then
              |s1.armed| == |s.armed| + 1 && s1.armed[|s.armed|].feed == s.players[p].feed
              && s1.players[p].reconnectTimer.Some?
            else s1 == s
  {
    assert PlayerOk(s, p);
    hide Inv, Delay;
  }

  lemma TimerArms(s: Page, t: nat, p: nat, disconnected: bool, stale: bool)
    requires Inv(s) && t in s.timers && s.timers[t] == DisconnectTimer(p) && p in s.players
    ensures var s1 := FireDisconnect(s.(timers := s.timers - {t}), p, disconnected, stale);
            && IsActive(s, p)
            && if disconnected && stale && s.players[p].reconnectTimer.None? then
                 |s1.armed| == |s.armed| + 1 && s1.armed[|s.armed|].feed == s.players[p].feed
                 && s1.players[p].reconnectTimer.Some?
               else s1.armed == s.armed
  {
    assert TimerOk(s, t);
    assert PlayerOk(s, p);
    ClearDisconnectKeepsInv(s, p);
    var s0 := ClearDisconnect(s, p);
    ScheduleArms(s0, p, false);
    hide Inv, Schedule;
  }

  lemma QuietArmsNothing(s: Page, e: Event)
    requires Inv(s) && !e.ConnectionFails? && !e.CodecFallsBack?
    requires e.TimerFires? ==> e.timer !in s.timers || s.timers[e.timer].ReconnectTimer?
    ensures Apply(s, e).armed == s.armed
  {
    hide StartFeed, Stop, Inv;
    match e {
      case UserStarts(f, offered, hasAudio) => StartCounts(s, f, offered, hasAudio);
      case UserStops(f) => StopCounts(s, f, false);
      case StopsSilently(f) => StopCounts(s, f, true);
      case PreferencesChange(f, stop) => StopCounts(Forget(s, f), f, true);
      case TimerFires(t, disconnected, stale, offered, hasAudio) =>
        if t in s.timers && s.timers[t].player in s.players {
          var p := s.timers[t].player;
          FiringReconnects(s, t, p, offered, hasAudio);
          StartCounts(Detach(CancelReconnect(s, p), p), s.players[p].feed, offered, hasAudio);
        }
      case _ =>
    }
  }

  /** The event arms a reconnect of the feed exactly if its live player is given up. */
  lemma ArmsIff(s: Page, e: Event, feed: string)
    requires Inv(s)
    ensures Arms(s, e, feed) <==> feed in s.active && GivesUp(s, e, feed, s.active[feed])
    ensures feed in s.active && GivesUp(s, e, feed, s.active[feed]) ==>
              var p := s.active[feed];
              p in Apply(s, e).players && Apply(s, e).players[p].reconnectTimer.Some?
  {
    if feed in s.active {
      LiveIsActive(s, feed, s.active[feed]);
      TimersAre(s, s.active[feed]);
    }
    match e {
      case ConnectionFails(q) =>
        if q in s.players {
          ScheduleArms(s, q, false);
          LiveIsActive(s, s.players[q].feed, q);
        }
        hide Inv, Schedule, HasReconnect;
      case CodecFallsBack(q) =>
        if q in s.players {
          ScheduleArms(s, q, true);
          LiveIsActive(s, s.players[q].feed, q);
        }
        hide Inv, Schedule, HasReconnect;
      case TimerFires(t, disconnected, stale, offered, hasAudio) =>
        if t in s.timers && s.timers[t].DisconnectTimer? {
          var q := s.timers[t].player;
          assert TimerOk(s, t);
          TimerArms(s, t, q, disconnected, stale);
          LiveIsActive(s, s.players[q].feed, q);
        } else {
          QuietArmsNothing(s, e);
        }
        hide Inv, FireDisconnect, FireReconnect, HasReconnect;
      case _ =>
        QuietArmsNothing(s, e);
        hide Inv, Apply, HasReconnect;
    }
  }

  /** Over every run: an event arms a reconnect of a feed exactly if the live player of the feed is
      given up.  Then exactly one timer is to reconnect that player, and the reconnect that was
      armed waits min(1000 * 2^k, 10000) ms after k of them since a reset last took effect. */
  lemma ReconnectIsArmedIff(events: seq<Event>, e: Event, feed: string)
    ensures var s, s1 := Run(EMPTY, events), Run(EMPTY, events + [e]);
            if feed in s.active && GivesUp(s, e, feed, s.active[feed]) then
              var k := Since(events, feed);
              && s1.armed == s.armed + [Armed(feed, if 1000 * Pow2(k) < 10000 then 1000 * Pow2(k) else 10000)]
              && Waits(s1, s.active[feed])
            else s1.armed == s.armed || (s1.armed != [] && s1.armed[|s1.armed| - 1].feed != feed)
  {
    hide Apply, Inv, GivesUp, Waits, IsActive, Since, Pow2, Arms;
    assert (events + [e])[..|events|] == events;
    RunKeepsInv(events);
    var s := Run(EMPTY, events);
    assert Run(EMPTY, events + [e]) == Apply(s, e);
    hide Run;
    if feed in s.active && GivesUp(s, e, feed, s.active[feed]) {
      ArmsIff(s, e, feed);
      BackoffOutlivesPlayers(events, e, feed);
      ArmedWaits(s, e, s.active[feed], feed);
    } else {
      NotArmed(s, e, feed);
    }
  }

  lemma ArmedWaits(s: Page, e: Event, p: nat, feed: string)
    requires Inv(s) && feed in s.active && s.active[feed] == p && GivesUp(s, e, feed, p)
    ensures Waits(Apply(s, e), p)
  {
    hide Apply, Inv, GivesUp, Waits, Arms;
    ArmsIff(s, e, feed);
    ApplyKeepsInv(s, e);
    TimersAre(Apply(s, e), p);
  }

  lemma NotArmed(s: Page, e: Event, feed: string)
    requires Inv(s) && !(feed in s.active && GivesUp(s, e, feed, s.active[feed]))
    ensures var s1 := Apply(s, e);
            s1.armed == s.armed || (s1.armed != [] && s1.armed[|s1.armed| - 1].feed != feed)
  {
    hide Apply, Inv, GivesUp;
    ArmsIff(s, e, feed);
    OneArmedAtMost(s, e);
  }

  lemma OneArmedAtMost(s: Page, e: Event)
    requires Inv(s)
    ensures Apply(s, e).armed == s.armed || |Apply(s, e).armed| == |s.armed| + 1
  {
    hide Inv, Schedule, FireDisconnect, FireReconnect, StartFeed, Stop;
    if e.ConnectionFails? || e.CodecFallsBack? {
      if e.player in s.players {
        ScheduleArms(s, e.player, e.CodecFallsBack?);
      }
    } else if e.TimerFires? && e.timer in s.timers && s.timers[e.timer].DisconnectTimer? {
      if s.timers[e.timer].player in s.players {
        TimerArms(s, e.timer, s.timers[e.timer].player, e.disconnected, e.stale);
      }
    } else {
      QuietArmsNothing(s, e);
    }
  }

  /** The event stops the feed. */
  predicate Stops(e: Event, feed: string) {
    match e
    case UserStops(f) => f == feed
    case StopsSilently(f) => f == feed
    case PreferencesChange(f, stop) => f == feed && stop
    case _ => false
  }

  /** The event starts the feed anew: the user does, unless its audio is attached already, or the
      reconnect timer of its live player fires. */
  predicate Restarts(s: Page, e: Event, feed: string) {
    match e
    case UserStarts(f, offered, _) =>
      f == feed && feed != "" && offered
      && !(feed in s.active && s.active[feed] in s.players && s.players[s.active[feed]].trackAttached)
    case TimerFires(t, _, _, _, _) => feed in s.active && t in s.timers && s.timers[t] == ReconnectTimer(s.active[feed])
    case _ => false
  }

  /** A restart gets as far as a new player. */
  predicate Succeeds(e: Event, feed: string) {
    feed != "" && match e
                  case UserStarts(_, offered, hasAudio) => offered && hasAudio
                  case TimerFires(_, _, _, offered, hasAudio) => offered && hasAudio
                  case _ => false
  }

  function Live(s: Page, feed: string): Option<nat> {
    if feed in s.active then Some(s.active[feed]) else None
  }

  lemma StopLive(s: Page, f: string, silent: bool, feed: string)
    requires Inv(s)
    ensures Live(Stop(s, f, silent), feed) == if feed == f then None else Live(s, feed)
    ensures Stop(s, f, silent).next == s.next
  {
    StopActive(s, f, silent, feed);
    hide Inv;
  }

  lemma StartLive(s: Page, f: string, offered: bool, hasAudio: bool, feed: string)
    requires Inv(s)
    ensures var s1 := StartFeed(s, f, offered, hasAudio);
            if Restarts(s, UserStarts(f, offered, hasAudio), feed) then
              if hasAudio then
                && Live(s1, feed) == Some(s.next) && s.next !in s.players && s.next in s1.players
                && s1.players[s.next] == Player(feed, false, false, None, false,
                                                if feed in s.backoffs then s.backoffs[feed] else 0, None)
              else Live(s1, feed) == None
            else Live(s1, feed) == Live(s, feed)
  {
    StopLive(s, f, true, feed);
    StopCounts(s, f, true);
    NextIsNew(s);
    hide Inv, Stop;
  }

  lemma NextIsNew(s: Page)
    requires Inv(s)
    ensures s.next !in s.players
  {
    forall p | p in s.players
      ensures p < s.next
    {
      assert PlayerOk(s, p);
    }
  }

  lemma DetachedLive(s: Page, p: nat, feed: string)
    requires Inv(s) && IsActive(s, p)
    ensures var s1 := Detach(CancelReconnect(s, p), p);
            && Inv(s1) && s1.next == s.next && s1.backoffs == s.backoffs && s1.players.Keys == s.players.Keys
            && Live(s1, feed) == if feed == s.players[p].feed then None else Live(s, feed)
  {
    DetachedIsInv(s, p);
    hide Inv;
  }

  lemma FireLive(s: Page, t: nat, p: nat, offered: bool, hasAudio: bool, feed: string)
    requires Inv(s) && t in s.timers && s.timers[t] == ReconnectTimer(p)
    ensures p in s.players
    ensures var s1 := FireReconnect(s.(timers := s.timers - {t}), p, offered, hasAudio);
            if feed == s.players[p].feed then
              if feed != "" && offered && hasAudio then
                && Live(s1, feed) == Some(s.next) && s.next !in s.players && s.next in s1.players
                && s1.players[s.next] == Player(feed, false, false, None, false,
                                                if feed in s.backoffs then s.backoffs[feed] else 0, None)
              else Live(s1, feed) == None
            else Live(s1, feed) == Live(s, feed)
  {
    FiringReconnects(s, t, p, offered, hasAudio);
    var s1 := Detach(CancelReconnect(s, p), p);
    var f := s.players[p].feed;
    DetachedLive(s, p, feed);
    DetachedLive(s, p, f);
    StartLive(s1, f, offered, hasAudio, feed);
    hide Inv, FireReconnect, StartFeed, Detach, CancelReconnect;
  }

  lemma OthersLive(s: Page, e: Event, feed: string)
    requires e.TrackArrives? || e.PacketsArrive? || e.Healthy? || e.ConnectionFails? || e.CodecFallsBack?
             || e.ConnectionDrops? || (e.TimerFires? && (e.timer !in s.timers || s.timers[e.timer].DisconnectTimer?))
    ensures Live(Apply(s, e), feed) == Live(s, feed)
  {
    hide Delay;
  }

  lemma LiveStep(s: Page, e: Event, feed: string)
    requires Inv(s)
    ensures var s1 := Apply(s, e);
            if Stops(e, feed) then Live(s1, feed) == None
            else if Restarts(s, e, feed) then
              if Succeeds(e, feed) then
                && Live(s1, feed) == Some(s.next) && s.next !in s.players && s.next in s1.players
                && s1.players[s.next] == Player(feed, false, false, None, false,
                                                if feed in s.backoffs then s.backoffs[feed] else 0, None)
              else Live(s1, feed) == None
            else Live(s1, feed) == Live(s, feed)
  {
    match e {
      case UserStarts(f, offered, hasAudio) =>
        StartLive(s, f, offered, hasAudio, feed);
        hide Inv, StartFeed;
      case UserStops(f) =>
        StopLive(s, f, false, feed);
        hide Inv, Stop;
      case StopsSilently(f) =>
        StopLive(s, f, true, feed);
        hide Inv, Stop;
      case PreferencesChange(f, stop) =>
        ForgetThenStop(s, f);
        StopLive(s, f, false, feed);
        hide Inv, Stop;
      case TimerFires(t, disconnected, stale, offered, hasAudio) =>
        if t in s.timers && s.timers[t].ReconnectTimer? {
          var q := s.timers[t].player;
          FireLive(s, t, q, offered, hasAudio, feed);
          FiringReconnects(s, t, q, offered, hasAudio);
          if feed in s.active {
            LiveIsActive(s, feed, s.active[feed]);
          }
          hide Inv, FireReconnect;
        } else {
          OthersLive(s, e, feed);
          hide Inv, Apply;
        }
      case _ =>
        OthersLive(s, e, feed);
        hide Inv, Apply;
    }
  }

  /** Over every run, which player is live: a stop leaves none, a restart a new one that takes over
      the backoff of the feed, or none if the feed is not offered or has no audio.  Nothing else
      changes it. */
  lemma LivePlayerIs(events: seq<Event>, e: Event, feed: string)
    ensures var s, s1 := Run(EMPTY, events), Run(EMPTY, events + [e]);
            if Stops(e, feed) then Live(s1, feed) == None
            else if Restarts(s, e, feed) then
              if Succeeds(e, feed) then
                && Live(s1, feed) == Some(s.next) && s.next !in s.players && s.next in s1.players
                && s1.players[s.next] == Player(feed, false, false, None, false,
                                                if feed in s.backoffs then s.backoffs[feed] else 0, None)
              else Live(s1, feed) == None
            else Live(s1, feed) == Live(s, feed)
  {
    assert (events + [e])[..|events|] == events;
    RunKeepsInv(events);
    hide Inv, Apply;
    LiveStep(Run(EMPTY, events), e, feed);
  }

  /** The event takes every timer of the player away: its connection is healthy, packets arrive, or
      it is no longer the live player of its feed. */
  predicate LosesTimers(s: Page, e: Event, p: nat)
    requires p in s.players
  {
    || e == Healthy(p) || e == PacketsArrive(p)
    || (IsActive(s, p) && (Stops(e, s.players[p].feed) || Restarts(s, e, s.players[p].feed)))
  }

  /** The player's own disconnect timer fires. */
  predicate GraceEnds(s: Page, e: Event, p: nat) {
    e.TimerFires? && e.timer in s.timers && s.timers[e.timer] == DisconnectTimer(p)
  }

  /** Over every run, which timers a player has: a reconnect from when it is given up, and a grace
      from when it gets one, until it loses its timers, or that grace ends. */
  lemma TimersOfPlayerAre(events: seq<Event>, e: Event, p: nat)
    requires p in Run(EMPTY, events).players
    ensures var s, s1 := Run(EMPTY, events), Run(EMPTY, events + [e]);
            var feed := s.players[p].feed;
            && (HasReconnect(s1, p) <==> GivesUp(s, e, feed, p) || (HasReconnect(s, p) && !LosesTimers(s, e, p)))
            && (HasDisconnect(s1, p) <==>
                  GetsGrace(s, e, feed, p) || (HasDisconnect(s, p) && !LosesTimers(s, e, p) && !GraceEnds(s, e, p)))
  {
    assert (events + [e])[..|events|] == events;
    RunKeepsInv(events);
    hide Inv, Apply, HasReconnect, HasDisconnect, GivesUp, GetsGrace, LosesTimers, GraceEnds;
    TimersStep(Run(EMPTY, events), e, p);
  }

  /** What a player's own fields say of its timers. */
  predicate Shows(s: Page, p: nat, feed: string, reconnect: bool, grace: bool) {
    && p in s.players && s.players[p].feed == feed
    && s.players[p].reconnectTimer.Some? == reconnect && s.players[p].disconnectTimer.Some? == grace
  }

  predicate ShowsAs(s1: Page, s: Page, p: nat)
    requires p in s.players
  {
    Shows(s1, p, s.players[p].feed, s.players[p].reconnectTimer.Some?, s.players[p].disconnectTimer.Some?)
  }

  lemma StopShows(s: Page, f: string, silent: bool, p: nat)
    requires Inv(s) && p in s.players
    ensures var s1 := Stop(s, f, silent);
            if IsActive(s, p) && s.players[p].feed == f then Shows(s1, p, f, false, false) else ShowsAs(s1, s, p)
  {
    if f in s.active {
      assert ActiveOk(s, f);
    }
    hide Inv;
  }

  lemma StartShows(s: Page, f: string, offered: bool, hasAudio: bool, p: nat)
    requires Inv(s) && p in s.players
    ensures var s1 := StartFeed(s, f, offered, hasAudio);
            if IsActive(s, p) && Restarts(s, UserStarts(f, offered, hasAudio), s.players[p].feed) then
              Shows(s1, p, f, false, false)
            else ShowsAs(s1, s, p)
  {
    StopShows(s, f, true, p);
    StopLive(s, f, true, f);
    NextIsNew(s);
    hide Inv, Stop;
  }

  lemma DetachShows(s: Page, p: nat, q: nat)
    requires Inv(s) && IsActive(s, p) && q in s.players
    ensures var s1 := Detach(CancelReconnect(s, p), p);
            if q == p then Shows(s1, p, s.players[p].feed, false, false) else ShowsAs(s1, s, q)
  {
    hide Inv;
  }

  lemma FireShows(s: Page, t: nat, p: nat, offered: bool, hasAudio: bool, q: nat)
    requires Inv(s) && t in s.timers && s.timers[t] == ReconnectTimer(p) && q in s.players
    ensures p in s.players && IsActive(s, p)
    ensures var s1 := FireReconnect(s.(timers := s.timers - {t}), p, offered, hasAudio);
            if q == p then Shows(s1, p, s.players[p].feed, false, false) else ShowsAs(s1, s, q)
  {
    FiringReconnects(s, t, p, offered, hasAudio);
    var f := s.players[p].feed;
    DetachedLive(s, p, f);
    DetachShows(s, p, q);
    var s1 := Detach(CancelReconnect(s, p), p);
    StartShows(s1, f, offered, hasAudio, q);
    hide Inv, FireReconnect, StartFeed, Detach, CancelReconnect;
    NotActiveNow(s1, f, q);
  }

  lemma NotActiveNow(s: Page, f: string, q: nat)
    requires q in s.players && Live(s, f) == None
    ensures IsActive(s, q) ==> s.players[q].feed != f
  {
  }

  lemma ScheduleShows(s: Page, p: nat, force: bool, q: nat)
    requires Inv(s) && p in s.players && q in s.players
    ensures var s1 := Schedule(s, p, force);
            Shows(s1, q, s.players[q].feed,
                  s.players[q].reconnectTimer.Some? || (q == p && IsActive(s, p)), s.players[q].disconnectTimer.Some?)
  {
    assert PlayerOk(s, p);
    hide Inv, Delay;
  }

  lemma ScheduleDisconnectShows(s: Page, p: nat, q: nat)
    requires Inv(s) && p in s.players && q in s.players
    ensures var s1 := ScheduleDisconnect(s, p);
            Shows(s1, q, s.players[q].feed, s.players[q].reconnectTimer.Some?,
                  s.players[q].disconnectTimer.Some? || (q == p && IsActive(s, p) && s.players[p].reconnectTimer.None?))
  {
    assert PlayerOk(s, p);
    hide Inv;
  }

  lemma FireDisconnectShows(s: Page, t: nat, p: nat, disconnected: bool, stale: bool, q: nat)
    requires Inv(s) && t in s.timers && s.timers[t] == DisconnectTimer(p) && q in s.players
    ensures p in s.players && IsActive(s, p)
    ensures var s1 := FireDisconnect(s.(timers := s.timers - {t}), p, disconnected, stale);
            Shows(s1, q, s.players[q].feed,
                  s.players[q].reconnectTimer.Some? || (q == p && disconnected && stale),
                  if q == p then disconnected && !stale && s.players[p].reconnectTimer.None?
                  else s.players[q].disconnectTimer.Some?)
  {
    assert TimerOk(s, t);
    assert PlayerOk(s, p);
    ClearDisconnectKeepsInv(s, p);
    var s0 := ClearDisconnect(s, p);
    ScheduleShows(s0, p, false, q);
    ScheduleDisconnectShows(s0, p, q);
    hide Inv, Schedule, ScheduleDisconnect;
  }

  lemma PlainShows(s: Page, e: Event, p: nat)
    requires p in s.players && (e.TrackArrives? || e.PacketsArrive? || e.Healthy?)
    ensures if e == Healthy(p) || e == PacketsArrive(p) then Shows(Apply(s, e), p, s.players[p].feed, false, false)
            else ShowsAs(Apply(s, e), s, p)
  {
  }

  lemma OneLive(s: Page, p: nat, q: nat)
    requires IsActive(s, p) && IsActive(s, q) && s.players[p].feed == s.players[q].feed
    ensures p == q
  {
  }

  lemma TimerEventShows(s: Page, e: Event, p: nat)
    requires Inv(s) && p in s.players && e.TimerFires?
    ensures var q, s1 := s.players[p], Apply(s, e);
            Shows(s1, p, q.feed,
                  GivesUp(s, e, q.feed, p) || (q.reconnectTimer.Some? && !LosesTimers(s, e, p)),
                  GetsGrace(s, e, q.feed, p) || (q.disconnectTimer.Some? && !LosesTimers(s, e, p) && !GraceEnds(s, e, p)))
  {
    TimersAre(s, p);
    LiveIsActive(s, s.players[p].feed, p);
    var t := e.timer;
    if t in s.timers {
      assert TimerOk(s, t);
      var q := s.timers[t].player;
      if s.timers[t].ReconnectTimer? {
        FireShows(s, t, q, e.offered, e.hasAudio, p);
        if IsActive(s, p) && s.players[p].feed == s.players[q].feed {
          OneLive(s, p, q);
        }
      } else {
        FireDisconnectShows(s, t, q, e.disconnected, e.stale, p);
      }
    }
    hide Inv, FireReconnect, FireDisconnect, HasReconnect, HasDisconnect;
  }

  lemma StopEventShows(s: Page, e: Event, p: nat)
    requires Inv(s) && p in s.players && (e.UserStarts? || e.UserStops? || e.StopsSilently? || e.PreferencesChange?)
    ensures if LosesTimers(s, e, p) then Shows(Apply(s, e), p, s.players[p].feed, false, false)
            else ShowsAs(Apply(s, e), s, p)
  {
    match e {
      case UserStarts(f, offered, hasAudio) => StartShows(s, f, offered, hasAudio, p);
      case UserStops(f) => StopShows(s, f, false, p);
      case StopsSilently(f) => StopShows(s, f, true, p);
      case PreferencesChange(f, stop) => StopShows(s, f, false, p); ForgetThenStop(s, f);
    }
    hide Inv, StartFeed, Stop;
  }

  lemma ScheduleEventShows(s: Page, e: Event, p: nat)
    requires Inv(s) && p in s.players && (e.ConnectionFails? || e.CodecFallsBack? || e.ConnectionDrops?)
    ensures var q, s1 := s.players[p], Apply(s, e);
            Shows(s1, p, q.feed,
                  GivesUp(s, e, q.feed, p) || (q.reconnectTimer.Some? && !LosesTimers(s, e, p)),
                  GetsGrace(s, e, q.feed, p) || (q.disconnectTimer.Some? && !LosesTimers(s, e, p) && !GraceEnds(s, e, p)))
  {
    TimersAre(s, p);
    LiveIsActive(s, s.players[p].feed, p);
    hide Inv, HasReconnect, HasDisconnect, Schedule, ScheduleDisconnect;
    match e {
      case ConnectionFails(q) =>
        if q in s.players {
          ScheduleShows(s, q, false, p);
        }
      case CodecFallsBack(q) =>
        if q in s.players {
          ScheduleShows(s, q, true, p);
        }
      case ConnectionDrops(q) =>
        if q in s.players {
          ScheduleDisconnectShows(s, q, p);
        }
    }
  }

  lemma EventShows(s: Page, e: Event, p: nat)
    requires Inv(s) && p in s.players
    ensures var q, s1 := s.players[p], Apply(s, e);
            Shows(s1, p, q.feed,
                  GivesUp(s, e, q.feed, p) || (q.reconnectTimer.Some? && !LosesTimers(s, e, p)),
                  GetsGrace(s, e, q.feed, p) || (q.disconnectTimer.Some? && !LosesTimers(s, e, p) && !GraceEnds(s, e, p)))
  {
    hide Inv, FireReconnect, FireDisconnect, HasReconnect, HasDisconnect, StartFeed, Stop, MarkRecent;
    match e {
      case TimerFires(_, _, _, _, _) => TimerEventShows(s, e, p);
      case ConnectionFails(_) => ScheduleEventShows(s, e, p);
      case CodecFallsBack(_) => ScheduleEventShows(s, e, p);
      case ConnectionDrops(_) => ScheduleEventShows(s, e, p);
      case TrackArrives(_) => PlainShows(s, e, p);
      case PacketsArrive(_) => PlainShows(s, e, p);
      case Healthy(_) => PlainShows(s, e, p);
      case _ => StopEventShows(s, e, p);
    }
  }

  lemma TimersStep(s: Page, e: Event, p: nat)
    requires Inv(s) && p in s.players
    ensures var s1 := Apply(s, e);
            var feed := s.players[p].feed;
            && (HasReconnect(s1, p) <==> GivesUp(s, e, feed, p) || (HasReconnect(s, p) && !LosesTimers(s, e, p)))
            && (HasDisconnect(s1, p) <==>
                  GetsGrace(s, e, feed, p) || (HasDisconnect(s, p) && !LosesTimers(s, e, p) && !GraceEnds(s, e, p)))
  {
    ApplyKeepsInv(s, e);
    EventShows(s, e, p);
    TimersAre(s, p);
    TimersAre(Apply(s, e), p);
    hide Inv, Apply, HasReconnect, HasDisconnect, GivesUp, GetsGrace, LosesTimers, GraceEnds;
  }
}
