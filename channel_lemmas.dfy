/** What the operation channel's transitions promise, proved on the state machine. */
module ChannelProperties {
  import opened Common
  import opened Transport
  import opened ChannelSpec

  // ---------------------------------------------------------------- invariant

  lemma InitialInv()
    ensures Inv(Initial) && Initial.state == Closed && Quiescent(Initial)
  {
  }

  /** `onServerFailed` keeps the invariant. */
  lemma ServerFailedKeepsInv(f: ChannelFields, env: Env)
    requires Inv(f)
    ensures Inv(OnServerFailed(f, env).next)
  {
  }

  lemma SyncAllKeepsInv(f: ChannelFields, env: Env)
    requires Inv(f)
    ensures Inv(SyncAll(f, env).next)
  {
    if CanSync(f) && !(f.encDec.Some? && env.sendOk) {
      ServerFailedKeepsInv(f, env);
    }
  }

  lemma ConnectKeepsInv(g: ChannelFields, env: Env)
    requires Inv(g) && g.state != Pause && g.state != Shutdown
    ensures Inv(Connect(g, env).next)
  {
    if g.server.Some? {
      if !env.socketOk {
        ServerFailedKeepsInv(g, env);
      } else {
        var h := NewSocket(g);
        assert Inv(h);
        ServerFailedKeepsInv(h, env);
      }
    }
  }

  lemma OpenKeepsInv(f: ChannelFields, env: Env)
    requires Inv(f)
    ensures Inv(OpenConnection(f, env).next)
  {
    if !(f.state == Pause || f.state == Shutdown) {
      ConnectKeepsInv(f.(reconnectScheduled := false), env);
    }
  }

  lemma SyncAckKeepsInv(f: ChannelFields, acked: set<TransportType>, env: Env)
    requires Inv(f)
    ensures Inv(SyncAck(f, acked, env).next)
  {
    if f.state != Opened {
      SyncAllKeepsInv(f.(state := Opened), env);
    } else if |acked| != 1 {
      SyncAllKeepsInv(f, env);
    }
  }

  lemma SetServerKeepsInv(f: ChannelFields, server: Option<ServerInfo>)
    requires Inv(f)
    ensures Inv(SetServer(f, server).next)
  {
  }

  lemma PauseKeepsInv(f: ChannelFields)
    requires Inv(f)
    ensures Inv(PauseChannel(f).next)
  {
  }

  lemma ResumeKeepsInv(f: ChannelFields)
    requires Inv(f)
    ensures Inv(ResumeChannel(f).next)
  {
  }

  lemma ShutdownKeepsInv(f: ChannelFields)
    requires Inv(f)
    ensures Inv(ShutdownChannel(f).next)
  {
  }

  lemma FramesKeepInv(f: ChannelFields, code: ReturnCode, encrypted: bool, decryptOk: bool,
                      reason: DisconnectReason, readSocket: nat, outcome: ReadOutcome, env: Env)
    requires Inv(f)
    ensures Inv(OnConnAck(f, code, env).next)
    ensures Inv(OnSyncResponse(f, encrypted, decryptOk).next)
    ensures Inv(OnDisconnect(f, reason, env).next)
    ensures Inv(OnRead(f, readSocket, outcome, env).next)
  {
    ServerFailedKeepsInv(f, env);
  }

  /** Every call and frame event keeps the invariant. */
  lemma ApplyKeepsInv(f: ChannelFields, e: Event)
    requires Inv(f)
    ensures Inv(Apply(f, e).next)
  {
    if e.ConnAckFrame? || e.SyncResponseFrame? || e.DisconnectFrame? || e.SocketRead? {
      FrameKeepsInv(f, e);
    } else {
      CallKeepsInv(f, e);
    }
  }

  lemma CallKeepsInv(f: ChannelFields, e: Event)
    requires Inv(f) && !e.ConnAckFrame? && !e.SyncResponseFrame? && !e.DisconnectFrame? && !e.SocketRead?
    ensures Inv(Apply(f, e).next)
  {
    match e
    case SetServerCall(server) => SetServerKeepsInv(f, server);
    case OpenConnectionTask(env) => OpenKeepsInv(f, env);
    case SyncAllCall(env) => SyncAllKeepsInv(f, env);
    case SyncAckCall(acked, env) => SyncAckKeepsInv(f, acked, env);
    case PauseCall => PauseKeepsInv(f);
    case ResumeCall => ResumeKeepsInv(f);
    case ShutdownCall => ShutdownKeepsInv(f);
    case _ =>
  }

  lemma FrameKeepsInv(f: ChannelFields, e: Event)
    requires Inv(f) && (e.ConnAckFrame? || e.SyncResponseFrame? || e.DisconnectFrame? || e.SocketRead?)
    ensures Inv(Apply(f, e).next)
  {
    match e
    case ConnAckFrame(code, env) => FramesKeepInv(f, code, false, false, ReasonNone, 0, Data, env);
    case SyncResponseFrame(encrypted, decryptOk) =>
      FramesKeepInv(f, Accepted, encrypted, decryptOk, ReasonNone, 0, Data, Env(true, true, true, Noop));
    case DisconnectFrame(reason, env) => FramesKeepInv(f, Accepted, false, false, reason, 0, Data, env);
    case SocketRead(readSocket, outcome, env) => FramesKeepInv(f, Accepted, false, false, ReasonNone, readSocket, outcome, env);
  }

  /** The invariant holds after any sequence of events. */
  lemma {:induction false} RunKeepsInv(f: ChannelFields, events: seq<Event>)
    requires Inv(f)
    ensures Inv(Run(f, events).next)
    decreases |events|
  {
    if |events| > 0 {
      ApplyKeepsInv(f, events[0]);
      RunKeepsInv(Apply(f, events[0]).next, events[1..]);
    }
  }

  /** Every channel built by the constructor and driven by any events satisfies the invariant. */
  lemma ReachableInv(events: seq<Event>)
    ensures Inv(Run(Initial, events).next)
  {
    RunKeepsInv(Initial, events);
  }

  // ---------------------------------------------------------------- sync

  /**
   * `sync` and `syncAll` never change the fields (a failed `syncAll` send
   * aside); they send nothing unless the channel is OPENED with both
   * multiplexers, a server and a socket; a failed `sync` send is dropped, a
   * failed `syncAll` send fails the server.
   */
  lemma SyncGuards(f: ChannelFields, types: seq<TransportType>, env: Env)
    ensures Sync(f, types, env).next == f
    ensures !CanSync(f) ==> Sync(f, types, env) == Step(f, []) && SyncAll(f, env) == Step(f, [])
    ensures CanSync(f) && f.encDec.Some? && env.sendOk ==>
      Sync(f, types, env).effects == [SentSync(DirectionMap(types))]
      && SyncAll(f, env) == Step(f, [SentSync(SupportedTypes)])
    ensures CanSync(f) && !(f.encDec.Some? && env.sendOk) ==>
      Sync(f, types, env) == Step(f, []) && SyncAll(f, env) == OnServerFailed(f, env)
  {
  }

  /**
   * `sync({t})` on an eligible channel sends a map over exactly the
   * supported types: `t` at its declared direction, every other type `Down`
   * (all `Down` when `t` is unsupported).
   */
  lemma SyncOneTypeDirections(f: ChannelFields, t: TransportType, env: Env)
    requires CanSync(f) && f.encDec.Some? && env.sendOk
    ensures |Sync(f, [t], env).effects| == 1 && Sync(f, [t], env).effects[0].SentSync?
    ensures var m := Sync(f, [t], env).effects[0].directions;
      && m.Keys == SupportedTypes.Keys
      && (t in SupportedTypes ==> m[t] == SupportedTypes[t])
      && (forall k :: k in SupportedTypes && k != t ==> m[k] == Down)
  {
    SingleTypeDirections(t);
  }

  // ---------------------------------------------------------------- setServer

  /** A null server, or a shut-down channel, ignores `setServer`. */
  lemma SetServerIgnored(f: ChannelFields, server: Option<ServerInfo>)
    requires server.None? || f.state == Shutdown
    ensures SetServer(f, server) == Step(f, [])
  {
  }

  /**
   * Otherwise the server and the crypto session are always replaced; a
   * reconnect (close, then a reconnect at delay 0 unless one is pending)
   * happens exactly when the channel is not paused and there was no server,
   * no socket, or another host or port; else nothing else changes.
   */
  lemma SetServerReplacesAndReconnects(f: ChannelFields, s: ServerInfo)
    requires f.state != Shutdown
    ensures var r := SetServer(f, Some(s));
      && r.next.server == Some(s)
      && r.next.encDec == Some(CryptoSession(s.publicKey))
      && (f.state != Pause && NeedsReconnect(f, s) ==>
            && r.next.socket.None? && r.next.executor == Present && r.next.reconnectScheduled
            && r.effects == CloseConnection(f).effects
                            + (if f.reconnectScheduled then [] else [ScheduledReconnect(0)]))
      && (f.state == Pause || !NeedsReconnect(f, s) ==>
            && r.effects == []
            && r.next.socket == f.socket && r.next.state == f.state
            && r.next.reconnectScheduled == f.reconnectScheduled)
  {
  }

  /**
   * Setting a server with the same host and port twice schedules at most
   * the first reconnect: the second call has no effect at all.
   */
  lemma SetServerSameAddressTwice(f: ChannelFields, a: ServerInfo, b: ServerInfo)
    requires a.host == b.host && a.port == b.port
    ensures SetServer(SetServer(f, Some(a)).next, Some(b)).effects == []
  {
    var first := SetServer(f, Some(a));
    if f.state != Shutdown && f.state != Pause {
      SetServerReplacesAndReconnects(f, a);
      if !NeedsReconnect(f, a) {
        assert !NeedsReconnect(first.next, b);
      }
    }
  }

  // ---------------------------------------------------------------- reconnect guard

  /**
   * `scheduleOpenConnectionTask` schedules only with an executor and no
   * pending reconnect, and leaves one pending; so a second call schedules
   * nothing.
   */
  lemma AtMostOnePendingReconnect(f: ChannelFields, p: int, q: int)
    ensures var s := ScheduleOpenConnectionTask(f, p);
      && s.effects == (if !f.reconnectScheduled && f.executor == Present then [ScheduledReconnect(p)] else [])
      && (f.executor == Present ==> s.next.reconnectScheduled)
      && ScheduleOpenConnectionTask(s.next, q) == Step(s.next, [])
  {
  }

  /** `onServerFailed` never clears a pending reconnect. */
  lemma ServerFailedKeepsPendingReconnect(f: ChannelFields, env: Env)
    requires f.reconnectScheduled
    ensures OnServerFailed(f, env).next.reconnectScheduled
  {
  }

  /**
   * The pending-reconnect flag is cleared only by `openConnection` and by
   * destroying the executor (`pause`, `shutdown`): every other event keeps it.
   */
  lemma PendingReconnectClearedOnlyByOpenOrDestroy(f: ChannelFields, e: Event)
    requires f.reconnectScheduled
    requires !e.OpenConnectionTask? && !e.PauseCall? && !e.ShutdownCall?
    ensures Apply(f, e).next.reconnectScheduled
  {
    match e
    case SyncAllCall(env) => ServerFailedKeepsPendingReconnect(f, env);
    case SyncAckCall(acked, env) =>
      if f.state != Opened {
        ServerFailedKeepsPendingReconnect(f.(state := Opened), env);
      } else {
        ServerFailedKeepsPendingReconnect(f, env);
      }
    case ConnAckFrame(code, env) => ServerFailedKeepsPendingReconnect(f, env);
    case DisconnectFrame(reason, env) => ServerFailedKeepsPendingReconnect(f, env);
    case SocketRead(readSocket, outcome, env) => ServerFailedKeepsPendingReconnect(f, env);
    case _ =>
  }

  // ---------------------------------------------------------------- lifecycle

  /** `pause` in PAUSE has no effect at all. */
  lemma PauseIdempotentInPause(f: ChannelFields)
    requires f.state == Pause
    ensures PauseChannel(f) == Step(f, [])
  {
  }

  /**
   * `pause` without a live socket ends in PAUSE with nothing alive (from
   * SHUTDOWN too), so a second `pause` does nothing.
   */
  lemma PauseWithoutSocket(f: ChannelFields)
    requires Inv(f) && f.state != Pause && f.socket.None?
    ensures var p := PauseChannel(f);
      p.next.state == Pause && Quiescent(p.next) && p.effects == []
      && PauseChannel(p.next) == Step(p.next, [])
  {
  }

  /**
   * `pause` with a live socket: `closeConnection` runs after the state is
   * set to PAUSE and overwrites it with CLOSED, so the channel ends CLOSED
   * without an executor, and a following `resume` is ignored.
   */
  lemma PauseOfLiveConnectionEndsClosed(f: ChannelFields)
    requires Inv(f) && f.state != Pause && f.state != Shutdown && f.socket.Some?
    ensures var p := PauseChannel(f);
      && p.next.state == Closed && Quiescent(p.next) && p.effects == [SentDisconnect]
      && ResumeChannel(p.next) == Step(p.next, [])
  {
  }

  /** `resume` acts only from PAUSE: it becomes CLOSED with an executor and schedules a reconnect at once. */
  lemma ResumeOnlyFromPause(f: ChannelFields)
    requires Inv(f)
    ensures f.state != Pause ==> ResumeChannel(f) == Step(f, [])
    ensures f.state == Pause ==>
      ResumeChannel(f) == Step(f.(state := Closed, executor := Present, reconnectScheduled := true), [ScheduledReconnect(0)])
  {
  }

  /** `openConnection` does nothing in PAUSE or SHUTDOWN. */
  lemma OpenRefusedWhenPausedOrShutdown(f: ChannelFields, env: Env)
    requires f.state == Pause || f.state == Shutdown
    ensures OpenConnection(f, env) == Step(f, [])
  {
  }

  /**
   * A successful `openConnection` holds a new socket, has sent CONNECT to
   * the current server, has no reconnect pending, and leaves the state as it
   * was (OPENED waits for the first SYNC-RESPONSE or acknowledgement).
   */
  lemma OpenConnectionSucceeds(f: ChannelFields, env: Env)
    requires f.state != Pause && f.state != Shutdown && f.server.Some?
    requires env.socketOk && env.sendOk && f.multiplexer == Present && f.encDec.Some?
    ensures var r := OpenConnection(f, env);
      && r.next.socket == Some(f.socketsCreated)
      && r.effects == [SentConnect(f.server.value)]
      && !r.next.reconnectScheduled && r.next.state == f.state
      && (f.executor == Present ==>
            r.next.readTask == Running && r.next.pingTask == Running && r.next.readTaskSocket == r.next.socket)
      && (f.executor == Absent ==> r.next.readTask == f.readTask && r.next.pingTask == f.pingTask)
  {
  }

  /**
   * `closeConnection` with a live socket drops it and becomes CLOSED unless
   * SHUTDOWN; without one it leaves the state untouched and sends nothing.
   */
  lemma CloseConnectionCases(f: ChannelFields)
    ensures var c := CloseConnection(f);
      && c.next.socket.None? && c.next.pingTask != Running && c.next.readTask != Running
      && (f.socket.Some? ==>
            c.effects == [SentDisconnect] && c.next.state == (if f.state == Shutdown then Shutdown else Closed))
      && (f.socket.None? ==> c.effects == [] && c.next.state == f.state)
  {
  }

  /**
   * SHUTDOWN is not terminal in this code: `pause` moves it to PAUSE, and an
   * acknowledgement or a readable SYNC-RESPONSE moves it to OPENED.
   */
  lemma ShutdownIsNotTerminal(f: ChannelFields, acked: set<TransportType>, env: Env)
    requires Inv(f) && f.state == Shutdown
    ensures PauseChannel(f).next.state == Pause
    ensures OnSyncResponse(f, false, false).next.state == Opened
    ensures SyncAck(f, acked, env).next.state == Opened
  {
  }

  // ---------------------------------------------------------------- failure routing

  /** An effect that notifies the failover manager: a server failure or a failover request. */
  predicate IsNotification(x: Effect)
  {
    x.ServerFailed? || x.Failover?
  }

  /** The failover notifications among some effects, in order. */
  function Notifications(effects: seq<Effect>): (r: seq<Effect>)
    ensures |r| <= |effects|
    ensures forall i :: 0 <= i < |r| ==> IsNotification(r[i])
  {
    if |effects| == 0 then []
    else (if IsNotification(effects[0]) then [effects[0]] else []) + Notifications(effects[1..])
  }

  lemma {:induction false} NotificationsOfConcat(a: seq<Effect>, b: seq<Effect>)
    ensures Notifications(a + b) == Notifications(a) + Notifications(b)
    decreases |a|
  {
    if |a| == 0 {
      assert a + b == b;
    } else {
      var head := if IsNotification(a[0]) then [a[0]] else [];
      assert (a + b)[0] == a[0];
      assert (a + b)[1..] == a[1..] + b;
      assert Notifications(a + b) == head + Notifications(a[1..] + b);
      NotificationsOfConcat(a[1..], b);
      assert Notifications(a) == head + Notifications(a[1..]);
    }
  }

  /**
   * `onServerFailed` always closes, then takes exactly one branch: with a
   * checker reporting no connectivity it asks for a failover decision (NOOP
   * does nothing more, RETRY schedules a reconnect after the retry period,
   * STOP_APP exits); otherwise it reports the current server failed.
   */
  lemma ServerFailureRouting(f: ChannelFields, env: Env)
    ensures OnServerFailed(f, env).next.socket.None?
    ensures f.checker == Present && !env.connectivity && env.decision.Noop? ==>
      OnServerFailed(f, env) == Step(CloseConnection(f).next, CloseConnection(f).effects + [Failover(NoConnectivity)])
    ensures f.checker == Present && !env.connectivity && env.decision.Retry? ==>
      var c := CloseConnection(f);
      var s := ScheduleOpenConnectionTask(c.next, env.decision.retryPeriod);
      OnServerFailed(f, env) == Step(s.next, c.effects + [Failover(NoConnectivity)] + s.effects)
    ensures f.checker == Present && !env.connectivity && env.decision.StopApp? ==>
      OnServerFailed(f, env) ==
        Step(CloseConnection(f).next, CloseConnection(f).effects + [Failover(NoConnectivity), Exit(ExitFailure)])
    ensures !(f.checker == Present && !env.connectivity) ==>
      OnServerFailed(f, env) == Step(CloseConnection(f).next, CloseConnection(f).effects + [ServerFailed(f.server)])
  {
  }

  /** Whatever the branch, `onServerFailed` notifies the failover manager exactly once. */
  lemma ServerFailureNotifiesOnce(f: ChannelFields, env: Env)
    ensures |Notifications(OnServerFailed(f, env).effects)| == 1
  {
    var c := CloseConnection(f);
    assert Notifications(c.effects) == [] by {
      if f.socket.Some? {
        assert Notifications(c.effects) == [] + Notifications([]);
      }
    }
    var r := OnServerFailed(f, env);
    if f.checker == Present && !env.connectivity {
      var tail: seq<Effect> := match env.decision
        case Noop => []
        case Retry(p) => ScheduleOpenConnectionTask(c.next, p).effects
        case StopApp => [Exit(ExitFailure)];
      assert r.effects == c.effects + [Failover(NoConnectivity)] + tail;
      assert Notifications(tail) == [] by {
        if tail != [] {
          assert Notifications(tail) == [] + Notifications([]);
        }
      }
      assert Notifications([Failover(NoConnectivity)]) == [Failover(NoConnectivity)] + Notifications([]);
      NotificationsOfConcat(c.effects, [Failover(NoConnectivity)]);
      NotificationsOfConcat(c.effects + [Failover(NoConnectivity)], tail);
    } else {
      assert Notifications([ServerFailed(f.server)]) == [ServerFailed(f.server)] + Notifications([]);
      NotificationsOfConcat(c.effects, [ServerFailed(f.server)]);
    }
  }

  // ---------------------------------------------------------------- frame listeners

  /**
   * CONNACK: ACCEPTED changes nothing; any other code takes the failure
   * path, and for bad credentials the client state is cleaned first.
   */
  lemma ConnAckHandling(f: ChannelFields, code: ReturnCode, env: Env)
    ensures code == Accepted ==> OnConnAck(f, code, env) == Step(f, [])
    ensures code == RefuseBadCredentials ==>
      OnConnAck(f, code, env) == Step(OnServerFailed(f, env).next, [CleanState] + OnServerFailed(f, env).effects)
    ensures code.OtherRefusal? ==> OnConnAck(f, code, env) == OnServerFailed(f, env)
  {
  }

  /**
   * DISCONNECT with reason NONE only closes and never notifies the failover
   * manager; any other reason takes the failure path, which notifies it
   * exactly once.
   */
  lemma DisconnectHandling(f: ChannelFields, reason: DisconnectReason, env: Env)
    ensures reason == ReasonNone ==>
      OnDisconnect(f, reason, env) == CloseConnection(f)
      && Notifications(OnDisconnect(f, reason, env).effects) == []
    ensures reason != ReasonNone ==>
      OnDisconnect(f, reason, env) == OnServerFailed(f, env)
      && |Notifications(OnDisconnect(f, reason, env).effects)| == 1
  {
    if reason != ReasonNone {
      ServerFailureNotifiesOnce(f, env);
    } else {
      var c := CloseConnection(f);
      if f.socket.Some? {
        assert Notifications(c.effects) == [] + Notifications([]);
      }
    }
  }

  /**
   * `syncAck` outside OPENED becomes OPENED, reports the server connected and
   * then syncs everything; in OPENED one acknowledged type leads to `sync` of
   * that type and any other count to `syncAll`.
   */
  lemma SyncAckHandling(f: ChannelFields, acked: set<TransportType>, env: Env)
    ensures f.state != Opened ==>
      var r := SyncAck(f, acked, env);
      && |r.effects| >= 1 && r.effects[0] == ServerConnected(f.server)
      && r.effects[1..] == SyncAll(f.(state := Opened), env).effects
      && r.next == SyncAll(f.(state := Opened), env).next
    ensures f.state == Opened && |acked| != 1 ==> SyncAck(f, acked, env) == SyncAll(f, env)
    ensures f.state == Opened && |acked| == 1 ==> forall t :: t in acked ==> SyncAck(f, acked, env) == Sync(f, [t], env)
  {
    if f.state == Opened && |acked| == 1 {
      forall t | t in acked
        ensures SyncAck(f, acked, env) == Sync(f, [t], env)
      {
        var u :| u in acked && SyncAck(f, acked, env) == Sync(f, [u], env);
        SingletonMember(acked, t, u);
      }
    }
  }

  /** A set of one element has no two different members. */
  lemma SingletonMember<T>(s: set<T>, a: T, b: T)
    requires |s| == 1 && a in s && b in s
    ensures a == b
  {
    var rest := s - {a};
    assert |rest| == |s| - |{a}| == 0;
    assert b in rest || b == a;
  }

  /**
   * A SYNC-RESPONSE whose body is available becomes OPENED and reports the
   * server connected every time, even when already OPENED; a failed decrypt
   * changes nothing.
   */
  lemma SyncResponseHandling(f: ChannelFields, encrypted: bool, decryptOk: bool)
    ensures (!encrypted || (f.encDec.Some? && decryptOk)) ==>
      OnSyncResponse(f, encrypted, decryptOk) == Step(f.(state := Opened), [Demultiplexed, ServerConnected(f.server)])
    ensures encrypted && !decryptOk ==> OnSyncResponse(f, encrypted, decryptOk) == Step(f, [])
  {
  }

  /**
   * A read task whose socket has been replaced is stale: once a new
   * connection is open, a read error from any earlier socket changes
   * nothing, while one from the current socket fails the server.
   */
  lemma StaleReadTaskIgnored(f: ChannelFields, env: Env, readSocket: nat, env2: Env)
    requires f.state != Pause && f.state != Shutdown && f.server.Some?
    requires env.socketOk && env.sendOk && f.multiplexer == Present && f.encDec.Some?
    requires readSocket < f.socketsCreated
    ensures var g := OpenConnection(f, env).next;
      && OnRead(g, readSocket, ReadError, env2) == Step(g, [])
      && OnRead(g, f.socketsCreated, ReadError, env2) == OnServerFailed(g, env2)
  {
  }
}
