/**
 * `DefaultOperationTcpChannel`: the client's operation channel as an object
 * whose methods update its fields in place. Every method is proved to do
 * what the matching function of `ChannelSpec` says, so the properties of
 * `ChannelProperties` hold of it; the public methods keep the channel
 * invariant.
 */
module OperationChannel {
  import opened Common
  import opened Transport
  import opened ChannelSpec
  import P = ChannelProperties

  class DefaultOperationTcpChannel {
    var channelState: ChannelState
    /** The identity of the live socket, if any. */
    var socket: Option<nat>
    var currentServer: Option<ServerInfo>
    var encDec: Option<CryptoSession>
    var executor: Presence
    var isOpenConnectionScheduled: bool
    var pingTaskFuture: TaskFuture
    var readTaskFuture: TaskFuture
    /** The socket the latest read task was submitted to read from. */
    var readTaskSocket: Option<nat>
    var multiplexer: Presence
    var demultiplexer: Presence
    var connectivityChecker: Presence
    /** How many sockets this channel has created; the next one takes this number. */
    var socketsCreated: nat
    /** The outward effects performed so far, oldest first. */
    ghost var effects: seq<Effect>

    function Fields(): ChannelFields
      reads this
    {
      ChannelFields(channelState, socket, currentServer, encDec, executor, isOpenConnectionScheduled,
                    pingTaskFuture, readTaskFuture, readTaskSocket, multiplexer, demultiplexer, connectivityChecker, socketsCreated)
    }

    ghost predicate Valid()
      reads this
    {
      Inv(Fields())
    }

    /** The fields are now `s.next` and the effects `s.effects` were appended. */
    twostate predicate Performed(s: Step)
      reads this
    {
      Fields() == s.next && effects == old(effects) + s.effects
    }

    constructor ()
      ensures Valid() && Fields() == Initial && effects == []
    {
      channelState := Closed;
      socket := None;
      currentServer := None;
      encDec := None;
      executor := Absent;
      isOpenConnectionScheduled := false;
      pingTaskFuture := NoFuture;
      readTaskFuture := NoFuture;
      readTaskSocket := None;
      multiplexer := Absent;
      demultiplexer := Absent;
      connectivityChecker := Absent;
      socketsCreated := 0;
      effects := [];
    }

    method CloseConnection()
      modifies this
      ensures Performed(ChannelSpec.CloseConnection(old(Fields())))
    {
      pingTaskFuture := Cancel(pingTaskFuture);
      readTaskFuture := Cancel(readTaskFuture);
      if socket.Some? {
        effects := effects + [SentDisconnect];
        socket := None;
        if channelState != ChannelState.Shutdown {
          channelState := Closed;
        }
      }
    }

    method ScheduleOpenConnectionTask(retryPeriod: int)
      modifies this
      ensures Performed(ChannelSpec.ScheduleOpenConnectionTask(old(Fields()), retryPeriod))
    {
      if !isOpenConnectionScheduled {
        if executor == Present {
          effects := effects + [ScheduledReconnect(retryPeriod)];
          isOpenConnectionScheduled := true;
        }
      }
    }

    method OnServerFailed(env: Env)
      modifies this
      ensures Performed(ChannelSpec.OnServerFailed(old(Fields()), env))
    {
      CloseConnection();
      if connectivityChecker == Present && !env.connectivity {
        effects := effects + [Failover(NoConnectivity)];
        match env.decision {
          case Noop =>
          case Retry(period) => ScheduleOpenConnectionTask(period);
          case StopApp => effects := effects + [Exit(ExitFailure)];
        }
      } else {
        effects := effects + [ServerFailed(currentServer)];
      }
    }

    method OpenConnection(env: Env)
      requires Valid()
      modifies this
      ensures Valid() && Performed(ChannelSpec.OpenConnection(old(Fields()), env))
    {
      if channelState == ChannelState.Pause || channelState == ChannelState.Shutdown {
        return;
      }
      isOpenConnectionScheduled := false;
      Connect(env);
    }

    /** The `try` block of `openConnection`; any failure in it goes to `onServerFailed`. */
    method Connect(env: Env)
      requires Valid() && channelState != ChannelState.Pause && channelState != ChannelState.Shutdown
      modifies this
      ensures Valid() && Performed(ChannelSpec.Connect(old(Fields()), env))
    {
      ghost var g := Fields();
      if currentServer.Some? {
        if !env.socketOk {
          OnServerFailed(env);
        } else {
          socket := Some(socketsCreated);
          socketsCreated := socketsCreated + 1;
          assert Fields() == NewSocket(g);
          if !(multiplexer == Present && encDec.Some? && env.sendOk) {
            OnServerFailed(env);
          } else {
            effects := effects + [SentConnect(currentServer.value)];
            ScheduleReadTask(socket.value);
            SchedulePingTask();
          }
        }
      }
      P.ConnectKeepsInv(g, env);
    }

    method ScheduleReadTask(sock: nat)
      modifies this
      ensures Fields() == ChannelSpec.ScheduleReadTask(old(Fields()), sock) && effects == old(effects)
    {
      if executor == Present {
        readTaskFuture := Running;
        readTaskSocket := Some(sock);
      }
    }

    method SchedulePingTask()
      modifies this
      ensures Fields() == ChannelSpec.SchedulePingTask(old(Fields())) && effects == old(effects)
    {
      if executor == Present {
        pingTaskFuture := Running;
      }
    }

    method Sync(types: seq<TransportType>, env: Env)
      requires Valid()
      modifies this
      ensures Valid() && Performed(ChannelSpec.Sync(old(Fields()), types, env))
    {
      if channelState == ChannelState.Shutdown || channelState == ChannelState.Pause || channelState != Opened {
        return;
      }
      if multiplexer == Absent || demultiplexer == Absent {
        return;
      }
      if currentServer.None? || socket.None? {
        return;
      }
      var typeMap := BuildDirectionMap(types);
      if encDec.Some? && env.sendOk {
        effects := effects + [SentSync(typeMap)];
      }
    }

    method SyncAll(env: Env)
      requires Valid()
      modifies this
      ensures Valid() && Performed(ChannelSpec.SyncAll(old(Fields()), env))
    {
      ghost var f0 := Fields();
      if channelState == ChannelState.Shutdown || channelState == ChannelState.Pause || channelState != Opened {
        // the channel is not open: nothing to synchronise
      } else if multiplexer == Present && demultiplexer == Present {
        if currentServer.Some? && socket.Some? {
          if encDec.Some? && env.sendOk {
            effects := effects + [SentSync(SupportedTypes)];
          } else {
            OnServerFailed(env);
          }
        }
      }
      P.SyncAllKeepsInv(f0, env);
    }

    method SyncAck(types: set<TransportType>, env: Env)
      requires Valid()
      modifies this
      ensures Valid() && Performed(ChannelSpec.SyncAck(old(Fields()), types, env))
    {
      ghost var f0 := Fields();
      ghost var e0 := effects;
      if channelState != Opened {
        channelState := Opened;
        effects := effects + [ServerConnected(currentServer)];
        ghost var s := ChannelSpec.SyncAll(f0.(state := Opened), env);
        SyncAll(env);
        assert effects == e0 + ([ServerConnected(f0.server)] + s.effects);
        P.SyncAckHandling(f0, types, env);
        assert ChannelSpec.SyncAck(f0, types, env) == Step(s.next, [ServerConnected(f0.server)] + s.effects);
      } else if |types| == 1 {
        var t :| t in types;
        Sync([t], env);
        P.SyncAckHandling(f0, types, env);
      } else {
        SyncAll(env);
        P.SyncAckHandling(f0, types, env);
      }
    }

    method OnConnAck(code: ReturnCode, env: Env)
      requires Valid()
      modifies this
      ensures Valid() && Performed(ChannelSpec.OnConnAck(old(Fields()), code, env))
    {
      ghost var f0 := Fields();
      if code != Accepted {
        if code == RefuseBadCredentials {
          effects := effects + [CleanState];
        }
        OnServerFailed(env);
      }
      P.FramesKeepInv(f0, code, false, false, ReasonNone, 0, Data, env);
    }

    method OnSyncResponse(encrypted: bool, decryptOk: bool)
      requires Valid()
      modifies this
      ensures Valid() && Performed(ChannelSpec.OnSyncResponse(old(Fields()), encrypted, decryptOk))
    {
      var bodyAvailable: bool;
      if encrypted {
        bodyAvailable := encDec.Some? && decryptOk;
      } else {
        bodyAvailable := true;
      }
      if bodyAvailable {
        effects := effects + [Demultiplexed];
        channelState := Opened;
        effects := effects + [ServerConnected(currentServer)];
      }
    }

    method OnDisconnect(reason: DisconnectReason, env: Env)
      requires Valid()
      modifies this
      ensures Valid() && Performed(ChannelSpec.OnDisconnect(old(Fields()), reason, env))
    {
      ghost var f0 := Fields();
      if reason != ReasonNone {
        OnServerFailed(env);
      } else {
        CloseConnection();
      }
      P.FramesKeepInv(f0, Accepted, false, false, reason, 0, Data, env);
    }

    /** One pass of the read task's loop for a read task bound to `readSocket`. */
    method OnRead(readSocket: nat, outcome: ReadOutcome, env: Env)
      requires Valid()
      modifies this
      ensures Valid() && Performed(ChannelSpec.OnRead(old(Fields()), readSocket, outcome, env))
    {
      ghost var f0 := Fields();
      match outcome {
        case Data =>
        case EndOfStream => OnServerFailed(env);
        case ReadError =>
          if socket == Some(readSocket) {
            OnServerFailed(env);
          }
      }
      P.FramesKeepInv(f0, Accepted, false, false, ReasonNone, readSocket, outcome, env);
    }

    method SetServer(server: Option<ServerInfo>)
      requires Valid()
      modifies this
      ensures Valid() && Performed(ChannelSpec.SetServer(old(Fields()), server))
    {
      ghost var f0 := Fields();
      ghost var e0 := effects;
      if server.Some? && channelState != ChannelState.Shutdown {
        var oldServer := currentServer;
        currentServer := server;
        encDec := Some(CryptoSession(server.value.publicKey));
        ghost var g := f0.(server := server, encDec := Some(CryptoSession(server.value.publicKey)));
        if channelState != ChannelState.Pause {
          if executor == Absent {
            executor := Present;
          }
          ghost var h := g.(executor := Present);
          assert Fields() == h;
          if oldServer.None? || socket.None? || oldServer.value.host != server.value.host
             || oldServer.value.port != server.value.port {
            assert NeedsReconnect(f0, server.value);
            ghost var c := ChannelSpec.CloseConnection(h);
            ghost var o := ChannelSpec.ScheduleOpenConnectionTask(c.next, 0);
            assert ChannelSpec.SetServer(f0, server) == Step(o.next, c.effects + o.effects);
            CloseConnection();
            assert Fields() == c.next && effects == e0 + c.effects;
            ScheduleOpenConnectionTask(0);
            assert effects == e0 + (c.effects + o.effects);
          } else {
            assert !NeedsReconnect(f0, server.value);
            assert ChannelSpec.SetServer(f0, server) == Step(h, []);
          }
        } else {
          assert ChannelSpec.SetServer(f0, server) == Step(g, []);
        }
      }
      P.SetServerKeepsInv(f0, server);
    }

    method SetMultiplexer(present: bool)
      requires Valid()
      modifies this
      ensures Valid() && Performed(ChannelSpec.SetMultiplexer(old(Fields()), present))
    {
      if present {
        multiplexer := Present;
      }
    }

    method SetDemultiplexer(present: bool)
      requires Valid()
      modifies this
      ensures Valid() && Performed(ChannelSpec.SetDemultiplexer(old(Fields()), present))
    {
      if present {
        demultiplexer := Present;
      }
    }

    method SetConnectivityChecker(present: bool)
      requires Valid()
      modifies this
      ensures Valid() && Performed(ChannelSpec.SetConnectivityChecker(old(Fields()), present))
    {
      connectivityChecker := if present then Present else Absent;
    }

    method DestroyExecutor()
      modifies this
      ensures Performed(Step(ChannelSpec.DestroyExecutor(old(Fields())), []))
    {
      if executor == Present {
        isOpenConnectionScheduled := false;
        executor := Absent;
      }
    }

    method Shutdown()
      requires Valid()
      modifies this
      ensures Valid() && Performed(ChannelSpec.ShutdownChannel(old(Fields())))
    {
      ghost var f0 := Fields();
      ghost var e0 := effects;
      channelState := ChannelState.Shutdown;
      ghost var c := ChannelSpec.CloseConnection(f0.(state := ChannelState.Shutdown));
      CloseConnection();
      assert Fields() == c.next && effects == e0 + c.effects;
      DestroyExecutor();
      P.ShutdownKeepsInv(f0);
    }

    method Pause()
      requires Valid()
      modifies this
      ensures Valid() && Performed(ChannelSpec.PauseChannel(old(Fields())))
    {
      ghost var f0 := Fields();
      ghost var e0 := effects;
      if channelState != ChannelState.Pause {
        channelState := ChannelState.Pause;
        ghost var c := ChannelSpec.CloseConnection(f0.(state := ChannelState.Pause));
        CloseConnection();
        assert Fields() == c.next && effects == e0 + c.effects;
        DestroyExecutor();
      }
      P.PauseKeepsInv(f0);
    }

    method Resume()
      requires Valid()
      modifies this
      ensures Valid() && Performed(ChannelSpec.ResumeChannel(old(Fields())))
    {
      ghost var f0 := Fields();
      if channelState == ChannelState.Pause {
        channelState := Closed;
        if executor == Absent {
          executor := Present;
        }
        ScheduleOpenConnectionTask(0);
      }
      P.ResumeKeepsInv(f0);
    }
  }
}
