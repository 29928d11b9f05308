/**
 * The operation TCP channel as a state machine over a snapshot of its
 * fields. Each function is one method or frame listener of the channel:
 * it maps the fields before the call, and the outcomes of the environment
 * (socket creation, sends, the connectivity probe, the failover decision),
 * to the fields after the call and the outward effects in order.
 */
module ChannelSpec {
  import opened Common
  import opened Transport

  datatype ChannelState = Shutdown | Pause | Closed | Opened

  /** `IPTransportInfo`: where the channel connects and whose key it encrypts for. */
  datatype ServerInfo = ServerInfo(host: string, port: int, publicKey: seq<bv8>)

  /** `MessageEncoderDecoder`, known here only by the destination key it is bound to. */
  datatype CryptoSession = CryptoSession(serverKey: seq<bv8>)

  /** CONNACK return codes; the refusals other than bad credentials are not told apart. */
  datatype ReturnCode = Accepted | RefuseBadCredentials | OtherRefusal(code: nat)

  /** DISCONNECT reasons: `NONE` or some failure reason. */
  datatype DisconnectReason = ReasonNone | FailureReason(code: nat)

  /** What one read of the socket in the read task yields. */
  datatype ReadOutcome = Data | EndOfStream | ReadError

  datatype FailoverStatus = NoConnectivity

  /** The failover manager's answer to `onFailover`. */
  datatype FailoverDecision = Noop | Retry(retryPeriod: int) | StopApp

  /** `EXIT_FAILURE`, the status passed to `System.exit` on STOP_APP. */
  const ExitFailure: int := 1

  /** Everything the channel does outside its own fields, in order. */
  datatype Effect =
    | SentConnect(to: ServerInfo)
    | SentDisconnect
    | SentSync(directions: map<TransportType, ChannelDirection>)
    | Demultiplexed
    | ServerConnected(server: Option<ServerInfo>)
    | ServerFailed(server: Option<ServerInfo>)
    | Failover(status: FailoverStatus)
    | CleanState
    | ScheduledReconnect(delay: int)
    | Exit(exitCode: int)

  /**
   * The environment's answers during one call: whether `createSocket`
   * succeeds, whether the outbound CONNECT or SYNC-REQUEST is compiled,
   * encrypted and written without an exception, what `checkConnectivity()`
   * reports, and what `onFailover(NO_CONNECTIVITY)` decides.
   */
  datatype Env = Env(socketOk: bool, sendOk: bool, connectivity: bool, decision: FailoverDecision)

  /** Whether a reference the code only tests against null is set. */
  datatype Presence = Absent | Present

  /** A task future field: null, a submitted task, or a task cancelled by `closeConnection`. */
  datatype TaskFuture = NoFuture | Running | Cancelled

  /** `closeConnection` cancels a future that is set and not yet cancelled. */
  function Cancel(t: TaskFuture): TaskFuture
  {
    if t == Running then Cancelled else t
  }

  /**
   * The channel's fields. References are reduced to what the code tests:
   * `socket` is an identity (the count of sockets created before it), the
   * executor and the collaborators are present or null, and the futures are
   * null, running or cancelled.
   */
  datatype ChannelFields = ChannelFields(
    state: ChannelState,
    socket: Option<nat>,
    server: Option<ServerInfo>,
    encDec: Option<CryptoSession>,
    executor: Presence,
    reconnectScheduled: bool,
    pingTask: TaskFuture,
    readTask: TaskFuture,
    readTaskSocket: Option<nat>,
    multiplexer: Presence,
    demultiplexer: Presence,
    checker: Presence,
    socketsCreated: nat)

  /** The fields after a call and the effects it performed. */
  datatype Step = Step(next: ChannelFields, effects: seq<Effect>)

  /** A freshly constructed channel. */
  const Initial: ChannelFields :=
    ChannelFields(Closed, None, None, None, Absent, false, NoFuture, NoFuture, None, Absent, Absent, Absent, 0)

  /** `closeConnection`: cancel both futures; with a socket, say DISCONNECT, drop it and become CLOSED unless SHUTDOWN. */
  function CloseConnection(f: ChannelFields): Step
  {
    var g := f.(pingTask := Cancel(f.pingTask), readTask := Cancel(f.readTask));
    if f.socket.Some? then
      Step(g.(socket := None, state := if f.state == Shutdown then Shutdown else Closed), [SentDisconnect])
    else
      Step(g, [])
  }

  /** `scheduleOpenConnectionTask`: ignored while a reconnect is pending or without an executor. */
  function ScheduleOpenConnectionTask(f: ChannelFields, retryPeriod: int): Step
  {
    if !f.reconnectScheduled && f.executor == Present then
      Step(f.(reconnectScheduled := true), [ScheduledReconnect(retryPeriod)])
    else
      Step(f, [])
  }

  /**
   * `onServerFailed`: close, then either apply the failover decision for a
   * lost connectivity, or report the server to the failover manager.
   */
  function OnServerFailed(f: ChannelFields, env: Env): Step
  {
    var c := CloseConnection(f);
    if f.checker == Present && !env.connectivity then
      match env.decision
      case Noop => Step(c.next, c.effects + [Failover(NoConnectivity)])
      case Retry(period) =>
        var s := ScheduleOpenConnectionTask(c.next, period);
        Step(s.next, c.effects + [Failover(NoConnectivity)] + s.effects)
      case StopApp => Step(c.next, c.effects + [Failover(NoConnectivity), Exit(ExitFailure)])
    else
      Step(c.next, c.effects + [ServerFailed(c.next.server)])
  }

  /**
   * `openConnection`: refused in PAUSE and SHUTDOWN; otherwise clear the
   * pending-reconnect flag, create a socket, send CONNECT and start the read
   * and ping tasks. A failed socket or send takes the failure path. With no
   * server the null dereference in the handler's own log call escapes, so
   * only the flag has changed.
   */
  function OpenConnection(f: ChannelFields, env: Env): Step
  {
    if f.state == Pause || f.state == Shutdown then Step(f, [])
    else Connect(f.(reconnectScheduled := false), env)
  }

  /** The `try` block of `openConnection` together with its handler. */
  function Connect(g: ChannelFields, env: Env): Step
  {
    if g.server.None? then Step(g, [])
    else if !env.socketOk then OnServerFailed(g, env)
    else ConnectOnSocket(NewSocket(g), env)
  }

  /** `createSocket` succeeded: the new socket is numbered by the sockets created before it. */
  function NewSocket(g: ChannelFields): ChannelFields
  {
    g.(socket := Some(g.socketsCreated), socketsCreated := g.socketsCreated + 1)
  }

  /** `sendConnect`, then `scheduleReadTask` and `schedulePingTask`; a failed send goes to `onServerFailed`. */
  function ConnectOnSocket(h: ChannelFields, env: Env): Step
    requires h.server.Some? && h.socket.Some?
  {
    if !(h.multiplexer == Present && h.encDec.Some? && env.sendOk) then OnServerFailed(h, env)
    else Step(SchedulePingTask(ScheduleReadTask(h, h.socket.value)), [SentConnect(h.server.value)])
  }

  /** `scheduleReadTask`: submit a read task over `sock` when there is an executor. */
  function ScheduleReadTask(f: ChannelFields, sock: nat): ChannelFields
  {
    if f.executor == Present then f.(readTask := Running, readTaskSocket := Some(sock)) else f
  }

  /** `schedulePingTask`: schedule a ping when there is an executor. */
  function SchedulePingTask(f: ChannelFields): ChannelFields
  {
    if f.executor == Present then f.(pingTask := Running) else f
  }

  /** The guards `sync` and `syncAll` share: OPENED, both (de)multiplexers, a server and a socket. */
  predicate CanSync(f: ChannelFields)
  {
    f.state == Opened && f.multiplexer == Present && f.demultiplexer == Present && f.server.Some? && f.socket.Some?
  }

  /** `sync(types)`: send the direction map; a failed send is only logged. */
  function Sync(f: ChannelFields, types: seq<TransportType>, env: Env): Step
  {
    if !CanSync(f) then Step(f, [])
    else if f.encDec.Some? && env.sendOk then Step(f, [SentSync(DirectionMap(types))])
    else Step(f, [])
  }

  /** `syncAll`: send every supported type at its declared direction; a failed send is a server failure. */
  function SyncAll(f: ChannelFields, env: Env): Step
  {
    if !CanSync(f) then Step(f, [])
    else if f.encDec.Some? && env.sendOk then Step(f, [SentSync(SupportedTypes)])
    else OnServerFailed(f, env)
  }

  /**
   * `syncAck(types)`: outside OPENED, become OPENED, report the server
   * connected and sync everything; in OPENED, sync the one acknowledged type
   * or, for any other count, everything.
   */
  ghost function SyncAck(f: ChannelFields, types: set<TransportType>, env: Env): Step
  {
    if f.state != Opened then
      var s := SyncAll(f.(state := Opened), env);
      Step(s.next, [ServerConnected(f.server)] + s.effects)
    else if |types| == 1 then
      var t :| t in types;
      Sync(f, [t], env)
    else
      SyncAll(f, env)
  }

  /** The CONNACK listener: any code but ACCEPTED fails the server, after cleaning the state for bad credentials. */
  function OnConnAck(f: ChannelFields, code: ReturnCode, env: Env): Step
  {
    if code == Accepted then Step(f, [])
    else if code == RefuseBadCredentials then
      var s := OnServerFailed(f, env);
      Step(s.next, [CleanState] + s.effects)
    else OnServerFailed(f, env)
  }

  /**
   * The SYNC-RESPONSE listener: when the body is available (plain, or
   * decrypted by a present session) hand it to the demultiplexer, become
   * OPENED and report the server connected, every time.
   */
  function OnSyncResponse(f: ChannelFields, encrypted: bool, decryptOk: bool): Step
  {
    var available := !encrypted || (f.encDec.Some? && decryptOk);
    if available then Step(f.(state := Opened), [Demultiplexed, ServerConnected(f.server)])
    else Step(f, [])
  }

  /** The DISCONNECT listener: `NONE` closes quietly, any other reason fails the server. */
  function OnDisconnect(f: ChannelFields, reason: DisconnectReason, env: Env): Step
  {
    if reason != ReasonNone then OnServerFailed(f, env) else CloseConnection(f)
  }

  /**
   * One read of the read task bound to socket `readSocket`: data goes to the
   * framer, end of stream fails the server, and a read error fails the
   * server only when `readSocket` is still the channel's socket.
   */
  function OnRead(f: ChannelFields, readSocket: nat, outcome: ReadOutcome, env: Env): Step
  {
    match outcome
    case Data => Step(f, [])
    case EndOfStream => OnServerFailed(f, env)
    case ReadError => if f.socket == Some(readSocket) then OnServerFailed(f, env) else Step(f, [])
  }

  /**
   * `setServer`: ignored for null or in SHUTDOWN; otherwise replace the
   * server and the crypto session, and outside PAUSE make sure an executor
   * exists and reconnect when there was no server, no socket, or a
   * different host or port.
   */
  function SetServer(f: ChannelFields, server: Option<ServerInfo>): Step
  {
    if server.None? || f.state == Shutdown then Step(f, [])
    else
      var s := server.value;
      var g := f.(server := server, encDec := Some(CryptoSession(s.publicKey)));
      if f.state == Pause then Step(g, [])
      else
        var h := g.(executor := Present);
        if NeedsReconnect(f, s) then
          var c := CloseConnection(h);
          var o := ScheduleOpenConnectionTask(c.next, 0);
          Step(o.next, c.effects + o.effects)
        else Step(h, [])
  }

  /** The reconnect condition of `setServer`, on the fields before the call. */
  predicate NeedsReconnect(f: ChannelFields, s: ServerInfo)
  {
    f.server.None? || f.socket.None? || f.server.value.host != s.host || f.server.value.port != s.port
  }

  /** `setMultiplexer` and `setDemultiplexer` ignore null. */
  function SetMultiplexer(f: ChannelFields, present: bool): Step
  {
    if present then Step(f.(multiplexer := Present), []) else Step(f, [])
  }

  function SetDemultiplexer(f: ChannelFields, present: bool): Step
  {
    if present then Step(f.(demultiplexer := Present), []) else Step(f, [])
  }

  /** `setConnectivityChecker` stores null as well. */
  function SetConnectivityChecker(f: ChannelFields, present: bool): Step
  {
    Step(f.(checker := if present then Present else Absent), [])
  }

  /** `destroyExecutor`: shutting the executor down also forgets a pending reconnect. */
  function DestroyExecutor(f: ChannelFields): ChannelFields
  {
    if f.executor == Present then f.(reconnectScheduled := false, executor := Absent) else f
  }

  /** `shutdown`: SHUTDOWN, close, destroy the executor. */
  function ShutdownChannel(f: ChannelFields): Step
  {
    var c := CloseConnection(f.(state := Shutdown));
    Step(DestroyExecutor(c.next), c.effects)
  }

  /** `pause`: outside PAUSE, set PAUSE, close and destroy the executor. */
  function PauseChannel(f: ChannelFields): Step
  {
    if f.state == Pause then Step(f, [])
    else
      var c := CloseConnection(f.(state := Pause));
      Step(DestroyExecutor(c.next), c.effects)
  }

  /** `resume`: from PAUSE only, become CLOSED, make sure an executor exists and reconnect at once. */
  function ResumeChannel(f: ChannelFields): Step
  {
    if f.state != Pause then Step(f, [])
    else ScheduleOpenConnectionTask(f.(state := Closed, executor := Present), 0)
  }

  /** Every call and frame event the channel reacts to. */
  datatype Event =
    | SetServerCall(server: Option<ServerInfo>)
    | SetMultiplexerCall(present: bool)
    | SetDemultiplexerCall(present: bool)
    | SetConnectivityCheckerCall(present: bool)
    | OpenConnectionTask(env: Env)
    | SyncCall(types: seq<TransportType>, env: Env)
    | SyncAllCall(env: Env)
    | SyncAckCall(acked: set<TransportType>, env: Env)
    | ConnAckFrame(code: ReturnCode, env: Env)
    | SyncResponseFrame(encrypted: bool, decryptOk: bool)
    | DisconnectFrame(reason: DisconnectReason, env: Env)
    | SocketRead(readSocket: nat, outcome: ReadOutcome, env: Env)
    | PauseCall
    | ResumeCall
    | ShutdownCall

  ghost function Apply(f: ChannelFields, e: Event): Step
  {
    match e
    case SetServerCall(server) => SetServer(f, server)
    case SetMultiplexerCall(present) => SetMultiplexer(f, present)
    case SetDemultiplexerCall(present) => SetDemultiplexer(f, present)
    case SetConnectivityCheckerCall(present) => SetConnectivityChecker(f, present)
    case OpenConnectionTask(env) => OpenConnection(f, env)
    case SyncCall(types, env) => Sync(f, types, env)
    case SyncAllCall(env) => SyncAll(f, env)
    case SyncAckCall(acked, env) => SyncAck(f, acked, env)
    case ConnAckFrame(code, env) => OnConnAck(f, code, env)
    case SyncResponseFrame(encrypted, decryptOk) => OnSyncResponse(f, encrypted, decryptOk)
    case DisconnectFrame(reason, env) => OnDisconnect(f, reason, env)
    case SocketRead(readSocket, outcome, env) => OnRead(f, readSocket, outcome, env)
    case PauseCall => PauseChannel(f)
    case ResumeCall => ResumeChannel(f)
    case ShutdownCall => ShutdownChannel(f)
  }

  /** The fields and the effects after a sequence of events. */
  ghost function Run(f: ChannelFields, events: seq<Event>): Step
    decreases |events|
  {
    if |events| == 0 then Step(f, [])
    else
      var s := Apply(f, events[0]);
      var r := Run(s.next, events[1..]);
      Step(r.next, s.effects + r.effects)
  }

  /** Nothing is left alive: no socket, executor, pending reconnect or running task. */
  predicate Quiescent(f: ChannelFields)
  {
    f.socket.None? && f.executor == Absent && !f.reconnectScheduled && f.pingTask != Running && f.readTask != Running
  }

  /**
   * The channel invariant: a pending reconnect needs an executor, a paused
   * or shut-down channel holds nothing alive, and the live socket and the
   * latest read task's socket are among those created so far.
   */
  predicate Inv(f: ChannelFields)
  {
    && (f.reconnectScheduled ==> f.executor == Present)
    && ((f.state == Pause || f.state == Shutdown) ==> Quiescent(f))
    && (f.socket.Some? ==> f.socket.value < f.socketsCreated)
    && (f.readTaskSocket.Some? ==> f.readTaskSocket.value < f.socketsCreated)
  }
}
