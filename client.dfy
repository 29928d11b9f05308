/**
 * The lifecycle of `AbstractKaaClient`: the four client states, the guards
 * of `start`, `stop`, `pause` and `resume` (applied only when the platform
 * context asks for state checks), the readiness check of `start`, the
 * STARTED guard of the feature calls, and the bootstrap-server check of the
 * constructor. The work the lifecycle calls hand to the lifecycle executor
 * is recorded as an effect, not modelled.
 */
module KaaClient {
  import opened Common

  datatype ClientState = Created | Started | Paused | Stopped

  /** `KaaRuntimeException`, and the plain `RuntimeException` the constructor throws, with their messages. */
  datatype ClientError = KaaRuntimeException(message: string) | RuntimeException(message: string)

  /** What a lifecycle call does outside the client state, in order. */
  datatype ClientEffect =
    | ReportedStartFailure     // `stateListener.onStartFailure` from the readiness check
    | InitializedExecutors     // `context.getExecutorContext().init()`
    | SubmittedStartup         // the startup task handed to the lifecycle executor
    | SubmittedStop
    | StoppedExecutors         // `context.getExecutorContext().stop()`
    | SubmittedPause
    | SubmittedResume

  datatype LifecycleCall = StartCall | StopCall | PauseCall | ResumeCall

  /** The outcome of a lifecycle call, the state after it and its effects. */
  datatype LifecycleStep = LifecycleStep(outcome: Outcome<ClientError>, next: ClientState, effects: seq<ClientEffect>)

  const NotStartedMessage: string := "Kaa client isn't started"
  const ProfileNotReadyMessage: string := "Profile manager isn't initialized: maybe profile container isn't set"
  const NoBootstrapServersMessage: string := "Unable to obtain list of bootstrap servers."

  /** `checkClientState`: fail unless the client is in `expected`. */
  function CheckClientState(current: ClientState, expected: ClientState, message: string): (r: Outcome<ClientError>)
    ensures r.Pass? <==> current == expected
    ensures r.Fail? ==> r.error == KaaRuntimeException(message)
  {
    if current != expected then Fail(KaaRuntimeException(message)) else Pass
  }

  /** `checkClientStateNot`: fail when the client is in `rejected`. */
  function CheckClientStateNot(current: ClientState, rejected: ClientState, message: string): (r: Outcome<ClientError>)
    ensures r.Pass? <==> current != rejected
    ensures r.Fail? ==> r.error == KaaRuntimeException(message)
  {
    if current == rejected then Fail(KaaRuntimeException(message)) else Pass
  }

  /** `clientState.toString().toLowerCase()`. */
  function LowerName(s: ClientState): string
  {
    match s
    case Created => "created"
    case Started => "started"
    case Paused => "paused"
    case Stopped => "stopped"
  }

  /** The state checks of each lifecycle call, in the order the code makes them. */
  function Guard(call: LifecycleCall, s: ClientState): Outcome<ClientError>
  {
    match call
    case StartCall =>
      var first := CheckClientStateNot(s, Started, "Kaa client is already started");
      if first.Fail? then first else CheckClientStateNot(s, Paused, "Kaa client is paused, need to be resumed")
    case StopCall =>
      var first := CheckClientStateNot(s, Created, "Kaa client is not started");
      if first.Fail? then first else CheckClientStateNot(s, Stopped, "Kaa client is already stopped")
    case PauseCall => CheckClientState(s, Started, "Kaa client is not started (" + LowerName(s) + " now)")
    case ResumeCall => CheckClientState(s, Paused, "Kaa client isn't paused")
  }

  /** The state each lifecycle call sets once past its guard. */
  function Target(call: LifecycleCall): ClientState
  {
    match call
    case StartCall => Started
    case StopCall => Stopped
    case PauseCall => Paused
    case ResumeCall => Started
  }

  /** The lifecycle as intended: the transitions the checked calls allow. */
  predicate Allowed(call: LifecycleCall, s: ClientState)
  {
    match call
    case StartCall => s == Created || s == Stopped
    case StopCall => s == Started || s == Paused
    case PauseCall => s == Started
    case ResumeCall => s == Paused
  }

  /**
   * `start` past its guard: STARTED is set before the readiness check, so a
   * profile that is not ready fails the call without a listener but still
   * leaves the client STARTED; with a listener the failure is reported and
   * the start goes on.
   */
  function StartBody(profileReady: bool, hasListener: bool): LifecycleStep
  {
    if !profileReady && !hasListener then
      LifecycleStep(Fail(KaaRuntimeException(ProfileNotReadyMessage)), Started, [])
    else
      LifecycleStep(Pass, Started,
                    (if profileReady then [] else [ReportedStartFailure]) + [InitializedExecutors, SubmittedStartup])
  }

  /** One lifecycle call on a client in state `s`; `check` is `context.needToCheckClientState()`. */
  function Lifecycle(call: LifecycleCall, s: ClientState, check: bool, profileReady: bool, hasListener: bool): LifecycleStep
  {
    if check && Guard(call, s).Fail? then LifecycleStep(Guard(call, s), s, [])
    else
      match call
      case StartCall => StartBody(profileReady, hasListener)
      case StopCall => LifecycleStep(Pass, Stopped, [SubmittedStop, StoppedExecutors])
      case PauseCall => LifecycleStep(Pass, Paused, [SubmittedPause])
      case ResumeCall => LifecycleStep(Pass, Started, [SubmittedResume])
  }

  /** The guards admit exactly the intended transitions. */
  lemma GuardAdmitsExactlyAllowed(call: LifecycleCall, s: ClientState)
    ensures Guard(call, s).Pass? <==> Allowed(call, s)
  {
  }

  /**
   * With checks on, a call outside the intended transitions throws and
   * changes nothing; every other call reaches its target state.
   */
  lemma CheckedLifecycle(call: LifecycleCall, s: ClientState, profileReady: bool, hasListener: bool)
    ensures var r := Lifecycle(call, s, true, profileReady, hasListener);
      && (!Allowed(call, s) ==> r.outcome.Fail? && r.outcome.error.KaaRuntimeException? && r.next == s && r.effects == [])
      && (Allowed(call, s) ==> r.next == Target(call))
  {
    GuardAdmitsExactlyAllowed(call, s);
  }

  /** With checks off every call reaches its target state, whatever the state before. */
  lemma UncheckedLifecycle(call: LifecycleCall, s: ClientState, profileReady: bool, hasListener: bool)
    ensures Lifecycle(call, s, false, profileReady, hasListener).next == Target(call)
  {
  }

  /** The messages of the rejected checked calls, the first failing check winning. */
  lemma GuardMessages(s: ClientState)
    ensures s == Started ==> Guard(StartCall, s) == Fail(KaaRuntimeException("Kaa client is already started"))
    ensures s == Paused ==> Guard(StartCall, s) == Fail(KaaRuntimeException("Kaa client is paused, need to be resumed"))
    ensures s == Created ==> Guard(StopCall, s) == Fail(KaaRuntimeException("Kaa client is not started"))
    ensures s == Stopped ==> Guard(StopCall, s) == Fail(KaaRuntimeException("Kaa client is already stopped"))
    ensures s != Started ==> Guard(PauseCall, s) == Fail(KaaRuntimeException("Kaa client is not started (" + LowerName(s) + " now)"))
    ensures s != Paused ==> Guard(ResumeCall, s) == Fail(KaaRuntimeException("Kaa client isn't paused"))
  {
  }

  /**
   * A start whose profile is not ready and that has no listener to report
   * to throws, yet the client is left STARTED, so with checks on a second
   * `start` is refused as "already started".
   */
  lemma FailedStartLeavesStarted(s: ClientState)
    requires s == Created || s == Stopped
    ensures var r := Lifecycle(StartCall, s, true, false, false);
      && r.outcome == Fail(KaaRuntimeException(ProfileNotReadyMessage)) && r.next == Started
      && Lifecycle(StartCall, r.next, true, true, true).outcome.Fail?
  {
  }

  /** With checks on, pausing a started client and resuming it brings it back to STARTED. */
  lemma PauseResumeRoundTrip(profileReady: bool, hasListener: bool)
    ensures var p := Lifecycle(PauseCall, Started, true, profileReady, hasListener);
      && p.outcome.Pass? && p.next == Paused
      && Lifecycle(ResumeCall, p.next, true, profileReady, hasListener) == LifecycleStep(Pass, Started, [SubmittedResume])
  {
  }

  /** A stopped client may be started again. */
  lemma RestartAfterStop(profileReady: bool, hasListener: bool)
    requires profileReady || hasListener
    ensures Lifecycle(StartCall, Stopped, true, profileReady, hasListener).outcome.Pass?
    ensures Lifecycle(StartCall, Stopped, true, profileReady, hasListener).next == Started
  {
  }

  /** The feature calls that require a STARTED client whatever the context says. */
  datatype Feature =
    | UpdateProfile | GetTopics | SubscribeToTopic | SubscribeToTopics | UnsubscribeFromTopic
    | UnsubscribeFromTopics | SyncTopicsList | FindEventListeners | AttachEndpoint | DetachEndpoint | AttachUser

  /** The guard of a feature call; it does not depend on the feature. */
  function FeatureGuard(s: ClientState): (r: Outcome<ClientError>)
    ensures r.Pass? <==> s == Started
    ensures r.Fail? ==> r.error == KaaRuntimeException(NotStartedMessage)
  {
    CheckClientState(s, Started, NotStartedMessage)
  }

  /** The constructor's check on the configured bootstrap servers (`null` is `None`). */
  function BootstrapCheck<K, V>(bootstrapServers: Option<map<K, seq<V>>>): (r: Outcome<ClientError>)
    ensures r.Pass? <==> bootstrapServers.Some? && |bootstrapServers.value| > 0
    ensures r.Fail? ==> r.error == RuntimeException(NoBootstrapServersMessage)
  {
    if bootstrapServers.None? || |bootstrapServers.value| == 0 then Fail(RuntimeException(NoBootstrapServersMessage))
    else Pass
  }

  class AbstractKaaClient {
    var clientState: ClientState
    /** `context.needToCheckClientState()`. */
    const needToCheckClientState: bool
    /** Whether a `KaaClientStateListener` was given. */
    const hasStateListener: bool
    ghost var effects: seq<ClientEffect>

    /** The part of the constructor after the bootstrap check: a CREATED client. */
    constructor (check: bool, hasListener: bool)
      ensures clientState == Created && needToCheckClientState == check && hasStateListener == hasListener
      ensures effects == []
    {
      clientState := Created;
      needToCheckClientState := check;
      hasStateListener := hasListener;
      effects := [];
    }

    /** The constructor: refused without bootstrap servers. */
    static method Create<K, V>(bootstrapServers: Option<map<K, seq<V>>>, check: bool, hasListener: bool)
      returns (r: Result<AbstractKaaClient, ClientError>)
      ensures r.Failure? <==> BootstrapCheck(bootstrapServers).Fail?
      ensures r.Failure? ==> r.error == RuntimeException(NoBootstrapServersMessage)
      ensures r.Success? ==> fresh(r.value) && r.value.clientState == Created && r.value.effects == []
      ensures r.Success? ==> r.value.needToCheckClientState == check && r.value.hasStateListener == hasListener
    {
      if bootstrapServers.None? || |bootstrapServers.value| == 0 {
        return Failure(RuntimeException(NoBootstrapServersMessage));
      }
      var client := new AbstractKaaClient(check, hasListener);
      return Success(client);
    }

    /** `start`; `profileReady` is whether the profile manager is initialized. */
    method Start(profileReady: bool) returns (r: Outcome<ClientError>)
      modifies this
      ensures var s := Lifecycle(StartCall, old(clientState), needToCheckClientState, profileReady, hasStateListener);
        r == s.outcome && clientState == s.next && effects == old(effects) + s.effects
    {
      if needToCheckClientState {
        r := CheckClientStateNot(clientState, Started, "Kaa client is already started");
        if r.Fail? {
          return;
        }
        r := CheckClientStateNot(clientState, Paused, "Kaa client is paused, need to be resumed");
        if r.Fail? {
          return;
        }
      }
      clientState := Started;
      r := CheckReadiness(profileReady);
      if r.Fail? {
        return;
      }
      effects := effects + [InitializedExecutors, SubmittedStartup];
    }

    /** `checkReadiness`: report a profile that is not ready, or throw without a listener. */
    method CheckReadiness(profileReady: bool) returns (r: Outcome<ClientError>)
      modifies this
      ensures clientState == old(clientState)
      ensures r.Fail? <==> !profileReady && !hasStateListener
      ensures r.Fail? ==> r.error == KaaRuntimeException(ProfileNotReadyMessage)
      ensures effects == old(effects) + (if !profileReady && hasStateListener then [ReportedStartFailure] else [])
    {
      r := Pass;
      if !profileReady {
        if hasStateListener {
          effects := effects + [ReportedStartFailure];
        } else {
          r := Fail(KaaRuntimeException(ProfileNotReadyMessage));
        }
      }
    }

    method Stop() returns (r: Outcome<ClientError>)
      modifies this
      ensures var s := Lifecycle(StopCall, old(clientState), needToCheckClientState, true, hasStateListener);
        r == s.outcome && clientState == s.next && effects == old(effects) + s.effects
    {
      if needToCheckClientState {
        r := CheckClientStateNot(clientState, Created, "Kaa client is not started");
        if r.Fail? {
          return;
        }
        r := CheckClientStateNot(clientState, Stopped, "Kaa client is already stopped");
        if r.Fail? {
          return;
        }
      }
      clientState := Stopped;
      effects := effects + [SubmittedStop, StoppedExecutors];
      r := Pass;
    }

    method Pause() returns (r: Outcome<ClientError>)
      modifies this
      ensures var s := Lifecycle(PauseCall, old(clientState), needToCheckClientState, true, hasStateListener);
        r == s.outcome && clientState == s.next && effects == old(effects) + s.effects
    {
      if needToCheckClientState {
        r := CheckClientState(clientState, Started, "Kaa client is not started (" + LowerName(clientState) + " now)");
        if r.Fail? {
          return;
        }
      }
      clientState := Paused;
      effects := effects + [SubmittedPause];
      r := Pass;
    }

    method Resume() returns (r: Outcome<ClientError>)
      modifies this
      ensures var s := Lifecycle(ResumeCall, old(clientState), needToCheckClientState, true, hasStateListener);
        r == s.outcome && clientState == s.next && effects == old(effects) + s.effects
    {
      if needToCheckClientState {
        r := CheckClientState(clientState, Paused, "Kaa client isn't paused");
        if r.Fail? {
          return;
        }
      }
      clientState := Started;
      effects := effects + [SubmittedResume];
      r := Pass;
    }

    /** The guard every feature call makes before delegating to its manager. */
    method InvokeFeature(feature: Feature) returns (r: Outcome<ClientError>)
      ensures r.Pass? <==> clientState == Started
      ensures r.Fail? ==> r.error == KaaRuntimeException(NotStartedMessage)
    {
      r := CheckClientState(clientState, Started, NotStartedMessage);
    }
  }
}
