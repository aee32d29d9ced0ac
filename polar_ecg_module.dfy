/**
 * The native Android module: one nullable Polar SDK handle, one nullable ECG
 * stream subscription, the commands the screen calls, and the SDK and stream
 * callbacks translated into events. The Polar SDK is a collaborator whose
 * calls either return or throw (the `thrown` parameters); what the module sends
 * to JavaScript is the `events` log, and what it asks of the SDK and of the
 * subscription is the `effects` log.
 */
module PolarEcg {
  import opened Wrappers
  import opened Bridge

  /** A stream subscription (an RxJava `Disposable`): its identity and whether it is disposed. */
  datatype Handle = Handle(id: nat, disposed: bool)

  /** An exception thrown by a call into the SDK, with its nullable message. */
  datatype Fault =
    | InvalidArgument(message: Option<string>)
    | OtherException(message: Option<string>)

  /** What a command gives back to JavaScript: a string, or the exception it rethrows. */
  datatype Reply = Returned(text: string) | Rethrown(fault: Fault)

  /** A call the module makes on the SDK or on a subscription. */
  datatype Effect =
    | ConnectCall(deviceId: string)
    | DisconnectCall(deviceId: string)
    | StreamSettingsRequest(deviceId: string)
    | OpenEcgStream(deviceId: string)
    | Dispose(handle: nat)
    | ShutDown

  /** The SDK's description of a device. */
  datatype PolarDeviceInfo = PolarDeviceInfo(deviceId: string, name: string, address: string)

  /** One ECG sample and one ECG batch, as the SDK delivers them. */
  datatype PolarEcgSample = PolarEcgSample(timeStamp: int, voltage: int)
  datatype PolarEcgData = PolarEcgData(timeStamp: int, samples: seq<PolarEcgSample>)

  const Initialized: string := "Polar SDK Initialized"
  const AlreadyRunning: string := "ECG streaming already running"
  const Stopped: string := "ECG streaming stopped"
  const NotRunning: string := "ECG streaming was not running"
  const StreamFailedPrefix: string := "ECG stream failed: "
  const MissingStream: string := "Failed to start ECG streaming"

  /** A nullable message as a Kotlin string template shows it. */
  function Show(message: Option<string>): string
  {
    match message
    case Some(m) => m
    case None => "null"
  }

  function StartedMessage(deviceId: string): string { "ECG streaming started for " + deviceId }
  function ConnectingMessage(deviceId: string): string { "Connecting to " + deviceId }
  function DisconnectedMessage(deviceId: string): string { "Disconnected from " + deviceId }

  /** The `onError` message for an exception thrown while starting the stream. */
  function StartFailureMessage(f: Fault): (msg: string)
    ensures f.InvalidArgument? ==> "Invalid argument: " <= msg && msg[|"Invalid argument: "|..] == Show(f.message)
    ensures f.OtherException? ==> "Error: " <= msg && msg[|"Error: "|..] == Show(f.message)
  {
    match f
    case InvalidArgument(m) => "Invalid argument: " + Show(m)
    case OtherException(m) => "Error: " + Show(m)
  }

  /** The `onError` message for a stream that fails. */
  function StreamFailedMessage(message: Option<string>): (msg: string)
    ensures StreamFailedPrefix <= msg
    ensures msg[|StreamFailedPrefix|..] == Show(message)
  {
    StreamFailedPrefix + Show(message)
  }

  /** The `samples` list of an `onEcgData` payload, one entry per sample of the batch. */
  function SamplePayload(samples: seq<PolarEcgSample>): (entries: seq<EcgSample>)
    ensures |entries| == |samples|
    ensures forall i :: 0 <= i < |samples| ==>
      entries[i].voltage == samples[i].voltage && entries[i].timeStamp == samples[i].timeStamp
  {
    if samples == [] then []
    else [EcgSample(samples[0].voltage, samples[0].timeStamp)] + SamplePayload(samples[1..])
  }

  /** The `onEcgData` event for one batch: the batch's time stamp and every sample, in order. */
  function EcgDataEvent(data: PolarEcgData): (e: Event)
    ensures e.EcgData? && e.timeStamp == data.timeStamp
    ensures |e.samples| == |data.samples|
    ensures forall i :: 0 <= i < |data.samples| ==>
      e.samples[i] == EcgSample(data.samples[i].voltage, data.samples[i].timeStamp)
  {
    EcgData(data.timeStamp, SamplePayload(data.samples))
  }

  /** `ecgDisposable?.isDisposed ?: true`: the slot is free when empty or holding a disposed handle. */
  predicate IsDisposed(slot: Option<Handle>)
  {
    match slot
    case None => true
    case Some(h) => h.disposed
  }

  class PolarEcgModule {
    /** `api != null`: `initialize` has created the SDK handle. */
    var hasApi: bool
    /** `ecgDisposable`: the current stream subscription, if any. */
    var ecgDisposable: Option<Handle>
    /** The identity the next subscription gets. */
    var nextHandle: nat
    ghost var events: seq<Event>
    ghost var effects: seq<Effect>

    /**
     * Without an SDK handle there is never a subscription. Handles are numbered
     * in order, so every handle held or ever disposed is older than the next one.
     */
    ghost predicate Valid()
      reads this
    {
      && (!hasApi ==> ecgDisposable == None)
      && (ecgDisposable.Some? ==> ecgDisposable.value.id < nextHandle)
      && (forall e :: e in effects && e.Dispose? ==> e.handle < nextHandle)
    }

    constructor ()
      ensures Valid()
      ensures !hasApi && ecgDisposable == None && events == [] && effects == []
    {
      hasApi, ecgDisposable, nextHandle := false, None, 0;
      events, effects := [], [];
    }

    /** A live subscription exists. */
    predicate Streaming()
      reads this
    {
      !IsDisposed(ecgDisposable)
    }

    /** `initialize`: creates the SDK handle and registers the device callbacks. */
    method Initialize() returns (reply: string)
      requires Valid()
      modifies this
      ensures Valid()
      ensures reply == Initialized && hasApi
      ensures ecgDisposable == old(ecgDisposable) && nextHandle == old(nextHandle)
      ensures events == old(events) && effects == old(effects)
    {
      hasApi := true;
      reply := Initialized;
    }

    // -------------------------------------------------------------------------
    // SDK device callbacks
    // -------------------------------------------------------------------------

    method DeviceConnected(info: PolarDeviceInfo)
      modifies this
      ensures events == old(events) + [Bridge.DeviceConnected(info.deviceId, info.name, info.address)]
      ensures hasApi == old(hasApi) && ecgDisposable == old(ecgDisposable)
      ensures nextHandle == old(nextHandle) && effects == old(effects)
    {
      events := events + [Bridge.DeviceConnected(info.deviceId, info.name, info.address)];
    }

    method DeviceDisconnected(info: PolarDeviceInfo)
      modifies this
      ensures events == old(events) + [Bridge.DeviceDisconnected(info.deviceId)]
      ensures hasApi == old(hasApi) && ecgDisposable == old(ecgDisposable)
      ensures nextHandle == old(nextHandle) && effects == old(effects)
    {
      events := events + [Bridge.DeviceDisconnected(info.deviceId)];
    }

    /** Only logged: no event, no state change. */
    method BlePowerStateChanged(powered: bool)
      ensures events == old(events) && effects == old(effects)
    {
    }

    /** Only logged: no event, no state change. */
    method DeviceConnecting(info: PolarDeviceInfo)
      ensures events == old(events) && effects == old(effects)
    {
    }

    // -------------------------------------------------------------------------
    // Commands
    // -------------------------------------------------------------------------

    /**
     * `connectToDevice`: without an SDK handle nothing is called; an exception
     * from the SDK is reported once as `onError` and rethrown.
     */
    method ConnectToDevice(deviceId: string, thrown: Option<Fault>) returns (reply: Reply)
      requires Valid()
      modifies this
      ensures Valid()
      ensures !hasApi ==> reply == Returned(ConnectingMessage(deviceId)) && unchanged(this)
      ensures hasApi ==> effects == old(effects) + [ConnectCall(deviceId)]
      ensures hasApi && thrown == None ==>
        reply == Returned(ConnectingMessage(deviceId)) && events == old(events)
      ensures hasApi && thrown.Some? ==>
        reply == Rethrown(thrown.value) && events == old(events) + [Error(thrown.value.message)]
      ensures hasApi == old(hasApi) && ecgDisposable == old(ecgDisposable) && nextHandle == old(nextHandle)
    {
      if hasApi {
        effects := effects + [ConnectCall(deviceId)];
        if thrown.Some? {
          events := events + [Error(thrown.value.message)];
          return Rethrown(thrown.value);
        }
      }
      reply := Returned(ConnectingMessage(deviceId));
    }

    /** `disconnectFromDevice`: the same shape as `connectToDevice`. */
    method DisconnectFromDevice(deviceId: string, thrown: Option<Fault>) returns (reply: Reply)
      requires Valid()
      modifies this
      ensures Valid()
      ensures !hasApi ==> reply == Returned(DisconnectedMessage(deviceId)) && unchanged(this)
      ensures hasApi ==> effects == old(effects) + [DisconnectCall(deviceId)]
      ensures hasApi && thrown == None ==>
        reply == Returned(DisconnectedMessage(deviceId)) && events == old(events)
      ensures hasApi && thrown.Some? ==>
        reply == Rethrown(thrown.value) && events == old(events) + [Error(thrown.value.message)]
      ensures hasApi == old(hasApi) && ecgDisposable == old(ecgDisposable) && nextHandle == old(nextHandle)
    {
      if hasApi {
        effects := effects + [DisconnectCall(deviceId)];
        if thrown.Some? {
          events := events + [Error(thrown.value.message)];
          return Rethrown(thrown.value);
        }
      }
      reply := Returned(DisconnectedMessage(deviceId));
    }

    /**
     * `startEcgStreaming`: subscribes only when the slot is free. Without an
     * SDK handle the slot stays empty and the "started" message is still
     * returned. An exception is reported once as `onError` and rethrown, and
     * leaves the slot as it was.
     */
    method StartEcgStreaming(deviceId: string, thrown: Option<Fault>) returns (reply: Reply)
      requires Valid()
      modifies this
      ensures Valid()
      ensures !old(IsDisposed(ecgDisposable)) ==> reply == Returned(AlreadyRunning) && unchanged(this)
      ensures old(IsDisposed(ecgDisposable)) && !hasApi ==>
        reply == Returned(StartedMessage(deviceId)) && unchanged(this)
      ensures old(IsDisposed(ecgDisposable)) && hasApi ==>
        effects == old(effects) + [StreamSettingsRequest(deviceId)]
      ensures old(IsDisposed(ecgDisposable)) && hasApi && thrown == None ==>
        && reply == Returned(StartedMessage(deviceId))
        && ecgDisposable == Some(Handle(old(nextHandle), false))
        && nextHandle == old(nextHandle) + 1
        && events == old(events)
        && Dispose(ecgDisposable.value.id) !in old(effects)
      ensures old(IsDisposed(ecgDisposable)) && hasApi && thrown.Some? ==>
        && reply == Rethrown(thrown.value)
        && ecgDisposable == old(ecgDisposable) && nextHandle == old(nextHandle)
        && events == old(events) + [Error(Some(StartFailureMessage(thrown.value)))]
      ensures hasApi == old(hasApi)
    {
      if IsDisposed(ecgDisposable) {
        if !hasApi {
          ecgDisposable := None;
          return Returned(StartedMessage(deviceId));
        }
        effects := effects + [StreamSettingsRequest(deviceId)];
        if thrown.Some? {
          events := events + [Error(Some(StartFailureMessage(thrown.value)))];
          return Rethrown(thrown.value);
        }
        ecgDisposable := Some(Handle(nextHandle, false));
        nextHandle := nextHandle + 1;
        reply := Returned(StartedMessage(deviceId));
      } else {
        reply := Returned(AlreadyRunning);
      }
    }

    /**
     * `stopEcgStreaming`: disposes and clears a live subscription; anything
     * else is a no-op. A failure is rethrown without an `onError` event.
     */
    method StopEcgStreaming(thrown: Option<Fault>) returns (reply: Reply)
      requires Valid()
      modifies this
      ensures Valid()
      ensures events == old(events)
      ensures !old(Streaming()) ==> reply == Returned(NotRunning) && unchanged(this)
      ensures old(Streaming()) && thrown.Some? ==> reply == Rethrown(thrown.value) && unchanged(this)
      ensures old(Streaming()) && thrown == None ==>
        && reply == Returned(Stopped)
        && ecgDisposable == None
        && effects == old(effects) + [Dispose(old(ecgDisposable).value.id)]
      ensures !Streaming() || thrown.Some?
      ensures hasApi == old(hasApi) && nextHandle == old(nextHandle)
    {
      if !IsDisposed(ecgDisposable) {
        if thrown.Some? {
          return Rethrown(thrown.value);
        }
        effects := effects + [Dispose(ecgDisposable.value.id)];
        ecgDisposable := None;
        reply := Returned(Stopped);
      } else {
        reply := Returned(NotRunning);
      }
    }

    // -------------------------------------------------------------------------
    // Stream callbacks
    // -------------------------------------------------------------------------

    /** The stream settings arrived: open the ECG stream, which fails when there is no SDK handle. */
    method OnStreamSettings(deviceId: string)
      requires Valid()
      modifies this
      ensures Valid()
      ensures hasApi ==> effects == old(effects) + [OpenEcgStream(deviceId)] && events == old(events)
      ensures hasApi ==> ecgDisposable == old(ecgDisposable)
      ensures !hasApi ==> ecgDisposable == None && effects == old(effects)
      ensures !hasApi ==> events == old(events) + [Error(Some(StreamFailedMessage(Some(MissingStream))))]
      ensures hasApi == old(hasApi) && nextHandle == old(nextHandle)
    {
      if hasApi {
        effects := effects + [OpenEcgStream(deviceId)];
      } else {
        OnStreamError(Some(MissingStream));
      }
    }

    /** A batch arrived: exactly one `onEcgData` event. */
    method OnStreamData(data: PolarEcgData)
      modifies this
      ensures events == old(events) + [EcgDataEvent(data)]
      ensures hasApi == old(hasApi) && ecgDisposable == old(ecgDisposable)
      ensures nextHandle == old(nextHandle) && effects == old(effects)
    {
      events := events + [EcgDataEvent(data)];
    }

    /** The stream failed: the slot is cleared and exactly one `onError` is sent. */
    method OnStreamError(message: Option<string>)
      requires Valid()
      modifies this
      ensures Valid()
      ensures ecgDisposable == None
      ensures events == old(events) + [Error(Some(StreamFailedMessage(message)))]
      ensures hasApi == old(hasApi) && nextHandle == old(nextHandle) && effects == old(effects)
    {
      ecgDisposable := None;
      events := events + [Error(Some(StreamFailedMessage(message)))];
    }

    /** The stream completed: the slot is cleared and nothing is sent. */
    method OnStreamComplete()
      requires Valid()
      modifies this
      ensures Valid()
      ensures ecgDisposable == None
      ensures hasApi == old(hasApi) && nextHandle == old(nextHandle)
      ensures events == old(events) && effects == old(effects)
    {
      ecgDisposable := None;
    }

    /** `OnDestroy`: disposes whatever subscription the slot holds and shuts the SDK down. */
    method OnDestroy()
      requires Valid()
      modifies this
      ensures Valid()
      ensures !Streaming()
      ensures old(ecgDisposable) == None ==> ecgDisposable == None
      ensures old(ecgDisposable).Some? ==> ecgDisposable == Some(Handle(old(ecgDisposable).value.id, true))
      ensures effects == old(effects)
        + (if old(ecgDisposable).Some? then [Dispose(old(ecgDisposable).value.id)] else [])
        + (if hasApi then [ShutDown] else [])
      ensures events == old(events) && hasApi == old(hasApi) && nextHandle == old(nextHandle)
    {
      if ecgDisposable.Some? {
        effects := effects + [Dispose(ecgDisposable.value.id)];
        ecgDisposable := Some(ecgDisposable.value.(disposed := true));
      }
      if hasApi {
        effects := effects + [ShutDown];
      }
    }
  }

  /**
   * Two starts in a row create at most one subscription, whatever either of
   * them throws. When the first one does not throw, the second finds the
   * first one's subscription (or the first one found a live one) and reports
   * that streaming is already running.
   */
  method StartTwice(m: PolarEcgModule, deviceId: string, thrown1: Option<Fault>, thrown2: Option<Fault>)
    returns (first: Reply, second: Reply)
    requires m.Valid()
    modifies m
    ensures m.Valid()
    ensures m.nextHandle <= old(m.nextHandle) + 1
    ensures m.hasApi && thrown1 == None ==> second == Returned(AlreadyRunning)
    ensures thrown1 == None ==> m.events == old(m.events)
    ensures thrown1 == None ==>
      m.effects == old(m.effects)
        + (if old(IsDisposed(m.ecgDisposable)) && m.hasApi then [StreamSettingsRequest(deviceId)] else [])
    ensures thrown1 == None ==>
      m.ecgDisposable == (if old(IsDisposed(m.ecgDisposable)) && m.hasApi
        then Some(Handle(old(m.nextHandle), false)) else old(m.ecgDisposable))
  {
    first := m.StartEcgStreaming(deviceId, thrown1);
    second := m.StartEcgStreaming(deviceId, thrown2);
  }

  /**
   * Two stops in a row dispose at most once, send no event, and the second
   * one always reports that streaming was not running.
   */
  method StopTwice(m: PolarEcgModule) returns (first: Reply, second: Reply)
    requires m.Valid()
    modifies m
    ensures m.Valid()
    ensures second == Returned(NotRunning)
    ensures first == (if old(m.Streaming()) then Returned(Stopped) else Returned(NotRunning))
    ensures m.events == old(m.events)
    ensures m.effects == old(m.effects)
      + (if old(m.Streaming()) then [Dispose(old(m.ecgDisposable).value.id)] else [])
    ensures !m.Streaming()
  {
    first := m.StopEcgStreaming(None);
    second := m.StopEcgStreaming(None);
  }
}
