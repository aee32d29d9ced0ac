/**
 * The ECG monitor screen: the sliding window of the most recent voltages, the
 * placeholder heart rate, the two session flags driven by device events and by
 * the four button handlers, and which buttons those flags enable.
 */
module EcgScreen {
  import opened Bridge

  /** How many voltages the chart keeps. */
  const MaxDataPoints: nat := 500

  /** A batch whose largest voltage exceeds this counts as containing a beat. */
  const PeakThreshold: int := 500

  /** The device the screen connects to, and streams from when no device id is known. */
  const PolarDeviceId: string := "05281231"

  function Min(a: int, b: int): int { if a <= b then a else b }

  /** `w` is what is left of `s` once some of its oldest elements are dropped. */
  predicate IsSuffix(w: seq<int>, s: seq<int>)
  {
    |w| <= |s| && s[|s| - |w|..] == w
  }

  // ---------------------------------------------------------------------------
  // The sample window
  // ---------------------------------------------------------------------------

  /**
   * The voltages kept after `batch` arrives: the old window followed by the
   * batch, cut back to its last `MaxDataPoints` entries.
   */
  function Window(prev: seq<int>, batch: seq<int>): (w: seq<int>)
    ensures |w| == Min(MaxDataPoints, |prev| + |batch|)
    ensures IsSuffix(w, prev + batch)
  {
    var all := prev + batch;
    if |all| > MaxDataPoints then all[|all| - MaxDataPoints..] else all
  }

  /** The newest samples always survive: all of the batch, or its last `MaxDataPoints`. */
  lemma WindowKeepsNewest(prev: seq<int>, batch: seq<int>)
    ensures |batch| <= MaxDataPoints ==> IsSuffix(batch, Window(prev, batch))
    ensures |batch| > MaxDataPoints ==> Window(prev, batch) == batch[|batch| - MaxDataPoints..]
  {
  }

  /** Two batches pushed one after the other leave the window one push of both would. */
  lemma WindowAppend(prev: seq<int>, a: seq<int>, b: seq<int>)
    ensures Window(Window(prev, a), b) == Window(prev, a + b)
  {
    var s := prev + a;
    var w := Window(prev, a);
    var k := |s| - |w|;
    assert w == s[k..];
    assert w + b == (s + b)[k..];
    assert prev + (a + b) == s + b;
    var lhs := Window(w, b);
    var rhs := Window(prev, a + b);
    assert |lhs| == |rhs|;
    assert lhs == (w + b)[|w + b| - |lhs|..];
    assert rhs == (s + b)[|s + b| - |rhs|..];
  }

  /** All the voltages of a sequence of batches, in arrival order. */
  function Concat(batches: seq<seq<int>>): seq<int>
  {
    if batches == [] then [] else batches[0] + Concat(batches[1..])
  }

  /** The window after the batches arrive one by one. */
  function PushAll(w: seq<int>, batches: seq<seq<int>>): seq<int>
    decreases |batches|
  {
    if batches == [] then w else PushAll(Window(w, batches[0]), batches[1..])
  }

  /**
   * For every sequence of batches, the window holds exactly the most recent
   * `MaxDataPoints` voltages (or all of them), in arrival order.
   */
  lemma {:induction false} PushAllIsWindowOfConcat(w: seq<int>, batches: seq<seq<int>>)
    requires |w| <= MaxDataPoints
    ensures PushAll(w, batches) == Window(w, Concat(batches))
    decreases |batches|
  {
    if batches == [] {
      assert w + [] == w;
    } else {
      var w1 := Window(w, batches[0]);
      PushAllIsWindowOfConcat(w1, batches[1..]);
      WindowAppend(w, batches[0], Concat(batches[1..]));
    }
  }

  // ---------------------------------------------------------------------------
  // The heart-rate placeholder
  // ---------------------------------------------------------------------------

  /** The `voltage` of every sample of an `onEcgData` payload, in order. */
  function Voltages(samples: seq<EcgSample>): (vs: seq<int>)
    ensures |vs| == |samples|
    ensures forall i :: 0 <= i < |samples| ==> vs[i] == samples[i].voltage
  {
    if samples == [] then [] else [samples[0].voltage] + Voltages(samples[1..])
  }

  /** The largest voltage of a non-empty batch. */
  function MaxOf(vs: seq<int>): (m: int)
    requires |vs| > 0
    ensures exists i :: 0 <= i < |vs| && vs[i] == m
    ensures forall i :: 0 <= i < |vs| ==> vs[i] <= m
  {
    if |vs| == 1 then vs[0]
    else
      var rest := MaxOf(vs[1..]);
      if vs[0] >= rest then vs[0] else rest
  }

  /** Some voltage of the batch is above the threshold. */
  predicate HasPeak(vs: seq<int>)
  {
    exists i :: 0 <= i < |vs| && vs[i] > PeakThreshold
  }

  /** The screen's guard (non-empty, and the maximum above 500) means: some voltage is above 500. */
  lemma PeakGuard(vs: seq<int>)
    ensures (|vs| > 0 && MaxOf(vs) > PeakThreshold) <==> HasPeak(vs)
  {
  }

  /** The placeholder rate drawn from `random`, a value of `Math.random()`. */
  function DrawHeartRate(random: real): (bpm: int)
    requires 0.0 <= random < 1.0
    ensures 60 <= bpm <= 99
  {
    (60.0 + random * 40.0).Floor
  }

  /** Every rate of [60, 99] is drawn by some value of `Math.random()`. */
  lemma DrawCoversRange(bpm: int)
    requires 60 <= bpm <= 99
    ensures exists random: real :: 0.0 <= random < 1.0 && DrawHeartRate(random) == bpm
  {
    var random := (bpm - 60) as real / 40.0;
    assert 60.0 + random * 40.0 == bpm as real;
    assert DrawHeartRate(random) == bpm;
  }

  // ---------------------------------------------------------------------------
  // The screen's state, its event listeners and its button handlers
  // ---------------------------------------------------------------------------

  /** The stream target of the start button: the connected device, or the constant id. */
  function StreamTarget(deviceId: string): (id: string)
    ensures id != []
    ensures deviceId != [] ==> id == deviceId
    ensures deviceId == [] ==> id == PolarDeviceId
  {
    if deviceId != [] then deviceId else PolarDeviceId
  }

  class Screen {
    var isConnected: bool
    var isStreaming: bool
    var ecgValues: seq<int>
    var deviceId: string
    var heartRate: int

    /** The window is bounded, the rate is unset or a drawn one, and only a connected screen streams. */
    ghost predicate Valid()
      reads this
    {
      && |ecgValues| <= MaxDataPoints
      && (heartRate == 0 || 60 <= heartRate <= 99)
      && (isStreaming ==> isConnected)
    }

    constructor ()
      ensures Valid()
      ensures !isConnected && !isStreaming && ecgValues == [] && deviceId == [] && heartRate == 0
    {
      isConnected, isStreaming := false, false;
      ecgValues, deviceId, heartRate := [], [], 0;
    }

    predicate ConnectEnabled() reads this { !isConnected }
    predicate DisconnectEnabled() reads this { isConnected }
    predicate StartEnabled() reads this { isConnected && !isStreaming }
    predicate StopEnabled() reads this { isStreaming }

    /** Connect and Disconnect are never both enabled; Start and Stop neither; Stop implies Disconnect. */
    lemma ButtonsAreConsistent()
      requires Valid()
      ensures ConnectEnabled() != DisconnectEnabled()
      ensures !(StartEnabled() && StopEnabled())
      ensures StopEnabled() ==> DisconnectEnabled() && !ConnectEnabled()
    {
    }

    /** The `onEcgData` listener. */
    method OnEcgData(samples: seq<EcgSample>, random: real)
      requires Valid()
      requires 0.0 <= random < 1.0
      modifies this
      ensures Valid()
      ensures ecgValues == Window(old(ecgValues), Voltages(samples))
      ensures HasPeak(Voltages(samples)) ==> heartRate == DrawHeartRate(random)
      ensures !HasPeak(Voltages(samples)) ==> heartRate == old(heartRate)
      ensures isConnected == old(isConnected) && isStreaming == old(isStreaming)
      ensures deviceId == old(deviceId)
    {
      var voltages := Voltages(samples);
      ecgValues := Window(ecgValues, voltages);
      PeakGuard(voltages);
      if |voltages| > 0 {
        var max := MaxOf(voltages);
        if max > PeakThreshold {
          heartRate := DrawHeartRate(random);
        }
      }
    }

    /** The `onDeviceConnected` listener. */
    method OnDeviceConnected(id: string)
      requires Valid()
      modifies this
      ensures Valid()
      ensures isConnected && deviceId == id
      ensures isStreaming == old(isStreaming) && ecgValues == old(ecgValues) && heartRate == old(heartRate)
      ensures !ConnectEnabled() && DisconnectEnabled()
    {
      isConnected := true;
      deviceId := id;
    }

    /** The `onDeviceDisconnected` listener: the window and the rate are kept. */
    method OnDeviceDisconnected()
      requires Valid()
      modifies this
      ensures Valid()
      ensures !isConnected && !isStreaming
      ensures deviceId == old(deviceId) && ecgValues == old(ecgValues) && heartRate == old(heartRate)
      ensures ConnectEnabled() && !DisconnectEnabled() && !StartEnabled() && !StopEnabled()
    {
      isConnected := false;
      isStreaming := false;
    }

    /** Routes an event to its listener; `onError` only changes the status text. */
    method Receive(e: Event, random: real)
      requires Valid()
      requires 0.0 <= random < 1.0
      modifies this
      ensures Valid()
      ensures e.EcgData? ==> ecgValues == Window(old(ecgValues), Voltages(e.samples))
      ensures e.EcgData? && HasPeak(Voltages(e.samples)) ==> heartRate == DrawHeartRate(random)
      ensures e.EcgData? && !HasPeak(Voltages(e.samples)) ==> heartRate == old(heartRate)
      ensures e.EcgData? ==>
        isConnected == old(isConnected) && isStreaming == old(isStreaming) && deviceId == old(deviceId)
      ensures e.DeviceConnected? ==> isConnected && deviceId == e.deviceId && isStreaming == old(isStreaming)
      ensures e.DeviceDisconnected? ==> !isConnected && !isStreaming && deviceId == old(deviceId)
      ensures !e.EcgData? ==> ecgValues == old(ecgValues) && heartRate == old(heartRate)
      ensures e.Error? ==> unchanged(this)
    {
      match e
      case EcgData(_, samples) => OnEcgData(samples, random);
      case DeviceConnected(id, _, _) => OnDeviceConnected(id);
      case DeviceDisconnected(_) => OnDeviceDisconnected();
      case Error(_) =>
    }

    /** The Connect button: asks the module to connect; the flags wait for `onDeviceConnected`. */
    method HandleConnect() returns (issued: seq<Command>)
      requires ConnectEnabled()
      ensures issued == [ConnectToDevice(PolarDeviceId)]
    {
      issued := [ConnectToDevice(PolarDeviceId)];
    }

    /**
     * The Disconnect button. A streaming screen stops first; if that stop
     * fails, nothing else is issued and nothing changes.
     */
    method HandleDisconnect(stopSucceeds: bool, disconnectSucceeds: bool) returns (issued: seq<Command>)
      requires Valid()
      requires DisconnectEnabled()
      modifies this
      ensures Valid()
      ensures old(isStreaming) && !stopSucceeds ==> issued == [StopEcgStreaming] && unchanged(this)
      ensures old(isStreaming) && stopSucceeds ==>
        issued == [StopEcgStreaming, DisconnectFromDevice(PolarDeviceId)]
      ensures !old(isStreaming) ==> issued == [DisconnectFromDevice(PolarDeviceId)]
      ensures isStreaming == (old(isStreaming) && !stopSucceeds)
      ensures isConnected == (isStreaming || !disconnectSucceeds)
      ensures ecgValues == old(ecgValues) && deviceId == old(deviceId) && heartRate == old(heartRate)
    {
      issued := [];
      if isStreaming {
        issued := issued + [StopEcgStreaming];
        if !stopSucceeds {
          return;
        }
        isStreaming := false;
      }
      issued := issued + [DisconnectFromDevice(PolarDeviceId)];
      if disconnectSucceeds {
        isConnected := false;
      }
    }

    /** The Start button: streams from the connected device, or from the constant id. */
    method HandleStartStreaming(startSucceeds: bool) returns (issued: seq<Command>)
      requires Valid()
      requires StartEnabled()
      modifies this
      ensures Valid()
      ensures issued == [StartEcgStreaming(StreamTarget(old(deviceId)))]
      ensures isStreaming == startSucceeds
      ensures startSucceeds ==> !StartEnabled() && StopEnabled()
      ensures isConnected == old(isConnected) && ecgValues == old(ecgValues)
      ensures deviceId == old(deviceId) && heartRate == old(heartRate)
    {
      issued := [StartEcgStreaming(StreamTarget(deviceId))];
      if startSucceeds {
        isStreaming := true;
      }
    }

    /** The Stop button: a successful stop also empties the window. */
    method HandleStopStreaming(stopSucceeds: bool) returns (issued: seq<Command>)
      requires Valid()
      requires StopEnabled()
      modifies this
      ensures Valid()
      ensures issued == [StopEcgStreaming]
      ensures stopSucceeds ==> !isStreaming && ecgValues == [] && StartEnabled() && !StopEnabled()
      ensures !stopSucceeds ==> isStreaming == old(isStreaming) && ecgValues == old(ecgValues)
      ensures isConnected == old(isConnected) && deviceId == old(deviceId) && heartRate == old(heartRate)
    {
      issued := [StopEcgStreaming];
      if stopSucceeds {
        isStreaming := false;
        ecgValues := [];
      }
    }
  }
}
