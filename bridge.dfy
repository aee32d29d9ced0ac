/**
 * The values that cross the boundary between the native Android module and the
 * screen: the payloads of the four events the module declares (`onEcgData`,
 * `onDeviceConnected`, `onDeviceDisconnected`, `onError`) and the commands the
 * screen calls on the module.
 */
module Bridge {
  import opened Wrappers

  /** One entry of the `samples` list of an `onEcgData` payload. */
  datatype EcgSample = EcgSample(voltage: int, timeStamp: int)

  /** An event sent by the native module, with its payload. */
  datatype Event =
    | EcgData(timeStamp: int, samples: seq<EcgSample>)
    | DeviceConnected(deviceId: string, name: string, address: string)
    | DeviceDisconnected(deviceId: string)
    | Error(message: Option<string>)

  /** A call from the screen into the native module. */
  datatype Command =
    | ConnectToDevice(deviceId: string)
    | DisconnectFromDevice(deviceId: string)
    | StartEcgStreaming(deviceId: string)
    | StopEcgStreaming
}
