/**
 * The snapshot of an Android Cast session sent to the host
 * (android/src/main/kotlin/com/felnanuke/google_cast/extensions/SessionExtensions.kt).
 */
module AndroidSession {
  import opened HostValues
  import AndroidDiscovery

  /** The `CastSession` getters the snapshot reads. */
  datatype CastSession = CastSession(
    castDevice: Option<AndroidDiscovery.CastDevice>,
    sessionId: Option<string>,
    isDisconnected: bool,
    isConnecting: bool,
    isConnected: bool,
    isDisconnecting: bool,
    isMute: bool,
    applicationStatus: Option<string>,
    volume: Float)

  /** `connectState()`: the flags are tried in a fixed order and the first
      one set decides; none set reads as disconnected. */
  function ConnectState(s: CastSession): (state: Int32)
    ensures 0 <= state <= 3
    ensures state == 0 <==> s.isDisconnected || !(s.isConnecting || s.isConnected || s.isDisconnecting)
    ensures state == 1 <==> !s.isDisconnected && s.isConnecting
    ensures state == 2 <==> !s.isDisconnected && !s.isConnecting && s.isConnected
    ensures state == 3 <==> !s.isDisconnected && !s.isConnecting && !s.isConnected && s.isDisconnecting
  {
    if s.isDisconnected then 0
    else if s.isConnecting then 1
    else if s.isConnected then 2
    else if s.isDisconnecting then 3
    else 0
  }

  /** `toMap()`. */
  function ToMap(s: CastSession): (m: Dict)
    ensures m.Keys == {"device", "sessionID", "connectionState", "isMute", "statusMessage", "volume"}
    ensures m["connectionState"] == Int(ConnectState(s))
    ensures m["device"] == Null <==> s.castDevice.None?
    ensures s.castDevice.Some? ==> m["device"] == Map(AndroidDiscovery.DeviceToMap(s.castDevice.value))
    ensures m["sessionID"] == NullableString(s.sessionId)
    ensures m["isMute"] == Bool(s.isMute)
    ensures m["statusMessage"] == NullableString(s.applicationStatus)
    ensures m["volume"] == Double(s.volume)
  {
    map["device" := if s.castDevice.Some? then Map(AndroidDiscovery.DeviceToMap(s.castDevice.value)) else Null,
        "sessionID" := NullableString(s.sessionId),
        "connectionState" := Int(ConnectState(s)),
        "isMute" := Bool(s.isMute),
        "statusMessage" := NullableString(s.applicationStatus),
        "volume" := Double(s.volume)]
  }

  /** A session that reports itself disconnected is disconnected, whatever
      else it reports. */
  lemma DisconnectedDominates(s: CastSession)
    requires s.isDisconnected
    ensures ConnectState(s) == 0
    ensures ConnectState(s.(isConnecting := true, isConnected := true, isDisconnecting := true)) == 0
  {
  }

  /** The state depends only on the four flags: the device, the id, the mute
      flag, the status text and the volume do not affect it. */
  lemma StateOnlyFromFlags(s: CastSession, t: CastSession)
    requires s.isDisconnected == t.isDisconnected && s.isConnecting == t.isConnecting
    requires s.isConnected == t.isConnected && s.isDisconnecting == t.isDisconnecting
    ensures ConnectState(s) == ConnectState(t)
    ensures ToMap(s)["connectionState"] == ToMap(t)["connectionState"]
  {
  }
}
