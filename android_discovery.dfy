/**
 * Android device discovery
 * (android/src/main/kotlin/com/felnanuke/google_cast/DiscoveryManagerMethodChannel.kt).
 *
 * Every route event rebuilds the device list from the router's current
 * routes: routes without a Cast device are ignored, and a device is kept
 * only when neither its id nor its `name_model` signature has been seen
 * among the devices kept before it.
 */
module AndroidDiscovery {
  import opened HostValues
  import opened SeqUtil

  /** A `CastDevice`, with the fields its `toMap()` reports. */
  datatype CastDevice = CastDevice(
    deviceId: Option<string>,
    friendlyName: Option<string>,
    modelName: Option<string>,
    deviceVersion: Option<string>,
    isOnLocalNetwork: bool)

  /** A media-router route; `castDevice` is what `CastDevice.getFromBundle`
      finds in its extras. */
  datatype Route = Route(castDevice: Option<CastDevice>)

  /** `CastDevice.toMap()`. */
  function DeviceToMap(d: CastDevice): (m: Dict)
    ensures m.Keys == {"id", "name", "model_name", "device_version", "is_on_local_network"}
    ensures m["id"] == NullableString(d.deviceId)
  {
    map["id" := NullableString(d.deviceId),
        "name" := NullableString(d.friendlyName),
        "model_name" := NullableString(d.modelName),
        "device_version" := NullableString(d.deviceVersion),
        "is_on_local_network" := Bool(d.isOnLocalNetwork)]
  }

  /** Kotlin string interpolation renders null as "null". */
  function Render(o: Option<string>): string {
    if o.Some? then o.value else "null"
  }

  /** `"${deviceName}_${deviceModel}"`. */
  function Signature(d: CastDevice): string {
    Render(d.friendlyName) + "_" + Render(d.modelName)
  }

  /** The devices the routes carry, in route order (`getCastDevice`). */
  function RouteDevices(routes: seq<Route>): (devices: seq<CastDevice>)
    ensures |devices| <= |routes|
  {
    if routes == [] then []
    else
      var last := routes[|routes| - 1];
      RouteDevices(routes[..|routes| - 1]) + (if last.castDevice.Some? then [last.castDevice.value] else [])
  }

  function SeenIds(kept: seq<CastDevice>): set<string> {
    set d | d in kept && d.deviceId.Some? :: d.deviceId.value
  }

  function SeenSignatures(kept: seq<CastDevice>): set<string> {
    set d | d in kept :: Signature(d)
  }

  /** The test a device must pass to join the devices kept so far. */
  predicate Admits(kept: seq<CastDevice>, d: CastDevice) {
    d.deviceId.Some? && d.deviceId.value !in SeenIds(kept) && Signature(d) !in SeenSignatures(kept)
  }

  /** The first-wins filter over the devices, in order. */
  function Dedup(devices: seq<CastDevice>): (kept: seq<CastDevice>)
    ensures |kept| <= |devices|
  {
    if devices == [] then []
    else
      var before := Dedup(devices[..|devices| - 1]);
      var d := devices[|devices| - 1];
      if Admits(before, d) then before + [d] else before
  }

  /** `getCastDevicesMap`: the device list sent to the host, rebuilt from the
      current routes. */
  method GetCastDevicesMap(routes: seq<Route>) returns (devices: seq<CastDevice>)
    ensures devices == Dedup(RouteDevices(routes))
  {
    devices := [];
    var seenDeviceIds: set<string> := {};
    var seenDeviceSignatures: set<string> := {};
    var i := 0;
    while i < |routes|
      invariant 0 <= i <= |routes|
      invariant devices == Dedup(RouteDevices(routes[..i]))
      invariant seenDeviceIds == SeenIds(devices)
      invariant seenDeviceSignatures == SeenSignatures(devices)
    {
      RouteDevicesStep(routes, i);
      var device := routes[i].castDevice;
      if device.Some? {
        var d := device.value;
        var deviceSignature := Signature(d);
        DedupStep(RouteDevices(routes[..i]), d);
        assert RouteDevices(routes[..i + 1]) == RouteDevices(routes[..i]) + [d];
        if d.deviceId.Some? && d.deviceId.value !in seenDeviceIds
           && deviceSignature !in seenDeviceSignatures
        {
          SeenStep(devices, d);
          seenDeviceIds := seenDeviceIds + {d.deviceId.value};
          seenDeviceSignatures := seenDeviceSignatures + {deviceSignature};
          devices := devices + [d];
        }
      } else {
        assert RouteDevices(routes[..i + 1]) == RouteDevices(routes[..i]);
      }
      i := i + 1;
    }
    assert routes[..i] == routes;
  }

  lemma RouteDevicesStep(routes: seq<Route>, i: nat)
    requires i < |routes|
    ensures RouteDevices(routes[..i + 1]) == RouteDevices(routes[..i])
              + (if routes[i].castDevice.Some? then [routes[i].castDevice.value] else [])
  {
    assert routes[..i + 1][..i] == routes[..i];
  }

  lemma DedupStep(devices: seq<CastDevice>, d: CastDevice)
    ensures Dedup(devices + [d]) == if Admits(Dedup(devices), d) then Dedup(devices) + [d] else Dedup(devices)
  {
    assert (devices + [d])[..|devices|] == devices;
  }

  lemma SeenStep(kept: seq<CastDevice>, d: CastDevice)
    requires d.deviceId.Some?
    ensures SeenIds(kept + [d]) == SeenIds(kept) + {d.deviceId.value}
    ensures SeenSignatures(kept + [d]) == SeenSignatures(kept) + {Signature(d)}
  {
    assert d in kept + [d];
    forall e | e in kept + [d] ensures e in kept || e == d {}
  }

  /** `selectRoute`: the index of the first route whose device has the given
      id, if any; only that route is selected. */
  function SelectRoute(routes: seq<Route>, id: string): (r: Option<nat>)
    ensures r.None? <==> forall i :: 0 <= i < |routes| ==> !Matches(routes[i], id)
    ensures r.Some? ==> r.value < |routes| && Matches(routes[r.value], id)
                        && forall i :: 0 <= i < r.value ==> !Matches(routes[i], id)
  {
    if routes == [] then None
    else if Matches(routes[0], id) then Some(0)
    else
      match SelectRoute(routes[1..], id)
      case None => None
      case Some(i) => Some(i + 1)
  }

  /** `device?.deviceId == id`. */
  predicate Matches(route: Route, id: string) {
    route.castDevice.Some? && route.castDevice.value.deviceId == Some(id)
  }

  // ---- Properties of the filter

  /** No two kept devices share an id or a signature, and none has a null
      id. */
  lemma {:induction false} DedupUnique(devices: seq<CastDevice>)
    ensures forall d :: d in Dedup(devices) ==> d.deviceId.Some?
    ensures forall i, j :: 0 <= i < j < |Dedup(devices)| ==>
              Dedup(devices)[i].deviceId != Dedup(devices)[j].deviceId
    ensures forall i, j :: 0 <= i < j < |Dedup(devices)| ==>
              Signature(Dedup(devices)[i]) != Signature(Dedup(devices)[j])
  {
    if devices != [] {
      var before := Dedup(devices[..|devices| - 1]);
      var d := devices[|devices| - 1];
      DedupUnique(devices[..|devices| - 1]);
      if Admits(before, d) {
        var kept := before + [d];
        forall i | 0 <= i < |before|
          ensures kept[i].deviceId != d.deviceId && Signature(kept[i]) != Signature(d)
        {
          assert kept[i] in before;
        }
      }
    }
  }

  /** The kept devices appear in the input, in input order. */
  lemma {:induction false} DedupSubsequence(devices: seq<CastDevice>)
    ensures IsSubsequence(Dedup(devices), devices)
  {
    if devices != [] {
      var init := devices[..|devices| - 1];
      var d := devices[|devices| - 1];
      DedupSubsequence(init);
      assert init + [d] == devices;
      if Admits(Dedup(init), d) {
        SubsequenceKeep(Dedup(init), init, d);
      } else {
        SubsequenceExtend(Dedup(init), init, d);
      }
    }
  }

  /** The device list is drawn from the route devices, in route order, and is
      no longer than the routes. */
  lemma DevicesFromRoutes(routes: seq<Route>)
    ensures IsSubsequence(Dedup(RouteDevices(routes)), RouteDevices(routes))
    ensures |Dedup(RouteDevices(routes))| <= |routes|
  {
    DedupSubsequence(RouteDevices(routes));
  }

  /** A device is dropped only when a kept device already has its id or its
      signature (or its id is null). */
  lemma {:induction false} DedupCovers(devices: seq<CastDevice>, x: CastDevice)
    requires x in devices && x.deviceId.Some?
    ensures exists y :: y in Dedup(devices) && (y.deviceId == x.deviceId || Signature(y) == Signature(x))
  {
    var init := devices[..|devices| - 1];
    var d := devices[|devices| - 1];
    assert devices == init + [d];
    if x in init {
      DedupCovers(init, x);
      var y :| y in Dedup(init) && (y.deviceId == x.deviceId || Signature(y) == Signature(x));
      assert y in Dedup(devices);
    } else if Admits(Dedup(init), d) {
      assert x in Dedup(devices);
    } else {
      assert x == d;
      if x.deviceId.value in SeenIds(Dedup(init)) {
        var y :| y in Dedup(init) && y.deviceId.Some? && y.deviceId.value == x.deviceId.value;
        assert y in Dedup(devices);
      } else {
        var y :| y in Dedup(init) && Signature(y) == Signature(x);
        assert y in Dedup(devices);
      }
    }
  }

  /** The devices kept from a prefix start the devices kept from the whole:
      later routes never displace an earlier device. */
  lemma {:induction false} DedupPrefix(devices: seq<CastDevice>, k: nat)
    requires k <= |devices|
    ensures Dedup(devices[..k]) <= Dedup(devices)
    decreases |devices| - k
  {
    if k < |devices| {
      DedupPrefix(devices[..|devices| - 1], k);
      assert devices[..|devices| - 1][..k] == devices[..k];
    } else {
      assert devices[..k] == devices;
    }
  }

  /** First one wins: a first device with an id is always kept, first. */
  lemma FirstDeviceWins(devices: seq<CastDevice>)
    requires devices != [] && devices[0].deviceId.Some?
    ensures |Dedup(devices)| > 0 && Dedup(devices)[0] == devices[0]
  {
    DedupPrefix(devices, 1);
    assert devices[..1][..0] == [];
  }

  /** A list the filter produced passes through the filter unchanged, so
      rebuilding the list is idempotent. */
  lemma DedupIdempotent(devices: seq<CastDevice>)
    ensures Dedup(Dedup(devices)) == Dedup(devices)
  {
    DedupUnique(devices);
    DedupOfUnique(Dedup(devices));
  }

  lemma {:induction false} DedupOfUnique(u: seq<CastDevice>)
    requires forall d :: d in u ==> d.deviceId.Some?
    requires forall i, j :: 0 <= i < j < |u| ==> u[i].deviceId != u[j].deviceId
    requires forall i, j :: 0 <= i < j < |u| ==> Signature(u[i]) != Signature(u[j])
    ensures Dedup(u) == u
  {
    if u != [] {
      var init := u[..|u| - 1];
      var d := u[|u| - 1];
      DedupOfUnique(init);
      forall e | e in init
        ensures e.deviceId != d.deviceId && Signature(e) != Signature(d)
      {
        var i :| 0 <= i < |init| && init[i] == e;
        assert u[i] == e;
      }
      assert init + [d] == u;
    }
  }

  /** Two routes for one receiver, same name and model but different ids,
      collapse to the first; and distinct names and models whose
      `name_model` strings coincide are folded together too. */
  lemma SignatureExamples()
    ensures var a := CastDevice(Some("d1"), Some("Living Room"), Some("Receiver-X"), None, true);
            var b := CastDevice(Some("d2"), Some("Living Room"), Some("Receiver-X"), None, true);
            Dedup([a, b]) == [a]
    ensures var a := CastDevice(Some("1"), Some("a_b"), Some("c"), None, true);
            var b := CastDevice(Some("2"), Some("a"), Some("b_c"), None, true);
            Signature(a) == Signature(b) && Dedup([a, b]) == [a]
    ensures Signature(CastDevice(Some("3"), None, Some("X"), None, false)) == "null_X"
  {
    var a := CastDevice(Some("d1"), Some("Living Room"), Some("Receiver-X"), None, true);
    var b := CastDevice(Some("d2"), Some("Living Room"), Some("Receiver-X"), None, true);
    assert [a, b][..1] == [a];
    assert [a][..0] == [];
    assert a in [a];
    assert Signature(b) == Signature(a);
    assert Signature(b) in SeenSignatures([a]);
    var c := CastDevice(Some("1"), Some("a_b"), Some("c"), None, true);
    var e := CastDevice(Some("2"), Some("a"), Some("b_c"), None, true);
    assert Signature(c) == "a_b_c";
    assert Signature(e) == "a_b_c";
    assert [c, e][..1] == [c];
    assert [c][..0] == [];
    assert c in [c];
    assert Signature(e) in SeenSignatures([c]);
  }
}
