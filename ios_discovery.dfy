/**
 * The iOS device table (ios/Classes/DiscoveryManagerMethodChannel.swift).
 *
 * The discovery listener keeps the devices it has been told about in a
 * dictionary keyed by the index the SDK reports. Insert and update overwrite
 * the entry at that index, remove erases it, and the device-list callback
 * sends the host one dictionary per entry, highest index first, each tagged
 * with its index.
 */
module IosDiscovery {
  import opened HostValues

  /** An index the SDK reports (`UInt`), within the range the host codec can
      carry as an integer. */
  type Index = x: int | 0 <= x <= INT64_MAX

  /** A `GCKDevice`, as the dictionary its `toDict()` produces. */
  datatype Device = Device(description: Dict)

  /** `k` is the largest index of `keys`. */
  predicate IsMax(k: Index, keys: set<Index>) {
    k in keys && forall j :: j in keys ==> j <= k
  }

  /** Every non-empty finite set of indices has a largest element. */
  lemma {:induction false} MaxExists(keys: set<Index>)
    requires keys != {}
    ensures exists k :: IsMax(k, keys)
    decreases |keys|
  {
    var x :| x in keys;
    var rest := keys - {x};
    if rest == {} {
      forall j | j in keys ensures j <= x {
        assert j !in rest;
      }
      assert IsMax(x, keys);
    } else {
      MaxExists(rest);
      var k :| IsMax(k, rest);
      var m := if k < x then x else k;
      forall j | j in keys ensures j <= m {
        if j != x {
          assert j in rest;
        }
      }
      assert IsMax(m, keys);
    }
  }

  /** The largest index of a non-empty set. */
  function MaxOf(keys: set<Index>): (m: Index)
    requires keys != {}
    ensures IsMax(m, keys)
  {
    MaxExists(keys);
    var k :| IsMax(k, keys);
    k
  }

  predicate Descending(r: seq<Index>) {
    forall i, j :: 0 <= i < j < |r| ==> r[i] > r[j]
  }

  /** The indices sorted by `a.key > b.key`: drawn from the set, one per
      element, strictly descending. */
  function KeysDescending(keys: set<Index>): (r: seq<Index>)
    ensures |r| == |keys|
    ensures forall i :: 0 <= i < |r| ==> r[i] in keys
    ensures Descending(r)
    decreases |keys|
  {
    if keys == {} then []
    else
      var k := MaxOf(keys);
      var smaller := keys - {k};
      assert |smaller| == |keys| - 1;
      var rest := KeysDescending(smaller);
      DescendingCons(k, rest);
      [k] + rest
  }

  /** Every index of the set appears in the sorted sequence. */
  lemma {:induction false} KeysDescendingCovers(keys: set<Index>)
    ensures forall k :: k in keys ==> k in KeysDescending(keys)
    decreases |keys|
  {
    if keys != {} {
      var m := MaxOf(keys);
      var smaller := keys - {m};
      assert |smaller| == |keys| - 1;
      KeysDescendingCovers(smaller);
      var r := KeysDescending(keys);
      assert r == [m] + KeysDescending(smaller);
      forall k | k in keys ensures k in r {
        if k != m {
          assert k in smaller;
          assert k in KeysDescending(smaller);
        }
      }
    }
  }

  /** A descending sequence stays descending behind a larger index. */
  lemma DescendingCons(k: Index, rest: seq<Index>)
    requires Descending(rest) && forall i :: 0 <= i < |rest| ==> rest[i] < k
    ensures Descending([k] + rest)
  {
    var r := [k] + rest;
    forall i, j | 0 <= i < j < |r| ensures r[i] > r[j] {
      assert r[j] == rest[j - 1];
      if i > 0 {
        assert r[i] == rest[i - 1];
      }
    }
  }

  /** The dictionary sent for the device at `index`: its `toDict()` with the
      index added. */
  function Entry(index: Index, device: Device): (d: Dict)
    ensures "index" in d && d["index"] == Integer(index)
  {
    device.description["index" := Integer(index)]
  }

  /** Every other key of the device's dictionary is sent unchanged. */
  lemma EntryKeepsDescription(index: Index, device: Device, key: string)
    requires key != "index"
    ensures key in Entry(index, device) <==> key in device.description
    ensures key in device.description ==> Entry(index, device)[key] == device.description[key]
  {
  }

  function EntriesOf(keys: seq<Index>, devices: map<Index, Device>): (list: seq<Dict>)
    requires forall i :: 0 <= i < |keys| ==> keys[i] in devices
    ensures |list| == |keys|
    ensures forall i :: 0 <= i < |keys| ==> list[i] == Entry(keys[i], devices[keys[i]])
  {
    if keys == [] then []
    else [Entry(keys[0], devices[keys[0]])] + EntriesOf(keys[1..], devices)
  }

  /** The list `didUpdateDeviceList` sends: one entry per stored index,
      highest index first. */
  function Snapshot(devices: map<Index, Device>): (list: seq<Dict>)
    ensures |list| == |devices|
    ensures forall i, j :: 0 <= i < j < |list| ==> IndexOf(list[i]) > IndexOf(list[j])
  {
    var keys := KeysDescending(devices.Keys);
    var list := EntriesOf(keys, devices);
    SnapshotDescending(devices, keys, list);
    list
  }

  /** Every entry of the list is the entry of a stored device at its own
      index. */
  lemma SnapshotHasOnlyStored(devices: map<Index, Device>)
    ensures forall i :: 0 <= i < |Snapshot(devices)| ==>
              exists k :: k in devices && Snapshot(devices)[i] == Entry(k, devices[k])
  {
    var keys := KeysDescending(devices.Keys);
    SnapshotSound(devices, keys, Snapshot(devices));
  }

  /** Every stored device appears in the list, tagged with its index. */
  lemma SnapshotHasEveryStored(devices: map<Index, Device>)
    ensures forall k :: k in devices ==>
              exists i :: 0 <= i < |Snapshot(devices)| && Snapshot(devices)[i] == Entry(k, devices[k])
  {
    var keys := KeysDescending(devices.Keys);
    KeysDescendingCovers(devices.Keys);
    SnapshotComplete(devices, keys, Snapshot(devices));
  }

  lemma SnapshotSound(devices: map<Index, Device>, keys: seq<Index>, list: seq<Dict>)
    requires forall i :: 0 <= i < |keys| ==> keys[i] in devices
    requires list == EntriesOf(keys, devices)
    ensures forall i :: 0 <= i < |list| ==>
              exists k :: k in devices && list[i] == Entry(k, devices[k])
  {
    forall i | 0 <= i < |list|
      ensures exists k :: k in devices && list[i] == Entry(k, devices[k])
    {
      assert list[i] == Entry(keys[i], devices[keys[i]]);
    }
  }

  lemma SnapshotComplete(devices: map<Index, Device>, keys: seq<Index>, list: seq<Dict>)
    requires forall k :: k in devices.Keys ==> k in keys
    requires forall i :: 0 <= i < |keys| ==> keys[i] in devices
    requires list == EntriesOf(keys, devices)
    ensures forall k :: k in devices ==>
              exists i :: 0 <= i < |list| && list[i] == Entry(k, devices[k])
  {
    forall k | k in devices
      ensures exists i :: 0 <= i < |list| && list[i] == Entry(k, devices[k])
    {
      assert k in devices.Keys;
      var i :| 0 <= i < |keys| && keys[i] == k;
      assert list[i] == Entry(k, devices[k]);
    }
  }

  lemma SnapshotDescending(devices: map<Index, Device>, keys: seq<Index>, list: seq<Dict>)
    requires Descending(keys)
    requires forall i :: 0 <= i < |keys| ==> keys[i] in devices
    requires list == EntriesOf(keys, devices)
    ensures forall i, j :: 0 <= i < j < |list| ==> IndexOf(list[i]) > IndexOf(list[j])
  {
    forall i, j | 0 <= i < j < |list| ensures IndexOf(list[i]) > IndexOf(list[j]) {
      IndexRoundTrip(keys[i], devices[keys[i]]);
      IndexRoundTrip(keys[j], devices[keys[j]]);
    }
  }

  /** The index an emitted entry carries, read back as a number. */
  function IndexOf(d: Dict): int {
    if "index" in d then
      match d["index"]
      case Int(i) => i
      case Long(l) => l
      case _ => -1
    else -1
  }

  lemma IndexRoundTrip(index: Index, device: Device)
    ensures IndexOf(Entry(index, device)) == index
  {
  }

  class DiscoveryManager {
    var devices: map<Index, Device>

    constructor ()
      ensures devices == map[]
    {
      devices := map[];
    }

    /** `didUpdate(_:at:)`: overwrites the entry at `index`; every other
        index keeps its device. */
    method DidUpdate(device: Device, index: Index)
      modifies this
      ensures devices == old(devices)[index := device]
      ensures forall k :: k != index ==> (k in devices <==> k in old(devices))
      ensures forall k :: k != index && k in devices ==> devices[k] == old(devices)[k]
    {
      devices := devices[index := device];
    }

    /** `didInsert(_:at:)`: the same overwrite; later indices are not
        shifted. */
    method DidInsert(device: Device, index: Index)
      modifies this
      ensures devices == old(devices)[index := device]
      ensures forall k :: k != index ==> (k in devices <==> k in old(devices))
      ensures forall k :: k != index && k in devices ==> devices[k] == old(devices)[k]
    {
      devices := devices[index := device];
    }

    /** `didRemove(_:at:)`: erases only `index`; an absent index changes
        nothing. */
    method DidRemove(device: Device, index: Index)
      modifies this
      ensures devices == old(devices) - {index}
      ensures index !in old(devices) ==> devices == old(devices)
      ensures forall k :: k != index ==> (k in devices <==> k in old(devices))
      ensures forall k :: k != index && k in devices ==> devices[k] == old(devices)[k]
    {
      devices := devices - {index};
    }

    /** `didUpdateDeviceList`: the list sent to the host. */
    method DidUpdateDeviceList() returns (list: seq<Dict>)
      ensures list == Snapshot(devices)
    {
      list := Snapshot(devices);
    }
  }

  /** After an insert at a fresh index the list grows by exactly that entry,
      and after removing it again the list is the one before. */
  lemma {:induction false} InsertThenRemove(devices: map<Index, Device>, index: Index, device: Device)
    requires index !in devices
    ensures |Snapshot(devices[index := device])| == |Snapshot(devices)| + 1
    ensures Snapshot(devices[index := device] - {index}) == Snapshot(devices)
  {
    assert devices[index := device] - {index} == devices;
    assert devices[index := device].Keys == devices.Keys + {index};
  }
}
