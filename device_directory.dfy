/**
 * The name-to-id directory EWeLinkSubject builds from the device list the
 * cloud returns: a left fold that writes each device's id under its name,
 * so a later device with the same name overwrites an earlier one.
 */
module DeviceDirectory {
  import opened Wrappers

  datatype DeviceDetails = DeviceDetails(deviceid: string, name: string)

  /** One reduce step: a copy of the map with this device's name set to its id. */
  function AddDevice(acc: map<string, string>, d: DeviceDetails): (r: map<string, string>)
    ensures r.Keys == acc.Keys + {d.name}
    ensures r[d.name] == d.deviceid
    ensures forall k :: k in acc && k != d.name ==> r[k] == acc[k]
  {
    acc[d.name := d.deviceid]
  }

  /** `devices.reduce(AddDevice, acc)`. */
  function FoldDevices(acc: map<string, string>, devices: seq<DeviceDetails>): map<string, string>
    decreases |devices|
  {
    if devices == [] then acc else FoldDevices(AddDevice(acc, devices[0]), devices[1..])
  }

  /** The directory setDeviceMap stores. */
  function BuildDeviceMap(devices: seq<DeviceDetails>): map<string, string> {
    FoldDevices(map[], devices)
  }

  function Names(devices: seq<DeviceDetails>): set<string> {
    set i | 0 <= i < |devices| :: devices[i].name
  }

  /** The position of the last device with this name, scanning from the end. */
  function LastIndexOf(devices: seq<DeviceDetails>, name: string): (r: Option<nat>)
    ensures r.Some? ==> r.value < |devices| && devices[r.value].name == name
    ensures r.Some? ==> forall j :: r.value < j < |devices| ==> devices[j].name != name
    ensures r.None? ==> forall j :: 0 <= j < |devices| ==> devices[j].name != name
    decreases |devices|
  {
    if devices == [] then None
    else if devices[|devices| - 1].name == name then Some(|devices| - 1)
    else LastIndexOf(devices[..|devices| - 1], name)
  }

  /** Folding one more device is one more step on the folded map. */
  lemma {:induction false} FoldSnoc(acc: map<string, string>, devices: seq<DeviceDetails>, d: DeviceDetails)
    ensures FoldDevices(acc, devices + [d]) == AddDevice(FoldDevices(acc, devices), d)
    decreases |devices|
  {
    if devices == [] {
      assert [d][1..] == [];
    } else {
      assert (devices + [d])[1..] == devices[1..] + [d];
      FoldSnoc(AddDevice(acc, devices[0]), devices[1..], d);
    }
  }

  /**
   * Last write wins: a name is in the directory exactly when some device
   * has it, and it maps to the id of the last such device.
   */
  lemma {:induction false} DeviceMapLastWins(devices: seq<DeviceDetails>, name: string)
    ensures name in BuildDeviceMap(devices) <==> LastIndexOf(devices, name).Some?
    ensures name in BuildDeviceMap(devices) ==>
              BuildDeviceMap(devices)[name] == devices[LastIndexOf(devices, name).value].deviceid
    decreases |devices|
  {
    if devices != [] {
      var init := devices[..|devices| - 1];
      var d := devices[|devices| - 1];
      assert devices == init + [d];
      FoldSnoc(map[], init, d);
      DeviceMapLastWins(init, name);
    }
  }

  /** The directory's names are exactly the names in the device list. */
  lemma DeviceMapKeys(devices: seq<DeviceDetails>)
    ensures BuildDeviceMap(devices).Keys == Names(devices)
  {
    forall name | name in Names(devices)
      ensures name in BuildDeviceMap(devices)
    {
      DeviceMapLastWins(devices, name);
    }
    forall name | name in BuildDeviceMap(devices)
      ensures name in Names(devices)
    {
      DeviceMapLastWins(devices, name);
      var i := LastIndexOf(devices, name).value;
      assert devices[i].name == name;
    }
  }

  predicate DistinctNames(devices: seq<DeviceDetails>) {
    forall i, j :: 0 <= i < j < |devices| ==> devices[i].name != devices[j].name
  }

  /** With no name repeated, every device's name resolves to that device's own id. */
  lemma DistinctNamesResolve(devices: seq<DeviceDetails>, i: nat)
    requires DistinctNames(devices)
    requires i < |devices|
    ensures devices[i].name in BuildDeviceMap(devices)
    ensures BuildDeviceMap(devices)[devices[i].name] == devices[i].deviceid
  {
    DeviceMapLastWins(devices, devices[i].name);
    var k := LastIndexOf(devices, devices[i].name).value;
    assert k == i;
  }

  /** The three-device list of the subject's unit test and its expected by-name map. */
  lemma TestThreeDevices()
    ensures BuildDeviceMap([DeviceDetails("deviceid1", "deviceName1"),
                            DeviceDetails("deviceid2", "deviceName2"),
                            DeviceDetails("deviceid3", "deviceName3")])
            == map["deviceName1" := "deviceid1", "deviceName2" := "deviceid2", "deviceName3" := "deviceid3"]
  {
    var devices := [DeviceDetails("deviceid1", "deviceName1"),
                    DeviceDetails("deviceid2", "deviceName2"),
                    DeviceDetails("deviceid3", "deviceName3")];
    assert devices[1..] == [devices[1], devices[2]];
    assert devices[1..][1..] == [devices[2]];
    assert devices[1..][1..][1..] == [];
  }
}
