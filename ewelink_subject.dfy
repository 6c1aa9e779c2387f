/**
 * EWeLinkSubject: builds the device directory, turns each observer config
 * into a mirroring observer (skipping the ones that cannot be built) and
 * forwards every websocket message to the attached observers.
 */
module EWeLink {
  import opened Wrappers
  import opened JsValues
  import opened Effects
  import opened Mirroring
  import opened Observation
  import opened DeviceDirectory

  /** The one observer kind createObserver knows how to build. */
  const MirrorKind := "mirrorDeviceSwitchStatus"

  datatype ObserverConfig = ObserverConfig(
    kind: string,
    shortName: string,
    sourceDeviceName: string,
    satelliteDeviceName: string)

  /**
   * Why a config yields no observer: createObserver threw for a device name,
   * or the config's kind fell through createObserver's switch, which then
   * returned undefined and made attach throw when it asked for the name.
   */
  datatype ConstructionError = DeviceNotFound(deviceName: string) | NoObserverBuilt(kind: string)
  {
    /** The message the caught error carries (the second is V8's TypeError text). */
    function Message(): string {
      match this
      case DeviceNotFound(name) => "Could not find device " + name
      case NoObserverBuilt(_) => "Cannot read properties of undefined (reading 'getName')"
    }
  }

  /** A configured name resolves when the directory holds a truthy (non-empty) id for it. */
  predicate Resolves(deviceMap: map<string, string>, name: string) {
    name in deviceMap && deviceMap[name] != ""
  }

  /**
   * The observer a config yields against a directory, or why it yields none;
   * the source device is checked before the satellite.
   */
  function ResolveObserver(deviceMap: map<string, string>, c: ObserverConfig): (r: Result<Mirror, ConstructionError>)
    ensures r.Success? <==>
              c.kind == MirrorKind && Resolves(deviceMap, c.sourceDeviceName)
              && Resolves(deviceMap, c.satelliteDeviceName)
    ensures r.Success? ==>
              r.value == Mirror(c.shortName, deviceMap[c.sourceDeviceName], deviceMap[c.satelliteDeviceName])
    ensures c.kind == MirrorKind && !Resolves(deviceMap, c.sourceDeviceName) ==>
              r == Failure(DeviceNotFound(c.sourceDeviceName))
    ensures c.kind == MirrorKind && Resolves(deviceMap, c.sourceDeviceName)
            && !Resolves(deviceMap, c.satelliteDeviceName) ==>
              r == Failure(DeviceNotFound(c.satelliteDeviceName))
  {
    if c.kind != MirrorKind then Failure(NoObserverBuilt(c.kind))
    else if !Resolves(deviceMap, c.sourceDeviceName) then Failure(DeviceNotFound(c.sourceDeviceName))
    else if !Resolves(deviceMap, c.satelliteDeviceName) then Failure(DeviceNotFound(c.satelliteDeviceName))
    else Success(Mirror(c.shortName, deviceMap[c.sourceDeviceName], deviceMap[c.satelliteDeviceName]))
  }

  /** The observers the attach loop keeps: those of the configs that resolve, in config order. */
  function Accepted(deviceMap: map<string, string>, configs: seq<ObserverConfig>): (r: seq<Mirror>)
    ensures |r| <= |configs|
    decreases |configs|
  {
    if configs == [] then []
    else
      var rest := Accepted(deviceMap, configs[1..]);
      match ResolveObserver(deviceMap, configs[0])
      case Success(m) => [m] + rest
      case Failure(_) => rest
  }

  /** The kept observers are exactly those some config resolves to. */
  lemma {:induction false} AcceptedMembers(deviceMap: map<string, string>, configs: seq<ObserverConfig>)
    ensures forall m :: m in Accepted(deviceMap, configs) <==>
              exists i :: 0 <= i < |configs| && ResolveObserver(deviceMap, configs[i]) == Success(m)
    decreases |configs|
  {
    if configs != [] {
      AcceptedMembers(deviceMap, configs[1..]);
      forall m | exists i :: 0 <= i < |configs| && ResolveObserver(deviceMap, configs[i]) == Success(m)
        ensures m in Accepted(deviceMap, configs)
      {
        var i :| 0 <= i < |configs| && ResolveObserver(deviceMap, configs[i]) == Success(m);
        if i > 0 {
          assert configs[1..][i - 1] == configs[i];
        }
      }
      forall m | m in Accepted(deviceMap, configs)
        ensures exists i :: 0 <= i < |configs| && ResolveObserver(deviceMap, configs[i]) == Success(m)
      {
        if m in Accepted(deviceMap, configs[1..]) {
          var j :| 0 <= j < |configs[1..]| && ResolveObserver(deviceMap, configs[1..][j]) == Success(m);
          assert configs[j + 1] == configs[1..][j];
        } else {
          assert ResolveObserver(deviceMap, configs[0]) == Success(m);
        }
      }
    }
  }

  /** A failed config only drops itself: the configs after it are still processed. */
  lemma {:induction false} AcceptedAppend(deviceMap: map<string, string>, a: seq<ObserverConfig>, b: seq<ObserverConfig>)
    ensures Accepted(deviceMap, a + b) == Accepted(deviceMap, a) + Accepted(deviceMap, b)
    decreases |a|
  {
    if a == [] {
      assert a + b == b;
    } else {
      assert (a + b)[0] == a[0];
      assert (a + b)[1..] == a[1..] + b;
      AcceptedAppend(deviceMap, a[1..], b);
    }
  }

  lemma AcceptedOne(deviceMap: map<string, string>, c: ObserverConfig)
    ensures Accepted(deviceMap, [c]) == if ResolveObserver(deviceMap, c).Success?
                                        then [ResolveObserver(deviceMap, c).value] else []
  {
    assert [c][1..] == [];
  }

  /** The attach loop's step: config i adds its observer, if it yields one, after those of configs 0..i-1. */
  lemma AcceptedStep(deviceMap: map<string, string>, configs: seq<ObserverConfig>, i: nat)
    requires i < |configs|
    ensures Accepted(deviceMap, configs[..i + 1])
            == Accepted(deviceMap, configs[..i])
               + (if ResolveObserver(deviceMap, configs[i]).Success?
                  then [ResolveObserver(deviceMap, configs[i]).value] else [])
  {
    assert configs[..i + 1] == configs[..i] + [configs[i]];
    AcceptedAppend(deviceMap, configs[..i], [configs[i]]);
    AcceptedOne(deviceMap, configs[i]);
  }

  /** The id the directory built from `devices` holds for a name: that of its last device. */
  function LastId(devices: seq<DeviceDetails>, name: string): Option<string> {
    match LastIndexOf(devices, name)
    case None => None
    case Some(k) => Some(devices[k].deviceid)
  }

  /**
   * Against the directory built from a device list, a config yields an
   * observer exactly when both names occur with a non-empty last id, and the
   * observer is bound to those last ids.
   */
  lemma ResolveAgainstDevices(devices: seq<DeviceDetails>, c: ObserverConfig)
    ensures var r := ResolveObserver(BuildDeviceMap(devices), c);
      && (r.Success? <==>
            c.kind == MirrorKind
            && LastId(devices, c.sourceDeviceName) !in {None, Some("")}
            && LastId(devices, c.satelliteDeviceName) !in {None, Some("")})
      && (r.Success? ==>
            r.value == Mirror(c.shortName, LastId(devices, c.sourceDeviceName).value,
                              LastId(devices, c.satelliteDeviceName).value))
  {
    DeviceMapLastWins(devices, c.sourceDeviceName);
    DeviceMapLastWins(devices, c.satelliteDeviceName);
  }

  class EWeLinkSubject {
    /** The Subject this class extends: its observer registry and fan-out. */
    const subject: Subject
    var deviceMap: map<string, string>
    const observerConfigs: seq<ObserverConfig>

    constructor (observerConfigs: seq<ObserverConfig>)
      ensures fresh(subject) && subject.Valid()
      ensures subject.name == "EWeLink" && subject.observers == []
      ensures deviceMap == map[] && this.observerConfigs == observerConfigs
    {
      subject := new Subject("EWeLink");
      deviceMap := map[];
      this.observerConfigs := observerConfigs;
    }

    /** setDeviceMap: fold the device list into the directory and store it. */
    method SetDeviceMap(devices: seq<DeviceDetails>)
      modifies this
      ensures deviceMap == BuildDeviceMap(devices)
    {
      deviceMap := BuildDeviceMap(devices);
    }

    /** createObserver: resolve both device names, or fail on the first that does not resolve. */
    method CreateObserver(c: ObserverConfig) returns (r: Result<MirrorDeviceSwitchStatus, ConstructionError>)
      ensures r.Failure? <==> ResolveObserver(deviceMap, c).Failure?
      ensures r.Failure? ==> r.error == ResolveObserver(deviceMap, c).error
      ensures r.Failure? && r.error.DeviceNotFound? ==>
                r.error.Message() == "Could not find device " + r.error.deviceName
      ensures r.Success? ==> fresh(r.value) && r.value.View() == ResolveObserver(deviceMap, c).value
    {
      if c.kind != MirrorKind {
        return Failure(NoObserverBuilt(c.kind));
      }
      if !Resolves(deviceMap, c.sourceDeviceName) {
        return Failure(DeviceNotFound(c.sourceDeviceName));
      }
      if !Resolves(deviceMap, c.satelliteDeviceName) {
        return Failure(DeviceNotFound(c.satelliteDeviceName));
      }
      var o := new MirrorDeviceSwitchStatus(c.shortName, deviceMap[c.sourceDeviceName],
                                            deviceMap[c.satelliteDeviceName]);
      return Success(o);
    }

    /**
     * startWorking, up to opening the websocket: load the directory, then
     * build and attach an observer per config, skipping those that fail.
     */
    /**
     * One turn of the attach loop: build the config's observer and attach it;
     * a failure is caught and attaches nothing.
     */
    method TryAttach(c: ObserverConfig) returns (ghost attached: Option<MirrorDeviceSwitchStatus>)
      requires subject.Valid()
      modifies subject
      ensures subject.Valid()
      ensures attached.None? <==> ResolveObserver(deviceMap, c).Failure?
      ensures attached.None? ==> subject.observers == old(subject.observers)
      ensures attached.Some? ==>
                && fresh(attached.value)
                && attached.value.View() == ResolveObserver(deviceMap, c).value
                && subject.observers == old(subject.observers) + [attached.value]
    {
      var created := CreateObserver(c);
      if created.Success? {
        var o := created.value;
        subject.Attach(o);
        attached := Some(o);
      } else {
        attached := None;
      }
    }

    method StartWorking(devices: seq<DeviceDetails>)
      requires subject.Valid()
      modifies this, subject
      ensures subject.Valid()
      ensures deviceMap == BuildDeviceMap(devices)
      ensures |subject.observers| >= |old(subject.observers)|
      ensures subject.observers[..|old(subject.observers)|] == old(subject.observers)
      ensures Views(subject.observers[|old(subject.observers)|..]) == Accepted(deviceMap, observerConfigs)
      ensures forall o :: o in subject.observers[|old(subject.observers)|..] ==> fresh(o)
    {
      SetDeviceMap(devices);
      ghost var before := subject.observers;
      ghost var added: seq<MirrorDeviceSwitchStatus> := [];
      var i := 0;
      while i < |observerConfigs|
        invariant 0 <= i <= |observerConfigs|
        invariant subject.Valid()
        modifies subject
        invariant subject.observers == before + added
        invariant Views(added) == Accepted(deviceMap, observerConfigs[..i])
        invariant forall o :: o in added ==> fresh(o)
      {
        AcceptedStep(deviceMap, observerConfigs, i);
        ghost var attached := TryAttach(observerConfigs[i]);
        if attached.Some? {
          ViewsSnoc(added, attached.value);
          added := added + [attached.value];
        }
        i := i + 1;
      }
      assert observerConfigs[..i] == observerConfigs;
      assert subject.observers[|before|..] == added;
    }

    /** The websocket callback: every message received is handed unchanged to notify. */
    method OnWebsocketMessage(data: Value, env: Environment)
      modifies env
      ensures env.trace == old(env.trace) + Broadcast(Views(subject.observers), data, env.provider, old(env.trace))
    {
      subject.Notify(data, env);
    }
  }
}
