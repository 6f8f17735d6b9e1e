/** The Bluetooth Low Energy manager hook: one `BluetoothState` record,
    changed by radio, scan, connection, characteristic and user events.
    The BLE library, the permission prompt, the platform and the clock are
    not modelled; what they return is passed to each event method. Each
    state update of the hook is one atomic step of the method modelling it. */
module BluetoothManager {
  import opened Js
  import opened GattDecode

  datatype Platform = Android | Ios | Web

  /** The radio states the BLE library reports, plus `NotSupported`, which
      the hook itself records when Bluetooth cannot be used. */
  datatype RadioState =
    | Unknown | Resetting | Unsupported | Unauthorized | PoweredOff | PoweredOn | NotSupported

  datatype BluetoothDevice = BluetoothDevice(
    id: string,
    name: string,
    rssi: int,
    isConnected: bool,
    services: Option<seq<string>>)

  datatype RealTimeData = RealTimeData(
    heartRate: Option<int>,
    steps: Option<int>,
    batteryLevel: Option<int>,
    timestamp: string)

  /** The observable state of the hook. */
  datatype BluetoothState = BluetoothState(
    isScanning: bool,
    discoveredDevices: seq<BluetoothDevice>,
    connectedDevice: Option<BluetoothDevice>,
    realTimeData: Option<RealTimeData>,
    bluetoothState: RadioState,
    error: Option<string>)

  /** A device object as the scan callback receives it. */
  datatype ScannedDevice = ScannedDevice(
    id: string,
    name: Option<string>,
    rssi: Option<int>,
    serviceUUIDs: Option<seq<string>>)

  /** One invocation of the scan callback: an error, or a (possibly null) device. */
  datatype ScanEvent = ScanFailed(message: string) | ScanResult(device: Option<ScannedDevice>)

  /** What connecting and discovering services returned: the connected
      device's name, or the message of the error thrown. */
  datatype ConnectOutcome = ConnectSucceeded(name: Option<string>) | ConnectFailed(message: string)

  /** What an awaited library call returned: nothing, or a thrown error's message. */
  datatype CallOutcome = CallSucceeded | CallFailed(message: string)

  /** What reading a characteristic returned: its decoded value, or a thrown
      error. The value is `None` when the base64 text is missing or empty
      (both falsy, so the update is skipped); `Some([])` is a non-empty text
      that decodes to no bytes. */
  datatype ReadOutcome = ReadValue(value: Option<seq<byte>>) | ReadFailed

  const LoginRequiredError := "Please log in to use Bluetooth features."
  const RadioOffError := "Bluetooth is turned off. Please enable Bluetooth to connect to devices."
  const InitFailedError := "Failed to initialize Bluetooth. This feature may not be available on this device."
  const WebUnsupportedError := "Bluetooth functionality is not available on web. Please use the mobile app for device connectivity."
  const ScanUnavailableError := "Bluetooth scanning is only available on mobile devices."
  const PermissionsError := "Bluetooth permissions are required to scan for devices."
  const TurnOnRadioError := "Please turn on Bluetooth to scan for devices."
  const ScanFailedPrefix := "Failed to scan for devices: "
  const ConnectUnavailableError := "Device connection is only available on mobile devices."
  const ConnectFailedPrefix := "Failed to connect to device: "
  const DisconnectUnavailableError := "Device disconnection is only available on mobile devices."
  const DisconnectFailedPrefix := "Failed to disconnect: "
  const UnknownDeviceName := "Unknown Device"

  // ---------------------------------------------------------------------
  // The discovered-device list

  predicate DistinctIds(devices: seq<BluetoothDevice>) {
    forall i, j :: 0 <= i < j < |devices| ==> devices[i].id != devices[j].id
  }

  /** `devices.find(d => d.id === id)`: the first entry with that id. */
  function FindDevice(devices: seq<BluetoothDevice>, id: string): (r: Option<BluetoothDevice>)
    ensures r.Some? ==> r.value in devices && r.value.id == id
    ensures r.None? <==> forall i :: 0 <= i < |devices| ==> devices[i].id != id
    ensures forall k :: 0 <= k < |devices| && devices[k].id == id &&
              (forall j :: 0 <= j < k ==> devices[j].id != id)
              ==> r == Some(devices[k])
    decreases |devices|
  {
    if |devices| == 0 then None
    else if devices[0].id == id then Some(devices[0])
    else FindDevice(devices[1..], id)
  }

  /** `device && device.name`: the scan callback only records named devices. */
  predicate HasName(d: ScannedDevice) {
    d.name.Some? && d.name.value != ""
  }

  /** The entry recorded for a newly sighted device: an `rssi` that is
      missing or 0 becomes -100, missing service UUIDs become []. */
  function NewDevice(d: ScannedDevice): (r: BluetoothDevice)
    ensures r.id == d.id && !r.isConnected
    ensures d.serviceUUIDs.Some? ==> r.services == d.serviceUUIDs
    ensures d.serviceUUIDs.None? ==> r.services == Some([])
    ensures HasName(d) ==> r.name == d.name.value
    ensures !HasName(d) ==> r.name == UnknownDeviceName
    ensures d.rssi.Some? && d.rssi.value != 0 ==> r.rssi == d.rssi.value
    ensures d.rssi.None? || d.rssi.value == 0 ==> r.rssi == -100
  {
    BluetoothDevice(
      d.id,
      StringOr(d.name, UnknownDeviceName),
      NumberOr(d.rssi, -100),
      false,
      Some(d.serviceUUIDs.GetOr([])))
  }

  /** The list after the scan callback reports `d`: unchanged for an unnamed
      device or one whose id is listed already, otherwise `d` appended. */
  function AddDiscovered(devices: seq<BluetoothDevice>, d: ScannedDevice): (r: seq<BluetoothDevice>)
    ensures !HasName(d) || (exists i :: 0 <= i < |devices| && devices[i].id == d.id) ==> r == devices
    ensures HasName(d) && (forall i :: 0 <= i < |devices| ==> devices[i].id != d.id) ==>
              r == devices + [NewDevice(d)]
    ensures DistinctIds(devices) ==> DistinctIds(r)
  {
    if !HasName(d) then devices
    else if FindDevice(devices, d.id).Some? then devices
    else devices + [NewDevice(d)]
  }

  /** `devices.map(d => d.id === id ? { ...d, isConnected: flag } : d)`. */
  function SetConnected(devices: seq<BluetoothDevice>, id: string, flag: bool): (r: seq<BluetoothDevice>)
    ensures |r| == |devices|
    ensures forall i :: 0 <= i < |devices| ==>
              r[i] == if devices[i].id == id then devices[i].(isConnected := flag) else devices[i]
    ensures DistinctIds(devices) ==> DistinctIds(r)
    decreases |devices|
  {
    if |devices| == 0 then []
    else
      var head := if devices[0].id == id then devices[0].(isConnected := flag) else devices[0];
      [head] + SetConnected(devices[1..], id, flag)
  }

  /** Marking a device connected and then disconnected restores the list, as
      long as no entry with that id was marked connected before. */
  lemma ConnectThenDisconnectRestores(devices: seq<BluetoothDevice>, id: string)
    requires forall i :: 0 <= i < |devices| && devices[i].id == id ==> !devices[i].isConnected
    ensures SetConnected(SetConnected(devices, id, true), id, false) == devices
  {
    var r := SetConnected(SetConnected(devices, id, true), id, false);
    assert forall i :: 0 <= i < |devices| ==> r[i] == devices[i];
  }

  /** The list after a sequence of scan results, applied in arrival order. */
  function ScanResults(devices: seq<BluetoothDevice>, found: seq<ScannedDevice>): (r: seq<BluetoothDevice>)
    ensures DistinctIds(devices) ==> DistinctIds(r)
    decreases |found|
  {
    if |found| == 0 then devices else ScanResults(AddDiscovered(devices, found[0]), found[1..])
  }

  /** A scan result that the callback records for `id`. */
  predicate NamedSightingOf(d: ScannedDevice, id: string) {
    HasName(d) && d.id == id
  }

  /** The first named sighting of `id` in a sequence of scan results. */
  function FirstNamedSighting(found: seq<ScannedDevice>, id: string): (r: Option<ScannedDevice>)
    ensures r.Some? ==> r.value in found && NamedSightingOf(r.value, id)
    ensures r.None? <==> forall i :: 0 <= i < |found| ==> !NamedSightingOf(found[i], id)
    ensures forall k :: 0 <= k < |found| && NamedSightingOf(found[k], id) &&
              (forall j :: 0 <= j < k ==> !NamedSightingOf(found[j], id))
              ==> r == Some(found[k])
    decreases |found|
  {
    if |found| == 0 then None
    else if NamedSightingOf(found[0], id) then Some(found[0])
    else FirstNamedSighting(found[1..], id)
  }

  lemma {:induction false} FindAfterAppend(devices: seq<BluetoothDevice>, x: BluetoothDevice, id: string)
    ensures FindDevice(devices + [x], id) ==
            if FindDevice(devices, id).Some? then FindDevice(devices, id)
            else if x.id == id then Some(x) else None
    decreases |devices|
  {
    if |devices| > 0 {
      assert (devices + [x])[0] == devices[0];
      assert (devices + [x])[1..] == devices[1..] + [x];
      FindAfterAppend(devices[1..], x, id);
    }
  }

  lemma FindAfterAdd(devices: seq<BluetoothDevice>, d: ScannedDevice, id: string)
    ensures FindDevice(AddDiscovered(devices, d), id) ==
            if FindDevice(devices, id).Some? then FindDevice(devices, id)
            else if HasName(d) && d.id == id then Some(NewDevice(d)) else None
  {
    if HasName(d) && FindDevice(devices, d.id).None? {
      FindAfterAppend(devices, NewDevice(d), id);
    }
  }

  /** First sighting wins: after any sequence of scan results, the entry for
      `id` is the one already listed, or else the one built from the first
      named advertisement of `id`; later advertisements never replace it. */
  lemma {:induction false} FirstSightingWins(devices: seq<BluetoothDevice>, found: seq<ScannedDevice>, id: string)
    ensures FindDevice(ScanResults(devices, found), id) ==
            if FindDevice(devices, id).Some? then FindDevice(devices, id)
            else match FirstNamedSighting(found, id)
              case None => None
              case Some(d) => Some(NewDevice(d))
    decreases |found|
  {
    if |found| > 0 {
      FindAfterAdd(devices, found[0], id);
      FirstSightingWins(AddDiscovered(devices, found[0]), found[1..], id);
    }
  }

  // ---------------------------------------------------------------------
  // Real-time readings

  /** `{ ...prev, heartRate, timestamp }`: the other fields of the previous
      reading are kept; there are none when there was no reading. */
  function WithHeartRate(prev: Option<RealTimeData>, bpm: int, at: string): (r: RealTimeData)
    ensures r.heartRate == Some(bpm) && r.timestamp == at
    ensures prev.Some? ==> r.steps == prev.value.steps && r.batteryLevel == prev.value.batteryLevel
    ensures prev.None? ==> r.steps.None? && r.batteryLevel.None?
  {
    prev.GetOr(RealTimeData(None, None, None, at)).(heartRate := Some(bpm), timestamp := at)
  }

  /** `{ ...prev, batteryLevel, timestamp }`. */
  function WithBatteryLevel(prev: Option<RealTimeData>, level: int, at: string): (r: RealTimeData)
    ensures r.batteryLevel == Some(level) && r.timestamp == at
    ensures prev.Some? ==> r.steps == prev.value.steps && r.heartRate == prev.value.heartRate
    ensures prev.None? ==> r.steps.None? && r.heartRate.None?
  {
    prev.GetOr(RealTimeData(None, None, None, at)).(batteryLevel := Some(level), timestamp := at)
  }

  /** Heart-rate and battery updates touch disjoint fields: applied in either
      order they give the same reading, up to the timestamp of the later one. */
  lemma ReadingUpdatesCommute(prev: Option<RealTimeData>, bpm: int, level: int, at: string)
    ensures WithBatteryLevel(Some(WithHeartRate(prev, bpm, at)), level, at) ==
            WithHeartRate(Some(WithBatteryLevel(prev, level, at)), bpm, at)
  {
  }

  // ---------------------------------------------------------------------
  // The hook's state and its events

  class BluetoothHook {
    const platform: Platform
    /** Whether the manager reference holds a BLE manager. */
    var managerPresent: bool

    var isScanning: bool
    var discoveredDevices: seq<BluetoothDevice>
    var connectedDevice: Option<BluetoothDevice>
    var realTimeData: Option<RealTimeData>
    var bluetoothState: RadioState
    var error: Option<string>

    function State(): BluetoothState
      reads this
    {
      BluetoothState(isScanning, discoveredDevices, connectedDevice, realTimeData, bluetoothState, error)
    }

    /** Device ids are listed once; the connected device is marked connected;
        there is never a manager on the web. */
    predicate Valid()
      reads this
    {
      && DistinctIds(discoveredDevices)
      && (connectedDevice.Some? ==> connectedDevice.value.isConnected)
      && (managerPresent ==> platform != Web)
    }

    /** The hook's initial state. */
    constructor (platform: Platform)
      ensures Valid() && this.platform == platform && !managerPresent
      ensures State() == BluetoothState(false, [], None, None, Unknown, None)
    {
      this.platform := platform;
      managerPresent := false;
      isScanning := false;
      discoveredDevices := [];
      connectedDevice := None;
      realTimeData := None;
      bluetoothState := Unknown;
      error := None;
    }

    /** The initialising effect: without a user, or on the web, or when the
        manager cannot be created, Bluetooth is marked `NotSupported` with a
        reason; otherwise the manager is created. */
    method Initialize(userPresent: bool, managerCreated: bool)
      requires Valid()
      modifies this
      ensures Valid()
      ensures !userPresent ==>
                managerPresent == old(managerPresent) &&
                State() == old(State()).(bluetoothState := NotSupported, error := Some(LoginRequiredError))
      ensures userPresent && platform != Web && managerCreated ==>
                managerPresent && State() == old(State())
      ensures userPresent && platform != Web && !managerCreated ==>
                managerPresent == old(managerPresent) &&
                State() == old(State()).(bluetoothState := NotSupported, error := Some(InitFailedError))
      ensures userPresent && platform == Web ==>
                managerPresent == old(managerPresent) &&
                State() == old(State()).(bluetoothState := NotSupported, error := Some(WebUnsupportedError))
    {
      if !userPresent {
        bluetoothState, error := NotSupported, Some(LoginRequiredError);
        return;
      }
      if platform != Web {
        if managerCreated {
          managerPresent := true;
        } else {
          bluetoothState, error := NotSupported, Some(InitFailedError);
        }
      } else {
        bluetoothState, error := NotSupported, Some(WebUnsupportedError);
      }
    }

    /** The radio-state callback. The new state is always recorded; switching
        off also stops scanning, empties the list, forgets the connected
        device and records an error, but keeps the last reading. */
    method OnRadioStateChange(radio: RadioState)
      requires Valid()
      modifies this
      ensures Valid() && managerPresent == old(managerPresent)
      ensures radio != PoweredOff ==> State() == old(State()).(bluetoothState := radio)
      ensures radio == PoweredOff ==>
                State() == old(State()).(bluetoothState := PoweredOff, error := Some(RadioOffError),
                                         isScanning := false, discoveredDevices := [], connectedDevice := None)
    {
      bluetoothState := radio;
      if radio == PoweredOff {
        error := Some(RadioOffError);
        isScanning := false;
        discoveredDevices := [];
        connectedDevice := None;
      }
    }

    /** `startScanning`. `permissionsGranted` is the answer to the Android
        permission request (not asked elsewhere); `radio` is the state the
        manager reports when asked. A failed check records only an error;
        otherwise a fresh scan starts with an empty list. */
    method StartScanning(permissionsGranted: bool, radio: RadioState)
      requires Valid()
      modifies this
      ensures Valid() && managerPresent == old(managerPresent)
      ensures !managerPresent || platform == Web ==>
                State() == old(State()).(error := Some(ScanUnavailableError))
      ensures managerPresent && platform == Android && !permissionsGranted ==>
                State() == old(State()).(error := Some(PermissionsError))
      ensures managerPresent && (platform == Ios || permissionsGranted) && radio != PoweredOn ==>
                State() == old(State()).(error := Some(TurnOnRadioError))
      ensures managerPresent && (platform == Ios || permissionsGranted) && radio == PoweredOn ==>
                State() == old(State()).(isScanning := true, discoveredDevices := [], error := None)
    {
      if !managerPresent || platform == Web {
        error := Some(ScanUnavailableError);
        return;
      }
      if platform == Android && !permissionsGranted {
        error := Some(PermissionsError);
        return;
      }
      if radio != PoweredOn {
        error := Some(TurnOnRadioError);
        return;
      }
      isScanning, discoveredDevices, error := true, [], None;
    }

    /** The scan callback: an error stops scanning and is recorded; a device
        is added by `AddDiscovered`; a null device changes nothing. */
    method OnScanEvent(event: ScanEvent)
      requires Valid()
      modifies this
      ensures Valid() && managerPresent == old(managerPresent)
      ensures event.ScanFailed? ==>
                State() == old(State()).(isScanning := false, error := Some(ScanFailedPrefix + event.message))
      ensures event.ScanResult? && event.device.Some? ==>
                State() == old(State()).(discoveredDevices := AddDiscovered(old(discoveredDevices), event.device.value))
      ensures event.ScanResult? && event.device.None? ==> State() == old(State())
    {
      match event
      case ScanFailed(message) =>
        isScanning, error := false, Some(ScanFailedPrefix + message);
      case ScanResult(device) =>
        if device.Some? {
          discoveredDevices := AddDiscovered(discoveredDevices, device.value);
        }
    }

    /** `stopScanning`: clears `isScanning` and nothing else, so a second call
        changes nothing. Without a manager it does nothing at all. */
    method StopScanning()
      requires Valid()
      modifies this
      ensures Valid() && managerPresent == old(managerPresent)
      ensures !managerPresent || platform == Web ==> State() == old(State())
      ensures managerPresent && platform != Web ==> State() == old(State()).(isScanning := false)
    {
      if !managerPresent || platform == Web {
        return;
      }
      isScanning := false;
    }

    /** `connectToDevice`, up to the start of monitoring. There is no guard
        against an existing connection. The error is cleared first; on
        success the device becomes the connected one and its list entries
        are marked connected; on failure only the error is recorded. */
    method ConnectToDevice(deviceId: string, outcome: ConnectOutcome)
      requires Valid()
      modifies this
      ensures Valid() && managerPresent == old(managerPresent)
      ensures !managerPresent || platform == Web ==>
                State() == old(State()).(error := Some(ConnectUnavailableError))
      ensures managerPresent && platform != Web && outcome.ConnectSucceeded? ==>
                State() == old(State()).(
                  error := None,
                  connectedDevice := Some(BluetoothDevice(deviceId, StringOr(outcome.name, UnknownDeviceName), 0, true, None)),
                  discoveredDevices := SetConnected(old(discoveredDevices), deviceId, true))
      ensures managerPresent && platform != Web && outcome.ConnectFailed? ==>
                State() == old(State()).(error := Some(ConnectFailedPrefix + outcome.message))
    {
      if !managerPresent || platform == Web {
        error := Some(ConnectUnavailableError);
        return;
      }
      error := None;
      match outcome
      case ConnectSucceeded(name) =>
        connectedDevice := Some(BluetoothDevice(deviceId, StringOr(name, UnknownDeviceName), 0, true, None));
        discoveredDevices := SetConnected(discoveredDevices, deviceId, true);
      case ConnectFailed(message) =>
        error := Some(ConnectFailedPrefix + message);
    }

    /** `startMonitoring`: subscribing to heart-rate notifications changes no
        state (its failure is only logged), and the battery level is read in
        its own try block whatever happened to the subscription. A value that
        is read updates only `batteryLevel` and the timestamp. */
    method StartMonitoring(heartRateSubscribed: bool, battery: ReadOutcome, now: string)
      requires Valid()
      modifies this
      ensures Valid() && managerPresent == old(managerPresent)
      ensures battery.ReadValue? && battery.value.Some? ==>
                State() == old(State()).(realTimeData :=
                  Some(WithBatteryLevel(old(realTimeData), ParseBatteryLevel(battery.value.value), now)))
      ensures battery.ReadFailed? || battery.value.None? ==> State() == old(State())
    {
      if battery.ReadValue? && battery.value.Some? {
        var level := ParseBatteryLevel(battery.value.value);
        realTimeData := Some(WithBatteryLevel(realTimeData, level, now));
      }
    }

    /** The heart-rate notification callback: an error or an empty value
        changes nothing; otherwise the decoded rate updates only `heartRate`
        and the timestamp. */
    method OnHeartRateNotification(failed: bool, value: Option<seq<byte>>, now: string)
      requires Valid()
      modifies this
      ensures Valid() && managerPresent == old(managerPresent)
      ensures !failed && value.Some? ==>
                State() == old(State()).(realTimeData :=
                  Some(WithHeartRate(old(realTimeData), ParseHeartRateValue(value.value), now)))
      ensures failed || value.None? ==> State() == old(State())
    {
      if failed {
        return;
      }
      if value.Some? {
        var bpm := ParseHeartRateValue(value.value);
        realTimeData := Some(WithHeartRate(realTimeData, bpm, now));
      }
    }

    /** `disconnectDevice`. With no manager or no connected device only an
        error is recorded. Otherwise, on success, the connected device and
        the reading are cleared and the entries with its id are unmarked;
        on failure only an error is recorded. */
    method DisconnectDevice(outcome: CallOutcome)
      requires Valid()
      modifies this
      ensures Valid() && managerPresent == old(managerPresent)
      ensures !managerPresent || old(connectedDevice).None? || platform == Web ==>
                State() == old(State()).(error := Some(DisconnectUnavailableError))
      ensures managerPresent && old(connectedDevice).Some? && platform != Web && outcome.CallSucceeded? ==>
                State() == old(State()).(
                  connectedDevice := None,
                  realTimeData := None,
                  discoveredDevices := SetConnected(old(discoveredDevices), old(connectedDevice).value.id, false))
      ensures managerPresent && old(connectedDevice).Some? && platform != Web && outcome.CallFailed? ==>
                State() == old(State()).(error := Some(DisconnectFailedPrefix + outcome.message))
    {
      if !managerPresent || connectedDevice.None? || platform == Web {
        error := Some(DisconnectUnavailableError);
        return;
      }
      match outcome
      case CallSucceeded =>
        discoveredDevices := SetConnected(discoveredDevices, connectedDevice.value.id, false);
        connectedDevice := None;
        realTimeData := None;
      case CallFailed(message) =>
        error := Some(DisconnectFailedPrefix + message);
    }

    /** `clearError`. */
    method ClearError()
      requires Valid()
      modifies this
      ensures Valid() && managerPresent == old(managerPresent)
      ensures State() == old(State()).(error := None)
    {
      error := None;
    }

    /** `simulateRealTimeData`: the three random draws are parameters, in the
        ranges the hook draws them from; the reading is replaced wholesale. */
    method SimulateRealTimeData(heartRate: int, steps: int, batteryLevel: int, now: string)
      requires 60 <= heartRate < 100 && 5000 <= steps < 6000 && 70 <= batteryLevel < 100
      requires Valid()
      modifies this
      ensures Valid() && managerPresent == old(managerPresent)
      ensures State() == old(State()).(realTimeData :=
                Some(RealTimeData(Some(heartRate), Some(steps), Some(batteryLevel), now)))
    {
      realTimeData := Some(RealTimeData(Some(heartRate), Some(steps), Some(batteryLevel), now));
    }
  }

  // ---------------------------------------------------------------------
  // Event sequences, applied to the hook from its initial state

  /** A hook on Android with a manager, the radio on and a scan started. */
  method ScanningHook() returns (hook: BluetoothHook)
    ensures fresh(hook) && hook.Valid() && hook.managerPresent && hook.platform == Android
    ensures hook.State() == BluetoothState(true, [], None, None, PoweredOn, None)
  {
    hook := new BluetoothHook(Android);
    hook.Initialize(true, true);
    hook.OnRadioStateChange(PoweredOn);
    hook.StartScanning(true, PoweredOn);
  }

  /** Two advertisements from one id with different names: one entry, with
      the first name. */
  method DuplicateAdvertisementScenario() returns (s: BluetoothState)
    ensures |s.discoveredDevices| == 1
    ensures s.discoveredDevices[0].id == "A" && s.discoveredDevices[0].name == "Band 1"
  {
    var hook := ScanningHook();
    hook.OnScanEvent(ScanResult(Some(ScannedDevice("A", Some("Band 1"), Some(-60), None))));
    hook.OnScanEvent(ScanResult(Some(ScannedDevice("A", Some("Band 2"), Some(-40), None))));
    s := hook.State();
  }

  /** Connecting to a device whose heart-rate subscription fails but whose
      battery can be read: the battery level arrives, the heart rate stays
      absent, no error is recorded. */
  method BatteryWithoutHeartRateScenario() returns (s: BluetoothState)
    ensures s.connectedDevice.Some? && s.connectedDevice.value.id == "A"
    ensures s.realTimeData.Some? && s.realTimeData.value.batteryLevel == Some(87)
    ensures s.realTimeData.value.heartRate.None?
    ensures s.error.None?
  {
    var hook := ScanningHook();
    hook.OnScanEvent(ScanResult(Some(ScannedDevice("A", Some("Band"), Some(-60), None))));
    hook.ConnectToDevice("A", ConnectSucceeded(Some("Band")));
    hook.StartMonitoring(false, ReadValue(Some([87])), "t1");
    s := hook.State();
  }

  /** Disconnecting with nothing connected is not a no-op: it records an error. */
  method DisconnectWhenIdleScenario() returns (s: BluetoothState)
    ensures s.error == Some(DisconnectUnavailableError)
    ensures s.connectedDevice.None?
  {
    var hook := ScanningHook();
    hook.DisconnectDevice(CallSucceeded);
    s := hook.State();
  }

  /** Switching the radio off forgets the connected device but keeps the last
      reading. */
  method RadioOffKeepsReadingScenario() returns (s: BluetoothState)
    ensures s.connectedDevice.None? && s.discoveredDevices == []
    ensures s.realTimeData.Some? && s.realTimeData.value.heartRate == Some(72)
    ensures s.bluetoothState == PoweredOff && s.error == Some(RadioOffError)
  {
    var hook := ScanningHook();
    hook.OnScanEvent(ScanResult(Some(ScannedDevice("A", Some("Band"), None, None))));
    hook.ConnectToDevice("A", ConnectSucceeded(Some("Band")));
    hook.OnHeartRateNotification(false, Some([0, 72]), "t1");
    hook.OnRadioStateChange(PoweredOff);
    s := hook.State();
  }

  /** Connecting to a second device without disconnecting leaves the first
      entry marked connected as well. */
  method SecondConnectScenario() returns (s: BluetoothState)
    ensures s.connectedDevice.Some? && s.connectedDevice.value.id == "B"
    ensures |s.discoveredDevices| == 2
    ensures s.discoveredDevices[0].isConnected && s.discoveredDevices[1].isConnected
  {
    var hook := ScanningHook();
    hook.OnScanEvent(ScanResult(Some(ScannedDevice("A", Some("Band"), None, None))));
    hook.OnScanEvent(ScanResult(Some(ScannedDevice("B", Some("Strap"), None, None))));
    hook.ConnectToDevice("A", ConnectSucceeded(Some("Band")));
    hook.ConnectToDevice("B", ConnectSucceeded(Some("Strap")));
    s := hook.State();
  }
}
