# Health monitor: Bluetooth manager and health-data logic in Dafny

This project models the core of a React Native health-monitoring app.

The main part is the Bluetooth Low Energy hook (`hooks/useBluetooth.ts`). It has two parts:

- Two decoders. One reads the Heart Rate Measurement characteristic (0x2A37, section 3.1 of the Bluetooth SIG Heart Rate Service specification). The other reads the Battery Level characteristic (0x2A19, section 3.1 of the Battery Service specification).
- The hook's `BluetoothState` record. It is changed by these events: the radio-state callback, start and stop scanning, the scan callback, connect, characteristic monitoring, heart-rate notifications, disconnect, clear error and the demo simulation.

Alongside it sit four smaller parts:

- the dashboard aggregation of `hooks/useHealthData.ts`;
- the profile-completeness check and session tracking of `contexts/AuthContext.tsx`;
- the battery colour, "last sync" text and button of `components/DeviceCard.tsx`;
- the chart-data preparation of `components/ChartContainer.tsx`.

Files, one module each:

- `js.dfy` (`Js`): the JavaScript semantics the code relies on. This covers optional values, the falsy defaults `x || d`, decimal printing of integers and `String.prototype.trim`.
- `health_types.dfy` (`HealthTypes`): the records of `types/health.ts`.
- `gatt_decode.dfy` (`GattDecode`): the two decoders, with encoders as their inverses.
- `bluetooth_manager.dfy` (`BluetoothManager`): functions on the discovered-device list and on the real-time reading. It also holds the class `BluetoothHook`, with one method per state update, and event sequences applied to that class.
- `health_data.dfy`, `auth_context.dfy`, `device_card.dfy`, `chart_container.dfy`: the four smaller parts.

Each state-holding hook or provider is a class. Its fields are the React state and its methods are the state updates. Each `setState` updater is one atomic step. Every result the hook would `await` becomes a method parameter. This covers the BLE library, the permission prompt, the backend and the clock.

The model follows the code, including these behaviours of it:

- the battery byte is passed through unclamped (`GattDecode.BatteryLevelNotClamped`);
- `connectToDevice` has no already-connected guard, so a second connect leaves two entries marked connected (`BluetoothManager.SecondConnectScenario`);
- disconnecting with no connected device records an error rather than doing nothing (`BluetoothManager.DisconnectWhenIdleScenario`);
- switching the radio off clears the connected device and the list but keeps `realTimeData` (`BluetoothManager.RadioOffKeepsReadingScenario`);
- a two-byte heart-rate payload with the 16-bit flag set decodes to 0. This is because `readUInt16LE` throws and the error is caught.

## Model

| member | source | states |
|---|---|---|
| `GattDecode.ReadUInt16LE` | hooks/useBluetooth.ts:357 | succeeds exactly when two bytes remain at the offset; the value is below 65536 with low byte first |
| `GattDecode.ParseHeartRateValue` | hooks/useBluetooth.ts:348-368 | a payload under 2 bytes gives 0; with flag bit 0 clear the value is the byte at offset 1; with it set and 3+ bytes it is `b[1] + 256*b[2]`; with it set and exactly 2 bytes the caught range error gives 0; the result is always below 65536 |
| `GattDecode.EncodeHeartRate` | hooks/useBluetooth.ts:352-361 | a measurement's payload is 2 bytes (8-bit value) or 3 bytes (16-bit value) plus its trailing fields |
| `GattDecode.HeartRateRoundTrip` | hooks/useBluetooth.ts:352-361 | decoding an encoded measurement returns its heart rate, whatever the other flag bits and trailing fields |
| `GattDecode.EightBitReadingBounded` | hooks/useBluetooth.ts:358-361 | an 8-bit reading is at most 255 |
| `GattDecode.HeartRateIgnoresTrailer` | hooks/useBluetooth.ts:352-361 | bytes after the value never change the reading |
| `GattDecode.ParseBatteryLevel` | hooks/useBluetooth.ts:371-379 | the first byte unchanged, or 0 for an empty payload; always below 256 |
| `GattDecode.EncodeBatteryLevel` | hooks/useBluetooth.ts:374 | a battery level is carried in one byte |
| `GattDecode.BatteryLevelRoundTrip` | hooks/useBluetooth.ts:374 | decoding an encoded level returns it for every byte value |
| `GattDecode.BatteryLevelNotClamped` | hooks/useBluetooth.ts:374 | a byte of 200 decodes to 200, not 100 |
| `Js.StringOr` | hooks/useBluetooth.ts:237 | `name \|\| 'Unknown Device'`: a missing or empty name gives the fallback, any other name is kept |
| `Js.NumberOr` | hooks/useBluetooth.ts:185 | `rssi \|\| -100`: a missing or zero number gives the fallback, any other is kept |
| `Js.NatToString` | components/DeviceCard.tsx:25 | a number prints as at least one decimal digit, with no leading zero |
| `Js.NatToStringRoundTrip` | components/DeviceCard.tsx:25 | reading the printed digits back gives the number |
| `Js.NatToStringInjective` | components/DeviceCard.tsx:25 | two numbers print alike exactly when they are equal |
| `Js.TrimStart` | contexts/AuthContext.tsx:91 | the result is a suffix of the input that does not start with white space, and everything removed is white space |
| `Js.TrimEnd` | contexts/AuthContext.tsx:91 | the result is a prefix of the input that does not end with white space, and everything removed is white space |
| `Js.Trim` | contexts/AuthContext.tsx:91 | the result is a slice of the input with only white space outside it, and when non-empty it neither starts nor ends with white space; together these fix the result uniquely |
| `Js.TrimNonEmptyIff` | contexts/AuthContext.tsx:86 | `s.trim() !== ''` exactly when `s` has a character that is not white space |
| `BluetoothManager.FindDevice` | hooks/useBluetooth.ts:179 | the entry at the earliest index with the id is returned; nothing is found exactly when no entry has the id |
| `BluetoothManager.NewDevice` | hooks/useBluetooth.ts:182-188 | a new entry keeps the id and the name ("Unknown Device" when missing or empty), is not connected, has an rssi of -100 when the rssi is missing or 0, and keeps the advertised service UUIDs ([] when missing) |
| `BluetoothManager.AddDiscovered` | hooks/useBluetooth.ts:177-194 | an unnamed device or an already-listed id leaves the list unchanged; otherwise the new entry is appended at the end; distinct ids stay distinct |
| `BluetoothManager.SetConnected` | hooks/useBluetooth.ts:241-243 | same length; entries with the id get the new flag and every other entry is unchanged; distinct ids stay distinct |
| `BluetoothManager.ConnectThenDisconnectRestores` | hooks/useBluetooth.ts:334-336 | marking an id connected and then disconnected restores the list, when no entry with that id was marked before |
| `BluetoothManager.ScanResults` | hooks/useBluetooth.ts:166-194 | any sequence of scan results keeps the ids in the list pairwise distinct |
| `BluetoothManager.FirstNamedSighting` | hooks/useBluetooth.ts:177-180 | the earliest sighting of the id that has a name is returned; nothing is returned exactly when no named sighting has the id |
| `BluetoothManager.FirstSightingWins` | hooks/useBluetooth.ts:177-194 | after any sequence of scan results, the entry for an id is the one listed before, or else the one built from the first named sighting; later sightings never replace it |
| `BluetoothManager.WithHeartRate` | hooks/useBluetooth.ts:274-281 | a heart-rate update sets the rate and the timestamp and keeps steps and battery (absent when there was no reading) |
| `BluetoothManager.WithBatteryLevel` | hooks/useBluetooth.ts:298-305 | a battery update sets the level and the timestamp and keeps heart rate and steps |
| `BluetoothManager.ReadingUpdatesCommute` | hooks/useBluetooth.ts:274-305 | heart-rate and battery updates commute: neither resets the other's field |
| `BluetoothManager.BluetoothHook.constructor` | hooks/useBluetooth.ts:37-44 | the initial state: not scanning, empty list, nothing connected, no reading, radio `Unknown`, no error |
| `BluetoothManager.BluetoothHook.Initialize` | hooks/useBluetooth.ts:47-100 | with no user, on the web, or when the manager cannot be created: radio `NotSupported` and the matching error, nothing else; otherwise the manager exists and the state is unchanged |
| `BluetoothManager.BluetoothHook.OnRadioStateChange` | hooks/useBluetooth.ts:66-77 | the radio state is always recorded; `PoweredOff` also stops scanning, empties the list, clears the connected device and records the error, keeping `realTimeData` |
| `BluetoothManager.BluetoothHook.StartScanning` | hooks/useBluetooth.ts:123-160 | no manager or web, denied Android permissions, and a radio not `PoweredOn` each set only the error; otherwise scanning starts with an empty list and no error |
| `BluetoothManager.BluetoothHook.OnScanEvent` | hooks/useBluetooth.ts:166-196 | a scan error clears `isScanning` and records "Failed to scan for devices: " and the message; a device changes only the list, as `AddDiscovered`; a null device changes nothing |
| `BluetoothManager.BluetoothHook.StopScanning` | hooks/useBluetooth.ts:206-212 | only `isScanning` becomes false, so a second call changes nothing; without a manager nothing changes |
| `BluetoothManager.BluetoothHook.ConnectToDevice` | hooks/useBluetooth.ts:215-256 | no manager or web sets only the error; success clears the error, sets the connected device (name or "Unknown Device", rssi 0, connected) and marks exactly the entries with that id; failure sets only "Failed to connect to device: " and the message |
| `BluetoothManager.BluetoothHook.StartMonitoring` | hooks/useBluetooth.ts:259-314 | the heart-rate subscription's outcome changes nothing; a battery value read updates only the battery level and timestamp, whatever the subscription did; a failed or empty read changes nothing |
| `BluetoothManager.BluetoothHook.OnHeartRateNotification` | hooks/useBluetooth.ts:266-283 | an error or a missing value changes nothing; otherwise only the heart rate (decoded) and the timestamp change |
| `BluetoothManager.BluetoothHook.DisconnectDevice` | hooks/useBluetooth.ts:317-345 | no manager, no connected device, or web sets only the error; success clears the connected device and the reading and unmarks only the entries with its id; failure sets only "Failed to disconnect: " and the message |
| `BluetoothManager.BluetoothHook.ClearError` | hooks/useBluetooth.ts:382-384 | only the error changes, to none |
| `BluetoothManager.BluetoothHook.SimulateRealTimeData` | hooks/useBluetooth.ts:387-401 | the reading is replaced wholesale by the drawn heart rate (60..99), steps (5000..5999) and battery (70..99); nothing else changes |
| `BluetoothManager.ScanningHook` | hooks/useBluetooth.ts:155-160 | on Android with a manager, the radio on and permissions granted, starting a scan gives a scanning state with an empty list and no error |
| `BluetoothManager.DuplicateAdvertisementScenario` | hooks/useBluetooth.ts:177-194 | two advertisements from one id give one entry, with the first name |
| `BluetoothManager.BatteryWithoutHeartRateScenario` | hooks/useBluetooth.ts:259-314 | a failed heart-rate subscription with a good battery read ends connected, with the battery level, no heart rate and no error |
| `BluetoothManager.DisconnectWhenIdleScenario` | hooks/useBluetooth.ts:319-325 | disconnecting with nothing connected records an error |
| `BluetoothManager.RadioOffKeepsReadingScenario` | hooks/useBluetooth.ts:69-77 | switching the radio off while connected forgets the device but keeps the last heart rate |
| `BluetoothManager.SecondConnectScenario` | hooks/useBluetooth.ts:225-244 | connecting to a second device without disconnecting leaves both entries marked connected |
| `HealthData.FilterByType` | hooks/useHealthData.ts:20-24 | the result is no longer than the input, holds only listed metrics of the type, and holds every metric of the type |
| `HealthData.FilterByTypeSingle` | hooks/useHealthData.ts:20-24 | a one-metric list keeps its metric exactly when it has the type; with `FilterAppend` this fixes the filter, order included, on every list |
| `HealthData.FirstOfType` | hooks/useHealthData.ts:20-34 | the metric at the earliest index of the type; absent exactly when no metric has that type |
| `HealthData.SumValues` | hooks/useHealthData.ts:32-33 | the reduce sum of an empty list is 0, and a list with no negative value sums to at least 0 |
| `HealthData.SumValuesAppend` | hooks/useHealthData.ts:32 | the reduce sum of a concatenation is the sum of the sums |
| `HealthData.FilterAppend` | hooks/useHealthData.ts:20-24 | filtering a concatenation is concatenating the filtered parts, in order |
| `HealthData.SumOfTypeAppend` | hooks/useHealthData.ts:32-33 | the sum of one type is additive over concatenation |
| `HealthData.SumOfTypeSingle` | hooks/useHealthData.ts:32-33 | a single metric adds its value when it has the type and 0 otherwise |
| `HealthData.SumOfType` | hooks/useHealthData.ts:32-33 | with no metric of the type the sum is 0; with no negative value of the type it is at least 0 |
| `HealthData.BloodPressureOf` | hooks/useHealthData.ts:28-31 | systolic and diastolic are kept when present and non-zero, and are 0 otherwise |
| `HealthData.Dashboard` | hooks/useHealthData.ts:19-35 | heart rate, blood pressure and sleep come from the earliest metric of their type and are absent exactly when there is none; steps and calories are the sums of their type |
| `HealthData.HealthDataHook.constructor` | hooks/useHealthData.ts:8-10 | an empty dashboard, no recent metrics, not loading |
| `HealthData.HealthDataHook.FetchDashboardData` | hooks/useHealthData.ts:12-17 | with no user nothing changes and nothing is requested; otherwise loading is set and the user's metrics are requested |
| `HealthData.HealthDataHook.OnMetricsFetched` | hooks/useHealthData.ts:26-42 | loading ends on success and on failure; a fetched list sets the dashboard summary and the unfiltered recent metrics; a failure keeps both |
| `HealthData.HealthDataHook.AddHealthMetric` | hooks/useHealthData.ts:45-60 | with no user nothing happens; otherwise the metric is sent with the user's id; a successful insert starts a refresh and a failed one is rethrown without changing state |
| `AuthContext.CheckIfProfileComplete` | contexts/AuthContext.tsx:67-105 | false on a query error, a thrown exception or a missing row; otherwise true exactly when the name has a non-white-space character and is not exactly "New User" or "User", age, height and weight are non-zero, and the auth email has a non-white-space character |
| `AuthContext.PlaceholderComparedUntrimmed` | contexts/AuthContext.tsx:90-93 | " User" passes the name check but "User" does not, because the placeholders are compared untrimmed |
| `AuthContext.ZeroMeasurementIncomplete` | contexts/AuthContext.tsx:94-96 | an age, height or weight of 0 makes the profile incomplete |
| `AuthContext.AuthProvider.constructor` | contexts/AuthContext.tsx:29-31 | no user, no session, loading |
| `AuthContext.AuthProvider.OnSession` | contexts/AuthContext.tsx:34-46 | the session is recorded, the user is the session's user or none, and loading ends |
| `DeviceCard.BatteryColor` | components/DeviceCard.tsx:12-16 | green exactly above 50, amber exactly for 21..50, red exactly at 20 and below |
| `DeviceCard.LastSyncAge` | components/DeviceCard.tsx:21-31 | "just now" exactly when less than a minute has passed, including a future sync; otherwise the count is the exact number of whole minutes (1..59), hours (1..23) or days elapsed |
| `DeviceCard.FormatLastSync` | components/DeviceCard.tsx:18-32 | "Just now" exactly when less than a minute has passed, a sync in the future included; after m whole minutes (1..59) the text is "<m>m ago", after h whole hours (1..23) "<h>h ago", after d whole days "<d>d ago", the count printed in decimal |
| `DeviceCard.RenderInjective` | components/DeviceCard.tsx:24-31 | two buckets render to the same text exactly when they are equal |
| `DeviceCard.CardButton` | components/DeviceCard.tsx:72-83 | a connected watch's button disconnects it and reads "Disconnect"; any other watch's button connects it and reads "Connect"; both act on the watch's id |
| `ChartContainer.Reverse` | components/ChartContainer.tsx:22 | reversal keeps the length, and element i of the result is element n-1-i of the input |
| `ChartContainer.PrepareChartData` | components/ChartContainer.tsx:21-30 | the series has min(7, n) points and point i is the value of metric k-1-i, so the oldest comes first; the labels are "1d".."kd", one per point |
| `ChartContainer.RenderChart` | components/ChartContainer.tsx:49-60 | the "No data available" panel shows exactly for an empty list; otherwise the chart of the prepared data, which always has a point |

## Left out

- FilterByType: its own contract does not state that the kept metrics stay in input order. `FilterByTypeSingle` and `FilterAppend` together state it, and `FirstOfType` is proved from that order.
- The `react-native-ble-plx` manager, `PermissionsAndroid` and `Platform.OS` are foreign calls. Their answers are parameters: whether the manager was created, whether permissions were granted, the radio state, and connect, read and disconnect outcomes. `Platform` is a constant of the hook.
- The permission prompt itself (hooks/useBluetooth.ts:103-120) is not modelled. Its boolean answer is a parameter of `StartScanning`.
- Base64 decoding (`Buffer.from(..., 'base64')`) is a library call. The decoders take the decoded bytes. A characteristic whose value is missing or the empty string is `None`, because `characteristic?.value` is falsy for both (hooks/useBluetooth.ts:272, 296) and the state is left unchanged. `Some([])` stands for a non-empty text that decodes to no bytes.
- The 10-second auto-stop timer (hooks/useBluetooth.ts:200-202) is a clock event. A caller models it by calling `StopScanning`.
- Async interleaving is not modelled. `ConnectToDevice` applies its error reset and its outcome as one step, so no other event can run between them.
- Subscription removal and `manager.destroy()` on unmount (hooks/useBluetooth.ts:80-83) are framework lifecycle. Heart-rate notifications are accepted whenever they arrive, as the code never unsubscribes them.
- `BluetoothHook.ConnectToDevice` takes the connected device's id to be the requested id. The code stores `device.id` from the library and matches list entries against `deviceId`. The library returns the device it was asked for, and that is not modelled.
- The missing `user` binding in the initialising effect (hooks/useBluetooth.ts:49) becomes the `userPresent` parameter of `Initialize`.
- `Math.random` and `new Date()` are inputs. The simulated values are parameters within the drawn ranges. Timestamps are opaque strings, and `formatLastSync` takes milliseconds. Date parsing and invalid dates (NaN) are not modelled.
- JavaScript numbers are integers here. Fractional metric values, NaN (which `|| 0` also maps to 0) and floating-point sums are not modelled.
- The periodic 30-second refresh in useHealthData (hooks/useHealthData.ts:62-70) is a timer. Each refresh is one `FetchDashboardData` call.
- The Supabase backend (`lib/supabase.ts`) is hosted I/O: the profile query, `getUser`, the metric fetch and insert. So are the auth calls `sendPhoneOTP`, `verifyPhoneOTP`, `updateUserProfile` and `signOut` (contexts/AuthContext.tsx:51-65, 107-142). Their results are parameters, or they are left out.
- `components/HealthMetricCard.tsx` (constant icon and colour tables), all `StyleSheet` objects and JSX rendering are presentation, with no behaviour beyond the branches modelled.
- Logging (`console.log`, `console.error`) has no effect on state.
