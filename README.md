# rpi-sensor-bridge core, modelled in Dafny

The bridge reads sensor frames from a microcontroller, runs a windowed
hysteresis automation engine over temperature and illuminance, and handles
on/off switch commands with an append-only audit log. This project models
the three parts of it that make decisions:

- `SerialFrame` (`serial_reader.dfy`) models `parse_serial_line`. It takes the
  decoded JSON value of one line and returns the normalised five-key reading,
  or the first error in the fixed check order. The key loop is the method
  `NormalizeKeysLoop`. The straight-line range guards follow in
  `ParseSerialLine`. Both are proved equal to the specification functions
  `NormalizeKeys` and `ParseFrame`. What the key checks compute is stated
  once, in the lemma `NormalizeKeysMeaning`.
- `Automation` (`automation.dfy`) models `AutomationController` as a class
  with the source's fields. Ghost sequences hold the samples of the open
  window, so `Valid()` can say that the sums are the window's sums and that a
  window is open exactly when it holds a sample. Because of that, the
  divisions in `add_sample` never divide by zero. `AddSample` and `Evaluate`
  are proved against the pure hysteresis functions `NextFan` and `NextLight`,
  and against `ChangeCommands`. `ResetWindow` is proved to empty the window
  and keep `Valid()`.
- `CommandHandler` (`command_handler.dfy`) models `handle_switch_command`. The
  decision is the pure function `SwitchDecision`. The audit file is the class
  `AuditLog`, whose `entries: seq<AuditEntry>` only grows. `HandleSwitchCommand`
  appends exactly one entry on every path that returns an acknowledgement.
- `JsonValue` is the value `json.loads` returns. `Wrappers` holds `Option`
  and `Result`.

Inputs from outside the core are parameters:

- The decoded JSON is an `Option<Json>`, where `None` means the text did not decode.
- Timestamps are `real` seconds.
- The command handler's reception time is an opaque `string`, because the
  source only uses its ISO-8601 rendering.

Each unit test of the three core files has a scenario method that replays
its inputs and proves its assertions:

- tests/test_automation.py: `ScenarioTwoMinuteWindow`, `ScenarioDeadband` and
  `ScenarioOffThreshold`. The last two share the first window, which
  `FirstWindowBothOn` replays with its two-command check.
- tests/test_serial_reader.py: `ScenarioValidFrame`, `ScenarioInvalidJson`,
  `ScenarioMissingKeys`, `ScenarioNonNumericPir`, `ScenarioNonBinaryPir`,
  `ScenarioRawOutOfRange`, `ScenarioNegativeLux`,
  `ScenarioTemperatureOutOfRange` and `ScenarioHumidityOutOfRange` prove
  the result or the error. `ScenarioDecodeAndKeyMessages`,
  `ScenarioPirMessages`, `ScenarioLightRangeMessages` and
  `ScenarioDhtRangeMessages` prove the text of each of those errors, which
  contains the phrase the test matches.
- tests/test_command_handler.py: `ScenarioAcceptsOnState`,
  `ScenarioRejectsUnknownState` and `ScenarioRejectsInvalidJson`. Each starts
  from an empty log, as each test starts from a fresh file. The tests of
  `handle_device_command` have no scenario (see "Left out").

Facts about the code that a reader might not expect:

- `parse_serial_line` turns a boolean into 0 or 1 and accepts it (serial_reader.py:115-116).
- It copies only the five required keys into the reading, and other keys are dropped (serial_reader.py:108-120).
- An array or object `state` makes the membership test at command_handler.py:40 raise `TypeError` before any audit entry is written. The model returns `RaisedTypeError` and leaves the log unchanged.
- Acknowledgements and audit entries name the timestamp field `received_at`.

The microcontroller sketch (arduino/pi_sensor_stream.cpp:55-63) prints its
light value under the key `lm393`. The validator requires `lm393_raw` and
`lm393_lux`, so it refuses every frame the sketch sends with "Missing required
key: lm393_raw". `SerialFrame.SketchFrameRejected` proves this.

## Model

| member | source | states |
|---|---|---|
| `SerialFrame.Normalize` | src/bridge/serial_reader.py:114-118 | a value passes the numeric test exactly when it is a boolean or a number; booleans become 0/1 and numbers are kept unchanged |
| `SerialFrame.NormalizeKeysMeaning` | src/bridge/serial_reader.py:109-120 | the key checks succeed exactly when every key is present and numeric; the result then holds exactly those keys with their normalised values; a failure names a faulty key with the right error kind |
| `SerialFrame.PrefixErrorPersists` | src/bridge/serial_reader.py:110-118 | once a key check fails, later keys do not change the error (the loop raises at once) |
| `SerialFrame.FirstFaultyKeyWins` | src/bridge/serial_reader.py:15-21 | the earliest absent or non-numeric key in the order pir, dht11_temp_c, dht11_humidity, lm393_raw, lm393_lux determines the error, "missing" or "must be numeric" |
| `SerialFrame.KeyErrorsPrecedeRangeErrors` | src/bridge/serial_reader.py:109-135 | a key error is reported even when range checks would also fail: all key checks run before any range check |
| `SerialFrame.SketchFrameRejected` | arduino/pi_sensor_stream.cpp:55-63 | the sketch's frame, whatever its readings, is refused with "Missing required key: lm393_raw" |
| `SerialFrame.ParseFrameOk` | src/bridge/serial_reader.py:100-137 | an accepted frame was a JSON object holding the five required keys with numeric values; the reading has exactly those keys, its values equal the input's with booleans turned into 0/1, and all five bounds hold |
| `SerialFrame.ParseFrameComplete` | src/bridge/serial_reader.py:122-137 | an object whose five keys pass is accepted exactly when all bounds hold |
| `SerialFrame.RangeErrorOrder` | src/bridge/serial_reader.py:122-135 | each range error is reported exactly when the earlier checks (pir, lm393_raw, lm393_lux, dht11_temp_c, dht11_humidity) pass and its own inclusive bound fails |
| `SerialFrame.DistinctNumbersNormalize` | src/bridge/serial_reader.py:108-120 | for any five distinct keys whose values are numbers, the key checks pass and the reading maps each key to its number |
| `SerialFrame.FiveNumbersNormalize` | src/bridge/serial_reader.py:108-120 | an object of five numbers under the five required keys normalises to exactly those numbers |
| `SerialFrame.NumericFrameVerdict` | src/bridge/serial_reader.py:122-137 | for an object of five numbers, the verdict is the first failing bound in the order pir, lm393_raw, lm393_lux, dht11_temp_c, dht11_humidity, or else the reading of the five numbers |
| `SerialFrame.NonNumericPirRejected` | src/bridge/serial_reader.py:109-118 | a `pir` that is neither a number nor a boolean is refused as not numeric, whatever the other four values |
| `SerialFrame.NormalizeKeysLoop` | src/bridge/serial_reader.py:109-120 | the loop filling `normalized` computes exactly the key-check result `NormalizeKeys` |
| `SerialFrame.ParseSerialLine` | src/bridge/serial_reader.py:100-137 | the whole validator (decode failure, non-object, key loop, range guards) computes exactly `ParseFrame` |
| `Automation.TruncateToInt` | src/bridge/automation.py:97 | `int()` truncates toward zero: the result is within one of its argument, rounded down for positive values and up for negative ones |
| `Automation.BuildCommand` | src/bridge/automation.py:96-104 | a command carries the device, the new power, the sending time and source "automation"; its request id is that device plus the time in whole milliseconds |
| `Automation.ChangeCommands` | src/bridge/automation.py:86-92 | one command per device whose power changed, so at most two, fan before light; each carries the new power (which differs from the old) and source "automation" |
| `Automation.SumBounds` | src/bridge/automation.py:43-44 | a running sum of samples that lie within [lo, hi] lies between count·lo and count·hi |
| `Automation.SumAppend` | src/bridge/automation.py:43-44 | adding a sample to the running sum extends the window's sum by exactly that sample |
| `Automation.MeanOfPair` | src/bridge/automation.py:51-52 | a window of two samples averages to their midpoint |
| `Automation.MeanWithin` | src/bridge/automation.py:51-52 | a window average lies within any bounds all of that window's samples satisfy |
| `Automation.FanTransitions` | src/bridge/automation.py:74-78 | the fan goes off→on exactly when the average is strictly above the on-threshold, and on→off exactly when it is strictly below the off-threshold |
| `Automation.LightTransitions` | src/bridge/automation.py:80-84 | the light goes off→on exactly when average lux is strictly below the on-threshold, and on→off exactly when it is strictly above the off-threshold |
| `Automation.FanStableInDeadband` | src/bridge/automation.py:74-78 | across any number of consecutive windows averaging within [off, on] (ends included), the fan never toggles |
| `Automation.LightStableInDeadband` | src/bridge/automation.py:80-84 | across any number of consecutive windows averaging within [on, off] lux, the light never toggles |
| `Automation.FanToggleBackNeedsFullSwing` | src/bridge/automation.py:74-78 | the fan toggles and toggles back on the next window only if the two averages differ by more than the deadband width |
| `Automation.LightToggleBackNeedsFullSwing` | src/bridge/automation.py:80-84 | the light toggles and toggles back on the next window only if the two averages differ by more than the width of its band |
| `Automation.AutomationController.constructor` | src/bridge/automation.py:11-31 | thresholds are stored, the window is empty and both devices start off |
| `Automation.AutomationController.AddSample` | src/bridge/automation.py:33-63 | the first sample opens the window at its timestamp, and every sample is added to the sums. Below the window length, nothing else changes and no command is produced. At or beyond it, both devices follow their hysteresis band on the mean of all the window's samples, the closing one included. One command is produced per change and the accumulator is emptied. |
| `Automation.AutomationController.ResetWindow` | src/bridge/automation.py:65-69 | no window start, both sums 0, count 0, and the class invariant holds again |
| `Automation.AutomationController.Evaluate` | src/bridge/automation.py:71-94 | the new fan and light states are the hysteresis results; the commands are exactly the changes, fan first |
| `Automation.FirstWindowBothOn` | tests/test_automation.py:40-42 | the first window of the deadband and off-threshold tests leaves both devices on and the window empty |
| `CommandHandler.AckMatchesAuditEntry` | src/bridge/command_handler.py:17-54 | every acknowledgement has the same status, timestamp and reason as its audit entry; rejections carry a reason and no state, acceptances a state and no reason |
| `CommandHandler.AcceptedIffValidState` | src/bridge/command_handler.py:39-55 | accepted exactly when the payload decodes to an object whose `state` is "on" or "off"; the ack echoes that state and the entry records the parsed object with no reason |
| `CommandHandler.UndecodableLogsRawText` | src/bridge/command_handler.py:19-28 | an undecodable payload is rejected with "Invalid JSON payload" and audited with the raw text |
| `CommandHandler.DecodedRejectionReasons` | src/bridge/command_handler.py:30-47 | a decoded payload is audited as the decoded value. A non-object is rejected as not an object, and a bad hashable state as an invalid state. The TypeError occurs exactly for an array or object state. |
| `CommandHandler.RepeatedPayloadSameDecision` | src/bridge/command_handler.py:15-55 | the same payload submitted twice yields acknowledgements and audit entries that differ only in their timestamp |
| `CommandHandler.AuditLog.constructor` | src/bridge/command_handler.py:9-12 | the log starts with the entries already in the file |
| `CommandHandler.AuditLog.Append` | src/bridge/command_handler.py:9-12 | exactly one entry is added at the end; earlier entries are unchanged |
| `CommandHandler.AuditLog.HandleSwitchCommand` | src/bridge/command_handler.py:15-55 | the result is the decision `SwitchDecision`; a handled call appends exactly its one audit entry, and the raised TypeError appends nothing |

## Left out

- `SerialReader` (serial_reader.py:33-97): serial-port I/O, reconnect sleeps and the pyserial factory.
- `MQTTBridgeClient` (mqtt_client.py): a network client built on paho callbacks.
- `run` and `build_sensor_payload` (main.py): signals, threads, the ingestion loop and field copying.
- Environment loading (config.py): `from_env` defines none of the `automation_*` / `auto_*` fields that main.py reads, so the thresholds are plain constructor parameters here.
- `handle_device_command`: main.py imports it and the tests call it, but command_handler.py does not define it. Its requestId, deviceId, power and setpoint rules are not part of this model.
- `json.loads` and `json.dumps`: decoding is an input (`Option<Json>`), and the log holds entries, not their text.
- The filesystem side of `_append_jsonl`: `mkdir`, opening in append mode, and write failures. Only the logical append is modelled.
- Clocks: `datetime.now` and the `observed_at or now` default are replaced by explicit timestamp parameters, and `isoformat()` by the raw value.
- Floating point: sums, averages and thresholds are exact `real`s, so rounding in the running sums and divisions is not modelled. `NaN` and the infinities are one value, `NonFinite`, which passes the numeric test and fails every range check, as in Python.
- Integer overflow in `float()`: an integer too large for `float()` (around 1.8e308 and beyond) raises `OverflowError` in the range checks. The model treats it as merely out of range.
- Logging calls (`LOGGER.info`) have no effect on the decisions and are not modelled.
- Concurrency: the controller has no locking. Every call is treated as sequential.
- `Automation.BuildCommand`: its ensures bounds the millisecond count only for non-negative timestamps. `TruncateToInt` states the negative case.
