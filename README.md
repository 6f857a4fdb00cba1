# DHT11/DHT22 sensor adapter: a verified model

This project models `DHTSensor` from `klippy/extras/dht_sensor.py`. That class lets the printer host read a DHT11 or DHT22 temperature and humidity sensor and report the result as a temperature sensor. It covers three things:

- **Construction.** A config section becomes a sensor. The sensor's name is the last whitespace-separated word of the section name. `pin` is required. `dht_type` defaults to `"DHT22"` and is matched without regard to case against `DHT11` and `DHT22`. `report_time` defaults to 2.0 and must be above 0.1. Any other outcome is a construction error. The new sensor has no reading and a deadline of 0.
- **The timer step `_read_sensor`.** A wakeup before the deadline does nothing and asks to be woken one interval after `eventtime`. A due wakeup first moves the deadline to `eventtime + report_time`, then consults the hardware read. A complete reading replaces both cached values. A reading with a missing value logs a warning, and a read that raised logs an error; in both cases the cache is kept. The new deadline is returned either way.
- **The snapshot `get_status`.** It returns the cached temperature and humidity.

Layout:

- `wrappers.dfy`: `Option` (Python's `None`) and `Result` (a raised error).
- `pystr.dfy`: models of the two Python string operations the constructor uses, `str.split()` and `str.upper()`, with their characterisations.
- `dht_sensor.dfy`:
  - `Configure`, the construction checks, as a function over the config section;
  - `Step`, one timer firing as a function of the fields;
  - `Run`, a sequence of firings;
  - `class DHTSensor`, whose mutable fields `humidity`, `temperature` and `nextReportTime` are updated in place by `ReadSensor`, and whose `GetStatus` reads them.

Modelling decisions:

- Timestamps, the report interval and the readings are exact `real`s. The code only compares and adds them.
- The driver call `Adafruit_DHT.read_retry` is an input to the step, a `ReadOutcome`. It either returned a pair whose members may be `None`, or it raised.
- Logging is an output channel: the class's `log` field, to which each failed read appends one `LogEntry`. An entry keeps the sensor name with the pin or the exception text, not the formatted message.
- The whitespace `split()` separates on is the set of characters for which Python's `str.isspace` holds, listed by code point.
- On an early wakeup the code returns `eventtime + report_time` (dht_sensor.py:42), not the stored deadline. An early wakeup can therefore push the next firing past the deadline. The model does what the code does. `EarlyWakeupScenario` shows the effect: a firing at 1.0 with deadline 2.0 asks for 3.0.

## Model

| member | source | states |
|---|---|---|
| PyStr.Split | klippy/extras/dht_sensor.py:16 | `str.split()`: every token it yields is non-empty and contains no whitespace |
| PyStr.LastToken | klippy/extras/dht_sensor.py:16 | `split()[-1]`: a token found is non-empty and free of whitespace; `None` stands for the IndexError |
| PyStr.LastTokenNone | klippy/extras/dht_sensor.py:16 | taking the last word fails exactly when the name is empty or all whitespace |
| PyStr.LastTokenSome | klippy/extras/dht_sensor.py:16 | the derived name is `t` exactly when `t` is the last word: it starts the string or follows whitespace, contains none, and only whitespace follows it |
| PyStr.UpperMatches | klippy/extras/dht_sensor.py:22-24 | comparing `s.upper()` with an upper-case constant holds exactly when `s` equals that constant up to ASCII case (both directions) |
| DhtSensor.ResolveKindIgnoresCase | klippy/extras/dht_sensor.py:22-27 | `dht_type` selects DHT11 exactly when it is "dht11" in any case, DHT22 exactly when it is "dht22" in any case, and otherwise gives the unknown-type error carrying the given string |
| DhtSensor.Configure | klippy/extras/dht_sensor.py:14-27 | an accepted section has a report time above 0.1 and a non-empty name without whitespace |
| DhtSensor.ConfigureSpec | klippy/extras/dht_sensor.py:16-27 | which error a section gets, checked in source order (blank name, missing pin, report time not above 0.1, unknown type); that it is accepted exactly when none applies; and that an accepted one carries the last word of the section name, the pin, the type string, the interval and the matching driver constant |
| DhtSensor.ConfigureDefaults | klippy/extras/dht_sensor.py:18-19 | a section without `dht_type` or `report_time` gives a DHT22 reporting every 2.0 seconds |
| DhtSensor.StepEarlyWakeup | klippy/extras/dht_sensor.py:41-42 | before the deadline: fields unchanged, nothing logged, wake-up time `eventtime + report_time` |
| DhtSensor.StepDueWakeup | klippy/extras/dht_sensor.py:41-57 | at or after the deadline: the new deadline and the returned time are both `eventtime + report_time`, later than `eventtime` and later than the old deadline, whatever the read outcome |
| DhtSensor.StepGoodRead | klippy/extras/dht_sensor.py:47-51 | a due read with both values sets humidity and temperature to exactly those values and logs nothing |
| DhtSensor.StepFailedRead | klippy/extras/dht_sensor.py:47-55 | a due read with a `None` value, or one that raised, keeps both cached values and logs one warning (name and pin) or one error (name and exception text) |
| DhtSensor.RunKeepsCacheWhole | klippy/extras/dht_sensor.py:49-51 | over any sequence of firings the cache never holds one value without the other |
| DhtSensor.RunDeadlineNeverDecreases | klippy/extras/dht_sensor.py:41-44 | over any sequence of firings the deadline never moves backwards |
| DhtSensor.RunCacheFromReads | klippy/extras/dht_sensor.py:39-57 | the cache after any sequence of firings is the last known good reading. It holds the values of the latest firing that was due (so called the driver) and got both values. If no due firing got both, it holds the values the run started with. Outcomes at early firings, which never call the driver, play no part |
| DhtSensor.RunWithoutReadingKeepsCache | klippy/extras/dht_sensor.py:41-55 | while every due read fails, the sensor keeps reporting its old values, whatever the outcomes at early firings were |
| DhtSensor.DHTSensor.constructor | klippy/extras/dht_sensor.py:29-31 | a new sensor has no humidity, no temperature, deadline 0 and an empty log, and keeps the settings it was given |
| DhtSensor.DHTSensor.Create | klippy/extras/dht_sensor.py:14-31 | construction either raises the error `Configure` names, or yields a fresh sensor in its initial state with the accepted settings |
| DhtSensor.DHTSensor.ReadSensor | klippy/extras/dht_sensor.py:39-57 | the new fields, the returned time and the appended log entry are those of `Step`: early wakeups change nothing; due ones advance the deadline past the old one; a complete reading replaces the cache; anything else keeps it; the object invariant is kept |
| DhtSensor.DHTSensor.GetStatus | klippy/extras/dht_sensor.py:59-64 | the snapshot is the current temperature and humidity, read without changing state, and under the object invariant the two are both present or both absent |

## Left out

- `Adafruit_DHT.read_retry` (dht_sensor.py:47): a hardware driver with its own timing and retries. It is an input of the step here.
- PyStr.Upper: models `upper()` on ASCII letters only. Python's `upper()` also maps non-ASCII letters (`é` to `É`) and can change the length (`ß` to `SS`, `ﬁ` to `FI`). Type resolution is unaffected: no non-ASCII character upper-cases to a single `D`, `H`, `T`, `1` or `2`, and the characters that upper-case to several letters never produce exactly `DHT11` or `DHT22`.
- The handler at dht_sensor.py:54 catches only `Exception`. A `KeyboardInterrupt` or `SystemExit` raised inside the driver call escapes the callback after line 44 has already moved the deadline. Every `Raised` outcome of the model is absorbed.
- The exception handler (dht_sensor.py:54-55) also catches errors raised after the call, for example when the driver returns something that is not a pair. The model distinguishes only "returned a pair" from "raised".
- Timer registration and the `klippy:ready` handler (dht_sensor.py:33-37): event-loop plumbing. The model calls `ReadSensor` directly, and the printer and reactor objects are not modelled.
- `load_config` and the registration with the temperature-sensor factory (dht_sensor.py:66-69): glue to a registry that is not part of this model.
- The config library (`config.get`, `getfloat`): parsing text into a float is not modelled. A section arrives with its options already typed, and only the default values and the "above 0.1" check are modelled.
- Floating point: additions and comparisons of times are exact on reals. Python's rounding, the binary value of 0.1, and the special values `inf` and `nan` are not modelled.
- The text of log messages: only which entry is logged, with its fields.
