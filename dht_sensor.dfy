/**
 * The DHT11/DHT22 temperature and humidity sensor adapter of
 * klippy/extras/dht_sensor.py: how a config section becomes a sensor, the timer
 * step that polls the hardware, and the status snapshot.
 *
 * Timestamps, the report interval and the readings are exact reals. The hardware
 * read is an input to the step (a `ReadOutcome`), and what the sensor hands to the
 * logging module is kept in the `log` field.
 */
module DhtSensor {
  import opened Wrappers
  import opened PyStr

  /** The two driver constants `dht_type` can select. */
  datatype SensorKind = DHT11 | DHT22

  /** Why a config section does not produce a sensor. */
  datatype ConfigError =
    | NoSensorName(sectionName: string)  // `split()[-1]` of a blank name raises IndexError
    | MissingPin                         // `pin` is a required option
    | ReportTimeNotAbove(given: real)    // `report_time` must be above 0.1
    | UnknownDhtType(dhtType: string)    // the ValueError for any other `dht_type`

  /** The options of one config section as the config object supplies them; `None` is an absent option. */
  datatype ConfigSection = ConfigSection(
    sectionName: string,
    pin: Option<string>,
    dhtType: Option<string>,
    reportTime: Option<real>)

  /** What construction settles once: the sensor's name, pin, type string, interval and driver constant. */
  datatype Settings = Settings(name: string, pin: string, sensorType: string, reportTime: real, kind: SensorKind)

  const DefaultDhtType: string := "DHT22"
  const DefaultReportTime: real := 2.0
  const MinReportTime: real := 0.1

  /** Maps `dht_type` to a driver constant by comparing its upper-cased form. */
  function ResolveKind(sensorType: string): Result<SensorKind, ConfigError> {
    if Upper(sensorType) == "DHT11" then Ok(DHT11)
    else if Upper(sensorType) == "DHT22" then Ok(DHT22)
    else Err(UnknownDhtType(sensorType))
  }

  /** Type resolution is a case-insensitive match against the two known names, and rejects everything else. */
  lemma ResolveKindIgnoresCase(sensorType: string)
    ensures ResolveKind(sensorType) == Ok(DHT11) <==> EqualIgnoringCase(sensorType, "dht11")
    ensures ResolveKind(sensorType) == Ok(DHT22) <==> EqualIgnoringCase(sensorType, "dht22")
    ensures ResolveKind(sensorType) == Err(UnknownDhtType(sensorType))
      <==> !EqualIgnoringCase(sensorType, "dht11") && !EqualIgnoringCase(sensorType, "dht22")
  {
    assert Upper("DHT11") == "DHT11" && Upper("DHT22") == "DHT22";
    UpperMatches(sensorType, "DHT11");
    UpperMatches(sensorType, "DHT22");
  }

  /** The constructor's checks in source order: name, pin, report time, then sensor type. */
  function Configure(c: ConfigSection): (r: Result<Settings, ConfigError>)
    ensures r.Ok? ==> r.value.reportTime > MinReportTime && r.value.name != [] && NoSpace(r.value.name)
  {
    match LastToken(c.sectionName)
    case None => Err(NoSensorName(c.sectionName))
    case Some(name) =>
      if c.pin.None? then Err(MissingPin)
      else
        var sensorType := c.dhtType.GetOr(DefaultDhtType);
        var reportTime := c.reportTime.GetOr(DefaultReportTime);
        if reportTime <= MinReportTime then Err(ReportTimeNotAbove(reportTime))
        else
          match ResolveKind(sensorType)
          case Err(e) => Err(e)
          case Ok(kind) => Ok(Settings(name, c.pin.value, sensorType, reportTime, kind))
  }

  /** Which sections are accepted, which error each rejected one gets, and what an accepted one yields. */
  lemma ConfigureSpec(c: ConfigSection)
    ensures var r := Configure(c);
      var sensorType := c.dhtType.GetOr(DefaultDhtType);
      var reportTime := c.reportTime.GetOr(DefaultReportTime);
      && (AllSpace(c.sectionName) ==> r == Err(NoSensorName(c.sectionName)))
      && (!AllSpace(c.sectionName) && c.pin.None? ==> r == Err(MissingPin))
      && (!AllSpace(c.sectionName) && c.pin.Some? && reportTime <= MinReportTime
          ==> r == Err(ReportTimeNotAbove(reportTime)))
      && (!AllSpace(c.sectionName) && c.pin.Some? && reportTime > MinReportTime
          && !EqualIgnoringCase(sensorType, "dht11") && !EqualIgnoringCase(sensorType, "dht22")
          ==> r == Err(UnknownDhtType(sensorType)))
      && (r.Ok? <==> (!AllSpace(c.sectionName) && c.pin.Some? && reportTime > MinReportTime
                      && (EqualIgnoringCase(sensorType, "dht11") || EqualIgnoringCase(sensorType, "dht22"))))
      && (r.Ok? ==> (EndsWithToken(c.sectionName, r.value.name) && Some(r.value.pin) == c.pin
                     && r.value.sensorType == sensorType && r.value.reportTime == reportTime
                     && (r.value.kind == DHT11 <==> EqualIgnoringCase(sensorType, "dht11"))))
  {
    LastTokenNone(c.sectionName);
    ResolveKindIgnoresCase(c.dhtType.GetOr(DefaultDhtType));
    if Configure(c).Ok? {
      LastTokenSome(c.sectionName, Configure(c).value.name);
    }
  }

  /** Without a `dht_type` option the sensor is a DHT22, and without `report_time` it reports every 2 seconds. */
  lemma ConfigureDefaults(sectionName: string, pin: string)
    requires !AllSpace(sectionName)
    ensures var r := Configure(ConfigSection(sectionName, Some(pin), None, None));
      r.Ok? && r.value.kind == DHT22 && r.value.sensorType == "DHT22" && r.value.reportTime == 2.0
  {
    LastTokenNone(sectionName);
    assert Upper("DHT22") == "DHT22";
  }

  /** What the driver call at dht_sensor.py:47 gives back: a (humidity, temperature) pair in which either may be `None`, or an exception. */
  datatype ReadOutcome =
    | Returned(humidity: Option<real>, temperature: Option<real>)
    | Raised(message: string)

  /** A read that the step accepts into the cache: both values present. */
  predicate IsReading(o: ReadOutcome) {
    o.Returned? && o.humidity.Some? && o.temperature.Some?
  }

  /** The warning for a read with a missing value, and the error for a read that raised. */
  datatype LogEntry =
    | FailedRead(name: string, pin: string)
    | ReadError(name: string, message: string)

  /** The sensor's mutable fields as a value: the cached reading and the deadline of the next read. */
  datatype State = State(humidity: Option<real>, temperature: Option<real>, nextReportTime: real)

  /** A freshly built sensor: nothing read yet, and a read is due at any time from 0 on. */
  const Initial: State := State(None, None, 0.0)

  /** The cache never holds one value without the other (dht_sensor.py:50-51 assign both). */
  predicate CacheWhole(s: State) {
    s.humidity.None? <==> s.temperature.None?
  }

  /** The new fields, the wake-up time handed back to the timer, and what was logged. */
  datatype StepResult = StepResult(state: State, next: real, logged: Option<LogEntry>)

  /** One firing of the timer callback at `eventtime`; `outcome` is consulted only when a read is due. */
  function Step(cfg: Settings, s: State, eventtime: real, outcome: ReadOutcome): StepResult {
    if eventtime < s.nextReportTime then
      StepResult(s, eventtime + cfg.reportTime, None)
    else
      var due := s.(nextReportTime := eventtime + cfg.reportTime);
      match outcome
      case Returned(Some(h), Some(t)) =>
        StepResult(due.(humidity := Some(h), temperature := Some(t)), due.nextReportTime, None)
      case Returned(_, _) =>
        StepResult(due, due.nextReportTime, Some(FailedRead(cfg.name, cfg.pin)))
      case Raised(message) =>
        StepResult(due, due.nextReportTime, Some(ReadError(cfg.name, message)))
  }

  /** The entries a step appends to the log. */
  function Logged(r: StepResult): seq<LogEntry> {
    match r.logged
    case None => []
    case Some(e) => [e]
  }

  /** An early wakeup attempts no read, changes nothing and logs nothing, but asks to be woken one interval after `eventtime`. */
  lemma StepEarlyWakeup(cfg: Settings, s: State, eventtime: real, outcome: ReadOutcome)
    requires eventtime < s.nextReportTime
    ensures var r := Step(cfg, s, eventtime, outcome);
      r.state == s && r.logged == None && r.next == eventtime + cfg.reportTime
  {
  }

  /** A due wakeup moves the deadline to `eventtime` plus one interval and returns it, whatever the read gave. */
  lemma StepDueWakeup(cfg: Settings, s: State, eventtime: real, outcome: ReadOutcome)
    requires cfg.reportTime > MinReportTime
    requires eventtime >= s.nextReportTime
    ensures var r := Step(cfg, s, eventtime, outcome);
      r.state.nextReportTime == eventtime + cfg.reportTime == r.next
      && r.next > eventtime && r.state.nextReportTime > s.nextReportTime
  {
  }

  /** A due read with both values overwrites both cached values with exactly those, and logs nothing. */
  lemma StepGoodRead(cfg: Settings, s: State, eventtime: real, h: real, t: real)
    requires eventtime >= s.nextReportTime
    ensures var r := Step(cfg, s, eventtime, Returned(Some(h), Some(t)));
      r.state.humidity == Some(h) && r.state.temperature == Some(t) && r.logged == None
  {
  }

  /** A due read with a missing value, or one that raised, keeps the cached values and logs one entry naming the sensor. */
  lemma StepFailedRead(cfg: Settings, s: State, eventtime: real, outcome: ReadOutcome)
    requires eventtime >= s.nextReportTime
    requires !IsReading(outcome)
    ensures var r := Step(cfg, s, eventtime, outcome);
      r.state.humidity == s.humidity && r.state.temperature == s.temperature
      && r.logged == Some(if outcome.Raised? then ReadError(cfg.name, outcome.message)
                          else FailedRead(cfg.name, cfg.pin))
  {
  }

  /** One timer firing, with the driver's answer for it. */
  datatype Wakeup = Wakeup(eventtime: real, outcome: ReadOutcome)

  /** The fields after the timer fires at each of `ws` in turn. */
  function Run(cfg: Settings, s: State, ws: seq<Wakeup>): State
    decreases |ws|
  {
    if ws == [] then s
    else Run(cfg, Step(cfg, s, ws[0].eventtime, ws[0].outcome).state, ws[1..])
  }

  /** However the reads go, the cache is never left half-updated. */
  lemma {:induction false} RunKeepsCacheWhole(cfg: Settings, s: State, ws: seq<Wakeup>)
    requires CacheWhole(s)
    ensures CacheWhole(Run(cfg, s, ws))
    decreases |ws|
  {
    if ws != [] {
      RunKeepsCacheWhole(cfg, Step(cfg, s, ws[0].eventtime, ws[0].outcome).state, ws[1..]);
    }
  }

  /** The deadline never moves backwards. */
  lemma {:induction false} RunDeadlineNeverDecreases(cfg: Settings, s: State, ws: seq<Wakeup>)
    requires cfg.reportTime > MinReportTime
    ensures Run(cfg, s, ws).nextReportTime >= s.nextReportTime
    decreases |ws|
  {
    if ws != [] {
      RunDeadlineNeverDecreases(cfg, Step(cfg, s, ws[0].eventtime, ws[0].outcome).state, ws[1..]);
    }
  }

  /** Running one more firing is one more `Step` after the run. */
  lemma {:induction false} RunSnoc(cfg: Settings, s: State, ws: seq<Wakeup>, w: Wakeup)
    ensures Run(cfg, s, ws + [w]) == Step(cfg, Run(cfg, s, ws), w.eventtime, w.outcome).state
    decreases |ws|
  {
    if ws == [] {
      assert ws + [w] == [w];
      assert [w][1..] == [];
    } else {
      assert (ws + [w])[0] == ws[0];
      assert (ws + [w])[1..] == ws[1..] + [w];
      RunSnoc(cfg, Step(cfg, s, ws[0].eventtime, ws[0].outcome).state, ws[1..], w);
    }
  }

  /** Firing `k` of `ws` calls the driver: it comes no earlier than the deadline the firings before it left. */
  predicate Due(cfg: Settings, s: State, ws: seq<Wakeup>, k: int)
    requires 0 <= k < |ws|
  {
    ws[k].eventtime >= Run(cfg, s, ws[..k]).nextReportTime
  }

  /** Firing `k` of `ws` called the driver and got both values. */
  predicate GoodRead(cfg: Settings, s: State, ws: seq<Wakeup>, k: int)
    requires 0 <= k < |ws|
  {
    Due(cfg, s, ws, k) && IsReading(ws[k].outcome)
  }

  /** Whether a firing read successfully does not depend on the firings after it. */
  lemma GoodReadOfPrefix(cfg: Settings, s: State, ws: seq<Wakeup>, k: int)
    requires 0 <= k < |ws| - 1
    ensures GoodRead(cfg, s, ws, k) == GoodRead(cfg, s, ws[..|ws| - 1], k)
  {
    assert ws[..|ws| - 1][..k] == ws[..k];
  }

  /**
   * The cache holds the last known good reading: the values of the latest firing that
   * called the driver and got both values, or, when no firing did, the values the run
   * started with. Early firings never call the driver, so their outcomes do not matter.
   */
  lemma {:induction false} RunCacheFromReads(cfg: Settings, s: State, ws: seq<Wakeup>)
    ensures var r := Run(cfg, s, ws);
      || ((forall k :: 0 <= k < |ws| ==> !GoodRead(cfg, s, ws, k))
          && r.humidity == s.humidity && r.temperature == s.temperature)
      || (exists k :: 0 <= k < |ws| && GoodRead(cfg, s, ws, k)
           && r.humidity == ws[k].outcome.humidity && r.temperature == ws[k].outcome.temperature
           && forall j :: k < j < |ws| ==> !GoodRead(cfg, s, ws, j))
    decreases |ws|
  {
    if ws != [] {
      var n := |ws| - 1;
      var init, w := ws[..n], ws[n];
      assert ws == init + [w];
      RunSnoc(cfg, s, init, w);
      RunCacheFromReads(cfg, s, init);
      var before := Run(cfg, s, init);
      var r := Run(cfg, s, ws);
      assert r == Step(cfg, before, w.eventtime, w.outcome).state;
      forall k | 0 <= k < n
        ensures GoodRead(cfg, s, ws, k) == GoodRead(cfg, s, init, k)
      {
        GoodReadOfPrefix(cfg, s, ws, k);
      }
      if GoodRead(cfg, s, ws, n) {
        assert r.humidity == w.outcome.humidity && r.temperature == w.outcome.temperature;
      } else {
        assert r.humidity == before.humidity && r.temperature == before.temperature;
        if !(forall k :: 0 <= k < n ==> !GoodRead(cfg, s, init, k)) {
          var k :| 0 <= k < n && GoodRead(cfg, s, init, k)
            && before.humidity == init[k].outcome.humidity && before.temperature == init[k].outcome.temperature
            && forall j :: k < j < n ==> !GoodRead(cfg, s, init, j);
          assert ws[k] == init[k];
          assert forall j :: k < j < |ws| ==> !GoodRead(cfg, s, ws, j);
        }
      }
    }
  }

  /** A sensor whose reads keep failing reports its old values for as long as they fail. */
  lemma RunWithoutReadingKeepsCache(cfg: Settings, s: State, ws: seq<Wakeup>)
    requires forall k :: 0 <= k < |ws| && Due(cfg, s, ws, k) ==> !IsReading(ws[k].outcome)
    ensures Run(cfg, s, ws).humidity == s.humidity && Run(cfg, s, ws).temperature == s.temperature
  {
    RunCacheFromReads(cfg, s, ws);
  }

  /** What `get_status` hands to the temperature-sensor registry. */
  datatype Status = Status(temperature: Option<real>, humidity: Option<real>)

  class DHTSensor {
    const name: string
    const pin: string
    const sensorType: string
    const reportTime: real
    const dhtSensor: SensorKind

    var humidity: Option<real>
    var temperature: Option<real>
    var nextReportTime: real
    /** The messages handed to the logging module, oldest first. */
    var log: seq<LogEntry>

    ghost predicate Valid()
      reads this
    {
      reportTime > MinReportTime && CacheWhole(Current())
    }

    function Config(): Settings {
      Settings(name, pin, sensorType, reportTime, dhtSensor)
    }

    function Current(): State
      reads this
    {
      State(humidity, temperature, nextReportTime)
    }

    /** Builds a sensor from settings `Configure` accepted: nothing read yet, deadline 0. */
    constructor (settings: Settings)
      requires settings.reportTime > MinReportTime
      ensures Valid() && Config() == settings
      ensures Current() == Initial && log == []
    {
      name := settings.name;
      pin := settings.pin;
      sensorType := settings.sensorType;
      reportTime := settings.reportTime;
      dhtSensor := settings.kind;
      humidity, temperature := None, None;
      nextReportTime := 0.0;
      log := [];
    }

    /** `DHTSensor(config)`: a fresh sensor in its initial state, or the error construction raises. */
    static method Create(section: ConfigSection) returns (r: Result<DHTSensor, ConfigError>)
      ensures Configure(section).Err? ==> r == Err(Configure(section).error)
      ensures Configure(section).Ok? ==>
        (r.Ok? && fresh(r.value) && r.value.Valid()
         && r.value.Config() == Configure(section).value
         && r.value.Current() == Initial && r.value.log == [])
    {
      match Configure(section)
      case Err(e) =>
        r := Err(e);
      case Ok(settings) =>
        var sensor := new DHTSensor(settings);
        r := Ok(sensor);
    }

    /** `_read_sensor`: the timer callback, given the driver's answer; returns the next wake-up time. */
    method ReadSensor(eventtime: real, outcome: ReadOutcome) returns (next: real)
      requires Valid()
      modifies this
      ensures Valid()
      ensures var r := Step(Config(), old(Current()), eventtime, outcome);
        Current() == r.state && next == r.next && log == old(log) + Logged(r)
      ensures next == eventtime + reportTime && next > eventtime
      ensures eventtime < old(nextReportTime) ==> Current() == old(Current()) && log == old(log)
      ensures eventtime >= old(nextReportTime) ==> nextReportTime == next > old(nextReportTime)
      ensures IsReading(outcome) && eventtime >= old(nextReportTime)
        ==> humidity == outcome.humidity && temperature == outcome.temperature
      ensures !IsReading(outcome) ==> humidity == old(humidity) && temperature == old(temperature)
    {
      if eventtime < nextReportTime {
        return eventtime + reportTime;
      }
      nextReportTime := eventtime + reportTime;
      match outcome {
        case Returned(h, t) =>
          if h.Some? && t.Some? {
            humidity := h;
            temperature := t;
          } else {
            log := log + [FailedRead(name, pin)];
          }
        case Raised(message) =>
          log := log + [ReadError(name, message)];
      }
      next := nextReportTime;
    }

    /** `get_status`: the cached values, never a half-updated pair; `eventtime` is not consulted. */
    function GetStatus(eventtime: real): (st: Status)
      reads this
      ensures st.temperature == temperature && st.humidity == humidity
      ensures Valid() ==> (st.temperature.Some? <==> st.humidity.Some?)
    {
      Status(temperature, humidity)
    }
  }

  /**
   * Interval 2.0: a good read at 0; an early wakeup at 1 that asks for 3, not the
   * deadline 2; a failed read at 2 that keeps the cache and logs the error.
   */
  method EarlyWakeupScenario() {
    var sensor := new DHTSensor(Settings("dht", "PA1", "DHT22", 2.0, DHT22));
    assert sensor.GetStatus(0.0) == Status(None, None);
    var next := sensor.ReadSensor(0.0, Returned(Some(50.0), Some(20.0)));
    assert next == 2.0;
    assert sensor.GetStatus(0.5) == Status(Some(20.0), Some(50.0));
    next := sensor.ReadSensor(1.0, Returned(Some(10.0), Some(10.0)));
    assert next == 3.0 && sensor.nextReportTime == 2.0;
    assert sensor.GetStatus(1.5) == Status(Some(20.0), Some(50.0));
    next := sensor.ReadSensor(2.0, Raised("checksum"));
    assert next == 4.0;
    assert sensor.GetStatus(2.5) == Status(Some(20.0), Some(50.0));
    assert sensor.log == [ReadError("dht", "checksum")];
  }
}
