// The Pico TC-08 thermocouple bridge (hdw/pico_tc08_http.py): opening and configuring
// the unit through its DLL, one reading per configured channel each second with the
// -200..1500 °C validity filter, and the /metrics and /health answers. DLL calls are
// recorded in a call log; what the DLL returns (the handle, the sampling interval,
// the temperatures) and the clock are parameters.

module PicoTc08 {
  import opened Wrappers
  import opened Text
  import opened Dict

  /** SAMPLE_INTERVAL_MS: one reading per second, the unit's limit. */
  const SampleIntervalMs: int := 1000

  /** A configured channel: its number on the unit and its thermocouple type letter. */
  datatype TcConfig = TcConfig(channel: int, tcType: string)

  /** The calls made into the DLL, in order. */
  datatype DllCall =
    | SetChannel(handle: int, channel: int, tcType: string)
    | Run(handle: int, intervalMs: int)
    | GetTemp(handle: int, channel: int)
    | Stop(handle: int)
    | CloseUnit(handle: int)

  /** One channel's entry in a reading set; the unit is always °C. */
  datatype TcReading = TcReading(value: Option<real>, tcType: string, valid: bool)

  /** The open-circuit filter: the unit reports large negative values for an open or failed thermocouple. */
  predicate InRange(t: real) {
    -200.0 < t < 1500.0
  }

  /** A reading is valid exactly when it is in range; an invalid one stores no value. */
  function ReadingOf(t: real, tcType: string): (r: TcReading)
    ensures r.valid <==> InRange(t)
    ensures r.valid ==> r.value == Some(t)
    ensures !r.valid ==> r.value.None?
    ensures r.tcType == tcType
  {
    if InRange(t) then TcReading(Some(t), tcType, true) else TcReading(None, tcType, false)
  }

  /** The readings dict of one pass: channel name to reading, for every configured channel in order. */
  function ReadingsOf(config: Dict<TcConfig>, temps: seq<real>): (r: Dict<TcReading>)
    requires |temps| == |config|
    ensures |r| <= |config|
  {
    if config == [] then []
    else
      var n := |config| - 1;
      var init := ReadingsOf(config[..n], temps[..n]);
      PutKeys(init, config[n].0, ReadingOf(temps[n], config[n].1.tcType));
      Put(init, config[n].0, ReadingOf(temps[n], config[n].1.tcType))
  }

  /**
   * The configuration is a YAML mapping, so its channel names are distinct, and the
   * readings list every channel once, in configuration order, each from its own temperature.
   */
  lemma {:induction false} ReadingsInConfigOrder(config: Dict<TcConfig>, temps: seq<real>)
    requires |temps| == |config| && UniqueKeys(config)
    ensures |ReadingsOf(config, temps)| == |config|
    ensures Keys(ReadingsOf(config, temps)) == Keys(config)
    ensures forall i :: 0 <= i < |config| ==>
      ReadingsOf(config, temps)[i] == (config[i].0, ReadingOf(temps[i], config[i].1.tcType))
  {
    if config != [] {
      var n := |config| - 1;
      var pre := config[..n];
      assert UniqueKeys(pre) by {
        forall i, j | 0 <= i < j < |pre| ensures pre[i].0 != pre[j].0 {
          assert pre[i] == config[i] && pre[j] == config[j];
        }
      }
      ReadingsInConfigOrder(pre, temps[..n]);
      var init := ReadingsOf(pre, temps[..n]);
      var v := ReadingOf(temps[n], config[n].1.tcType);
      assert config[n].0 !in Keys(pre) by {
        forall i | 0 <= i < |pre| ensures pre[i].0 != config[n].0 {
          assert pre[i] == config[i];
        }
      }
      PutNew(init, config[n].0, v);
      assert config == pre + [config[n]];
      KeysSnoc(pre, config[n]);
      KeysSnoc(init, (config[n].0, v));
      assert forall i :: 0 <= i < n ==> temps[..n][i] == temps[i];
    }
  }

  lemma KeysSnoc<V>(d: Dict<V>, p: (string, V))
    ensures Keys(d + [p]) == Keys(d) + {p.0}
  {
    var e := d + [p];
    forall x | x in Keys(e) ensures x in Keys(d) + {p.0} {
      var i :| 0 <= i < |e| && e[i].0 == x;
      if i < |d| {
        assert d[i] == e[i];
      }
    }
    forall x | x in Keys(d) ensures x in Keys(e) {
      var i :| 0 <= i < |d| && d[i].0 == x;
      assert e[i] == d[i];
    }
    assert e[|d|] == p;
  }

  /** The number of valid entries. */
  function ValidCount(readings: Dict<TcReading>): (n: nat)
    ensures n <= |readings|
  {
    if readings == [] then 0
    else ValidCount(readings[..|readings| - 1]) + (if readings[|readings| - 1].1.valid then 1 else 0)
  }

  /** One /metrics line: channel and type tags, the temperature to two decimals, the time in nanoseconds. */
  function TcLine(name: string, r: TcReading, timestampNs: int): string
    requires r.value.Some?
  {
    "tc08,channel=" + name + ",type=" + r.tcType + " temp_c=" + Fixed(r.value.value, 2) + " " + IntToString(timestampNs)
  }

  /** A reading set's invariant: exactly the valid entries have a value. */
  predicate WellFormed(readings: Dict<TcReading>) {
    forall i :: 0 <= i < |readings| ==> (readings[i].1.valid <==> readings[i].1.value.Some?)
  }

  /** The lines of the valid entries, in order. */
  function TcLines(readings: Dict<TcReading>, timestampNs: int): (lines: seq<string>)
    requires WellFormed(readings)
    ensures |lines| == ValidCount(readings)
  {
    if readings == [] then []
    else
      var n := |readings| - 1;
      var (name, r) := readings[n];
      TcLines(readings[..n], timestampNs) + (if r.valid then [TcLine(name, r, timestampNs)] else [])
  }

  /** A reading set built from the unit's temperatures is well formed. */
  lemma {:induction false} ReadingsWellFormed(config: Dict<TcConfig>, temps: seq<real>)
    requires |temps| == |config|
    ensures WellFormed(ReadingsOf(config, temps))
  {
    if config != [] {
      var n := |config| - 1;
      var init := ReadingsOf(config[..n], temps[..n]);
      ReadingsWellFormed(config[..n], temps[..n]);
      PutWellFormed(init, config[n].0, ReadingOf(temps[n], config[n].1.tcType));
    }
  }

  lemma {:induction false} PutWellFormed(d: Dict<TcReading>, k: string, v: TcReading)
    requires WellFormed(d) && (v.valid <==> v.value.Some?)
    ensures WellFormed(Put(d, k, v))
  {
    if d != [] && d[0].0 != k {
      PutWellFormed(d[1..], k, v);
    }
  }

  /** The readings when nothing was read yet, and the last set with its time otherwise. */
  datatype Latest = Latest(timestamp: real, readings: Dict<TcReading>)

  datatype Health = Health(status: string, deviceOnline: bool, dataAgeSeconds: Option<real>,
                           validChannels: nat, totalChannels: nat, sampleIntervalMs: int)

  /** The setup calls of a connection: the cold junction as channel 0, then every configured channel. */
  function SetupCalls(handle: int, config: Dict<TcConfig>): (calls: seq<DllCall>)
    ensures |calls| == |config| + 1 && calls[0] == SetChannel(handle, 0, "C")
  {
    if config == [] then [SetChannel(handle, 0, "C")]
    else
      var n := |config| - 1;
      SetupCalls(handle, config[..n]) + [SetChannel(handle, config[n].1.channel, config[n].1.tcType)]
  }

  /** The GetTemp calls of one read: one per configured channel, in config order. */
  function ReadCalls(handle: int, config: Dict<TcConfig>): (calls: seq<DllCall>)
    ensures |calls| == |config|
    ensures forall k :: 0 <= k < |config| ==> calls[k] == GetTemp(handle, config[k].1.channel)
  {
    if config == [] then []
    else
      var n := |config| - 1;
      ReadCalls(handle, config[..n]) + [GetTemp(handle, config[n].1.channel)]
  }

  class Bridge {
    const config: Dict<TcConfig>
    var deviceOnline: bool
    var handle: int
    var latest: Option<Latest>
    var calls: seq<DllCall>

    ghost predicate Valid()
      reads this
    {
      latest.Some? ==> WellFormed(latest.value.readings)
    }

    constructor (config: Dict<TcConfig>)
      ensures Valid() && this.config == config
      ensures !deviceOnline && latest.None? && calls == []
    {
      this.config := config;
      deviceOnline := false;
      handle := 0;
      latest := None;
      calls := [];
    }

    /**
     * One connection attempt: a handle that is not positive is a failure before any
     * call; otherwise the channels are configured and streaming started, and an
     * interval that is not positive is a failure after which the unit is stopped and
     * closed. Only a positive handle and a positive interval bring the device online.
     */
    method Open(unitHandle: int, actualInterval: int)
      requires Valid()
      modifies this`deviceOnline, this`handle, this`calls
      ensures Valid()
      ensures deviceOnline <==> unitHandle > 0 && actualInterval > 0
      ensures handle == unitHandle
      ensures unitHandle <= 0 ==> calls == old(calls)
      ensures unitHandle > 0 ==>
        calls == old(calls) + SetupCalls(unitHandle, config) + [Run(unitHandle, SampleIntervalMs)] +
          (if actualInterval > 0 then [] else [Stop(unitHandle), CloseUnit(unitHandle)])
    {
      handle := unitHandle;
      if unitHandle <= 0 {
        deviceOnline := false;
        return;
      }
      Configure();
      calls := calls + [Run(unitHandle, SampleIntervalMs)];
      if actualInterval <= 0 {
        deviceOnline := false;
        calls := calls + [Stop(unitHandle), CloseUnit(unitHandle)];
        return;
      }
      deviceOnline := true;
    }

    /** The channel loop of a connection. */
    method Configure()
      modifies this`calls
      ensures calls == old(calls) + SetupCalls(handle, config)
    {
      calls := calls + [SetChannel(handle, 0, "C")];
      for i := 0 to |config|
        invariant calls == old(calls) + SetupCalls(handle, config[..i])
      {
        assert config[..i + 1][..i] == config[..i];
        calls := calls + [SetChannel(handle, config[i].1.channel, config[i].1.tcType)];
      }
      assert config[..|config|] == config;
    }

    /**
     * One pass of the read loop: one temperature per configured channel, the
     * validity filter, and the new set replacing the old one with the time `now`.
     * The DLL's temperature buffers are `temps`.
     */
    method ReadOnce(temps: seq<real>, now: real)
      requires Valid() && |temps| == |config|
      modifies this`latest, this`calls
      ensures Valid()
      ensures latest == Some(Latest(now, ReadingsOf(config, temps)))
      ensures calls == old(calls) + ReadCalls(handle, config)
    {
      var readings: Dict<TcReading> := [];
      for i := 0 to |config|
        invariant readings == ReadingsOf(config[..i], temps[..i])
        invariant calls == old(calls) + ReadCalls(handle, config[..i])
      {
        assert config[..i + 1][..i] == config[..i] && temps[..i + 1][..i] == temps[..i];
        calls := calls + [GetTemp(handle, config[i].1.channel)];
        var t := temps[i];
        readings := Put(readings, config[i].0, ReadingOf(t, config[i].1.tcType));
      }
      assert config[..|config|] == config && temps[..|temps|] == temps;
      ReadingsWellFormed(config, temps);
      latest := Some(Latest(now, readings));
    }

    /** An exception in the read loop: offline, and a unit that was opened is stopped and closed. */
    method Fail()
      modifies this`deviceOnline, this`calls
      ensures !deviceOnline
      ensures calls == old(calls) + (if handle > 0 then [Stop(handle), CloseUnit(handle)] else [])
    {
      deviceOnline := false;
      if handle > 0 {
        calls := calls + [Stop(handle), CloseUnit(handle)];
      }
    }

    /**
     * /metrics: 503 while offline or before the first set; otherwise one line per
     * valid channel, or a comment when no channel is valid.
     */
    method Metrics() returns (status: nat, body: string)
      requires Valid()
      ensures !deviceOnline ==> status == 503 && body == "# Device offline\n"
      ensures deviceOnline && latest.None? ==> status == 503 && body == "# No data yet\n"
      ensures deviceOnline && latest.Some? ==>
        var lines := TcLines(latest.value.readings, Trunc(latest.value.timestamp * 1000000000.0));
        status == 200 &&
        body == if lines == [] then "# No valid readings\n" else Join(lines, '\n') + "\n"
    {
      if !deviceOnline {
        return 503, "# Device offline\n";
      }
      if latest.None? {
        return 503, "# No data yet\n";
      }
      var readings := latest.value.readings;
      var ts := Trunc(latest.value.timestamp * 1000000000.0);
      var lines: seq<string> := [];
      for i := 0 to |readings|
        invariant WellFormed(readings[..i])
        invariant lines == TcLines(readings[..i], ts)
      {
        assert readings[..i + 1][..i] == readings[..i];
        var (name, r) := readings[i];
        if r.valid {
          lines := lines + [TcLine(name, r, ts)];
        }
      }
      assert readings[..|readings|] == readings;
      status := 200;
      body := if lines == [] then "# No valid readings\n" else Join(lines, '\n') + "\n";
    }

    /** /health: the age of the last set, and how many of its channels are valid out of how many. */
    function HealthReport(now: real): (h: Health)
      reads this
      ensures h.validChannels <= h.totalChannels
      ensures latest.None? ==> h.dataAgeSeconds.None? && h.totalChannels == 0
      ensures latest.Some? ==>
        (h.dataAgeSeconds == Some(now - latest.value.timestamp) && h.totalChannels == |latest.value.readings|)
      ensures h.status == (if deviceOnline then "online" else "offline")
    {
      match latest
      case None => Health(if deviceOnline then "online" else "offline", deviceOnline, None, 0, 0, SampleIntervalMs)
      case Some(l) =>
        Health(if deviceOnline then "online" else "offline", deviceOnline, Some(now - l.timestamp),
               ValidCount(l.readings), |l.readings|, SampleIntervalMs)
    }
  }

  /** The positions of the in-range temperatures. */
  function InRangeIndices(temps: seq<real>): set<nat> {
    set i: nat | i < |temps| && InRange(temps[i])
  }

  /** The valid channels of a set are the in-range ones: the count is the number of in-range temperatures. */
  lemma {:induction false} ValidCountInRange(config: Dict<TcConfig>, temps: seq<real>)
    requires |temps| == |config| && UniqueKeys(config)
    ensures ValidCount(ReadingsOf(config, temps)) == |InRangeIndices(temps)|
  {
    ReadingsInConfigOrder(config, temps);
    CountMatches(ReadingsOf(config, temps), config, temps);
  }

  lemma {:induction false} CountMatches(r: Dict<TcReading>, config: Dict<TcConfig>, temps: seq<real>)
    requires |r| == |temps| == |config|
    requires forall i :: 0 <= i < |config| ==> r[i] == (config[i].0, ReadingOf(temps[i], config[i].1.tcType))
    ensures ValidCount(r) == |InRangeIndices(temps)|
  {
    if r == [] {
      assert InRangeIndices(temps) == {};
    } else {
      var n := |r| - 1;
      CountMatches(r[..n], config[..n], temps[..n]);
      assert InRangeIndices(temps) == InRangeIndices(temps[..n]) + (if InRange(temps[n]) then {n} else {});
    }
  }
}
