// The configuration loader (gui/config_loader.py): devices.yaml as a parsed YAML
// value, and the helpers that pick the PSU addresses, the InfluxDB parameters and
// the analog-input conversions out of it. Mappings keep their key order, as
// yaml.safe_load's dicts do; Python's exceptions are values.

module ConfigLoader {
  import opened Wrappers
  import opened Text
  import opened Dict

  /** A parsed YAML document. */
  datatype Yaml =
    | YNull
    | YBool(b: bool)
    | YInt(i: int)
    | YNum(r: real)
    | YStr(s: string)
    | YList(items: seq<Yaml>)
    | YMap(entries: seq<(string, Yaml)>)

  /** The Python exceptions the helpers can raise. */
  datatype Exc = KeyError | TypeError | AttributeError | FileNotFound

  /** `y[key]`: KeyError on a mapping without the key, TypeError on anything that is not a mapping. */
  function Index(y: Yaml, key: string): (r: Result<Yaml, Exc>)
    ensures r.Err? ==> (r.error == KeyError <==> y.YMap?)
    ensures r.Ok? ==> y.YMap? && (key, r.value) in y.entries
  {
    if !y.YMap? then Err(TypeError)
    else match Get(y.entries, key)
      case None => Err(KeyError)
      case Some(v) => Ok(v)
  }

  /** `y.get(key, fallback)`: AttributeError on anything that is not a mapping. */
  function GetOr(y: Yaml, key: string, fallback: Yaml): (r: Result<Yaml, Exc>)
    ensures r.Err? <==> !y.YMap?
  {
    if !y.YMap? then Err(AttributeError)
    else match Get(y.entries, key)
      case None => Ok(fallback)
      case Some(v) => Ok(v)
  }

  /** `y[a][b]`: the first failing step's exception. */
  function Path(y: Yaml, a: string, b: string): Result<Yaml, Exc>
  {
    match Index(y, a)
    case Err(e) => Err(e)
    case Ok(v) => Index(v, b)
  }

  /**
   * load_config: a path that does not exist raises FileNotFoundError; otherwise
   * the parsed document. Resolving the default path and parsing YAML are outside
   * the model: `found` and `parsed` stand for them.
   */
  function LoadConfig(found: bool, parsed: Yaml): (r: Result<Yaml, Exc>)
    ensures r.Err? <==> !found
    ensures r.Err? ==> r.error == FileNotFound
    ensures r.Ok? ==> r.value == parsed
  {
    if !found then Err(FileNotFound) else Ok(parsed)
  }

  /** InfluxDB connection parameters. */
  datatype InfluxParams = InfluxParams(url: Yaml, org: Yaml, bucket: Yaml)

  /** get_influx_params: exactly the three influxdb entries of the system section. */
  function GetInfluxParams(config: Yaml): (r: Result<InfluxParams, Exc>)
    ensures r.Ok? <==>
      Path(config, "system", "influxdb_url").Ok? && Path(config, "system", "influxdb_org").Ok? &&
      Path(config, "system", "influxdb_bucket").Ok?
    ensures r.Ok? ==>
      r.value.url == Path(config, "system", "influxdb_url").value &&
      r.value.org == Path(config, "system", "influxdb_org").value &&
      r.value.bucket == Path(config, "system", "influxdb_bucket").value
  {
    match Index(config, "system")
    case Err(e) => Err(e)
    case Ok(system) =>
      match Index(system, "influxdb_url")
      case Err(e) => Err(e)
      case Ok(url) =>
        match Index(system, "influxdb_org")
        case Err(e) => Err(e)
        case Ok(org) =>
          match Index(system, "influxdb_bucket")
          case Err(e) => Err(e)
          case Ok(bucket) => Ok(InfluxParams(url, org, bucket))
  }

  /** The "ip" of every channel, in order. */
  function AllIps(channels: seq<Yaml>): Result<seq<Yaml>, Exc>
  {
    if channels == [] then Ok([])
    else match AllIps(channels[..|channels| - 1])
      case Err(e) => Err(e)
      case Ok(ips) =>
        match Index(channels[|channels| - 1], "ip")
        case Err(e) => Err(e)
        case Ok(ip) => Ok(ips + [ip])
  }

  /** `channel['name'].startswith('PSU')`: AttributeError for a name that is not a string. */
  function IsPsu(channel: Yaml): Result<bool, Exc>
  {
    match Index(channel, "name")
    case Err(e) => Err(e)
    case Ok(name) => if name.YStr? then Ok(StartsWith(name.s, "PSU")) else Err(AttributeError)
  }

  /** The "ip" of every channel whose name starts with "PSU", in order. */
  function PsuIps(channels: seq<Yaml>): Result<seq<Yaml>, Exc>
  {
    if channels == [] then Ok([])
    else match PsuIps(channels[..|channels| - 1])
      case Err(e) => Err(e)
      case Ok(ips) =>
        var ch := channels[|channels| - 1];
        match IsPsu(ch)
        case Err(e) => Err(e)
        case Ok(psu) =>
          if !psu then Ok(ips)
          else match Index(ch, "ip")
            case Err(e) => Err(e)
            case Ok(ip) => Ok(ips + [ip])
  }

  /** What `for channel in config['devices'][device]['channels']` iterates over. */
  function Channels(config: Yaml, device: string): Result<seq<Yaml>, Exc>
  {
    match Path(config, "devices", device)
    case Err(e) => Err(e)
    case Ok(d) =>
      match Index(d, "channels")
      case Err(e) => Err(e)
      case Ok(v) => Iterate(v)
  }

  /**
   * `for x in v`: a list gives its items, a mapping its keys, a string its characters
   * (each a one-character string); iterating anything else raises TypeError.
   */
  function Iterate(v: Yaml): (r: Result<seq<Yaml>, Exc>)
    ensures r.Err? <==> !(v.YList? || v.YMap? || v.YStr?)
    ensures r.Err? ==> r.error == TypeError
    ensures v.YList? ==> r == Ok(v.items)
    ensures v.YMap? ==> (|r.value| == |v.entries| &&
      forall i :: 0 <= i < |v.entries| ==> r.value[i] == YStr(v.entries[i].0))
    ensures v.YStr? ==> (|r.value| == |v.s| &&
      forall i :: 0 <= i < |v.s| ==> r.value[i] == YStr([v.s[i]]))
  {
    match v
    case YList(items) => Ok(items)
    case YMap(entries) => Ok(seq(|entries|, i requires 0 <= i < |entries| => YStr(entries[i].0)))
    case YStr(s) => Ok(seq(|s|, i requires 0 <= i < |s| => YStr([s[i]])))
    case _ => Err(TypeError)
  }

  /** get_psu_ips as a value: every MM01 address, then the MM02 addresses of PSU channels. */
  function PsuAddresses(config: Yaml): Result<seq<Yaml>, Exc>
  {
    match Channels(config, "MM01_8ch")
    case Err(e) => Err(e)
    case Ok(mm01) =>
      match AllIps(mm01)
      case Err(e) => Err(e)
      case Ok(first) =>
        match Channels(config, "MM02_8ch")
        case Err(e) => Err(e)
        case Ok(mm02) =>
          match PsuIps(mm02)
          case Err(e) => Err(e)
          case Ok(second) => Ok(first + second)
  }

  /** Every channel contributes its own address, in order, when none raises. */
  lemma {:induction false} AllIpsSpec(channels: seq<Yaml>)
    requires AllIps(channels).Ok?
    ensures |AllIps(channels).value| == |channels|
    ensures forall i :: 0 <= i < |channels| ==> Index(channels[i], "ip") == Ok(AllIps(channels).value[i])
  {
    if channels != [] {
      AllIpsSpec(channels[..|channels| - 1]);
    }
  }

  /** The PSU addresses are those of the PSU-named channels, in order; the others contribute nothing. */
  lemma {:induction false} PsuIpsSpec(channels: seq<Yaml>)
    requires PsuIps(channels).Ok?
    ensures |PsuIps(channels).value| == |PsuChannels(channels)|
    ensures forall i :: 0 <= i < |PsuChannels(channels)| ==>
      Index(PsuChannels(channels)[i], "ip") == Ok(PsuIps(channels).value[i])
    ensures forall c :: c in PsuChannels(channels) ==> c in channels && IsPsu(c) == Ok(true)
  {
    if channels != [] {
      PsuIpsSpec(channels[..|channels| - 1]);
    }
  }

  /** The channels whose name starts with "PSU", in order (channels whose test raises count as none). */
  function PsuChannels(channels: seq<Yaml>): seq<Yaml>
  {
    if channels == [] then []
    else
      var last := channels[|channels| - 1];
      PsuChannels(channels[..|channels| - 1]) + (if IsPsu(last) == Ok(true) then [last] else [])
  }

  /**
   * get_psu_ips: the two loops of the source, proved to give PsuAddresses; the
   * first missing key or wrong type ends it with that exception.
   */
  method GetPsuIps(config: Yaml) returns (r: Result<seq<Yaml>, Exc>)
    ensures r == PsuAddresses(config)
  {
    var mm01 := Channels(config, "MM01_8ch");
    if mm01.Err? {
      return Err(mm01.error);
    }
    var first := CollectIps(mm01.value);
    if first.Err? {
      return first;
    }
    var mm02 := Channels(config, "MM02_8ch");
    if mm02.Err? {
      return Err(mm02.error);
    }
    var second := CollectPsuIps(mm02.value);
    if second.Err? {
      return second;
    }
    r := Ok(first.value + second.value);
  }

  /** The first loop: every channel's address. */
  method CollectIps(channels: seq<Yaml>) returns (r: Result<seq<Yaml>, Exc>)
    ensures r == AllIps(channels)
  {
    var ips: seq<Yaml> := [];
    for k := 0 to |channels|
      invariant AllIps(channels[..k]) == Ok(ips)
    {
      assert channels[..k + 1][..k] == channels[..k];
      var ip := Index(channels[k], "ip");
      if ip.Err? {
        AllIpsErr(channels, k + 1);
        return Err(ip.error);
      }
      ips := ips + [ip.value];
    }
    assert channels[..|channels|] == channels;
    r := Ok(ips);
  }

  /** The second loop: the addresses of the channels named PSU... */
  method CollectPsuIps(channels: seq<Yaml>) returns (r: Result<seq<Yaml>, Exc>)
    ensures r == PsuIps(channels)
  {
    var ips: seq<Yaml> := [];
    for k := 0 to |channels|
      invariant PsuIps(channels[..k]) == Ok(ips)
    {
      assert channels[..k + 1][..k] == channels[..k];
      var psu := IsPsu(channels[k]);
      if psu.Err? {
        PsuIpsErr(channels, k + 1);
        return Err(psu.error);
      }
      if psu.value {
        var ip := Index(channels[k], "ip");
        if ip.Err? {
          PsuIpsErr(channels, k + 1);
          return Err(ip.error);
        }
        ips := ips + [ip.value];
      }
    }
    assert channels[..|channels|] == channels;
    r := Ok(ips);
  }

  /** Once a prefix raises, the whole list raises the same exception. */
  lemma {:induction false} AllIpsErr(channels: seq<Yaml>, k: nat)
    requires k <= |channels| && AllIps(channels[..k]).Err?
    ensures AllIps(channels) == AllIps(channels[..k])
    decreases |channels| - k
  {
    if k < |channels| {
      assert channels[..k + 1][..k] == channels[..k];
      AllIpsErr(channels, k + 1);
    } else {
      assert channels[..k] == channels;
    }
  }

  lemma {:induction false} PsuIpsErr(channels: seq<Yaml>, k: nat)
    requires k <= |channels| && PsuIps(channels[..k]).Err?
    ensures PsuIps(channels) == PsuIps(channels[..k])
    decreases |channels| - k
  {
    if k < |channels| {
      assert channels[..k + 1][..k] == channels[..k];
      PsuIpsErr(channels, k + 1);
    } else {
      assert channels[..k] == channels;
    }
  }

  // ---------------------------------------------------------------------------
  // get_sensor_conversions

  /** `value * 1000` in Python: numbers scale (a bool counts as 0 or 1), strings and lists repeat. */
  function Times1000(y: Yaml): (r: Result<Yaml, Exc>)
    ensures y.YInt? ==> r == Ok(YInt(y.i * 1000))
    ensures y.YNum? ==> r == Ok(YNum(y.r * 1000.0))
    ensures y.YNull? || y.YMap? ==> r == Err(TypeError)
  {
    match y
    case YNull => Err(TypeError)
    case YBool(b) => Ok(YInt(if b then 1000 else 0))
    case YInt(i) => Ok(YInt(i * 1000))
    case YNum(x) => Ok(YNum(x * 1000.0))
    case YStr(s) => Ok(YStr(Repeat(s, 1000)))
    case YList(items) => Ok(YList(Repeat(items, 1000)))
    case YMap(_) => Err(TypeError)
  }

  function Repeat<T>(s: seq<T>, n: nat): (r: seq<T>)
    ensures |r| == |s| * n
  {
    if n == 0 then [] else s + Repeat(s, n - 1)
  }

  /** One entry of the conversions dict. */
  datatype Conversion = Conversion(minMa: Yaml, maxMa: Yaml, minEng: Yaml, maxEng: Yaml, unit: Yaml, labelText: Yaml)

  /** The dict literal of one channel, its six entries evaluated in order; the first failure is raised. */
  function Convert(cc: Yaml): Result<Conversion, Exc>
  {
    match Index(cc, "range_min")
    case Err(e) => Err(e)
    case Ok(lo) =>
      match Times1000(lo)
      case Err(e) => Err(e)
      case Ok(minMa) =>
        match Index(cc, "range_max")
        case Err(e) => Err(e)
        case Ok(hi) =>
          match Times1000(hi)
          case Err(e) => Err(e)
          case Ok(maxMa) =>
            match Index(cc, "eng_min")
            case Err(e) => Err(e)
            case Ok(minEng) =>
              match Index(cc, "eng_max")
              case Err(e) => Err(e)
              case Ok(maxEng) =>
                match Index(cc, "eng_unit")
                case Err(e) => Err(e)
                case Ok(unit) =>
                  match Index(cc, "name")
                  case Err(e) => Err(e)
                  case Ok(labelText) => Ok(Conversion(minMa, maxMa, minEng, maxEng, unit, labelText))
  }

  /**
   * A converted channel has min_mA and max_mA a thousand times range_min and
   * range_max, and the other four entries copied; the first missing key is the
   * KeyError raised.
   */
  lemma ConvertSpec(cc: Yaml)
    ensures Convert(cc).Ok? ==>
      Index(cc, "range_min").Ok? && Times1000(Index(cc, "range_min").value) == Ok(Convert(cc).value.minMa) &&
      Index(cc, "range_max").Ok? && Times1000(Index(cc, "range_max").value) == Ok(Convert(cc).value.maxMa) &&
      Index(cc, "eng_min") == Ok(Convert(cc).value.minEng) && Index(cc, "eng_max") == Ok(Convert(cc).value.maxEng) &&
      Index(cc, "eng_unit") == Ok(Convert(cc).value.unit) && Index(cc, "name") == Ok(Convert(cc).value.labelText)
    ensures Index(cc, "range_min") == Err(KeyError) ==> Convert(cc) == Err(KeyError)
  {
  }

  /** Where the conversion loop stands: still going with the dict so far, or finished with a result. */
  datatype Step = Going(acc: Dict<Conversion>) | Done(result: Result<Dict<Conversion>, Exc>)

  /** The conversion loop over some entries: a KeyError returns the dict so far, another exception escapes. */
  function ConvertEntries(entries: Dict<Yaml>, start: Step): Step
  {
    if entries == [] then start
    else match ConvertEntries(entries[..|entries| - 1], start)
      case Done(r) => Done(r)
      case Going(acc) =>
        var (id, cc) := entries[|entries| - 1];
        match Convert(cc)
        case Ok(c) => Going(Put(acc, id, c))
        case Err(e) => Done(if e == KeyError then Ok(acc) else Err(e))
  }

  /** `ni_analog.get(slot, {}).items()`. */
  function SlotEntries(section: Yaml, slot: string): Result<Dict<Yaml>, Exc>
  {
    match GetOr(section, slot, YMap([]))
    case Err(e) => Err(e)
    case Ok(v) => if v.YMap? then Ok(v.entries) else Err(AttributeError)
  }

  /** Turns a step's exception into the function's: KeyError gives the dict so far, others escape. */
  function Catch(r: Result<Dict<Yaml>, Exc>, acc: Dict<Conversion>): Result<Dict<Conversion>, Exc> {
    if r.Ok? then Ok(acc) else if r.error == KeyError then Ok(acc) else Err(r.error)
  }

  /** get_sensor_conversions as a value. */
  function SensorConversions(config: Yaml): Result<Dict<Conversion>, Exc>
  {
    match Path(config, "modules", "NI_cDAQ_Analog")
    case Err(e) => if e == KeyError then Ok([]) else Err(e)
    case Ok(section) =>
      match SlotEntries(section, "slot_1")
      case Err(e) => Catch(Err(e), [])
      case Ok(slot1) =>
        match ConvertEntries(slot1, Going([]))
        case Done(r) => r
        case Going(acc) =>
          match SlotEntries(section, "slot_4")
          case Err(e) => Catch(Err(e), acc)
          case Ok(slot4) =>
            match ConvertEntries(slot4, Going(acc))
            case Done(r) => r
            case Going(acc2) => Ok(acc2)
  }

  /** The loop over one slot's entries, proved to follow ConvertEntries. */
  method ConvertSlot(entries: Dict<Yaml>, acc0: Dict<Conversion>) returns (s: Step)
    ensures s == ConvertEntries(entries, Going(acc0))
  {
    var acc := acc0;
    for k := 0 to |entries|
      invariant ConvertEntries(entries[..k], Going(acc0)) == Going(acc)
    {
      assert entries[..k + 1][..k] == entries[..k];
      var c := Convert(entries[k].1);
      if c.Err? {
        s := Done(if c.error == KeyError then Ok(acc) else Err(c.error));
        DoneStays(entries, k + 1, Going(acc0));
        return;
      }
      acc := Put(acc, entries[k].0, c.value);
    }
    assert entries[..|entries|] == entries;
    s := Going(acc);
  }

  lemma {:induction false} DoneStays(entries: Dict<Yaml>, k: nat, start: Step)
    requires k <= |entries| && ConvertEntries(entries[..k], start).Done?
    ensures ConvertEntries(entries, start) == ConvertEntries(entries[..k], start)
    decreases |entries| - k
  {
    if k < |entries| {
      assert entries[..k + 1][..k] == entries[..k];
      DoneStays(entries, k + 1, start);
    } else {
      assert entries[..k] == entries;
    }
  }

  /** get_sensor_conversions: slot 1's channels, then slot 4's, into one dict. */
  method GetSensorConversions(config: Yaml) returns (r: Result<Dict<Conversion>, Exc>)
    ensures r == SensorConversions(config)
  {
    var section := Path(config, "modules", "NI_cDAQ_Analog");
    if section.Err? {
      return if section.error == KeyError then Ok([]) else Err(section.error);
    }
    var slot1 := SlotEntries(section.value, "slot_1");
    if slot1.Err? {
      return Catch(slot1, []);
    }
    var s := ConvertSlot(slot1.value, []);
    if s.Done? {
      return s.result;
    }
    var slot4 := SlotEntries(section.value, "slot_4");
    if slot4.Err? {
      return Catch(slot4, s.acc);
    }
    s := ConvertSlot(slot4.value, s.acc);
    r := if s.Done? then s.result else Ok(s.acc);
  }

  /** A missing modules or NI_cDAQ_Analog section gives an empty map. */
  lemma MissingSection(config: Yaml)
    requires Path(config, "modules", "NI_cDAQ_Analog") == Err(KeyError)
    ensures SensorConversions(config) == Ok([])
  {
  }

  /** Every entry's value maps without an exception. */
  predicate AllOk<A, B>(entries: seq<(string, A)>, f: A -> Result<B, Exc>) {
    forall i :: 0 <= i < |entries| ==> f(entries[i].1).Ok?
  }

  /** The entries' mapped values under their own ids. */
  function MapOk<A, B>(entries: seq<(string, A)>, f: A -> Result<B, Exc>): (d: seq<(string, B)>)
    requires AllOk(entries, f)
    ensures |d| == |entries|
  {
    seq(|entries|, i requires 0 <= i < |entries| => (entries[i].0, f(entries[i].1).value))
  }

  predicate AllConvert(entries: Dict<Yaml>) {
    AllOk(entries, Convert)
  }

  function Converted(entries: Dict<Yaml>): (d: Dict<Conversion>)
    requires AllConvert(entries)
    ensures |d| == |entries|
  {
    MapOk(entries, Convert)
  }

  /**
   * The conversion loop goes on past some entries exactly when each of them
   * converts, and it then holds the dict updated with their conversions in order.
   */
  lemma {:induction false} GoingIsUpdate(entries: Dict<Yaml>, acc: Dict<Conversion>)
    ensures ConvertEntries(entries, Going(acc)).Going? <==> AllConvert(entries)
    ensures AllConvert(entries) ==> ConvertEntries(entries, Going(acc)) == Going(Update(acc, Converted(entries)))
  {
    if entries != [] {
      var n := |entries| - 1;
      var pre := entries[..n];
      GoingIsUpdate(pre, acc);
      AllConvertSnoc(entries);
      if AllConvert(entries) {
        ConvertedSnoc(entries);
        UpdateSnoc(acc, Converted(pre), (entries[n].0, Convert(entries[n].1).value));
      }
    } else {
      assert Converted(entries) == [];
    }
  }

  lemma AllConvertSnoc(entries: Dict<Yaml>)
    requires entries != []
    ensures AllConvert(entries) <==>
      AllConvert(entries[..|entries| - 1]) && Convert(entries[|entries| - 1].1).Ok?
  {
    AllOkSnoc(entries, Convert);
  }

  lemma ConvertedSnoc(entries: Dict<Yaml>)
    requires entries != [] && AllConvert(entries)
    ensures AllConvert(entries[..|entries| - 1])
    ensures Converted(entries) ==
      Converted(entries[..|entries| - 1]) + [(entries[|entries| - 1].0, Convert(entries[|entries| - 1].1).value)]
  {
    AllOkSnoc(entries, Convert);
    MapOkSnoc(entries, Convert);
  }

  lemma AllOkSnoc<A, B>(entries: seq<(string, A)>, f: A -> Result<B, Exc>)
    requires entries != []
    ensures AllOk(entries, f) <==> AllOk(entries[..|entries| - 1], f) && f(entries[|entries| - 1].1).Ok?
  {
    var pre := entries[..|entries| - 1];
    assert forall i :: 0 <= i < |pre| ==> pre[i] == entries[i];
  }

  lemma MapOkSnoc<A, B>(entries: seq<(string, A)>, f: A -> Result<B, Exc>)
    requires entries != [] && AllOk(entries, f)
    ensures AllOk(entries[..|entries| - 1], f)
    ensures MapOk(entries, f) ==
      MapOk(entries[..|entries| - 1], f) + [(entries[|entries| - 1].0, f(entries[|entries| - 1].1).value)]
  {
    AllOkSnoc(entries, f);
    var n := |entries| - 1;
    var pre := entries[..n];
    var lhs := MapOk(entries, f);
    var rhs := MapOk(pre, f) + [(entries[n].0, f(entries[n].1).value)];
    forall i | 0 <= i < |lhs| ensures lhs[i] == rhs[i] {
      if i < n {
        assert pre[i] == entries[i];
      }
    }
  }

  /** The converted dict has the same ids as the entries. */
  lemma ConvertedKeys(entries: Dict<Yaml>)
    requires AllConvert(entries)
    ensures Keys(Converted(entries)) == Keys(entries)
    ensures UniqueKeys(entries) ==> UniqueKeys(Converted(entries))
  {
    var d := Converted(entries);
    assert forall i :: 0 <= i < |d| ==> d[i].0 == entries[i].0;
    forall x | x in Keys(entries) ensures x in Keys(d) {
      var i :| 0 <= i < |entries| && entries[i].0 == x;
      assert d[i].0 == x;
    }
  }

  /**
   * When no channel raises, the result is slot 1's conversions updated with slot
   * 4's: a channel id of slot 4 holds slot 4's conversion, any other id of slot 1
   * holds slot 1's.
   */
  lemma Slot4Overrides(config: Yaml, section: Yaml, slot1: Dict<Yaml>, slot4: Dict<Yaml>)
    requires Path(config, "modules", "NI_cDAQ_Analog") == Ok(section)
    requires SlotEntries(section, "slot_1") == Ok(slot1) && SlotEntries(section, "slot_4") == Ok(slot4)
    requires AllConvert(slot1) && AllConvert(slot4)
    ensures SensorConversions(config) == Ok(Update(Update([], Converted(slot1)), Converted(slot4)))
  {
    GoingIsUpdate(slot1, []);
    GoingIsUpdate(slot4, Update([], Converted(slot1)));
  }

  /** Looking a channel up in slot 1's conversions updated with slot 4's. */
  lemma OverrideGet(slot1: Dict<Yaml>, slot4: Dict<Yaml>, id: string)
    requires AllConvert(slot1) && AllConvert(slot4) && UniqueKeys(slot1) && UniqueKeys(slot4)
    ensures Get(Update(Update([], Converted(slot1)), Converted(slot4)), id) ==
      if id in Keys(slot4) then Get(Converted(slot4), id)
      else Get(Converted(slot1), id)
    ensures Keys(Update(Update([], Converted(slot1)), Converted(slot4))) == Keys(slot1) + Keys(slot4)
  {
    ConvertedKeys(slot1);
    ConvertedKeys(slot4);
    UpdateGet(Update([], Converted(slot1)), Converted(slot4), id);
    UpdateGet([], Converted(slot1), id);
    UpdateKeys([], Converted(slot1));
    UpdateKeys(Update([], Converted(slot1)), Converted(slot4));
    GetKeys(Converted(slot1), id);
  }

  /** The entry of a channel in its slot's conversions is that channel's conversion. */
  lemma {:induction false} ConvertedGet(entries: Dict<Yaml>, k: nat)
    requires AllConvert(entries) && UniqueKeys(entries) && k < |entries|
    ensures Get(Converted(entries), entries[k].0) == Some(Convert(entries[k].1).value)
  {
    ConvertedKeys(entries);
    UniqueGet(Converted(entries), k);
  }

  lemma {:induction false} UniqueGet<V>(d: Dict<V>, k: nat)
    requires UniqueKeys(d) && k < |d|
    ensures Get(d, d[k].0) == Some(d[k].1)
  {
    if k > 0 {
      TailUnique(d);
      UniqueGet(d[1..], k - 1);
      assert d[1..][k - 1] == d[k];
      assert d[0].0 != d[k].0;
    }
  }
}
