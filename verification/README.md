# Gen3 AWE test rig: a verified model of its control and data logic

The Gen3 alkaline water electrolyzer (AWE) test rig is run by Python glue code. A Qt GUI
drives the power supply (PSU), the relays and the gas analysers. Small HTTP bridges read
the instruments (BGA244 binary gas analysers, an NI cDAQ analog-input module, a Pico
TC-08 thermocouple logger, a Modbus RTU power supply) and serve their readings to
InfluxDB and Telegraf. Post-processing scripts export a test's data to CSV, plot it and
write a Markdown report.

This project models the parts of that code whose behaviour can be stated, and proves
what they promise:

- **PSU safety and control.**
  - The GUI-side PSU client's voltage/current limit rule (`PsuClient`).
  - The PSU panel's interlock, step ramp, current profile and stop button (`PsuPanel`), as a class whose methods update its state and append to an effect log.
  - The main window's safe-state bookkeeping and disconnect alerts (`MainWindow`).
- **The bridges.** One loop iteration or one HTTP request is one method call:
  - the PSU register decode and write sequence (`PsuBridge`);
  - the 4-20 mA scaling, ring buffer and batch flush of the analog bridge (`NiAnalog`);
  - the three BGA244 bridges with their keep, drain-on-read and latest-value policies (`Bga`, `Bga1`, `Bga2`, `Bga3`);
  - the thermocouple validity filter (`PicoTc08`).
- **Post-processing.**
  - Shading periods and series selection for the plots (`PlotData`).
  - Flux queries, column keeping, label renaming and file names for the CSV export (`ExportCsv`).
  - The dict-to-Python-literal writer, the downsampling window and the decimation rule of the standalone scripts (`StandaloneScripts`).
  - The Markdown report and its timestamp rewrite (`TestInfo`).
  - The export dialog's validation and config rewrite (`ExportDialog`).
  - The relay grid (`RelayPanel`) and the configuration helpers (`ConfigLoader`).
- **The cDAQ hardware test script.** Band classification, de-interleaving and the actuator cycle (`NiCdaqTest`).

Shared modules:
- `Wrappers` and `Text`: Option and Result values, and Python's strip, split and join, decimal text and `float()`.
- `Dict`: insertion-ordered dicts.
- `KeyOrder`: Python's string order and `sorted`.
- `Times`: datetimes and strftime.
- `PyValues`: truthiness and str() of YAML values.
- `Json`: request bodies.
- `Buffers`: bounded deques.

Conventions of the model:
- Engineering values are exact `real`s, and register values are integer tenths.
- Python's `int()` truncation toward zero is written out.
- Hardware, HTTP, database and Qt calls are either parameters (what the call answered, or whether it raised) or entries in a log of effects that methods append to.
- Two behaviours that are easy to misread are modelled as the code has them:
  - `export_csv.py` uses thermocouple label entries as they are, whatever their type, while analog and BGA entries that are dicts give their 'label' (MK1_AWE/data/export_csv.py:108-109);
  - an empty current profile raises at `profile_data[-1]` after the profile has been stored, so the profile is stored but never runs (MK1_AWE/gui/widgets/psu_panel.py:635).

## Model

| member | source | states |
|---|---|---|
| Text.TrimLeft | MK1_AWE/hdw/BGA244_http_1.py:133 | Drops exactly the leading white space: what remains is a suffix whose first character, if any, is not white space. |
| Text.TrimRight | MK1_AWE/hdw/BGA244_http_1.py:133 | Drops exactly the trailing white space: what remains is a prefix whose last character, if any, is not white space. |
| Text.Strip | MK1_AWE/hdw/BGA244_http_1.py:133 | `str.strip()` leaves no white space at either end. White space is Python's set: the ASCII controls 9-13 and 28-31, the space, U+0085, U+00A0, U+1680, U+2000-U+200A, U+2028, U+2029, U+202F, U+205F and U+3000. |
| Text.StripTrailing | MK1_AWE/hdw/BGA244_http_1.py:133 | Stripping text that has no outer white space, followed by white space only, gives the text back. |
| Text.Split | MK1_AWE/data/plot_data.py:32 | `s.split(c)` has at least one piece, no piece holds c, and joining the pieces with c gives s back. |
| Text.SplitUnique | MK1_AWE/data/plot_data.py:32 | Splitting the join of c-free pieces gives those pieces back: split inverts join. |
| Text.SplitWords | MK1_AWE/hdw/BGA244_http_1.py:143 | `s.split()` gives non-empty words without white space. |
| Text.Word | MK1_AWE/hdw/BGA244_http_1.py:143 | A word is the longest prefix without white space. |
| Text.Remove | MK1_AWE/hdw/BGA244_http_1.py:143 | `s.replace('%', '')` leaves no '%' and never lengthens the text. |
| Text.ReplaceChar | MK1_AWE/data/export_csv.py:191 | `s.replace(c, t)` leaves text without c unchanged. |
| Text.DigitRoundTrip | MK1_AWE/data/export_csv.py:240 | A digit's character reads back as that digit. |
| Text.NatToString | MK1_AWE/data/export_csv.py:240 | `str(n)` is one or more digits with no leading zero. |
| Text.NatToStringValue | MK1_AWE/data/export_csv.py:240 | `str(n)` reads back as n. |
| Text.NatToStringLength | MK1_AWE/data/export_csv.py:240 | A number below 10^k takes at most k digits. |
| Text.ZeroPad | MK1_AWE/data/export_csv.py:240 | Zero fill to width k gives max(k, length) characters and keeps text all digits. |
| Text.ZeroPadValue | MK1_AWE/data/export_csv.py:240 | Zero fill keeps the numeric value. |
| Text.IndexOf | MK1_AWE/hdw/BGA244_http_1.py:72 | The first occurrence of a character: none exactly when it is absent; otherwise it is at that index and not before. |
| Text.IndexOfAt | MK1_AWE/hdw/BGA244_http_1.py:72 | A character found at k and nowhere before is first found at k. |
| Text.ParseReal | MK1_AWE/hdw/BGA244_http_1.py:145 | `float()` over signed decimal numerals; empty text never parses. |
| Text.ParseNatToString | MK1_AWE/hdw/BGA244_http_1.py:145 | `float(str(n))` is n. |
| Text.ParseIntToString | MK1_AWE/hdw/BGA244_http_1.py:145 | `float(str(i))` is i, negative or not. |
| Text.ParseDecimal | MK1_AWE/hdw/BGA244_http_1.py:145 | Digits, a point and digits read as the decimal value they denote. |
| Text.RoundHalfEven | MK1_AWE/hdw/BGA244_http_1.py:263 | Rounding to a whole number is off by at most one half. |
| Text.Magnitude | MK1_AWE/hdw/BGA244_http_1.py:263 | The digits printed for p decimals are within half a unit of the p-th place of the magnitude. |
| Text.ParsePointText | MK1_AWE/hdw/BGA244_http_1.py:263 | Unsigned fixed-point text reads back as its digits over 10^p. |
| Text.ParseFixed | MK1_AWE/hdw/BGA244_http_1.py:263 | Text printed with `:.{p}f` reads back through float() as the value rounded to p decimals. |
| Text.FixedChars | MK1_AWE/hdw/BGA244_http_1.py:263 | Fixed-point text holds only a sign, digits and a point, so it needs no quoting in a line-protocol field. |
| Text.RoundedTenths | MK1_AWE/hdw/psu_http.py:74 | A whole number of tenths survives two-decimal rounding exactly. |
| Text.JoinExcludes | MK1_AWE/data/export_csv.py:56 | Text joined from pieces without c, with a separator other than c, has no c. |
| Text.Trunc | MK1_AWE/hdw/psu_http.py:74 | `int(x)` truncates toward zero: the floor for x >= 0, the ceiling below. |
| Text.ParseFloat | MK1_AWE/hdw/BGA244_http_1.py:145 | `float()` with an optional exponent; text with no 'e' or 'E' reads as a plain decimal. |
| Text.ParseScientific | MK1_AWE/hdw/BGA244_http_1.py:145 | A mantissa, 'E' and a natural exponent read as mantissa times 10^exponent. |
| Text.ParseFloatAt | MK1_AWE/hdw/BGA244_http_1.py:145 | The mantissa before the first 'E' and the exponent after it make the value. |
| Text.ParseExponentNat | MK1_AWE/hdw/BGA244_http_1.py:145 | An exponent written as `str(e)` reads back as e. |
| RingBuffer.Newest | MK1_AWE/hdw/BGA244_http_1.py:43 | A `deque(maxlen=n)` holds at most n elements, and never more than were appended. |
| RingBuffer.NewestSnoc | MK1_AWE/hdw/BGA244_http_1.py:43 | Appending to the deque drops the oldest element when it is full; the new element is the newest. |
| RingBuffer.NewestSuffix | MK1_AWE/hdw/BGA244_http_1.py:43 | The deque holds the newest elements appended, in order. |
| RingBuffer.BufferPercent | MK1_AWE/hdw/BGA244_http_1.py:292 | buffer_pct lies between 0 and 100; it is 0 when maxlen is 0 and exactly 100 when the buffer is full. |
| RingBuffer.PercentBounds | MK1_AWE/hdw/BGA244_http_1.py:292 | 100 * size / max lies between 0 and 100 for size <= max, and equals 100 at size == max. |
| RingBuffer.RoundedPercent | MK1_AWE/hdw/BGA244_http_1.py:292 | `round(x, 1)` keeps a percentage within 0..100 and keeps 100 exact. |
| RingBuffer.FloorAtMost | MK1_AWE/hdw/BGA244_http_1.py:292 | Rounding a value no greater than m gives at most m. |
| Dict.KeysCons | MK1_AWE/data/export_csv.py:101-114 | Python dicts as insertion-ordered pair lists: the keys of a pair before a dict are its key plus the dict's keys. |
| Dict.PutKeys | MK1_AWE/data/export_csv.py:109 | `d[k] = v` adds k to the keys; the length grows only when k is new. |
| Dict.PutUnique | MK1_AWE/data/export_csv.py:109 | `d[k] = v` keeps keys distinct, and the dict then holds (k, v). |
| Dict.ConsUnique | MK1_AWE/data/export_csv.py:109 | Putting a pair with a new key in front keeps keys distinct and keeps every pair. |
| Dict.PutAnyValue | MK1_AWE/data/export_csv.py:109 | Whatever the value, an assignment adds its key and keeps distinct keys distinct. |
| Dict.PutNew | MK1_AWE/data/export_csv.py:109 | Assigning a new key appends it at the end, as Python's insertion order does. |
| Dict.Get | MK1_AWE/hdw/BGA244_http_1.py:38 | `d.get(k)` returns a value stored under k, if there is one. |
| Dict.PutGet | MK1_AWE/data/export_csv.py:109 | After `d[k] = v`, k holds v and every other key holds what it held. |
| Dict.GetKeys | MK1_AWE/hdw/BGA244_http_1.py:38 | `d.get(k)` finds a value exactly when k is a key. |
| Dict.UpdateGet | MK1_AWE/gui/widgets/relay_panel.py:30-31 | After `d.update(e)`, a key of e holds e's value and any other key holds d's. |
| Dict.UpdateKeys | MK1_AWE/gui/widgets/relay_panel.py:30-31 | `d.update(e)` has the keys of both, each once when d's keys were distinct. |
| Dict.UpdateSnoc | MK1_AWE/gui/widgets/relay_panel.py:30-31 | Updating with one more pair is one more assignment at the end. |
| KeyOrder.StrLeqTotal | MK1_AWE/gui/widgets/relay_panel.py:91 | Python's string ordering is total. |
| KeyOrder.StrLeqTrans | MK1_AWE/gui/widgets/relay_panel.py:91 | Python's string ordering is transitive. |
| KeyOrder.StrLeqAntisym | MK1_AWE/gui/widgets/relay_panel.py:91 | Python's string ordering is antisymmetric. |
| KeyOrder.Insert | MK1_AWE/gui/widgets/relay_panel.py:91 | Inserting a pair adds exactly that pair. |
| KeyOrder.InsertSorted | MK1_AWE/gui/widgets/relay_panel.py:91 | Inserting into a key-sorted list keeps it sorted. |
| KeyOrder.SortByKey | MK1_AWE/gui/widgets/relay_panel.py:91 | `sorted(items, key=...)` is a permutation of the items. |
| KeyOrder.SortByKeySorted | MK1_AWE/gui/widgets/relay_panel.py:91 | The sorted items are in ascending key order. |
| KeyOrder.SortByKeyKeys | MK1_AWE/gui/widgets/relay_panel.py:91 | Sorting a dict's items keeps its keys and their distinctness, so the keys come out strictly ascending. |
| KeyOrder.OnceInUnique | MK1_AWE/gui/widgets/relay_panel.py:91 | A pair of a dict with distinct keys occurs in it once. |
| Json.Lookup | MK1_AWE/hdw/psu_http.py:72-73 | `cmd['voltage']` on a decoded object finds a value exactly when the key is present; otherwise it raises KeyError. |
| Times.DaysIn | MK1_AWE/data/generate_test_info.py:50 | A month has 28 to 31 days under the Gregorian rules. |
| Times.TwoDigits | MK1_AWE/data/generate_test_info.py:71 | A `%m`/`%d`/`%H`/`%M`/`%S` field prints as two digits that read back as the number. |
| Times.StampStartsWithDigit | MK1_AWE/data/generate_test_info.py:71 | A printed `%Y-%m-%d %H:%M:%S` time starts with a digit. |
| Times.DayOfYear | MK1_AWE/data/generate_test_info.py:50 | A valid date's day of the year is below the year's length. |
| Times.DayNumberOrder | MK1_AWE/data/generate_test_info.py:50 | A calendar-earlier date has a smaller day number. |
| Times.SecondsOrder | MK1_AWE/data/generate_test_info.py:50 | An earlier time is fewer seconds from the epoch, so the duration between ordered times is positive. |
| Times.DurationText | MK1_AWE/data/generate_test_info.py:51 | `str(timedelta)` of a non-negative duration starts with a digit. |
| Times.DurationUnsigned | MK1_AWE/data/generate_test_info.py:50-51 | The duration from an earlier start to a later stop prints without a sign. |
| ConfigLoader.Index | MK1_AWE/gui/config_loader.py:82-86 | `y[key]` on a mapping holding the key gives that key's value. A mapping without the key raises KeyError; anything that is not a mapping raises TypeError. |
| ConfigLoader.Iterate | MK1_AWE/gui/config_loader.py:67-71 | `for channel in v` walks a list's items, a mapping's keys or a string's one-character strings, in order, and raises TypeError for anything else (so an empty mapping or string gives no addresses and a non-empty one raises at `channel['ip']`). |
| ConfigLoader.GetOr | MK1_AWE/gui/config_loader.py:115 | `y.get(key, fallback)` raises AttributeError exactly when y is not a mapping. |
| ConfigLoader.LoadConfig | MK1_AWE/gui/config_loader.py:26-32 | load_config raises FileNotFoundError exactly when the path does not exist; otherwise it returns the parsed document. |
| ConfigLoader.GetInfluxParams | MK1_AWE/gui/config_loader.py:81-87 | get_influx_params succeeds exactly when the system section has all three influxdb entries, and returns exactly those three values. |
| ConfigLoader.AllIpsSpec | MK1_AWE/gui/config_loader.py:67-68 | The first loop contributes every channel's own "ip", in order. |
| ConfigLoader.PsuIpsSpec | MK1_AWE/gui/config_loader.py:69-71 | The second loop contributes the "ip" of exactly the channels whose name starts with 'PSU', in order. |
| ConfigLoader.GetPsuIps | MK1_AWE/gui/config_loader.py:59-72 | get_psu_ips: every MM01 address, then the MM02 addresses of the PSU channels; the first missing key or wrong type raises. |
| ConfigLoader.CollectIps | MK1_AWE/gui/config_loader.py:67-68 | The loop over MM01 gives the addresses of the AllIps definition, or its exception. |
| ConfigLoader.CollectPsuIps | MK1_AWE/gui/config_loader.py:69-71 | The loop over MM02 gives the addresses of the PsuIps definition, or its exception. |
| ConfigLoader.AllIpsErr | MK1_AWE/gui/config_loader.py:67-68 | Once a channel raises, the loop raises that exception. |
| ConfigLoader.PsuIpsErr | MK1_AWE/gui/config_loader.py:69-71 | Once a channel raises, the loop raises that exception. |
| ConfigLoader.Times1000 | MK1_AWE/gui/config_loader.py:117-118 | `value * 1000` scales an int or a float by 1000; None or a mapping raises TypeError. |
| ConfigLoader.Repeat | MK1_AWE/gui/config_loader.py:117-118 | A string or list times n is n copies of it. |
| ConfigLoader.ConvertSpec | MK1_AWE/gui/config_loader.py:116-123 | A converted channel has min_mA and max_mA equal to 1000 times range_min and range_max, and eng_min, eng_max, eng_unit and name copied. A missing range_min raises KeyError. |
| ConfigLoader.ConvertSlot | MK1_AWE/gui/config_loader.py:115-123 | The loop over one slot's entries follows the conversion definition, stopping at the first exception. |
| ConfigLoader.DoneStays | MK1_AWE/gui/config_loader.py:115-134 | Once a channel raises, the remaining entries change nothing. |
| ConfigLoader.GetSensorConversions | MK1_AWE/gui/config_loader.py:100-139 | get_sensor_conversions converts slot_1 and then slot_4 into one dict. A KeyError returns what was converted so far; any other exception escapes. |
| ConfigLoader.MissingSection | MK1_AWE/gui/config_loader.py:111-137 | With no modules.NI_cDAQ_Analog section the result is an empty dict. |
| ConfigLoader.MapOk | MK1_AWE/gui/config_loader.py:115-134 | Mapping entries that all convert gives one result per entry. |
| ConfigLoader.Converted | MK1_AWE/gui/config_loader.py:115-134 | Converting a slot gives one entry per channel. |
| ConfigLoader.GoingIsUpdate | MK1_AWE/gui/config_loader.py:115-134 | The slot loop gets past all entries exactly when each converts. The dict is then updated with their conversions, in order. |
| ConfigLoader.ConvertedKeys | MK1_AWE/gui/config_loader.py:116-127 | The converted dict has the same channel ids as the slot, distinct when the slot's are. |
| ConfigLoader.Slot4Overrides | MK1_AWE/gui/config_loader.py:115-134 | When nothing raises, the result is slot_1's conversions updated with slot_4's. |
| ConfigLoader.OverrideGet | MK1_AWE/gui/config_loader.py:115-134 | A channel id of slot_4 holds slot_4's conversion; any other id of slot_1 holds slot_1's; the ids are those of both slots. |
| ConfigLoader.ConvertedGet | MK1_AWE/gui/config_loader.py:116-123 | A channel's entry in its slot's conversions is that channel's conversion. |
| Bga.JoinLast | MK1_AWE/hdw/BGA244_http_1.py:134 | The last piece of a join is the text after its last separator. |
| Bga.LastLine | MK1_AWE/hdw/BGA244_http_1.py:126-136 | cmd's reply is a non-empty single line. |
| Bga.LastLineSpec | MK1_AWE/hdw/BGA244_http_1.py:133-136 | cmd gives nothing exactly when the read or decode failed or the stripped reply is empty. Otherwise it gives what follows the last newline of the stripped reply. |
| Bga.Capped | MK1_AWE/hdw/BGA244_http_1.py:146-147 | A value at or above OVERLOAD (9.9E37) becomes 0.0; any other value is kept. |
| Bga.FirstNumber | MK1_AWE/hdw/BGA244_http_1.py:143-151 | A number found among the words is always below OVERLOAD. |
| Bga.Number | MK1_AWE/hdw/BGA244_http_1.py:139-151 | get_num never returns a value at or above OVERLOAD. |
| Bga.FirstNumberSpec | MK1_AWE/hdw/BGA244_http_1.py:143-151 | get_num returns None exactly when no word parses as a float. Otherwise it returns the first word that parses, capped. |
| Bga.GetNum | MK1_AWE/hdw/BGA244_http_1.py:139-151 | The word loop with its try/except gives the value of the Number definition. |
| Bga.ReadPoll | MK1_AWE/hdw/BGA244_http_1.py:180-186 | The six queries of a cycle (GASP?, GASS?, RATO? 1%, UNCT?%, TCEL? C, PRES?) are read through cmd, and the last four through get_num. |
| Bga.GasName | MK1_AWE/hdw/BGA244_http_1.py:195-196 | `pg if pg else "NA"` is never empty and keeps a non-empty answer. |
| Bga.PollOneLine | MK1_AWE/hdw/BGA244_http_1.py:180-201 | A polled reading holds no newline in its gas names, and its purity is get_num of the RATO reply. |
| Bga.Field | MK1_AWE/hdw/BGA244_http_1.py:262-269 | A field is written exactly when its value is not None, with that value. |
| Bga.Fields | MK1_AWE/hdw/BGA244_http_1.py:261-269 | At most the four numeric fields are written. |
| Bga.FieldsPresent | MK1_AWE/hdw/BGA244_http_1.py:106-113 | purity, uncertainty, temperature and pressure are each written exactly when present, with their value, and no other field is written; no field is written exactly when all four are None. See also lines 261-269. |
| Bga.FieldTexts | MK1_AWE/hdw/BGA244_http_1.py:263-269 | One `name=value` text per field. |
| Bga.NewestOneLine | MK1_AWE/hdw/BGA244_http_1.py:208 | The deque keeps only well-formed samples when it is given only those. |
| Bga.MetricsLines | MK1_AWE/hdw/BGA244_http_1.py:257-273 | At most one line per buffered sample. |
| Bga.FieldTextsOneLine | MK1_AWE/hdw/BGA244_http_1.py:272 | The comma-joined fields contain no newline. |
| Bga.IntOneLine | MK1_AWE/hdw/BGA244_http_1.py:272 | A printed timestamp contains no newline. |
| Bga.TagsOneLine | MK1_AWE/hdw/BGA244_http_1.py:259 | The gas tags of a well-formed reading contain no newline. |
| Bga.LineOneLine | MK1_AWE/hdw/BGA244_http_1.py:272 | A metrics line never contains a newline. |
| Bga.MetricsLinesOneLine | MK1_AWE/hdw/BGA244_http_1.py:257-273 | No line of the body contains a newline. |
| Bga.BodySplits | MK1_AWE/hdw/BGA244_http_1.py:278 | `'\n'.join(lines)` splits back into exactly those lines: a scraper sees one record per line. |
| Bga.SampleLineWhenNumeric | MK1_AWE/hdw/BGA244_http_1.py:271-273 | A sample gets a line exactly when one of its four numeric readings is present. |
| Bga.BuildLines | MK1_AWE/hdw/BGA244_http_1.py:257-273 | The loop over the samples builds the lines of the MetricsLines definition. |
| Bga.BodyLines | MK1_AWE/hdw/BGA244_http_1.py:278 | Dropping the final newline of the body and splitting gives back its lines. |
| Bga.CommandQueue.constructor | MK1_AWE/hdw/BGA244_http_1.py:51 | The command queue starts empty. |
| Bga.CommandQueue.Post | MK1_AWE/hdw/BGA244_http_1.py:238-241 | A POSTed command is stripped and joins the end of the queue. |
| Bga.CommandQueue.SendNext | MK1_AWE/hdw/BGA244_http_1.py:173-177 | At the start of a cycle, at most one command leaves: the oldest one. |
| Bga.SentInPostedOrder | MK1_AWE/hdw/BGA244_http_1.py:175 | Commands go to the port in the order they were posted. See also line 241. |
| Bga1.Points | MK1_AWE/hdw/BGA244_http_1.py:97-116 | One point per sample. |
| Bga1.PointsOfSamples | MK1_AWE/hdw/BGA244_http_1.py:99-115 | Point i carries sample i's timestamp and gas tags, and a field exactly for each reading it has. |
| Bga1.Bridge.constructor | MK1_AWE/hdw/BGA244_http_1.py:43-51 | The bridge starts offline, with empty buffer, empty pending batch and no points written. See also lines 158-159. |
| Bga1.Bridge.Open | MK1_AWE/hdw/BGA244_http_1.py:166-169 | The device is online after the port opens and offline when opening raises. See also lines 217-218. |
| Bga1.Bridge.WriteToInflux | MK1_AWE/hdw/BGA244_http_1.py:89-123 | Without a write API nothing is sent and False returned. Otherwise the batch's points are sent, and points_written grows by the batch size only when the write succeeds. |
| Bga1.Bridge.Keep | MK1_AWE/hdw/BGA244_http_1.py:203-213 | A sample joins the pending batch and the deque. A batch that reaches sample_rate samples is written and reset. |
| Bga1.Bridge.PollCycle | MK1_AWE/hdw/BGA244_http_1.py:171-221 | One cycle: the oldest command goes out first. A port error, or six missing answers, takes the device offline and keeps nothing. Otherwise the device is online and the sample is kept. |
| Bga1.Bridge.Metrics | MK1_AWE/hdw/BGA244_http_1.py:248-278 | /metrics answers 204 while offline or with an empty buffer. Otherwise it sends the lines of the buffered samples, oldest first, and the body splits back into them. The buffer is kept. |
| Bga1.Bridge.HealthReport | MK1_AWE/hdw/BGA244_http_1.py:280-295 | /health reports the fill within capacity and a percentage within 0..100 (0 for zero capacity), plus the online status and the write counters. |
| Bga1.Bridge.Get | MK1_AWE/hdw/BGA244_http_1.py:227-233 | GET /metrics and /health are served; any other path is 404. |
| Bga1.Bridge.Post | MK1_AWE/hdw/BGA244_http_1.py:235-246 | POST /command queues the stripped body; any other path is 404 and queues nothing. |
| Bga2.Bridge.constructor | MK1_AWE/hdw/BGA244_http_2.py:24-33 | The latest values start disconnected, with "NA" gases and no readings. |
| Bga2.Bridge.Open | MK1_AWE/hdw/BGA244_http_2.py:106-110 | Failing to open the port marks the analyser disconnected; opening it changes nothing yet. |
| Bga2.Bridge.PollCycle | MK1_AWE/hdw/BGA244_http_2.py:69-110 | One cycle: the oldest command goes out first. A port error, or six missing answers, marks the analyser disconnected and keeps every value. Otherwise all six values are replaced. |
| Bga2.Bridge.Metrics | MK1_AWE/hdw/BGA244_http_2.py:139-174 | /metrics answers 204 while disconnected. Otherwise it sends at most one line: the latest values, without a timestamp. |
| Bga2.Bridge.Get | MK1_AWE/hdw/BGA244_http_2.py:116-121 | Only GET /metrics is served; any other path is 404. |
| Bga2.Bridge.Post | MK1_AWE/hdw/BGA244_http_2.py:123-137 | POST /command queues the stripped body; any other path is 404 and queues nothing. |
| Bga2.LastValidWins | MK1_AWE/hdw/BGA244_http_2.py:93-110 | After a good cycle and then a failed one, the good values remain but /metrics answers 204. See also lines 143-146. |
| Bga3.Bridge.constructor | MK1_AWE/hdw/BGA244_http_3.py:40-45 | The bridge starts offline with an empty buffer and an empty command queue. |
| Bga3.Bridge.Open | MK1_AWE/hdw/BGA244_http_3.py:86-89 | The device is online after the port opens and offline when opening raises. See also lines 127-128. |
| Bga3.Bridge.Keep | MK1_AWE/hdw/BGA244_http_3.py:115-124 | A good cycle's sample joins the deque, dropping the oldest when it is full. |
| Bga3.Bridge.PollCycle | MK1_AWE/hdw/BGA244_http_3.py:84-130 | One cycle: the oldest command goes out first. A port error, or six missing answers, takes the device offline without a sample. Otherwise the device is online and the sample is kept. |
| Bga3.Bridge.Metrics | MK1_AWE/hdw/BGA244_http_3.py:160-194 | /metrics answers 204 and leaves the buffer alone while offline or empty. Otherwise it sends every buffered sample's line and empties the buffer. The samples sent are exactly those kept since the previous report. |
| Bga3.Bridge.Drain | MK1_AWE/hdw/BGA244_http_3.py:169-170 | `list(buffer)` then `clear()`: the samples since the last report, oldest first, and an empty buffer. |
| Bga3.Bridge.HealthReport | MK1_AWE/hdw/BGA244_http_3.py:196-210 | /health reports the fill within capacity, a percentage within 0..100 (0 for zero capacity), and the online status. |
| Bga3.Bridge.Get | MK1_AWE/hdw/BGA244_http_3.py:137-144 | GET /metrics drains the buffer when it answers 200. /health and any other path change nothing; unknown paths are 404. |
| Bga3.Bridge.Post | MK1_AWE/hdw/BGA244_http_3.py:146-158 | POST /command queues the stripped body; any other path is 404 and queues nothing. |
| Bga3.ReportTwice | MK1_AWE/hdw/BGA244_http_3.py:169-170 | Two reports never hand out the same sample: the second starts where the first ended. |
| NiAnalog.ScaleBetween | MK1_AWE/hdw/ni_analog_http.py:96 | Linear scaling maps a point of [lo, hi] between the two target ends. |
| NiAnalog.ScaleMonotone | MK1_AWE/hdw/ni_analog_http.py:96 | Linear scaling onto an increasing range is monotone. |
| NiAnalog.EngineeringBounds | MK1_AWE/hdw/ni_analog_http.py:85-97 | With a proper range the engineering value always lies between eng_min and eng_max (defaults 0 and 100), whichever is larger. |
| NiAnalog.EngineeringEnds | MK1_AWE/hdw/ni_analog_http.py:87-96 | A current at or below range_min·1000 gives eng_min, and one at or above range_max·1000 gives eng_max: clamping. |
| NiAnalog.EngineeringMonotone | MK1_AWE/hdw/ni_analog_http.py:93-96 | A larger current never gives a smaller value when eng_min <= eng_max. |
| NiAnalog.EngineeringDefault | MK1_AWE/hdw/ni_analog_http.py:89-96 | Without a label, the value is the percentage of the clamped current across the range. |
| NiAnalog.EngineeringFails | MK1_AWE/hdw/ni_analog_http.py:96 | The conversion raises ZeroDivisionError exactly when range_min equals range_max. An inverted range always gives eng_min, because the clamp then pins the current to range_min. |
| NiAnalog.ReadingsAtSnoc | MK1_AWE/hdw/ni_analog_http.py:217-241 | Each channel in turn adds its reading, the engineering value and the mA current, under its name. |
| NiAnalog.ReadingsAtFails | MK1_AWE/hdw/ni_analog_http.py:217-241 | A sample fails exactly when some channel's range is degenerate. |
| NiAnalog.NamesSnoc | MK1_AWE/hdw/ni_analog_http.py:222-233 | The channel names of one more channel are the names so far plus its own. |
| NiAnalog.ReadingsAtKeys | MK1_AWE/hdw/ni_analog_http.py:218-241 | A converted sample holds exactly one reading per channel name. |
| NiAnalog.BatchTimes | MK1_AWE/hdw/ni_analog_http.py:211-215 | The timestamps of a read are evenly spaced by the sample interval, and the last one is `now`. |
| NiAnalog.SamplePoints | MK1_AWE/hdw/ni_analog_http.py:112-120 | One point per channel reading of a sample. |
| NiAnalog.PointsCount | MK1_AWE/hdw/ni_analog_http.py:110-124 | A batch makes one point per channel per sample. |
| NiAnalog.SampleLines | MK1_AWE/hdw/ni_analog_http.py:284-287 | One /metrics line per channel reading of a sample. |
| NiAnalog.MetricsLinesCount | MK1_AWE/hdw/ni_analog_http.py:281-287 | /metrics has one line per channel per buffered sample. |
| NiAnalog.Bridge.SamplesPerRead | MK1_AWE/hdw/ni_analog_http.py:153 | `max(1, rate // 10)` lies between 1 and the sample rate. |
| NiAnalog.Bridge.constructor | MK1_AWE/hdw/ni_analog_http.py:139-157 | The bridge starts offline with an empty deque of maxlen rate·seconds and nothing pending or written. |
| NiAnalog.Bridge.Connect | MK1_AWE/hdw/ni_analog_http.py:167-198 | Once the DAQmx read task is created and configured, the device is online. |
| NiAnalog.Bridge.WriteToInflux | MK1_AWE/hdw/ni_analog_http.py:100-128 | Without a write API nothing is sent and False returned. Otherwise the batch goes out, and points_written grows by one per channel per sample only when the write succeeds. |
| NiAnalog.Bridge.Record | MK1_AWE/hdw/ni_analog_http.py:248-253 | A sample joins the pending batch and the deque; the deque stays the newest rate·seconds samples. |
| NiAnalog.Bridge.ReadBatch | MK1_AWE/hdw/ni_analog_http.py:201-264 | One read: a failed read, or a channel whose range divides by zero, takes the device offline before any sample is kept. Otherwise every sample of the read is kept, stamped backwards from `now`, and a full batch is flushed whether or not the write succeeds. |
| NiAnalog.Bridge.Expected | MK1_AWE/hdw/ni_analog_http.py:211-246 | A read yields samples_per_read samples. |
| NiAnalog.Bridge.ExpectedReadings | MK1_AWE/hdw/ni_analog_http.py:217-241 | Sample i of a read holds column i of the data, channel by channel. |
| NiAnalog.Bridge.ExpectedTimes | MK1_AWE/hdw/ni_analog_http.py:207-215 | Sample i is stamped `now - (n-1-i)·interval`, so the last sample is stamped `now`. |
| NiAnalog.Bridge.TakeSamples | MK1_AWE/hdw/ni_analog_http.py:211-253 | The sample loop stops at the first sample that cannot be converted and keeps nothing from it. Otherwise it keeps every sample of the read. |
| NiAnalog.Bridge.Metrics | MK1_AWE/hdw/ni_analog_http.py:267-290 | /metrics answers 503 "# Device offline" while offline and 503 "# No data yet" with an empty buffer. Otherwise it answers 200 with every buffered reading's line, and the buffer is not cleared. |
| NiAnalog.Bridge.HealthReport | MK1_AWE/hdw/ni_analog_http.py:293-312 | /health reports the buffer length, a capacity of 0 for an empty buffer (an empty deque is falsy) and the maxlen otherwise, a percentage within 0..100 (0 for zero capacity), and the online status. |
| PicoTc08.ReadingOf | MK1_AWE/hdw/pico_tc08_http.py:139-154 | A reading is valid exactly when -200 < t < 1500. A valid one stores t, an invalid one stores None; both keep the channel's type. |
| PicoTc08.ReadingsOf | MK1_AWE/hdw/pico_tc08_http.py:115-154 | The readings dict of one pass has at most one entry per configured channel. |
| PicoTc08.ReadingsInConfigOrder | MK1_AWE/hdw/pico_tc08_http.py:118-154 | With distinct channel names, the readings list every channel once, in configuration order, each from its own temperature. |
| PicoTc08.ValidCount | MK1_AWE/hdw/pico_tc08_http.py:211 | The valid count never exceeds the number of readings. |
| PicoTc08.TcLines | MK1_AWE/hdw/pico_tc08_http.py:193-198 | One /metrics line per valid channel. |
| PicoTc08.ReadingsWellFormed | MK1_AWE/hdw/pico_tc08_http.py:141-154 | In every reading of a pass, "valid" holds exactly when a value is stored. |
| PicoTc08.PutWellFormed | MK1_AWE/hdw/pico_tc08_http.py:142-149 | Storing a well-formed reading keeps the set well formed. |
| PicoTc08.SetupCalls | MK1_AWE/hdw/pico_tc08_http.py:96-103 | Connection setup makes one set_channel call for the cold junction (channel 0, 'C') and then one per configured channel. |
| PicoTc08.Bridge.constructor | MK1_AWE/hdw/pico_tc08_http.py:21-25 | The bridge starts offline with no readings and no DLL calls. |
| PicoTc08.Bridge.Open | MK1_AWE/hdw/pico_tc08_http.py:86-111 | A handle <= 0 fails before any call. Otherwise the channels are configured and streaming started, and an interval <= 0 fails, after which the unit is stopped and closed. Only a positive handle and a positive interval bring the device online. See also lines 163-173. |
| PicoTc08.Bridge.Configure | MK1_AWE/hdw/pico_tc08_http.py:96-103 | The channel loop makes exactly the setup calls. |
| PicoTc08.ReadCalls | MK1_AWE/hdw/pico_tc08_http.py:118-135 | one read's DLL calls are one GetTemp per configured channel, the k-th for the k-th channel |
| PicoTc08.Bridge.ReadOnce | MK1_AWE/hdw/pico_tc08_http.py:114-159 | A pass makes exactly one GetTemp call per configured channel, in config order, on the open handle. It applies the validity filter to each temperature and replaces the latest set, stamped `now`. |
| PicoTc08.Bridge.Fail | MK1_AWE/hdw/pico_tc08_http.py:163-173 | An exception takes the device offline; a unit with a positive handle is stopped and closed. |
| PicoTc08.Bridge.Metrics | MK1_AWE/hdw/pico_tc08_http.py:179-201 | /metrics answers 503 while offline or before the first set. Otherwise it answers 200 with one line per valid channel, or "# No valid readings" when none is valid. |
| PicoTc08.Bridge.HealthReport | MK1_AWE/hdw/pico_tc08_http.py:204-221 | /health reports the age of the last set (None before one exists) and valid out of total channels, with valid <= total. |
| PicoTc08.ValidCountInRange | MK1_AWE/hdw/pico_tc08_http.py:141 | The valid channels are exactly the in-range ones: the count is the number of in-range temperatures. See also line 211. |
| PsuClient.Limit | MK1_AWE/gui/psu_rtu_client.py:96-108 | Output is enabled exactly when voltage >= 100 and current >= 1; otherwise the command is 0 V, 0 A, enable 0. When enabled, the values lie in [100, 900] V and [1, 100] A, equal to the input unless it exceeds the maximum, which it is then clamped to. |
| PsuClient.LimitIdempotent | MK1_AWE/gui/psu_rtu_client.py:98-108 | Applying the limit rule to its own output returns the same set-point. |
| PsuClient.SetVoltageCurrent | MK1_AWE/gui/psu_rtu_client.py:110-122 | set_voltage_current posts the limited set-point and returns True exactly when the bridge answers 200. See also lines 33-52. |
| PsuClient.SafeShutdown | MK1_AWE/gui/psu_rtu_client.py:152-154 | safe_shutdown always posts 0 V, 0 A, enable 0, and returns True exactly when the bridge answers 200. |
| PsuClient.EnableOutput | MK1_AWE/gui/psu_rtu_client.py:134-141 | enable_output posts {'type': 'enable'}; True exactly on a 200 answer. |
| PsuClient.DisableOutput | MK1_AWE/gui/psu_rtu_client.py:143-150 | disable_output posts {'type': 'disable'}; True exactly on a 200 answer. |
| PsuClient.ValueOf | MK1_AWE/gui/psu_rtu_client.py:71-74 | A field's value is a number exactly when float() accepts its text; otherwise it is the raw text. |
| PsuClient.FieldsMap | MK1_AWE/gui/psu_rtu_client.py:67-75 | The fields give a dictionary exactly when every field splits into exactly two parts on '='; otherwise the unpacking raises and the result is None. |
| PsuClient.ReadStatus | MK1_AWE/gui/psu_rtu_client.py:54-78 | The parse loop gives the status of the StatusOf definition. An empty body or one starting with '#' gives None. |
| PsuClient.FieldsMapStep | MK1_AWE/gui/psu_rtu_client.py:69-74 | Each field adds its key and value to the dictionary, a later key overwriting an earlier one; a malformed field gives None. |
| PsuClient.Get | MK1_AWE/gui/psu_rtu_client.py:156-169 | `data.get(name) if data else None` finds a value exactly when the status is a non-empty dict holding the name. |
| PsuClient.OrZero | MK1_AWE/gui/psu_rtu_client.py:126-131 | `value or 0.0` gives 0.0 for a missing or empty value and keeps a number. A non-empty raw string is kept as text, so the limit rule raises TypeError if it compares it. |
| PsuClient.SetCurrent | MK1_AWE/gui/psu_rtu_client.py:129-132 | set_current reuses the last read voltage, or 0.0 when there is none; its result reports the bridge's answer. It raises TypeError exactly when the voltage reading is non-empty raw text, because the voltage is compared first. |
| PsuClient.SetVoltage | MK1_AWE/gui/psu_rtu_client.py:124-127 | set_voltage reuses the last read current, or 0.0 when there is none; its result reports the bridge's answer. A voltage under 100 V sends the safe state even when the current reading is raw text, because the voltage test short-circuits. The call raises TypeError exactly when the voltage is at least 100 V and the current is non-empty raw text. |
| PsuClient.SetCurrentBlind | MK1_AWE/gui/psu_rtu_client.py:129-132 | With no voltage reading, set_current sends the safe state whatever the current. |
| PsuClient.SetVoltageBlind | MK1_AWE/gui/psu_rtu_client.py:124-127 | With no current reading, set_voltage sends the safe state whatever the voltage. |
| PsuClient.IsDeviceOnline | MK1_AWE/gui/psu_rtu_client.py:175-184 | Any answer but 200 gives False. A 200 JSON object gives its 'device_online' entry. |
| PsuClient.RegisterWrites | MK1_AWE/hdw/psu_http.py:71-78 | A set-point becomes three register writes. |
| PsuClient.SetpointReachesRegisters | MK1_AWE/hdw/psu_http.py:71-78 | A posted set-point becomes writes to 0x0101 (voltage in tenths), 0x0102 (current in tenths) and 0x0103 (enable), stopping at the first that raises. |
| PsuClient.LimitedWritesFit | MK1_AWE/gui/psu_rtu_client.py:98-108 | Every register value of a limited set-point fits a 16-bit register. An enabled one writes 1000..9000 tenths of a volt and 10..1000 tenths of an amp. |
| PsuClient.SetVoltageCurrentLands | MK1_AWE/hdw/psu_http.py:71-78 | With a device that answers, the client's limited set-point lands in all three registers. |
| PsuClient.SafeShutdownLands | MK1_AWE/hdw/psu_http.py:71-78 | With a device that answers, safe_shutdown writes 0 to the voltage, current and output registers. |
| PsuClient.SwitchLands | MK1_AWE/hdw/psu_http.py:81-87 | enable_output writes 1 and disable_output writes 0 to the output register. |
| PsuClient.FieldTextReadsBack | MK1_AWE/hdw/psu_http.py:144-158 | Every field printed by the bridge reads back through float() as its engineering value. |
| PsuClient.TenthsReadBack | MK1_AWE/hdw/psu_http.py:98 | A value in tenths printed with `:.2f` reads back exactly. See also line 145. |
| PsuClient.FixedReadsBack | MK1_AWE/hdw/psu_http.py:145 | A two-decimal value printed with `:.2f` reads back exactly. |
| PsuClient.WholeReadsBack | MK1_AWE/hdw/psu_http.py:149 | An integer register printed as is reads back exactly. |
| PsuClient.SplitAssignment | MK1_AWE/gui/psu_rtu_client.py:70 | `name=value` splits on '=' into its name and value. |
| PsuClient.ValuesSnoc | MK1_AWE/gui/psu_rtu_client.py:69-74 | The dictionary of one more name is the previous one with that name assigned. |
| PsuClient.ParseFields | MK1_AWE/gui/psu_rtu_client.py:67-75 | Fields written as `name=text` parse into the dictionary from each name to the value of its text. |
| PsuClient.ParseAssignments | MK1_AWE/gui/psu_rtu_client.py:67-75 | The bridge's assignments parse into each name's engineering value. |
| PsuClient.FieldNamesPlain | MK1_AWE/hdw/psu_http.py:144-157 | The thirteen field names hold no '=', ',' or space. |
| PsuClient.AssignmentsPlain | MK1_AWE/hdw/psu_http.py:144-157 | The bridge's assignments hold no ',' or space. |
| PsuClient.AssignmentExcludes | MK1_AWE/hdw/psu_http.py:144-157 | An assignment of a numeral avoids every character that neither the name nor a numeral holds. |
| PsuClient.RecordWords | MK1_AWE/gui/psu_rtu_client.py:65 | `psu <fields> <stamp>` splits on spaces into exactly its three parts. |
| PsuClient.StatusOfLine | MK1_AWE/gui/psu_rtu_client.py:58-75 | A non-comment line delivered with 200 is parsed from its second word. |
| PsuClient.StatusOfRecord | MK1_AWE/gui/psu_rtu_client.py:58-75 | A record with a digit timestamp reads back as the dictionary of its fields. |
| PsuClient.MetricsReadBack | MK1_AWE/gui/psu_rtu_client.py:54-75 | Parsing the bridge's /metrics line gives exactly its thirteen field names, each mapped to its value: the client reads back what the bridge writes. |
| PsuBridge.Registers | MK1_AWE/hdw/psu_http.py:94-110 | A reading's register image has 13 registers. |
| PsuBridge.Decode | MK1_AWE/hdw/psu_http.py:94-111 | Register k of the block names field k: decoding loses nothing, since the image of the decoded reading is the raw block. |
| PsuBridge.DecodeRegisters | MK1_AWE/hdw/psu_http.py:97-111 | Decoding a reading's register image gives the reading back. |
| PsuBridge.Assignments | MK1_AWE/hdw/psu_http.py:144-157 | One `name=text` assignment per field, in order. |
| PsuBridge.Tenths | MK1_AWE/hdw/psu_http.py:74-76 | `int(value / 0.1)` succeeds exactly for a JSON number or bool. |
| PsuBridge.RegisterInt | MK1_AWE/hdw/psu_http.py:78 | minimalmodbus accepts an int, a bool or a float as a register value. A float passes exactly when it lies within 0..0xFFFF, and is then written truncated toward zero. |
| PsuBridge.Attempt | MK1_AWE/hdw/psu_http.py:66-91 | The writes of a command that reach the device are a prefix of its writes, all accepted, and stop at the first write the device refuses. |
| PsuBridge.QueueWritesAppend | MK1_AWE/hdw/psu_http.py:66-91 | The writes of two batches of commands are those of the first followed by those of the second. |
| PsuBridge.CommandRegisters | MK1_AWE/hdw/psu_http.py:71-87 | Every write a command performs targets one of the three set-point registers with a 16-bit value. |
| PsuBridge.SwitchCommands | MK1_AWE/hdw/psu_http.py:69-87 | enable writes 1 and disable writes 0 to the output register; any other type writes nothing. |
| PsuBridge.Bridge.constructor | MK1_AWE/hdw/psu_http.py:22-26 | The bridge starts offline with no data and an empty queue. |
| PsuBridge.Bridge.Connect | MK1_AWE/hdw/psu_http.py:44-61 | An empty com_port never connects; otherwise opening the instrument brings the device online. |
| PsuBridge.Bridge.WriteRegister | MK1_AWE/hdw/psu_http.py:74-78 | A write lands exactly when the value fits and the device answers; otherwise it raises. |
| PsuBridge.Bridge.Execute | MK1_AWE/hdw/psu_http.py:68-91 | One command's writes are those of the CommandWrites definition; an exception ends it. |
| PsuBridge.Bridge.DrainCommands | MK1_AWE/hdw/psu_http.py:66-91 | Every queued command is executed, oldest first, until the queue is empty. |
| PsuBridge.Bridge.Step | MK1_AWE/hdw/psu_http.py:64-124 | One pass: drain the queue, then read the 13 registers. A read failure takes the device offline and keeps the previous snapshot. |
| PsuBridge.Bridge.PostCommand | MK1_AWE/hdw/psu_http.py:183-200 | POST /command answers 503 while offline, 500 when decoding the body raises, and 400 for a missing or falsy body, queuing nothing in each case. Otherwise it answers 200 and queues the body. |
| PsuBridge.Bridge.Metrics | MK1_AWE/hdw/psu_http.py:127-162 | /metrics answers 503 while offline or before the first reading; otherwise 200 with the single `psu` line. |
| PsuPanel.RampStartsAtZero | MK1_AWE/gui/widgets/psu_panel.py:512 | the first ramp step (step 0 of N) commands zero amps. See also line 490. |
| PsuPanel.RampEndsAtTarget | MK1_AWE/gui/widgets/psu_panel.py:512 | the last ramp step (step N of N) commands exactly the target current. See also line 527. |
| PsuPanel.RampShape | MK1_AWE/gui/widgets/psu_panel.py:490-537 | the N+1 set-points of a full ramp start at 0, end at the target and, for a non-negative target, never decrease and stay within [0, target] |
| PsuPanel.FinishEffects | MK1_AWE/gui/widgets/psu_panel.py:558-568 | finishing a ramp or profile issues no set_current and starts no timer (mk1 only switches its outputs off). See also lines 706-716. |
| PsuPanel.CancelEffects | MK1_AWE/gui/widgets/psu_panel.py:543-554 | cancelling issues stop and a zero-amp signal but no set_current and no timer start. See also lines 691-702. |
| PsuPanel.ApplyErrorTitle | MK1_AWE/gui/widgets/psu_panel.py:305-310 | the title of _apply_settings' error dialog is "Invalid Input" exactly for a ValueError and "Connection Error" exactly for a ConnectionError (any other exception gives "Error") |
| PsuPanel.PrepEffects | MK1_AWE/gui/widgets/psu_panel.py:454-468 | mk1's preparation commands no current and starts no timer. It holds both calls (the maximum voltage, then outputs on) exactly when the preparation succeeded, and no call when the configuration read raised. |
| PsuPanel.Hms | MK1_AWE/gui/widgets/psu_panel.py:373-376 | the displayed hours, minutes (< 60) and seconds (< 60) add up to the whole seconds of max(0, remaining) |
| PsuPanel.Percent | MK1_AWE/gui/widgets/psu_panel.py:353-361 | the progress percentage never exceeds 100, is 0 when the total is not positive, is non-negative for a non-negative part and is 100 once the part reaches the total |
| PsuPanel.Panel.constructor | MK1_AWE/gui/widgets/psu_panel.py:23-40 | a new panel has the contactor open, no PSU available, zero set-point, no ramp or profile, and every button disabled. See also line 245. |
| PsuPanel.Panel.UpdateButtonStates | MK1_AWE/gui/widgets/psu_panel.py:402-423 | ENTER, RAMP and PROFILE are enabled exactly when the interlock holds (gen3: PSU available; otherwise contactor closed and PSU available) and nothing runs; STOP exactly when a PSU is available |
| PsuPanel.Panel.SetContactorState | MK1_AWE/gui/widgets/psu_panel.py:384-387 | records the contactor state; ENTER is then enabled iff (gen3 or closed) and a PSU is available and no ramp or profile runs |
| PsuPanel.Panel.SetHardwareAvailable | MK1_AWE/gui/widgets/psu_panel.py:389-400 | a PSU counts as available iff the count is positive; the inputs and STOP follow that |
| PsuPanel.Panel.ApplySettings | MK1_AWE/gui/widgets/psu_panel.py:247-310 | Empty current text does nothing, and unparsable current text shows "Invalid Input". Gen3: a missing voltage shows "Missing Input" and an unparsable one "Invalid Input"; otherwise set_voltage_current(volts, amps) is sent and the amps are signalled when accepted, else "Error" is shown. Mk1 (an empty voltage means 120 V; an unparsable one shows "Invalid Input") sets the current at that voltage, then enables outputs. Gen2 sets the current alone. A call that raises ends the handler: the calls that returned before it stay in the log, and the dialog title is "Invalid Input" for a ValueError, "Connection Error" for a ConnectionError and "Error" otherwise. The set-point becomes the parsed current exactly when every call succeeded. |
| PsuPanel.Panel.FinishRamp | MK1_AWE/gui/widgets/psu_panel.py:556-577 | ends the ramp, forgets its voltage, stops the progress timer and adds the finish effects |
| PsuPanel.Panel.CancelRamp | MK1_AWE/gui/widgets/psu_panel.py:543-554 | stops the step timer, issues stop, sets the set-point to 0 and finishes the ramp |
| PsuPanel.Panel.ExecuteRampStep | MK1_AWE/gui/widgets/psu_panel.py:505-541 | when ramping, commands step/N of the target (with the ramp voltage on gen3), advances the step, and finishes after step N or schedules the next step after the step duration; a failure (including N = 0) shows "Ramp Error" and cancels |
| PsuPanel.Panel.LaunchRamp | MK1_AWE/gui/widgets/psu_panel.py:487-503 | records the ramp parameters and runs step 0 at once: zero amps commanded, step 1 next, timer scheduled |
| PsuPanel.Panel.BeginRamp | MK1_AWE/gui/widgets/psu_panel.py:453-503 | after mk1's preparation, records the start time and the ramp, and the first set-point commanded is the ramp's first target |
| PsuPanel.Panel.StartRamp | MK1_AWE/gui/widgets/psu_panel.py:425-503 | With the contactor open (not gen3), only the "Contactor Open" warning. A missing or unparsable current shows "Missing Input" or "Invalid Input". A failed mk1 preparation logs the preparation calls that returned, then "Ramp Setup Error". A gen3 missing or unparsable voltage shows "Missing Input" or "Invalid Input". Each refusal changes nothing else. Otherwise the ramp to the entered current starts with a step of 0 A. |
| PsuPanel.Panel.RunRamp | MK1_AWE/gui/widgets/psu_panel.py:425-577 | a started ramp whose steps all succeed commands exactly k/N of the target for k = 0..N, ends at the target and writes it back as the current text |
| PsuPanel.Panel.RampTimer | MK1_AWE/gui/widgets/psu_panel.py:505-541 | while a ramp runs and every step succeeds, the step timer keeps commanding the next fraction of the target until step N, then the ramp ends at the target with the target written back as the current text |
| PsuPanel.Panel.FinishProfile | MK1_AWE/gui/widgets/psu_panel.py:704-727 | ends the profile, clears its data, index and voltage, stops the progress timer and adds the finish effects |
| PsuPanel.Panel.CancelProfile | MK1_AWE/gui/widgets/psu_panel.py:691-702 | stops the timer, issues stop, sets the set-point to 0 and finishes the profile |
| PsuPanel.Panel.ExecuteProfileStep | MK1_AWE/gui/widgets/psu_panel.py:648-689 | when profiling, commands the current point's amps, then finishes after the last point or schedules the next after the time difference; a failure shows "Profile Error" and cancels |
| PsuPanel.Panel.LaunchProfile | MK1_AWE/gui/widgets/psu_panel.py:633-646 | starts the profile at point 0 and runs that point at once; a one-point profile finishes immediately |
| PsuPanel.Panel.BeginProfile | MK1_AWE/gui/widgets/psu_panel.py:616-646 | records the start time; an empty profile stops at profile_data[-1] with nothing started; otherwise the first point's current is commanded |
| PsuPanel.Panel.StartProfile | MK1_AWE/gui/widgets/psu_panel.py:579-646 | With the contactor open (not gen3), only the "Contactor Open" warning. A load failure shows its own title and changes nothing. Otherwise the loaded profile is stored. A gen3 missing or unparsable voltage then shows "Missing Input" or "Invalid Input". A failed mk1 preparation logs the preparation calls that returned, then "Profile Setup Error". An empty loaded profile is stored but not run. Otherwise the profile starts at its first point. |
| PsuPanel.Panel.RunProfile | MK1_AWE/gui/widgets/psu_panel.py:579-727 | a started profile whose steps all succeed commands each point's current once, in order, waiting the time difference between consecutive points, and ends at the last point's current |
| PsuPanel.Panel.StopAll | MK1_AWE/gui/widgets/psu_panel.py:729-763 | cancels a running profile, else a running ramp; otherwise gen3 calls safe_shutdown and other modes stop, zeroing the set-point and clearing the inputs; a failing stop only shows an error |
| PsuPanel.Panel.ProgressDisplay | MK1_AWE/gui/widgets/psu_panel.py:337-382 | nothing is shown when no operation runs or no start time is set; a shown percentage is at most 100 (non-negative for a ramp) and the clock is the remaining time split as in Hms |
| MainWindow.WentOffline | MK1_AWE/gui/main_window.py:140-147 | the disconnect list is never longer than the device list |
| MainWindow.WentOfflineMembers | MK1_AWE/gui/main_window.py:143-147 | a device is in the disconnect list iff it is one of the checked devices, was online before and is not online now (a missing entry counts as offline) |
| MainWindow.WentOfflineAppend | MK1_AWE/gui/main_window.py:143-147 | the disconnect list keeps the device order: checking a + b lists a's disconnections, then b's |
| MainWindow.NothingWentOffline | MK1_AWE/gui/main_window.py:143-150 | when every device online before is still online, nothing is reported |
| MainWindow.SameReportNoneOffline | MK1_AWE/gui/main_window.py:143-147 | comparing a status report with itself finds nothing offline |
| MainWindow.AlertActions | MK1_AWE/gui/main_window.py:135-152 | an update raises at most one alert. See also lines 99-101. |
| MainWindow.AlertWhenSomethingWentOffline | MK1_AWE/gui/main_window.py:135-152 | an update raises an alert exactly when it is not during shutdown, a previous report exists and some device went from online to offline. See also lines 99-101. |
| MainWindow.Window.constructor | MK1_AWE/gui/main_window.py:22-29 | a new window has initialised no device, holds no previous report and is not shutting down |
| MainWindow.Window.CheckForDisconnections | MK1_AWE/gui/main_window.py:135-153 | no alert on the first report; otherwise the devices that went offline, in the fixed device order, and one alert when there are any |
| MainWindow.Window.UpdateRelays | MK1_AWE/gui/main_window.py:103-112 | the relay module counts as initialised exactly while it is online; all relays are switched off on its first connection only |
| MainWindow.Window.UpdateBgas | MK1_AWE/gui/main_window.py:114-126 | the gas analysers count as initialised exactly while any of the three is online; normal mode is set on the first such connection only |
| MainWindow.Window.UpdateControlAvailability | MK1_AWE/gui/main_window.py:97-133 | the disconnect check (skipped during shutdown), then relays and gas analysers as above; no other device's initialisation changes and the report is kept for the next comparison |
| MainWindow.Window.CloseEvent | MK1_AWE/gui/main_window.py:202-236 | marks the window as shutting down, then switches relays off and gas analysers to normal mode exactly when each was initialised |
| MainWindow.RepeatedReport | MK1_AWE/gui/main_window.py:97-133 | a report repeated unchanged makes no safe-state call and raises no alert; it only re-announces availability |
| RelayPanel.Cell | MK1_AWE/gui/widgets/relay_panel.py:95-96 | the idx-th button sits in column idx mod 4 of row idx div 4, so that row * 4 + column == idx |
| RelayPanel.CellsDistinct | MK1_AWE/gui/widgets/relay_panel.py:93-96 | no two buttons share a grid cell |
| RelayPanel.SlotOverride | MK1_AWE/gui/widgets/relay_panel.py:29-31 | the merged relay table lists every relay of either slot once, and a relay in slot 3 takes slot 3's entry while any other keeps slot 2's |
| RelayPanel.ButtonFor | MK1_AWE/gui/widgets/relay_panel.py:94-107 | the button for a relay carries its id and name, is checkable, disabled and unchecked, and sits in its own cell |
| RelayPanel.ButtonsFor | MK1_AWE/gui/widgets/relay_panel.py:94-107 | one button per relay entry |
| RelayPanel.Layout | MK1_AWE/gui/widgets/relay_panel.py:84-110 | the panel's buttons are in ascending, distinct relay-id order, cover exactly the relays of both slots, each in a cell of its own, all checkable and disabled. See also lines 29-31. |
| RelayPanel.Panel.constructor | MK1_AWE/gui/widgets/relay_panel.py:17-39 | a new panel holds the buttons of both slots' relays sorted by id and has called no relay |
| RelayPanel.Panel.SetHardwareAvailable | MK1_AWE/gui/widgets/relay_panel.py:112-115 | every button's enabled flag becomes the module's availability; nothing else about the buttons changes |
| RelayPanel.Panel.SetAllOff | MK1_AWE/gui/widgets/relay_panel.py:117-125 | calls set_all_relays(False); the buttons are all unchecked only when that call returns, and keep their state when it raises |
| RelayPanel.Panel.Click | MK1_AWE/gui/widgets/relay_panel.py:135-140 | a click on a disabled button does nothing; on an enabled one it toggles the button and sets that relay to the new state. See also lines 98-104. |
| RelayPanel.OfflineIgnoresClicks | MK1_AWE/gui/widgets/relay_panel.py:135-140 | once the relay module is reported offline, no click reaches a relay. See also lines 112-115. |
| NiCdaqTest.ScaleEnds | tests/test_ni_cdaq_hardware.py:181 | the calibrated scaling maps 3.9 mA to the range minimum and 20 mA to the range maximum |
| NiCdaqTest.ScaleInRange | tests/test_ni_cdaq_hardware.py:181 | between 3.9 and 20 mA the scaled value stays within the range and grows with the current. See also line 380. |
| NiCdaqTest.Classify | tests/test_ni_cdaq_hardware.py:168-181 | the four bands are exactly below 3.5 mA (disconnected, 0), 3.5 up to 3.9 mA (low signal, 0), above 20.5 mA (high signal, range maximum), and otherwise OK with the calibrated scaling |
| NiCdaqTest.Monitor | tests/test_ni_cdaq_hardware.py:376-383 | the monitoring loop converts a reading iff it lies from 3.9 to 20.0 mA, with the calibrated scaling |
| NiCdaqTest.MonitorWithinClassify | tests/test_ni_cdaq_hardware.py:168-181 | every monitored value is also an OK reading of the analog input test with the same value, and lies within the range. See also lines 376-383. |
| NiCdaqTest.Average | tests/test_ni_cdaq_hardware.py:162 | the average exists iff the channel has samples, and then times the sample count gives the sum. See also line 372. |
| NiCdaqTest.Deinterleaved | tests/test_ni_cdaq_hardware.py:351-360 | de-interleaving yields one list per channel |
| NiCdaqTest.SingleChannel | tests/test_ni_cdaq_hardware.py:352-354 | with one channel, that channel receives every sample in order |
| NiCdaqTest.TotalLengthSnoc | tests/test_ni_cdaq_hardware.py:357-360 | one more sample lands in exactly one channel, the one its index selects |
| NiCdaqTest.TotalPreserved | tests/test_ni_cdaq_hardware.py:351-360 | de-interleaving neither loses nor invents samples |
| NiCdaqTest.Slot | tests/test_ni_cdaq_hardware.py:357-360 | a sample's channel is always one of the n channels |
| NiCdaqTest.SlotIsMod | tests/test_ni_cdaq_hardware.py:357-360 | sample k goes to channel k mod n |
| NiCdaqTest.Deinterleave | tests/test_ni_cdaq_hardware.py:349-360 | a non-empty flat list is split round-robin across the channels, a short last row filling only its first channels; zero channels fails |
| NiCdaqTest.DealRow | tests/test_ni_cdaq_hardware.py:358-360 | one row deals samples i to i+n-1, those that exist, one to each channel in turn |
| NiCdaqTest.ActuatorIndex | tests/test_ni_cdaq_hardware.py:387 | the active actuator is int(elapsed / 2) mod n, always a valid index; with no actuators the modulo fails. See also line 336. |
| NiCdaqTest.NextActuator | tests/test_ni_cdaq_hardware.py:387-399 | two seconds later the next actuator in cyclic order is active |
| ExportDialog.YearField | MK1_AWE/gui/widgets/export_dialog.py:177 | a year field that parses is at most 9999 |
| ExportDialog.SmallField | MK1_AWE/gui/widgets/export_dialog.py:177 | a month, hour, minute or second field that parses lies within that field's bounds |
| ExportDialog.DayField | MK1_AWE/gui/widgets/export_dialog.py:177 | a day field that parses lies in 1..31 |
| ExportDialog.ParseDateTime | MK1_AWE/gui/widgets/export_dialog.py:173-186 | whatever parses as YYYY-MM-DD_HH_MM_SS is a valid calendar date and time; every other text is rejected |
| ExportDialog.ParseFormat | MK1_AWE/gui/widgets/export_dialog.py:177 | every valid time printed in the dialog's format parses back to itself. See also lines 51 and 59. |
| ExportDialog.ValidationOrder | MK1_AWE/gui/widgets/export_dialog.py:129-159 | the checks run in order (empty name, bad start, bad end, start not before end), and each error happens exactly when the earlier checks pass and that one fails; success carries the stripped name and two valid times, start before end |
| ExportDialog.DefaultsPass | MK1_AWE/gui/widgets/export_dialog.py:43-59 | the dialog's defaults (the default name and two valid times in order) pass every check |
| ExportDialog.Rewritten | MK1_AWE/gui/widgets/export_dialog.py:198-209 | the rewritten config has as many lines as the original |
| ExportDialog.UpdateTestConfig | MK1_AWE/gui/widgets/export_dialog.py:188-213 | the loop replaces each line in place with its rewrite |
| ExportDialog.ReadDateLine | MK1_AWE/gui/widgets/export_dialog.py:201-209 | a line reads back as a date call only when it starts with that call's head |
| ExportDialog.DateLineFields | MK1_AWE/gui/widgets/export_dialog.py:203-209 | a written START_TIME or STOP_TIME line passes exactly the six fields of the parsed time |
| ExportDialog.UtcLinesKept | MK1_AWE/gui/widgets/export_dialog.py:199-209 | the START_TIME_UTC and STOP_TIME_UTC lines are never rewritten |
| ExportDialog.RewriteIdempotent | MK1_AWE/gui/widgets/export_dialog.py:198-209 | rewriting a line twice with the same request gives the same line as rewriting it once |
| ExportDialog.RewrittenTimes | MK1_AWE/gui/widgets/export_dialog.py:198-209 | after the rewrite, each START_TIME line names the request's start and each STOP_TIME line its end |
| ExportDialog.Dialog.constructor | MK1_AWE/gui/widgets/export_dialog.py:18-83 | a new dialog holds the config, has shown no error and is not accepted |
| ExportDialog.Dialog.OnExportClicked | MK1_AWE/gui/widgets/export_dialog.py:129-171 | a failed check shows its error and writes nothing; a failed config update shows the update error; otherwise the config is rewritten and the dialog accepted |
| StandaloneScripts.DownsampleWindow | MK1_AWE/data/generate_standalone_scripts.py:39 | the window string exists iff the rate is non-zero (a zero rate raises ZeroDivisionError) |
| StandaloneScripts.WindowSpec | MK1_AWE/data/generate_standalone_scripts.py:39 | for a positive rate the window is w ms exactly when w is the largest whole number of milliseconds that fits rate times in a second |
| StandaloneScripts.DefaultWindow | MK1_AWE/data/generate_standalone_scripts.py:39 | the 10 Hz export rate gives "100ms" |
| StandaloneScripts.StrideSpec | MK1_AWE/data/generate_standalone_scripts.py:456 | every step-th row from row 0: the i-th kept row is row i * step, and the kept rows are exactly those needed to cover the frame |
| StandaloneScripts.DecimateSpec | MK1_AWE/data/generate_standalone_scripts.py:451-456 | at most max_points rows come back unchanged; otherwise the i-th row kept is row i * (len div max_points), in order from row 0 |
| StandaloneScripts.DecimateOvershoots | MK1_AWE/data/generate_standalone_scripts.py:451-456 | with 19 rows and max_points 10 the step is 1 and all 19 rows are plotted, more than max_points |
| StandaloneScripts.DecimateBoundedSpec | MK1_AWE/data/generate_standalone_scripts.py:451-456 | with the step rounded up, never more than max_points rows are kept, each at its multiple of the step, and short frames come back unchanged |
| StandaloneScripts.EntryLines | MK1_AWE/data/generate_standalone_scripts.py:45-51 | one line per key, in the dict's order. See also lines 393-401. |
| StandaloneScripts.DictShape | MK1_AWE/data/generate_standalone_scripts.py:44-53 | the literal is "{", then one newline-led line per entry, then the closing brace at the dict's own indentation. See also lines 392-403. |
| StandaloneScripts.IntRound | MK1_AWE/data/generate_standalone_scripts.py:50-51 | a printed integer followed by a non-digit reads back as that integer. See also lines 400-401. |
| StandaloneScripts.StringBodyRound | MK1_AWE/data/generate_standalone_scripts.py:48-49 | a quoted string body without backslashes or newlines (and, in the unescaped variant, without quotes) reads back up to its closing quote. See also lines 396-399. |
| StandaloneScripts.StrRound | MK1_AWE/data/generate_standalone_scripts.py:48-49 | a string value printed in single quotes reads back as the same string. See also lines 396-399. |
| StandaloneScripts.ValueRound | MK1_AWE/data/generate_standalone_scripts.py:45-51 | a printed value of any kind, followed by its comma, reads back as the same value. See also lines 393-401. |
| StandaloneScripts.EntriesRound | MK1_AWE/data/generate_standalone_scripts.py:45-53 | the entry lines from any position on, followed by the closing brace, read back as the same entries in the same order. See also lines 393-403. |
| StandaloneScripts.DictRound | MK1_AWE/data/generate_standalone_scripts.py:42-55 | round trip: a printable dict written out by dict_to_python reads back as a Python literal equal to it, entries in the same order. See also lines 390-405. |
| StandaloneScripts.ExportQuoteBreaks | MK1_AWE/data/generate_standalone_scripts.py:48-49 | the export variant writes a string holding a quote so that it no longer reads back as that string |
| StandaloneScripts.PlotQuoteKept | MK1_AWE/data/generate_standalone_scripts.py:396-399 | the plot variant escapes the quote, so the same string reads back intact |
| TestInfo.Ids | MK1_AWE/data/generate_test_info.py:109 | n channel ids are generated. See also lines 133 and 171. |
| TestInfo.IdsNumbered | MK1_AWE/data/generate_test_info.py:109 | the i-th id is the prefix followed by i + 1 in two digits, so the ids are distinct and in numeric order. See also lines 133 and 171. |
| TestInfo.Cat | MK1_AWE/data/generate_test_info.py:57-214 | the report's sections run in order: the first exception ends the report, otherwise their lines follow one another |
| TestInfo.TimeTextNone | MK1_AWE/data/generate_test_info.py:53-54 | an export time renders as "Not exported" exactly when it is None |
| TestInfo.Header | MK1_AWE/data/generate_test_info.py:59-75 | the title and metadata table are 14 lines |
| TestInfo.Exports | MK1_AWE/data/generate_test_info.py:77-84 | the export-timestamp section is 7 lines |
| TestInfo.ExportRows | MK1_AWE/data/generate_test_info.py:82-83 | the CSV and plot export rows are the row head, the time text and a closing bar |
| TestInfo.RateCellSpec | MK1_AWE/data/generate_test_info.py:94-98 | a native rate above the export maximum is shown as "<max> Hz (downsampled)", any other as "<native> Hz"; a missing or non-numeric rate raises TypeError |
| TestInfo.RateRows | MK1_AWE/data/generate_test_info.py:93-99 | one sample-rate row per bridge |
| PyValues.StrRepr | MK1_AWE/data/generate_test_info.py:123 | A string inside a list or dict value printed into the report is quoted as Python's repr quotes it: in double quotes exactly when it holds a single quote and no double quote, else in single quotes; text with no quote, backslash or control character appears unchanged between the quotes. |
| TestInfo.AiRowSpec | MK1_AWE/data/generate_test_info.py:110-123 | an analog input configured by a dict shows its range with defaults 0 and 100; a non-dict config shows range '-' and its own text, or the channel id when it is falsy |
| TestInfo.AiRows | MK1_AWE/data/generate_test_info.py:103-123 | exactly 16 analog input rows |
| TestInfo.AiRowsSpec | MK1_AWE/data/generate_test_info.py:108-123 | the rows are AI01 to AI16 in order; an unlisted channel shows its id as label and the default range; a non-dict section raises |
| TestInfo.LabelRows | MK1_AWE/data/generate_test_info.py:132-135 | one row per channel id. See also lines 170-173. |
| TestInfo.LabelRowsSpec | MK1_AWE/data/generate_test_info.py:132-135 | a listed thermocouple or relay shows its label, an unlisted one its id. See also lines 170-173. |
| TestInfo.GasCellSpec | MK1_AWE/data/generate_test_info.py:155-157 | a gas column translates the CAS number through gas_reference, falls back to the raw value, and shows '-' when the gas is absent |
| TestInfo.BgaRowDefault | MK1_AWE/data/generate_test_info.py:150-161 | an analyser without an entry shows its id and a dash for each gas |
| TestInfo.BgaRows | MK1_AWE/data/generate_test_info.py:149-161 | one row per analyser id |
| TestInfo.DeviceBlock | MK1_AWE/data/generate_test_info.py:183-206 | a device block is written exactly when the device's entry is truthy, as its title plus one line per field and a blank line; a truthy non-dict entry raises |
| TestInfo.ReportCsvRow | MK1_AWE/data/generate_test_info.py:53-54 | the CSV and plot export rows sit at fixed positions of the report, and a new CSV export time changes only the CSV row. See also lines 82-83. |
| TestInfo.Find | MK1_AWE/data/generate_test_info.py:240-244 | a found position is one where the row head occurs |
| TestInfo.LastBar | MK1_AWE/data/generate_test_info.py:240-244 | a found position is one where the closing bar (a space and a bar) occurs, as the greedy match's end |
| TestInfo.UpdateExportTimestamp | MK1_AWE/data/generate_test_info.py:223-254 | a missing file stays missing, and an unknown export type writes the text back unchanged |
| TestInfo.SubRow | MK1_AWE/data/generate_test_info.py:240-251 | a generated export row gets exactly its value cell replaced |
| TestInfo.SubOther | MK1_AWE/data/generate_test_info.py:240-251 | a line without the row head is left unchanged |
| TestInfo.SubAllLines | MK1_AWE/data/generate_test_info.py:240-251 | on a multi-line text the substitution acts line by line, since the pattern never crosses a newline |
| TestInfo.UpdateRow | MK1_AWE/data/generate_test_info.py:240-251 | when only row k carries the head, rewriting the text rewrites row k alone and leaves every other line unchanged |
| TestInfo.UpdateMatchesRegenerate | MK1_AWE/data/generate_test_info.py:223-254 | updating the CSV time of a generated report gives the report generated with that CSV time, provided no other line contains the CSV row head. See also lines 53 and 82. |
| ExportCsv.OrFilterCons | MK1_AWE/data/export_csv.py:56 | A filter of two or more values is the first value's clause, " or ", then the filter of the rest: the join over the list comprehension. |
| ExportCsv.FilterNamesValues | MK1_AWE/data/export_csv.py:56 | Reading back the text between the double quotes of `' or '.join(...)` gives the channel list, in order, when no name holds a double quote. |
| ExportCsv.SensorQuerySpec | MK1_AWE/data/export_csv.py:54-76 | The channel-tag query (filter on the field, pivot on "channel") is chosen exactly when use_channel_tag is set and field_name is non-empty; otherwise the query filters on `r._field` and pivots on "_field". Either filter names exactly the channels, in order. |
| ExportCsv.KeptMembers | MK1_AWE/data/export_csv.py:88 | A column is kept exactly when it is one of the result's columns and one of the channels. |
| ExportCsv.KeptEmbeds | MK1_AWE/data/export_csv.py:88 | The kept columns keep the result's column order (they are a subsequence of it). |
| ExportCsv.KeptAll | MK1_AWE/data/export_csv.py:88 | When every result column is a channel, all of them are kept. |
| ExportCsv.KeepColsSpec | MK1_AWE/data/export_csv.py:88 | keep_cols is "_time" followed by exactly the result columns that are channels, in result order. |
| ExportCsv.Contains | MK1_AWE/data/export_csv.py:107-112 | `col in section`: membership among a mapping's keys (a list's items, a string's substrings); anything else raises TypeError. |
| ExportCsv.BuildRenameMap | MK1_AWE/data/export_csv.py:101-114 | The loop over the columns gives the same map, or the same exception, as the rename-map definition. |
| ExportCsv.RenameMapOk | MK1_AWE/data/export_csv.py:101-114 | The rename map is built without an exception exactly when every column other than "timestamp" finds its label without one. |
| ExportCsv.RenameMapContents | MK1_AWE/data/export_csv.py:101-114 | A built rename map never holds "timestamp"; it holds exactly the labelled columns, each mapped to its label. |
| ExportCsv.RenameMapErr | MK1_AWE/data/export_csv.py:101-114 | Once a column's lookup raises, the whole map raises that exception. |
| ExportCsv.RenameMapSpec | MK1_AWE/data/export_csv.py:101-114 | Both halves together: when the map succeeds, and what it then holds. |
| ExportCsv.LabelPriority | MK1_AWE/data/export_csv.py:107-114 | Label sources in priority order: an analog-input entry (its "label", defaulting to the column name, or a non-dict entry as it is); then a thermocouple entry as it is; then a BGA entry like an analog input's; otherwise no rename. |
| ExportCsv.ReplaceSpaces | MK1_AWE/data/export_csv.py:191 | `replace(' ', '_')` leaves no space and keeps the length. |
| ExportCsv.BgaFileSpec | MK1_AWE/data/export_csv.py:189-191 | Naming a BGA file fails exactly when the BGA labels are not a mapping or the label is not a string. A BGA without a dict entry gets `<date>_BGA_<id>.csv`. Every name formed is `<date>_BGA_<stem>.csv` with a space-free stem. |
| ExportCsv.ExportBgaData | MK1_AWE/data/export_csv.py:148-200 | The loop over the BGAs writes the same files, and stops at the same exception, as the BgaExports definition. |
| ExportCsv.BgaExportsOk | MK1_AWE/data/export_csv.py:148-200 | The BGA export finishes without an exception exactly when every BGA with rows can be named. |
| ExportCsv.BgaExportsFiles | MK1_AWE/data/export_csv.py:166-168 | Without an exception, one file is written per BGA with rows, in order, each under its BgaFile name; BGAs without rows are skipped. See also lines 189-191. |
| ExportCsv.BgaExportsSpec | MK1_AWE/data/export_csv.py:148-200 | Both halves together: when the loop completes, and which files it writes. |
| ExportCsv.ExportGroupFails | MK1_AWE/data/export_csv.py:97-117 | An empty result writes nothing. A group with rows fails exactly when labels are used and some kept column's label lookup raises. See also lines 83-85 and 129-133. |
| ExportCsv.ExportGroupHeader | MK1_AWE/data/export_csv.py:88-122 | A written group goes to `<date>_<suffix>.csv`. Its header is "timestamp", then each kept channel in result order, under its label when labels are used and it has one. |
| ExportCsv.OutputFileInjective | MK1_AWE/data/export_csv.py:120 | `<date>_<suffix>.csv` determines the suffix. |
| ExportCsv.DistinctFiles | MK1_AWE/data/export_csv.py:120 | Distinct suffixes give distinct file names. |
| ExportCsv.ExportPlanFiles | MK1_AWE/data/export_csv.py:238-268 | The five sensor groups that export_data exports (AIX, AIX_converted, TC, RL, PSU) write five different files. |
| ExportCsv.ChannelNames | MK1_AWE/data/export_csv.py:240-265 | No exported channel or field name holds a double quote, so every filter reads back as its channel list. |
| ExportCsv.IdsAreNumbered | MK1_AWE/data/export_csv.py:240 | `f"{prefix}{i:02d}"` for i from 1: each id is the prefix followed by two digits that read back as its position plus one. |
| ExportCsv.ChannelLists | MK1_AWE/data/export_csv.py:240-257 | AI01..AI16, TC01..TC08 and RL01..RL16: their lengths and their zero-padded numbering. |
| PlotData.ShadingRuns | MK1_AWE/data/plot_data.py:43-60 | The run-by-run loop over the rows gives exactly the periods that the Periods definition gives. |
| PlotData.PeriodsCount | MK1_AWE/data/plot_data.py:45-49 | There is one period per maximal run: as many as there are flagged rows that follow an unflagged row or start the table. |
| PlotData.PeriodsCover | MK1_AWE/data/plot_data.py:45-49 | Each period has start <= end (min <= max), and every flagged row's timestamp lies inside a period. |
| PlotData.PeriodsSorted | MK1_AWE/data/plot_data.py:45-49 | With increasing timestamps: periods lie within the table's time span, are disjoint and in order, and no unflagged row's timestamp lies inside any of them. |
| PlotData.ShadingSpec | MK1_AWE/data/plot_data.py:30-62 | The shading periods are the maximal runs of flagged rows. There is one per run, each with start <= end, and none exactly when no row is flagged. Every flagged row is covered. With increasing timestamps the periods are ordered and disjoint and cover no unflagged row. |
| PlotData.FlagRows | MK1_AWE/data/plot_data.py:44-55 | A row is flagged by secondary_gas == '7727-37-9' (purge) or current > 1.0 (active); an empty cell is never flagged. One row per timestamp. |
| PlotData.DatePrefixOfTestDir | MK1_AWE/data/plot_data.py:32 | `name.split('_')[0]` of the export's `<date>_<test name>` directory gives the date back when the date has no '_'. |
| PlotData.GetShadingPeriods | MK1_AWE/data/plot_data.py:30-62 | A missing file or column gives no periods of that kind; otherwise purge periods come from the BGA file's secondary_gas column and active periods from the PSU file's current column. |
| PlotData.LabelledPurgeLost | MK1_AWE/data/plot_data.py:34 | As written: with BGA01 labelled "H2", the export writes `<date>_BGA_H2.csv`, the plot reads `<date>_BGA_BGA01.csv`, and an exported purge draws no period. |
| PlotData.ExportedPurgeShaded | MK1_AWE/data/export_csv.py:189-191 | Corrected: the purge periods are those of the file the export wrote for BGA01, whatever its label. |
| PlotData.FirstMax | MK1_AWE/data/plot_data.py:24 | `max(..., key=mtime)` returns an entry whose mtime no other entry exceeds, and the first such entry. |
| PlotData.CandidatesSpec | MK1_AWE/data/plot_data.py:21 | The candidates are exactly the entries that are directories and whose name does not start with '.'. |
| PlotData.LatestTestDirSpec | MK1_AWE/data/plot_data.py:18-24 | FileNotFoundError exactly when no entry is a non-hidden directory. Otherwise the result is a non-hidden directory with the greatest mtime. |
| PlotData.MaxOf | MK1_AWE/data/plot_data.py:95 | `df[col].max()` skips empty cells. It is None exactly when the column holds no number; otherwise it is one of the numbers and no number exceeds it. |
| PlotData.AnyBetween | MK1_AWE/data/plot_data.py:149-150 | `((v > -200) & (v < 1500)).any()` holds exactly when some number lies strictly between the bounds. |
| PlotData.MaxAboveOneSpec | MK1_AWE/data/plot_data.py:95 | An AI column is drawn exactly when some reading exceeds 1 mA. |
| PlotData.SelectedSpec | MK1_AWE/data/plot_data.py:145-152 | The drawn channels are exactly the listed channels present in the file that pass the plot's rule, in list order. See also lines 93-97 and 462-465. |
| PlotData.PlotAnalogInputs | MK1_AWE/data/plot_data.py:76-123 | The loop over AI01..AI16 draws the selected channels. The plot is saved exactly when at least one channel is drawn; a missing file draws nothing. |
| PlotData.BgaSeriesSpec | MK1_AWE/data/plot_data.py:155-164 | A BGA is drawn exactly when its file exists and has the plotted column. See also lines 209-218. |
| PlotData.TemperatureSeriesSpec | MK1_AWE/data/plot_data.py:140-164 | The temperature plot draws the thermocouples with some reading strictly between -200 and 1500, then each BGA whose file has a temperature column. |
| PlotData.SavedSpec | MK1_AWE/data/plot_data.py:166-169 | A plot file is written exactly when that plot draws at least one series. See also lines 99-102 and 467-470. |
| PlotData.AnalogInputsDrawn | MK1_AWE/data/plot_data.py:92-102 | The analog-input plot draws something exactly when some AI column has a reading above 1 mA. |
| PlotData.LabelledBgaNotPlotted | MK1_AWE/data/plot_data.py:130 | As written: with BGA01 labelled "H2", the export writes only `<date>_BGA_H2.csv`, and BGA01 is missing from the temperature and purity plots, which read `<date>_BGA_BGA01.csv`. Corrected, both plots draw it. See also line 197. |
| PlotData.ExportedPurityPlotted | MK1_AWE/data/plot_data.py:194-252 | Corrected: both purity plots draw exactly the BGAs whose file, as the export names it by label, has a purity column. |
| PlotData.PlotsSpec | MK1_AWE/data/plot_data.py:721-732 | Of the nine plots, analog_inputs is saved exactly when the AIX file has an AI column reading above 1 mA. Both purity plots, titled 'Gas Purity' and 'Gas Purity (Detail)', draw exactly the BGAs whose table has a purity column. This holds whichever BGA tables the plots are given: as written (files named by id) or corrected (files named by label). |

## Left out

- Vendor and device I/O is not modelled: nidaqmx tasks, pyserial, minimalmodbus framing, the Pico TC-08 DLL, the InfluxDB client, `requests` and the Flask or `http.server` plumbing. Their answers are parameters of the methods that use them, and their calls are entries in effect or call logs.
- Concurrency is not modelled: reader threads, the data, command and PSU locks, daemon loops, reconnect sleeps and `time.time_ns`. One loop iteration, one timer tick or one HTTP request is one sequential method call.
- QTimer scheduling is recorded as a `Schedule(delay)` effect, and the timer firing is a later call of the step method. Qt layout, styling, dialogs and signals are not modelled beyond the enabled, checked and text state of the controls.
- Floating point is not modelled: values are exact reals. `float()` is modelled on the decimal grammar (optional sign, digits, optional fraction, and an exponent where the source parses one); inf, nan, underscores and surrounding whitespace are left out.
- Formatting with `:.1f`, `:.2f`, `:.3f` and similar is modelled as rounding half to even on the exact real. Python's shortest round-trip `repr` of a float is a parameter (`fr`) wherever str() of a float appears.
- The IEEE truncation in `int(voltage / 0.1)` (MK1_AWE/hdw/psu_http.py:74-76) is modelled as truncation of the exact quotient, so a value such as 0.3 that floating point would turn into 2 tenths becomes 3 here.
- Time zones are not modelled: America/Los_Angeles conversions and DST (MK1_AWE/data/export_csv.py:92, MK1_AWE/gui/widgets/export_dialog.py:179). Datetimes are naive, second-precision wall-clock times, and two of them compare field by field.
- strptime is modelled for the one pattern the dialog uses, with ASCII digits only; Unicode digits are left out.
- The InfluxDB and pandas queries are not run. A query's result is the list of its column names, whether a BGA query found rows is a parameter, and a CSV file read back is a Table value. A missing `_time` column (a KeyError in pandas) is not modelled.
- Pandas NaN is modelled only as an empty cell. A text cell in the PSU current column counts as not active rather than raising.
- Plot drawing, axes, legends and styling are not modelled, nor is `add_shading` (MK1_AWE/data/plot_data.py:65-73). The model states which series each plot draws and whether it saves a file.
- The earlier definitions of `plot_pressures`, `plot_flowrates` and `plot_current` (MK1_AWE/data/plot_data.py:309, 351, 404) are left out: the later definitions override them and are the ones modelled.
- `load_sensor_labels` and `load_devices_config` are left out as file reads; their parsed documents are parameters.
- YAML parsing itself is left out: documents are parsed values (null, booleans, integers, floats, strings, lists, mappings). The Python-literal reader used for the round trip reads only dicts, single-quoted strings and integers.
- The Flux query template text is not modelled. `QueryText` renders a query, but the proved properties are about the filters, kept columns and renaming.
- The standalone scripts' template text is not modelled; only `dict_to_python`, the window string and the decimation rule are. Their `save_*` functions are file writes.
- StandaloneScripts.DictRound: the round trip is proved only for dicts whose values are dicts, strings or integers, whose keys hold no quote, backslash or newline, and whose strings hold no backslash or newline (and, for the export variant, no quote). Even the plot variant writes a string with a backslash in a form that does not read back, because only quotes are escaped.
- StandaloneScripts.DecimateSpec: requires max_points >= 1, since a zero max_points divides by zero in the source.
- TestInfo.UpdateMatchesRegenerate: is proved under the hypothesis that no line of the report other than the CSV row contains the CSV row head. A test name or label containing "| **CSV Export** | " would also be rewritten by the regular expression.
- The config helpers `get_rlm_endpoint`, `get_bga_ports` and `get_psu_config` (MK1_AWE/gui/config_loader.py:35-56, 90-97) are plain lookups into the loaded config and are left out. The psu_panel functions that call `get_psu_config` take its answer as a parameter.
- The `psu_client` module that psu_panel.py imports `set_current`, `stop`, `get_ramp_config` and `load_profile` from is not part of this model. Its calls are effects, and their answers (or whether they raised) are parameters.
- psu_rtu_client.py's module-level wrappers and the lazily created global client (MK1_AWE/gui/psu_rtu_client.py:190-225) are left out: they delegate to one `PSUClient`, and that class is modelled.
- `relay_panel.py`'s `set_psu_current` and `set_purge_valves` (MK1_AWE/gui/widgets/relay_panel.py:127-133) are left out: they only store a value or do nothing, and no relay behaviour depends on them.
- The structured-data branch of the cDAQ test's monitoring loop (tests/test_ni_cdaq_hardware.py:362-366) is left out. The source says it should not happen in continuous mode, and it only passes the driver's lists through.
- PicoTc08.Bridge.ReadOnce: the temperature each GetTemp call leaves in its buffer is a parameter. The source ignores GetTemp's return value, so a failed call that leaves the fresh, zeroed buffer untouched would pass the filter as 0.0 °C. The model does not distinguish that case.
- PsuPanel.Panel.CancelRamp: assumes that `stop()` returns; if it raised, the source would let the exception escape the handler.
- PsuPanel.Panel.CancelProfile: assumes the same of `stop()`.
- MainWindow.Window.UpdateControlAvailability: assumes that the gas-analyser panel's `set_hardware_available` accepts the two flags that MK1_AWE/gui/main_window.py:119 passes and returns. The panel declares one parameter (MK1_AWE/gui/widgets/bga_panel.py:93), so as written that call raises TypeError. Lines 121-133 are then never reached: no normal-mode call, no "BGA" bookkeeping and no stored `previous_status`, so the disconnect alert could never fire. The model describes the window as if the call returned.
- MainWindow.Window.UpdateBgas: makes the same assumption and records the two-flag call as a `BgasAvailable` action. Besides, MK1_AWE/gui/main_window.py:10 imports that panel from a file that does not parse, so as written the window cannot even be created.
- The export's DOWNSAMPLE_* settings: MK1_AWE/data/export_csv.py:26-30 imports them from MK1_AWE/data/test_config.py, which does not define them, so as written importing the export raises ImportError. The model takes the intervals as a `Windows` parameter of ExportCsv.Groups and describes the export as if they were defined.
- Bga1.Bridge.constructor, Bga3.Bridge.constructor, NiAnalog.Bridge.constructor: require a sample rate of at least 1 and a non-negative buffer length. A zero rate divides by zero in the sampling loop (MK1_AWE/hdw/BGA244_http_1.py:215, MK1_AWE/hdw/BGA244_http_3.py:125) or in the sample interval (MK1_AWE/hdw/ni_analog_http.py:208), and a negative `maxlen` makes `deque` raise ValueError; those start-up failures are not modelled.
- The constant tags of each InfluxDB point (`hardware` and `location`: bga244 and gen3_test_rig at MK1_AWE/hdw/BGA244_http_1.py:101-102, ni_cdaq and gen3_test_rig at MK1_AWE/hdw/ni_analog_http.py:115-116) are not fields of the Point values, since they never vary; the varying tags and fields are.
- PyValues.StrRepr: escapes quotes, backslashes and ASCII control characters as Python's repr does. Non-ASCII characters that Python counts as not printable (such as U+0085 or U+2028), which repr writes as `\x..`, `\u....` or `\U........`, are kept as they are.
- bga_panel.py is not part of this model: it does not parse. hw_status.py (hardware probes), app.py (Qt start-up), process_test.py (subprocess orchestration), the speed tests and ws_rs422_bga.py are not part of this model either.
- The bridges' `load_config`, `setup_influxdb`, `setup_dll` and `main` functions are start-up I/O and are left out. Their outcome (a write API present or not, a handle, the configured channels) enters the model as constructor or method parameters.

## Findings

| source | as written | input that shows it | evidently intended | confidence | as-written member | corrected member |
|---|---|---|---|---|---|---|
| MK1_AWE/data/generate_standalone_scripts.py:451-456 | the decimation step is the row count divided by max_points, rounded down, so up to almost twice max_points rows are kept | 19 rows with max_points 10: the step is 1 and all 19 rows are plotted | never more than max_points rows, with the step rounded up | medium, not executed | StandaloneScripts.DecimateOvershoots | StandaloneScripts.DecimateBoundedSpec |
| MK1_AWE/data/generate_standalone_scripts.py:48-49 | the export script's `dict_to_python` puts string values in single quotes without escaping quotes in them, unlike the plot script's variant at lines 396-399 | a sensor label consisting of a single quote character: the embedded literal no longer reads back as that label | escape the quote as the plot variant does | high, not executed | StandaloneScripts.ExportQuoteBreaks | StandaloneScripts.PlotQuoteKept |
| MK1_AWE/data/plot_data.py:34 | the purge shading reads BGA01's file as `<date>_BGA_BGA01.csv`, while the export names it by BGA01's label (MK1_AWE/data/export_csv.py:189-191) | BGA01 labelled "H2": the export writes `<date>_BGA_H2.csv` and a purging table there gives no purge period | read the file the export wrote, named by the label, as the standalone plot script does (MK1_AWE/data/generate_standalone_scripts.py:463-466) | high, not executed | PlotData.LabelledPurgeLost | PlotData.ExportedPurgeShaded |
| MK1_AWE/data/plot_data.py:130 | the temperature plot reads the BGA files as `<date>_BGA_BGA0i.csv`, and the purity plots do the same at line 197, while the export names each file by the BGA's label (MK1_AWE/data/export_csv.py:189-191) | BGA01 labelled "H2" with purity and temperature readings in `<date>_BGA_H2.csv`: BGA01 is drawn in neither plot | read the files the export wrote, named by label | high, not executed | PlotData.LabelledBgaNotPlotted | PlotData.ExportedPurityPlotted |
