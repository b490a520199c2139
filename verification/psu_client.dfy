// The GUI-side PSU client (gui/psu_rtu_client.py): the voltage/current safety
// rule applied before any command leaves the GUI, the commands it posts to the
// bridge, and the parser for the bridge's /metrics text. HTTP answers are
// parameters: `Reply(status, body)` or `NoReply` for a timeout or refused connection.

module PsuClient {
  import opened Wrappers
  import opened Text
  import opened Json
  import PsuBridge

  const VoltageMin: real := 100.0
  const VoltageMax: real := 900.0
  const CurrentMin: real := 1.0
  const CurrentMax: real := 100.0

  /** What one set_voltage_current call commands: volts, amps and the output switch. */
  datatype Setpoint = Setpoint(voltage: real, current: real, enable: int)

  const SafeState: Setpoint := Setpoint(0.0, 0.0, 0)

  /**
   * The safety rule: below either minimum the supply goes to the safe state;
   * otherwise each value is clamped to its maximum and the output is switched on.
   */
  function Limit(voltage: real, current: real): (s: Setpoint)
    ensures s.enable == 1 <==> voltage >= VoltageMin && current >= CurrentMin
    ensures s.enable != 1 ==> s == SafeState
    ensures s.enable == 1 ==>
      VoltageMin <= s.voltage <= VoltageMax && CurrentMin <= s.current <= CurrentMax
    ensures s.enable == 1 ==>
      (voltage <= VoltageMax ==> s.voltage == voltage) && (voltage > VoltageMax ==> s.voltage == VoltageMax)
    ensures s.enable == 1 ==>
      (current <= CurrentMax ==> s.current == current) && (current > CurrentMax ==> s.current == CurrentMax)
  {
    if voltage < VoltageMin || current < CurrentMin then SafeState
    else Setpoint(if voltage < VoltageMax then voltage else VoltageMax,
                  if current < CurrentMax then current else CurrentMax, 1)
  }

  /** Applying the rule to its own output changes nothing. */
  lemma LimitIdempotent(voltage: real, current: real)
    ensures var s := Limit(voltage, current); Limit(s.voltage, s.current) == s
  {
  }

  /** An HTTP exchange with the bridge: the answer, or none (timeout, refused connection). */
  datatype Reply = Reply(status: nat, body: string) | NoReply

  /** _send_command: True exactly for a 200 answer. */
  predicate Delivered(reply: Reply) {
    reply.Reply? && reply.status == 200
  }

  /** The JSON body of a set_voltage_current command. */
  function SetpointPayload(s: Setpoint): Json {
    JObj(map["type" := JStr("set_voltage_current"), "voltage" := JNum(s.voltage),
             "current" := JNum(s.current), "enable" := JInt(s.enable)])
  }

  /** What a command call posted and what it returned. */
  datatype Sent = Sent(payload: Json, ok: bool)

  /** set_voltage_current: the limited set-point is what is posted. */
  function SetVoltageCurrent(voltage: real, current: real, reply: Reply): (r: Sent)
    ensures r.ok <==> Delivered(reply)
    ensures r.payload == SetpointPayload(Limit(voltage, current))
  {
    Sent(SetpointPayload(Limit(voltage, current)), Delivered(reply))
  }

  /** safe_shutdown. */
  function SafeShutdown(reply: Reply): (r: Sent)
    ensures r.payload == SetpointPayload(SafeState) && (r.ok <==> Delivered(reply))
  {
    SetVoltageCurrent(0.0, 0.0, reply)
  }

  function EnableOutput(reply: Reply): (r: Sent)
    ensures r.payload == JObj(map["type" := JStr("enable")]) && (r.ok <==> Delivered(reply))
  {
    Sent(JObj(map["type" := JStr("enable")]), Delivered(reply))
  }

  function DisableOutput(reply: Reply): (r: Sent)
    ensures r.payload == JObj(map["type" := JStr("disable")]) && (r.ok <==> Delivered(reply))
  {
    Sent(JObj(map["type" := JStr("disable")]), Delivered(reply))
  }

  // ---------------------------------------------------------------- status parsing

  /** A status value: float(val) when it parses, else the raw text. */
  datatype FieldValue = Num(x: real) | Raw(text: string)

  function ValueOf(text: string): (v: FieldValue)
    ensures v.Num? <==> ParseReal(text).Some?
    ensures v.Raw? ==> v.text == text
  {
    match ParseReal(text)
    case Some(x) => Num(x)
    case None => Raw(text)
  }

  /** The key of a well-formed `key=val` field. */
  predicate WellFormed(field: string) {
    |Split(field, '=')| == 2
  }

  /**
   * The dictionary built from the comma-separated fields, left to right; a field that
   * does not split into exactly two parts on '=' raises, and the caller answers None.
   */
  function FieldsMap(fields: seq<string>): (m: Option<map<string, FieldValue>>)
    ensures m.Some? <==> forall i :: 0 <= i < |fields| ==> WellFormed(fields[i])
  {
    if fields == [] then Some(map[])
    else
      var last := fields[|fields| - 1];
      var kv := Split(last, '=');
      WellFormedSnoc(fields);
      match FieldsMap(fields[..|fields| - 1])
      case None => None
      case Some(m) => if |kv| != 2 then None else Some(m[kv[0] := ValueOf(kv[1])])
  }

  predicate AllWellFormed(fields: seq<string>) {
    forall i :: 0 <= i < |fields| ==> WellFormed(fields[i])
  }

  /** Every field is well formed exactly when those before the last are and the last is. */
  lemma WellFormedSnoc(fields: seq<string>)
    requires fields != []
    ensures AllWellFormed(fields) <==> AllWellFormed(fields[..|fields| - 1]) && WellFormed(fields[|fields| - 1])
  {
    var init := fields[..|fields| - 1];
    if AllWellFormed(init) && WellFormed(fields[|fields| - 1]) {
      forall i | 0 <= i < |fields| ensures WellFormed(fields[i]) {
        if i < |init| {
          assert init[i] == fields[i];
        }
      }
    }
  }

  /** _read_status on one answer of GET /metrics. */
  function StatusOf(reply: Reply): Option<map<string, FieldValue>> {
    if !Delivered(reply) then None
    else
      var text := Strip(reply.body);
      if text == [] || text[0] == '#' then None
      else
        var parts := Split(text, ' ');
        if |parts| < 2 then None else FieldsMap(Split(parts[1], ','))
  }

  /** _read_status as written: the dictionary is filled field by field in a loop. */
  method ReadStatus(reply: Reply) returns (data: Option<map<string, FieldValue>>)
    ensures data == StatusOf(reply)
    ensures Delivered(reply) && (Strip(reply.body) == [] || Strip(reply.body)[0] == '#') ==> data.None?
  {
    if !Delivered(reply) {
      return None;
    }
    var text := Strip(reply.body);
    if text == [] || text[0] == '#' {
      return None;
    }
    var parts := Split(text, ' ');
    if |parts| < 2 {
      return None;
    }
    var fields := Split(parts[1], ',');
    var m: map<string, FieldValue> := map[];
    for i := 0 to |fields|
      invariant FieldsMap(fields[..i]) == Some(m)
    {
      FieldsMapStep(fields, i);
      var kv := Split(fields[i], '=');
      if |kv| != 2 {
        return None;
      }
      m := m[kv[0] := ValueOf(kv[1])];
    }
    assert fields[..|fields|] == fields;
    data := Some(m);
  }

  /** The dictionary of one more field: its entry added, or None when it is malformed. */
  lemma FieldsMapStep(fields: seq<string>, i: nat)
    requires i < |fields|
    ensures var kv := Split(fields[i], '=');
      FieldsMap(fields[..i + 1]) ==
        match FieldsMap(fields[..i])
        case None => None
        case Some(m) => if |kv| != 2 then None else Some(m[kv[0] := ValueOf(kv[1])])
  {
    assert fields[..i + 1][..i] == fields[..i];
  }

  /** `data.get(name) if data else None`. */
  function Get(data: Option<map<string, FieldValue>>, name: string): (v: Option<FieldValue>)
    ensures v.Some? <==> data.Some? && data.value != map[] && name in data.value
  {
    if data.Some? && data.value != map[] && name in data.value then Some(data.value[name]) else None
  }

  function GetVoltage(statusReply: Reply): Option<FieldValue> { Get(StatusOf(statusReply), "voltage") }
  function GetCurrent(statusReply: Reply): Option<FieldValue> { Get(StatusOf(statusReply), "current") }
  function GetPower(statusReply: Reply): Option<FieldValue> { Get(StatusOf(statusReply), "power") }

  /**
   * `value or 0.0`: falsy values give 0.0 and a number is kept; a non-empty raw string
   * stays a string, which raises TypeError once the limit rule compares it with a float.
   */
  function OrZero(v: Option<FieldValue>): (r: Result<real, string>)
    ensures v.None? ==> r == Ok(0.0)
    ensures v.Some? && v.value.Num? ==> r == Ok(v.value.x)
    ensures r.Err? <==> v.Some? && v.value.Raw? && v.value.text != []
  {
    match v
    case None => Ok(0.0)
    case Some(Num(x)) => Ok(x)
    case Some(Raw(t)) => if t == [] then Ok(0.0) else Err("TypeError")
  }

  /** set_current: the last read voltage (or 0.0) with the new current. */
  function SetCurrent(current: real, statusReply: Reply, reply: Reply): (r: Result<Sent, string>)
    ensures r.Ok? ==> r.value.ok == Delivered(reply)
    ensures GetVoltage(statusReply).None? ==> r == Ok(SetVoltageCurrent(0.0, current, reply))
    ensures r.Err? <==> OrZero(GetVoltage(statusReply)).Err?
  {
    match OrZero(GetVoltage(statusReply))
    case Ok(v) => Ok(SetVoltageCurrent(v, current, reply))
    case Err(e) => Err(e)
  }

  /**
   * set_voltage: the last read current (or 0.0) with the new voltage. The limit rule
   * tests the voltage first, so a voltage under the minimum sends the safe state without
   * ever comparing the current, and only then can a raw current raise.
   */
  function SetVoltage(voltage: real, statusReply: Reply, reply: Reply): (r: Result<Sent, string>)
    ensures r.Ok? ==> r.value.ok == Delivered(reply)
    ensures GetCurrent(statusReply).None? ==> r == Ok(SetVoltageCurrent(voltage, 0.0, reply))
    ensures voltage < VoltageMin ==> r == Ok(Sent(SetpointPayload(SafeState), Delivered(reply)))
    ensures r.Err? <==> voltage >= VoltageMin && OrZero(GetCurrent(statusReply)).Err?
  {
    match OrZero(GetCurrent(statusReply))
    case Ok(i) => Ok(SetVoltageCurrent(voltage, i, reply))
    case Err(e) => if voltage < VoltageMin then Ok(SetVoltageCurrent(voltage, 0.0, reply)) else Err(e)
  }

  /** With no voltage available, set_current commands the safe state whatever the current. */
  lemma SetCurrentBlind(current: real, statusReply: Reply, reply: Reply)
    requires GetVoltage(statusReply).None?
    ensures SetCurrent(current, statusReply, reply) == Ok(Sent(SetpointPayload(SafeState), Delivered(reply)))
  {
  }

  /** With no current available, set_voltage commands the safe state whatever the voltage. */
  lemma SetVoltageBlind(voltage: real, statusReply: Reply, reply: Reply)
    requires GetCurrent(statusReply).None?
    ensures SetVoltage(voltage, statusReply, reply) == Ok(Sent(SetpointPayload(SafeState), Delivered(reply)))
  {
  }

  /**
   * is_device_online: the 'device_online' entry of a 200 answer of /health (False when
   * absent); any other status, no answer, or a body that is not a JSON object gives False.
   */
  function IsDeviceOnline(status: Option<nat>, body: Option<Json>): (online: Json)
    ensures status != Some(200) ==> online == JBool(false)
    ensures status == Some(200) && body.Some? && body.value.JObj? && "device_online" in body.value.fields ==>
      online == body.value.fields["device_online"]
  {
    if status != Some(200) || body.None? || !body.value.JObj? then JBool(false)
    else match Lookup(body.value, "device_online")
      case Some(v) => v
      case None => JBool(false)
  }

  // ---------------------------------------------------------------- against the bridge

  /** The register writes the bridge performs for a set-point, in order. */
  function RegisterWrites(s: Setpoint): (ws: seq<PsuBridge.Write>)
    ensures |ws| == 3
  {
    [PsuBridge.Write(PsuBridge.RegSetVoltage, Trunc(s.voltage * 10.0)),
     PsuBridge.Write(PsuBridge.RegSetCurrent, Trunc(s.current * 10.0)),
     PsuBridge.Write(PsuBridge.RegOutput, s.enable)]
  }

  /** A posted set-point becomes the voltage, current and output writes, stopping at the first refused one. */
  lemma SetpointReachesRegisters(s: Setpoint, answers: PsuBridge.Write -> bool)
    ensures PsuBridge.CommandWrites(SetpointPayload(s), answers) == PsuBridge.Attempt(RegisterWrites(s), answers)
  {
    var ws := RegisterWrites(s);
    assert ws[1..] == [ws[1], ws[2]] && ws[2..] == [ws[2]] && ws[1..][1..] == ws[2..];
    assert PsuBridge.Attempt([ws[2]], answers) == if PsuBridge.Accepted(ws[2], answers) then [ws[2]] else [];
  }

  /** Every value the limited set-point writes fits a register. */
  lemma LimitedWritesFit(voltage: real, current: real)
    ensures forall w :: w in RegisterWrites(Limit(voltage, current)) ==> 0 <= w.value <= PsuBridge.RegisterMax
    ensures var s := Limit(voltage, current);
      s.enable == 1 ==> 1000 <= Trunc(s.voltage * 10.0) <= 9000 && 10 <= Trunc(s.current * 10.0) <= 1000
  {
  }

  /** With a device that answers, a client set-point lands in all three registers. */
  lemma SetVoltageCurrentLands(voltage: real, current: real, reply: Reply, answers: PsuBridge.Write -> bool)
    requires forall w :: answers(w)
    ensures PsuBridge.CommandWrites(SetVoltageCurrent(voltage, current, reply).payload, answers)
         == RegisterWrites(Limit(voltage, current))
  {
    var s := Limit(voltage, current);
    var ws := RegisterWrites(s);
    SetpointReachesRegisters(s, answers);
    LimitedWritesFit(voltage, current);
    assert ws[1..] == [ws[1], ws[2]] && ws[2..] == [ws[2]] && ws[1..][1..] == ws[2..];
    assert ws[0] in ws && ws[1] in ws && ws[2] in ws;
  }

  /** safe_shutdown zeroes the set-points and switches the output off. */
  lemma SafeShutdownLands(reply: Reply, answers: PsuBridge.Write -> bool)
    requires forall w :: answers(w)
    ensures PsuBridge.CommandWrites(SafeShutdown(reply).payload, answers)
         == [PsuBridge.Write(PsuBridge.RegSetVoltage, 0), PsuBridge.Write(PsuBridge.RegSetCurrent, 0),
             PsuBridge.Write(PsuBridge.RegOutput, 0)]
  {
    SetVoltageCurrentLands(0.0, 0.0, reply, answers);
  }

  /** enable_output / disable_output switch the output register. */
  lemma SwitchLands(reply: Reply, answers: PsuBridge.Write -> bool)
    ensures PsuBridge.CommandWrites(EnableOutput(reply).payload, answers)
         == PsuBridge.Attempt([PsuBridge.Write(PsuBridge.RegOutput, 1)], answers)
    ensures PsuBridge.CommandWrites(DisableOutput(reply).payload, answers)
         == PsuBridge.Attempt([PsuBridge.Write(PsuBridge.RegOutput, 0)], answers)
  {
  }

  /** A printed field reads back as its engineering value. */
  lemma FieldTextReadsBack(r: PsuBridge.Readings, name: string)
    ensures ValueOf(PsuBridge.FieldText(r, name)) == Num(PsuBridge.Value(r, name))
    ensures NumeralChars(PsuBridge.FieldText(r, name))
  {
    var raw := PsuBridge.Raw(r, name);
    if PsuBridge.Scaled(name) {
      assert PsuBridge.FieldText(r, name) == Fixed(raw as real / 10.0, 2);
      assert PsuBridge.Value(r, name) == raw as real / 10.0;
      TenthsReadBack(raw);
    } else {
      assert PsuBridge.FieldText(r, name) == NatToString(raw);
      assert PsuBridge.Value(r, name) == raw as real;
      WholeReadsBack(raw);
    }
  }

  lemma TenthsReadBack(raw: nat)
    ensures ValueOf(Fixed(raw as real / 10.0, 2)) == Num(raw as real / 10.0)
    ensures NumeralChars(Fixed(raw as real / 10.0, 2))
  {
    RoundedTenths(raw);
    FixedReadsBack(raw as real / 10.0);
  }

  lemma FixedReadsBack(x: real)
    requires Rounded(x, 2) == x
    ensures ValueOf(Fixed(x, 2)) == Num(x) && NumeralChars(Fixed(x, 2))
  {
    ParseFixed(x, 2);
    FixedChars(x, 2);
  }

  lemma WholeReadsBack(raw: nat)
    ensures ValueOf(NatToString(raw)) == Num(raw as real)
    ensures NumeralChars(NatToString(raw))
  {
    ParseNatToString(raw);
  }

  /** One `name=value` assignment splits back into its name and value. */
  lemma SplitAssignment(name: string, text: string)
    requires Excludes(name, '=') && Excludes(text, '=')
    ensures Split(name + "=" + text, '=') == [name, text]
  {
    assert [name, text][1..] == [text];
    assert Join([name, text], '=') == name + "=" + text;
    SplitUnique([name, text], '=');
  }

  /** The dictionary of a list of names, one name at a time. */
  lemma ValuesSnoc(names: seq<string>, name: string, text: string -> string)
    ensures (map n | n in names :: ValueOf(text(n)))[name := ValueOf(text(name))]
         == map n | n in names + [name] :: ValueOf(text(n))
  {
  }

  /**
   * Fields written as `name=text(name)` parse into the dictionary from each name to
   * the value of its text (a repeated name carries the same value each time).
   */
  lemma {:induction false} ParseFields(fields: seq<string>, names: seq<string>, text: string -> string)
    requires |fields| == |names|
    requires forall i :: 0 <= i < |names| ==> fields[i] == names[i] + "=" + text(names[i])
    requires forall i :: 0 <= i < |names| ==> Excludes(names[i], '=') && Excludes(text(names[i]), '=')
    ensures FieldsMap(fields) == Some(map n | n in names :: ValueOf(text(n)))
  {
    if names == [] {
      assert (map n | n in names :: ValueOf(text(n))) == map[];
    } else {
      var k := |names| - 1;
      var init := names[..k];
      ParseFields(fields[..k], init, text);
      SplitAssignment(names[k], text(names[k]));
      ValuesSnoc(init, names[k], text);
      assert init + [names[k]] == names;
    }
  }

  /** The assignments of the bridge's record parse into the dictionary of their values. */
  lemma ParseAssignments(r: PsuBridge.Readings, names: seq<string>)
    requires forall i :: 0 <= i < |names| ==> Excludes(names[i], '=')
    ensures FieldsMap(PsuBridge.Assignments(r, names))
         == Some(map n | n in names :: Num(PsuBridge.Value(r, n)))
  {
    var text := n => PsuBridge.FieldText(r, n);
    FieldTextsRead(r);
    ParseFields(PsuBridge.Assignments(r, names), names, text);
    ValuesOfTexts(r, names, text);
  }

  /** The dictionary of the fields' texts is the dictionary of their values. */
  lemma ValuesOfTexts(r: PsuBridge.Readings, names: seq<string>, text: string -> string)
    requires forall n :: text(n) == PsuBridge.FieldText(r, n)
    ensures (map n | n in names :: ValueOf(text(n))) == map n | n in names :: Num(PsuBridge.Value(r, n))
  {
    FieldTextsRead(r);
  }

  /** Every field's text reads back as its value and holds no '='. */
  lemma FieldTextsRead(r: PsuBridge.Readings)
    ensures forall n :: (ValueOf(PsuBridge.FieldText(r, n)) == Num(PsuBridge.Value(r, n)) &&
      Excludes(PsuBridge.FieldText(r, n), '='))
  {
    forall n
      ensures ValueOf(PsuBridge.FieldText(r, n)) == Num(PsuBridge.Value(r, n)) &&
        Excludes(PsuBridge.FieldText(r, n), '=')
    {
      FieldTextReadsBack(r, n);
    }
  }

  /** Lower-case letters and underscores only. */
  predicate Identifier(s: string) {
    forall c :: c in s ==> 'a' <= c <= 'z' || c == '_'
  }

  /** The names the bridge reports are plain identifiers. */
  lemma FieldNamesPlain()
    ensures forall i :: 0 <= i < |PsuBridge.FieldNames| ==>
      Excludes(PsuBridge.FieldNames[i], '=') && Excludes(PsuBridge.FieldNames[i], ',') &&
      Excludes(PsuBridge.FieldNames[i], ' ')
  {
    forall i | 0 <= i < |PsuBridge.FieldNames|
      ensures Identifier(PsuBridge.FieldNames[i])
    {
    }
    forall i, j | 0 <= i < |PsuBridge.FieldNames| && 0 <= j < |PsuBridge.FieldNames[i]|
      ensures PsuBridge.FieldNames[i][j] in PsuBridge.FieldNames[i]
    {
    }
  }

  /** The assignments of plain names hold no separator of the record. */
  lemma AssignmentsPlain(r: PsuBridge.Readings, names: seq<string>)
    requires forall i :: 0 <= i < |names| ==> Excludes(names[i], ',') && Excludes(names[i], ' ')
    ensures forall i :: 0 <= i < |names| ==>
      Excludes(PsuBridge.Assignments(r, names)[i], ',') && Excludes(PsuBridge.Assignments(r, names)[i], ' ')
  {
    var a := PsuBridge.Assignments(r, names);
    forall i | 0 <= i < |names|
      ensures Excludes(a[i], ',') && Excludes(a[i], ' ')
    {
      FieldTextReadsBack(r, names[i]);
      AssignmentExcludes(names[i], PsuBridge.FieldText(r, names[i]), ',');
      AssignmentExcludes(names[i], PsuBridge.FieldText(r, names[i]), ' ');
    }
  }

  lemma AssignmentExcludes(name: string, text: string, c: char)
    requires Excludes(name, c) && NumeralChars(text) && c != '=' && !IsDigit(c) && c != '.' && c != '-'
    ensures Excludes(name + "=" + text, c)
  {
    var s := name + "=" + text;
    forall i | 0 <= i < |s| ensures s[i] != c {
      if i > |name| {
        assert s[i] == text[i - |name| - 1];
      }
    }
  }

  /** A record `psu <fields> <stamp>` splits on spaces into its three parts. */
  lemma RecordWords(fields: string, stamp: string)
    requires Excludes(fields, ' ') && Excludes(stamp, ' ')
    ensures Split("psu " + fields + " " + stamp, ' ') == ["psu", fields, stamp]
  {
    var parts := ["psu", fields, stamp];
    assert [fields, stamp][1..] == [stamp];
    assert parts[1..] == [fields, stamp];
    calc {
      Join(parts, ' ');
      "psu" + [' '] + Join([fields, stamp], ' ');
      "psu" + [' '] + (fields + [' '] + stamp);
      "psu " + fields + " " + stamp;
    }
    SplitUnique(parts, ' ');
  }

  /** A delivered line (after strip) that is not a comment is parsed from its second word. */
  lemma StatusOfLine(line: string, fields: string)
    requires Strip(line + "\n") == line && line != [] && line[0] == 'p'
    requires |Split(line, ' ')| == 3 && Split(line, ' ')[1] == fields
    ensures StatusOf(Reply(200, line + "\n")) == FieldsMap(Split(fields, ','))
  {
  }

  /** A delivered record with a digit timestamp reads back as the dictionary of its fields. */
  lemma StatusOfRecord(a: seq<string>, stamp: string)
    requires forall i :: 0 <= i < |a| ==> Excludes(a[i], ',') && Excludes(a[i], ' ')
    requires a != [] && stamp != [] && AllDigits(stamp)
    ensures StatusOf(Reply(200, "psu " + Join(a, ',') + " " + stamp + "\n")) == FieldsMap(a)
  {
    var fields := Join(a, ',');
    var line := "psu " + fields + " " + stamp;
    JoinExcludes(a, ',', ' ');
    assert Excludes(stamp, ' ');
    RecordWords(fields, stamp);
    assert line[|line| - 1] == stamp[|stamp| - 1];
    StripTrailing(line, "\n");
    StatusOfLine(line, fields);
    SplitUnique(a, ',');
  }

  /** The bridge's /metrics answer reads back as exactly its thirteen values. */
  lemma MetricsReadBack(r: PsuBridge.Readings, timestampNs: nat)
    ensures StatusOf(Reply(200, PsuBridge.MetricsLine(r, timestampNs) + "\n"))
         == Some(map n | n in PsuBridge.FieldNames :: Num(PsuBridge.Value(r, n)))
  {
    var a := PsuBridge.Assignments(r, PsuBridge.FieldNames);
    FieldNamesPlain();
    AssignmentsPlain(r, PsuBridge.FieldNames);
    StatusOfRecord(a, NatToString(timestampNs));
    ParseAssignments(r, PsuBridge.FieldNames);
  }
}
