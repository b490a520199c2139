// The PSU Modbus RTU bridge (hdw/psu_http.py): the register map of one read,
// the write sequence each queued command turns into, and the HTTP answers of
// /metrics and /command. One iteration of the reader thread is one method call;
// the serial port is a parameter.

module PsuBridge {
  import opened Wrappers
  import opened Text
  import opened Json

  const SampleRate: nat := 10
  const FirstRegister: nat := 0x0001
  const RegisterCount: nat := 13
  const RegSetVoltage: nat := 0x0101
  const RegSetCurrent: nat := 0x0102
  const RegOutput: nat := 0x0103
  /** minimalmodbus refuses values outside an unsigned 16-bit register. */
  const RegisterMax: int := 0xFFFF

  /** The 13 holding registers read from 0x0001, as raw register values. */
  datatype Readings = Readings(
    voltage: nat, current: nat, power: nat, capacity: nat, runtime: nat,
    batteryV: nat, sysFault: nat, modFault: nat, temperature: nat, status: nat,
    setVoltageRb: nat, setCurrentRb: nat, outputEnable: nat)

  /** The register image of a reading, in register order starting at 0x0001. */
  function Registers(r: Readings): (raw: seq<nat>)
    ensures |raw| == RegisterCount
  {
    [r.voltage, r.current, r.power, r.capacity, r.runtime, r.batteryV, r.sysFault,
     r.modFault, r.temperature, r.status, r.setVoltageRb, r.setCurrentRb, r.outputEnable]
  }

  /** The decode in read_psu_data: register k of the block names field k. */
  function Decode(raw: seq<nat>): (r: Readings)
    requires |raw| == RegisterCount
    ensures Registers(r) == raw
  {
    Readings(raw[0], raw[1], raw[2], raw[3], raw[4], raw[5], raw[6],
             raw[7], raw[8], raw[9], raw[10], raw[11], raw[12])
  }

  lemma DecodeRegisters(r: Readings)
    ensures Decode(Registers(r)) == r
  {
  }

  /** The reported fields in /metrics order. */
  const FieldNames: seq<string> := [
    "voltage", "current", "power", "capacity", "runtime", "battery_v", "temperature",
    "status", "set_voltage_rb", "set_current_rb", "output_enable", "sys_fault", "mod_fault"]

  /** Fields reported in units of 0.1 (the rest are raw register values). */
  predicate Scaled(name: string) {
    name in {"voltage", "current", "power", "capacity", "battery_v", "set_voltage_rb", "set_current_rb"}
  }

  /** The raw register behind a reported field. */
  function Raw(r: Readings, name: string): nat {
    match name
    case "voltage" => r.voltage
    case "current" => r.current
    case "power" => r.power
    case "capacity" => r.capacity
    case "runtime" => r.runtime
    case "battery_v" => r.batteryV
    case "sys_fault" => r.sysFault
    case "mod_fault" => r.modFault
    case "temperature" => r.temperature
    case "status" => r.status
    case "set_voltage_rb" => r.setVoltageRb
    case "set_current_rb" => r.setCurrentRb
    case _ => r.outputEnable
  }

  /** The engineering value of a field: raw * 0.1 when scaled, else the raw value. */
  function Value(r: Readings, name: string): real {
    if Scaled(name) then Raw(r, name) as real / 10.0 else Raw(r, name) as real
  }

  /** How a field is printed: `:.2f` for scaled fields, str() for raw ones. */
  function FieldText(r: Readings, name: string): string {
    if Scaled(name) then Fixed(Raw(r, name) as real / 10.0, 2) else NatToString(Raw(r, name))
  }

  function Assignments(r: Readings, names: seq<string>): (a: seq<string>)
    ensures |a| == |names|
    ensures forall i :: 0 <= i < |names| ==> a[i] == names[i] + "=" + FieldText(r, names[i])
  {
    if names == [] then [] else [names[0] + "=" + FieldText(r, names[0])] + Assignments(r, names[1..])
  }

  /** The single line-protocol record of /metrics, without its trailing newline. */
  function MetricsLine(r: Readings, timestampNs: nat): string {
    "psu " + Join(Assignments(r, FieldNames), ',') + " " + NatToString(timestampNs)
  }

  datatype Snapshot = Snapshot(readings: Readings, timestampNs: nat)

  /** int(voltage / 0.1) for a JSON number: the value in tenths, truncated toward zero. */
  function Tenths(j: Json): (t: Option<int>)
    ensures t.Some? <==> j.JInt? || j.JNum? || j.JBool?
  {
    match j
    case JInt(i) => Some(10 * i)
    case JNum(x) => Some(Trunc(x * 10.0))
    case JBool(b) => Some(if b then 10 else 0)
    case _ => None
  }

  /**
   * The register value minimalmodbus writes for a JSON value: an int as it is, a bool as
   * 0 or 1, and a float truncated toward zero after its range check. A float outside
   * 0..0xFFFF is refused before truncation, so it becomes -1, which no write accepts.
   */
  function RegisterInt(j: Json): (v: Option<int>)
    ensures v.Some? <==> j.JInt? || j.JBool? || j.JNum?
    ensures j.JNum? ==> (0 <= v.value <= RegisterMax <==> 0.0 <= j.r <= RegisterMax as real)
    ensures j.JNum? && 0.0 <= j.r <= RegisterMax as real ==> v.value as real <= j.r < v.value as real + 1.0
  {
    match j
    case JInt(i) => Some(i)
    case JBool(b) => Some(if b then 1 else 0)
    case JNum(x) => if 0.0 <= x <= RegisterMax as real then Some(Trunc(x)) else Some(-1)
    case _ => None
  }

  datatype Write = Write(register: nat, value: int)

  /** A write goes through when the value fits a register and the device answers it. */
  predicate Accepted(w: Write, answers: Write -> bool) {
    0 <= w.value <= RegisterMax && answers(w)
  }

  /** The writes of a sequence that reach the device: up to (excluding) the first that raises. */
  function Attempt(ws: seq<Write>, answers: Write -> bool): (done: seq<Write>)
    ensures |done| <= |ws| && done == ws[..|done|]
    ensures forall k :: 0 <= k < |done| ==> Accepted(done[k], answers)
    ensures |done| < |ws| ==> !Accepted(ws[|done|], answers)
  {
    if ws == [] || !Accepted(ws[0], answers) then [] else [ws[0]] + Attempt(ws[1..], answers)
  }

  /**
   * The register writes one queued command performs. Any exception (a missing key,
   * a value of the wrong type, a refused write) drops the rest of that command only.
   */
  function CommandWrites(cmd: Json, answers: Write -> bool): (ws: seq<Write>)
  {
    if cmd.JObj? && "type" in cmd.fields && cmd.fields["type"].JStr? then
      var t := cmd.fields["type"].s;
      if t == "set_voltage_current" then SetpointWrites(cmd, answers)
      else if t == "enable" then Attempt([Write(RegOutput, 1)], answers)
      else if t == "disable" then Attempt([Write(RegOutput, 0)], answers)
      else []
    else []
  }

  /**
   * set_voltage_current: both values are looked up first; the voltage write, the
   * current write and the lookup of 'enable' then happen in that order.
   */
  function SetpointWrites(cmd: Json, answers: Write -> bool): (ws: seq<Write>)
    requires cmd.JObj?
  {
    if "voltage" !in cmd.fields || "current" !in cmd.fields then []
    else
      var vt := Tenths(cmd.fields["voltage"]);
      if vt.None? || !Accepted(Write(RegSetVoltage, vt.value), answers) then []
      else
        var w1 := Write(RegSetVoltage, vt.value);
        var ct := Tenths(cmd.fields["current"]);
        if ct.None? || !Accepted(Write(RegSetCurrent, ct.value), answers) then [w1]
        else
          var w2 := Write(RegSetCurrent, ct.value);
          if "enable" !in cmd.fields || RegisterInt(cmd.fields["enable"]).None? then [w1, w2]
          else [w1, w2] + Attempt([Write(RegOutput, RegisterInt(cmd.fields["enable"]).value)], answers)
  }

  /** The writes a whole queue performs, command after command. */
  function QueueWrites(cmds: seq<Json>, answers: Write -> bool): seq<Write> {
    if cmds == [] then [] else CommandWrites(cmds[0], answers) + QueueWrites(cmds[1..], answers)
  }

  lemma {:induction false} QueueWritesAppend(a: seq<Json>, b: seq<Json>, answers: Write -> bool)
    ensures QueueWrites(a + b, answers) == QueueWrites(a, answers) + QueueWrites(b, answers)
  {
    if a != [] {
      assert (a + b)[1..] == a[1..] + b;
      QueueWritesAppend(a[1..], b, answers);
    } else {
      assert a + b == b;
    }
  }

  lemma QueueWritesSnoc(done: seq<Json>, cmd: Json, answers: Write -> bool)
    ensures QueueWrites(done + [cmd], answers) == QueueWrites(done, answers) + CommandWrites(cmd, answers)
  {
    QueueWritesAppend(done, [cmd], answers);
    assert QueueWrites([cmd], answers) == CommandWrites(cmd, answers) + QueueWrites([], answers);
  }

  /** The writes of one more drained command extend the record of the earlier ones. */
  lemma DrainStep(base: seq<Write>, done: seq<Json>, cmd: Json, before: seq<Write>, after: seq<Write>, answers: Write -> bool)
    requires before == base + QueueWrites(done, answers)
    requires after == before + CommandWrites(cmd, answers)
    ensures after == base + QueueWrites(done + [cmd], answers)
  {
    QueueWritesSnoc(done, cmd, answers);
    AppendAssoc(base, QueueWrites(done, answers), CommandWrites(cmd, answers));
  }

  lemma AppendAssoc<T>(a: seq<T>, b: seq<T>, c: seq<T>)
    ensures (a + b) + c == a + (b + c)
  {
  }

  lemma ShiftHead<T>(done: seq<T>, queue: seq<T>)
    requires queue != []
    ensures done + queue == (done + [queue[0]]) + queue[1..]
  {
  }

  lemma ShiftEnd<T>(done: seq<T>, queue: seq<T>)
    requires queue == []
    ensures done + queue == done
  {
  }

  /** Every write a command performs targets one of the three set-point registers. */
  lemma CommandRegisters(cmd: Json, answers: Write -> bool)
    ensures forall w :: w in CommandWrites(cmd, answers) ==>
      w.register in {RegSetVoltage, RegSetCurrent, RegOutput} && 0 <= w.value <= RegisterMax
  {
  }

  /** enable and disable write only the output register, with 1 and 0; unknown types write nothing. */
  lemma {:induction false} SwitchCommands(cmd: Json, answers: Write -> bool)
    requires cmd.JObj? && "type" in cmd.fields && cmd.fields["type"].JStr?
    ensures cmd.fields["type"].s == "enable" ==>
      CommandWrites(cmd, answers) == (if answers(Write(RegOutput, 1)) then [Write(RegOutput, 1)] else [])
    ensures cmd.fields["type"].s == "disable" ==>
      CommandWrites(cmd, answers) == (if answers(Write(RegOutput, 0)) then [Write(RegOutput, 0)] else [])
    ensures cmd.fields["type"].s !in {"enable", "disable", "set_voltage_current"} ==>
      CommandWrites(cmd, answers) == []
  {
    assert Attempt([], answers) == [];
  }

  /** The HTTP bridge and its reader thread, one loop iteration per Step. */
  class Bridge {
    /** devices.PSU.com_port from the configuration (None for a YAML null). */
    const comPort: Option<string>
    var deviceOnline: bool
    var latest: Option<Snapshot>
    var queue: seq<Json>
    /** Register writes the PSU has performed, oldest first. */
    var writes: seq<Write>

    constructor (comPort: Option<string>)
      ensures this.comPort == comPort
      ensures !deviceOnline && latest == None && queue == [] && writes == []
    {
      this.comPort := comPort;
      deviceOnline := false;
      latest := None;
      queue := [];
      writes := [];
    }

    /** `not com_port`: the reader thread returns at once. */
    predicate PortMissing()
    {
      comPort.None? || comPort.value == []
    }

    /** Opening the instrument; an empty com_port never connects. */
    method Connect(opens: bool)
      modifies this`deviceOnline
      ensures deviceOnline == (!PortMissing() && (opens || old(deviceOnline)))
    {
      if PortMissing() {
        deviceOnline := false;
        return;
      }
      if opens {
        deviceOnline := true;
      }
    }

    /** psu.write_register: raises unless the value fits and the device answers. */
    method WriteRegister(register: nat, value: int, answers: Write -> bool) returns (ok: bool)
      modifies this`writes
      ensures ok == Accepted(Write(register, value), answers)
      ensures writes == if ok then old(writes) + [Write(register, value)] else old(writes)
    {
      ok := 0 <= value <= RegisterMax && answers(Write(register, value));
      if ok {
        writes := writes + [Write(register, value)];
      }
    }

    /** One command from the queue, register write by register write; an exception ends it. */
    method Execute(cmd: Json, answers: Write -> bool)
      modifies this`writes
      ensures writes == old(writes) + CommandWrites(cmd, answers)
    {
      if !(cmd.JObj? && "type" in cmd.fields && cmd.fields["type"].JStr?) {
        return;
      }
      var t := cmd.fields["type"].s;
      var ok: bool;
      if t == "set_voltage_current" {
        if "voltage" !in cmd.fields || "current" !in cmd.fields {
          return;
        }
        var vt := Tenths(cmd.fields["voltage"]);
        if vt.None? {
          return;
        }
        ok := WriteRegister(RegSetVoltage, vt.value, answers);
        if !ok {
          return;
        }
        var ct := Tenths(cmd.fields["current"]);
        if ct.None? {
          return;
        }
        ok := WriteRegister(RegSetCurrent, ct.value, answers);
        if !ok || "enable" !in cmd.fields {
          return;
        }
        var en := RegisterInt(cmd.fields["enable"]);
        if en.None? {
          return;
        }
        ok := WriteRegister(RegOutput, en.value, answers);
      } else if t == "enable" {
        ok := WriteRegister(RegOutput, 1, answers);
      } else if t == "disable" {
        ok := WriteRegister(RegOutput, 0, answers);
      }
    }

    /** The command-drain loop: every queued command, oldest first, until the queue is empty. */
    method DrainCommands(answers: Write -> bool)
      modifies this`queue, this`writes
      ensures queue == []
      ensures writes == old(writes) + QueueWrites(old(queue), answers)
    {
      ghost var done: seq<Json> := [];
      while queue != []
        invariant old(queue) == done + queue
        invariant writes == old(writes) + QueueWrites(done, answers)
        decreases |queue|
      {
        var cmd := queue[0];
        ShiftHead(done, queue);
        queue := queue[1..];
        ghost var before := writes;
        Execute(cmd, answers);
        DrainStep(old(writes), done, cmd, before, writes, answers);
        done := done + [cmd];
      }
      ShiftEnd(done, queue);
    }

    /**
     * One pass of the read loop: drain the queued commands, then read the 13
     * registers. A read failure (`raw` is None) takes the device offline and keeps
     * the previous snapshot.
     */
    method Step(answers: Write -> bool, raw: Option<seq<nat>>, nowNs: nat)
      requires deviceOnline
      requires raw.Some? ==> |raw.value| == RegisterCount
      modifies this`queue, this`writes, this`latest, this`deviceOnline
      ensures queue == []
      ensures writes == old(writes) + QueueWrites(old(queue), answers)
      ensures raw.None? ==> !deviceOnline && latest == old(latest)
      ensures raw.Some? ==> deviceOnline && latest == Some(Snapshot(Decode(raw.value), nowNs))
    {
      DrainCommands(answers);
      if raw.None? {
        deviceOnline := false;
      } else {
        latest := Some(Snapshot(Decode(raw.value), nowNs));
      }
    }

    /**
     * POST /command. `body` is what request.get_json() gives: the decoded document,
     * None when there is none, or Err when it raises (malformed JSON, wrong media type).
     */
    method PostCommand(body: Result<Option<Json>, string>) returns (status: nat)
      modifies this`queue
      ensures !deviceOnline ==> status == 503 && queue == old(queue)
      ensures deviceOnline && body.Err? ==> status == 500 && queue == old(queue)
      ensures deviceOnline && body.Ok? && (body.value.None? || !Truthy(body.value.value)) ==>
        status == 400 && queue == old(queue)
      ensures deviceOnline && body.Ok? && body.value.Some? && Truthy(body.value.value) ==>
        status == 200 && queue == old(queue) + [body.value.value]
    {
      if !deviceOnline {
        return 503;
      }
      if body.Err? {
        return 500;
      }
      var cmd := body.value;
      if cmd.None? || !Truthy(cmd.value) {
        return 400;
      }
      queue := queue + [cmd.value];
      return 200;
    }

    /** GET /metrics. */
    method Metrics() returns (status: nat, text: string)
      ensures !deviceOnline ==> status == 503 && text == "# Device offline\n"
      ensures deviceOnline && latest.None? ==> status == 503 && text == "# No data yet\n"
      ensures deviceOnline && latest.Some? ==>
        status == 200 && text == MetricsLine(latest.value.readings, latest.value.timestampNs) + "\n"
    {
      if !deviceOnline {
        return 503, "# Device offline\n";
      }
      if latest.None? {
        return 503, "# No data yet\n";
      }
      var lines := [MetricsLine(latest.value.readings, latest.value.timestampNs)];
      return 200, Join(lines, '\n') + "\n";
    }
  }
}
