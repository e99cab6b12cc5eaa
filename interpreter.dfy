/** The interpreter loop of run (main.rs:358-461) as a state machine: two
    delays it may change, the device it drives, and a method per loop of the
    source, each proved to do what the Effects module says. */
module Interpreter {
  import opened Wrappers
  import opened Keys
  import opened Device
  import opened Chords
  import opened Parser
  import opened Translator
  import opened Lines
  import opened Effects

  class Interpreter {
    var keydelay: nat
    var typedelay: nat
    const device: Device
    /** str::parse::<f64>, which is not part of this model. */
    const parse: string -> Option<Float>

    /** The delays start at their defaults (main.rs:358-361). */
    constructor (device: Device, parse: string -> Option<Float>)
      ensures keydelay == Defaults.keydelay && typedelay == Defaults.typedelay
      ensures this.device == device && this.parse == parse
    {
      keydelay := Defaults.keydelay;
      typedelay := Defaults.typedelay;
      this.device := device;
      this.parse := parse;
    }

    function Current(): Settings
      reads this
    {
      Settings(keydelay, typedelay)
    }

    /** The trace grew by `events` since `before`, given that it had grown by
        `done` before the last addition `added`. */
    static lemma Grew(before: seq<Event>, done: seq<Event>, added: seq<Event>)
      ensures before + done + added == before + (done + added)
    {
    }

    /** Report a warning if a device sequence failed. */
    method WarnUnless(ok: bool, message: string)
      modifies device
      ensures device.calls == old(device.calls)
      ensures device.trace == old(device.trace) + WarnIf(!ok, message)
    {
      if !ok {
        device.Report(message);
      } else {
        assert device.trace + [] == device.trace;
      }
    }

    /** One chord of a `key` line. */
    method KeyChord(c: Chord)
      modifies device
      ensures var e := KeyEffect(c, keydelay, old(device.calls), device.failing);
        device.trace == old(device.trace) + e.events && device.calls == e.next
    {
      ghost var t0 := device.trace;
      ghost var down := Perform(DownCalls(c), device.calls, device.failing);
      var ok := KeyDown(c, device);
      WarnUnless(ok, "key down error");
      Grew(t0, down.events, WarnIf(!ok, "key down error"));
      ghost var acc := down.events + WarnIf(!ok, "key down error");
      device.Pause(KeyHold);
      Grew(t0, acc, [Sleep(KeyHold)]);
      acc := acc + [Sleep(KeyHold)];
      ghost var up := Perform(UpCalls(c), device.calls, device.failing);
      ok := KeyUp(c, device);
      Grew(t0, acc, up.events);
      acc := acc + up.events;
      WarnUnless(ok, "key up error");
      Grew(t0, acc, WarnIf(!ok, "key up error"));
      acc := acc + WarnIf(!ok, "key up error");
      device.Pause(keydelay);
      Grew(t0, acc, [Sleep(keydelay)]);
    }

    /** One chord of a `keydown` line. */
    method KeyDownChord(c: Chord)
      modifies device
      ensures var e := KeyDownEffect(c, keydelay, old(device.calls), device.failing);
        device.trace == old(device.trace) + e.events && device.calls == e.next
    {
      ghost var t0 := device.trace;
      ghost var down := Perform(DownCalls(c), device.calls, device.failing);
      var ok := KeyDown(c, device);
      WarnUnless(ok, "key down error");
      Grew(t0, down.events, WarnIf(!ok, "key down error"));
      device.Pause(keydelay);
      Grew(t0, down.events + WarnIf(!ok, "key down error"), [Sleep(keydelay)]);
    }

    /** One chord of a `keyup` line. */
    method KeyUpChord(c: Chord)
      modifies device
      ensures var e := KeyUpEffect(c, keydelay, old(device.calls), device.failing);
        device.trace == old(device.trace) + e.events && device.calls == e.next
    {
      ghost var t0 := device.trace;
      ghost var up := Perform(UpCalls(c), device.calls, device.failing);
      var ok := KeyUp(c, device);
      WarnUnless(ok, "key up error");
      Grew(t0, up.events, WarnIf(!ok, "key up error"));
      device.Pause(keydelay);
      Grew(t0, up.events + WarnIf(!ok, "key up error"), [Sleep(keydelay)]);
    }

    /** One field of a `key` line: a field that does not parse is
        reported and the line goes on (main.rs:385-397). */
    method KeyField(field: string)
      modifies device
      ensures var e := Effects.KeyField(field, keydelay, old(device.calls), device.failing);
        device.trace == old(device.trace) + e.events && device.calls == e.next
    {
      match ParseChord(field)
      case Err(e) => device.Report(Message(e));
      case Ok(c) => KeyChord(c);
    }

    /** `for field in parts` in the `key` arm (main.rs:383-398): every field
        in turn; a field that fails does not stop the ones after it. */
    method KeyFields(fields: seq<string>)
      modifies device
      ensures var e := Effects.KeyFields(fields, keydelay, old(device.calls), device.failing);
        device.trace == old(device.trace) + e.events && device.calls == e.next
    {
      for i := 0 to |fields|
        invariant var e := Effects.KeyFields(fields[..i], keydelay, old(device.calls), device.failing);
          device.trace == old(device.trace) + e.events && device.calls == e.next
      {
        ghost var done := Effects.KeyFields(fields[..i], keydelay, old(device.calls), device.failing);
        ghost var last := Effects.KeyField(fields[i], keydelay, device.calls, device.failing);
        KeyField(fields[i]);
        KeyFieldsSnoc(fields, i, keydelay, old(device.calls), device.failing);
        Grew(old(device.trace), done.events, last.events);
      }
      assert fields[..|fields|] == fields;
    }

    /** One field of a `keydown` line: a field that does not parse is
        reported and the line goes on (main.rs:401-410). */
    method KeyDownField(field: string)
      modifies device
      ensures var e := Effects.KeyDownField(field, keydelay, old(device.calls), device.failing);
        device.trace == old(device.trace) + e.events && device.calls == e.next
    {
      match ParseChord(field)
      case Err(e) => device.Report(Message(e));
      case Ok(c) => KeyDownChord(c);
    }

    /** The loop of the `keydown` arm (main.rs:399-411). */
    method KeyDownFields(fields: seq<string>)
      modifies device
      ensures var e := Effects.KeyDownFields(fields, keydelay, old(device.calls), device.failing);
        device.trace == old(device.trace) + e.events && device.calls == e.next
    {
      for i := 0 to |fields|
        invariant var e := Effects.KeyDownFields(fields[..i], keydelay, old(device.calls), device.failing);
          device.trace == old(device.trace) + e.events && device.calls == e.next
      {
        ghost var done := Effects.KeyDownFields(fields[..i], keydelay, old(device.calls), device.failing);
        ghost var last := Effects.KeyDownField(fields[i], keydelay, device.calls, device.failing);
        KeyDownField(fields[i]);
        KeyDownFieldsSnoc(fields, i, keydelay, old(device.calls), device.failing);
        Grew(old(device.trace), done.events, last.events);
      }
      assert fields[..|fields|] == fields;
    }

    /** One field of a `keyup` line: a field that does not parse is
        reported and the line goes on (main.rs:414-423). */
    method KeyUpField(field: string)
      modifies device
      ensures var e := Effects.KeyUpField(field, keydelay, old(device.calls), device.failing);
        device.trace == old(device.trace) + e.events && device.calls == e.next
    {
      match ParseChord(field)
      case Err(e) => device.Report(Message(e));
      case Ok(c) => KeyUpChord(c);
    }

    /** The loop of the `keyup` arm (main.rs:412-424). */
    method KeyUpFields(fields: seq<string>)
      modifies device
      ensures var e := Effects.KeyUpFields(fields, keydelay, old(device.calls), device.failing);
        device.trace == old(device.trace) + e.events && device.calls == e.next
    {
      for i := 0 to |fields|
        invariant var e := Effects.KeyUpFields(fields[..i], keydelay, old(device.calls), device.failing);
          device.trace == old(device.trace) + e.events && device.calls == e.next
      {
        ghost var done := Effects.KeyUpFields(fields[..i], keydelay, old(device.calls), device.failing);
        ghost var last := Effects.KeyUpField(fields[i], keydelay, device.calls, device.failing);
        KeyUpField(fields[i]);
        KeyUpFieldsSnoc(fields, i, keydelay, old(device.calls), device.failing);
        Grew(old(device.trace), done.events, last.events);
      }
      assert fields[..|fields|] == fields;
    }

    /** One character of a `type` line. */
    method TypeChar(ch: char)
      modifies device
      ensures var e := CharEffect(ch, typedelay, old(device.calls), device.failing);
        device.trace == old(device.trace) + e.events && device.calls == e.next
    {
      match CharToChord(ch)
      case None =>
        device.Report("cannot type character: " + [ch]);
      case Some(c) =>
        ghost var t0 := device.trace;
        ghost var down := Perform(DownCalls(c), device.calls, device.failing);
        var ok := KeyDown(c, device);
        if !ok {
          device.Report("type error");
          Grew(t0, down.events, [Warn("type error")]);
        } else {
          device.Pause(TypeHold);
          Grew(t0, down.events, [Sleep(TypeHold)]);
          ghost var acc := down.events + [Sleep(TypeHold)];
          ghost var up := Perform(UpCalls(c), device.calls, device.failing);
          ok := KeyUp(c, device);
          Grew(t0, acc, up.events);
          acc := acc + up.events;
          WarnUnless(ok, "type error");
          Grew(t0, acc, WarnIf(!ok, "type error"));
          acc := acc + WarnIf(!ok, "type error");
          device.Pause(typedelay);
          Grew(t0, acc, [Sleep(typedelay)]);
        }
    }

    /** `for ch in s.chars()` (main.rs:434-449). */
    method Type(text: string)
      modifies device
      ensures var e := TextEffect(text, typedelay, old(device.calls), device.failing);
        device.trace == old(device.trace) + e.events && device.calls == e.next
    {
      var i := 0;
      while i < |text|
        invariant 0 <= i <= |text|
        invariant var e := TextEffect(text[..i], typedelay, old(device.calls), device.failing);
          device.trace == old(device.trace) + e.events && device.calls == e.next
      {
        ghost var done := TextEffect(text[..i], typedelay, old(device.calls), device.failing);
        ghost var last := CharEffect(text[i], typedelay, device.calls, device.failing);
        TypeChar(text[i]);
        TextSnoc(text, i, typedelay, old(device.calls), device.failing);
        Grew(old(device.trace), done.events, last.events);
        i := i + 1;
      }
      assert text[..|text|] == text;
    }

    /** A `keydelay` line (main.rs:425-431). */
    method KeyDelayCommand(line: string, remainder: Option<string>) returns (panic: Option<Panic>)
      modifies this, device
      ensures var r := KeyDelayLine(line, remainder, old(Current()), old(device.calls), parse);
        && device.trace == old(device.trace) + r.out.events && device.calls == r.out.next
        && Current() == r.settings && panic == r.panic
    {
      if remainder.None? {
        panic := Some(DelayMissing);
        assert device.trace + [] == device.trace;
      } else {
        panic := None;
        SetKeyDelay(line, remainder.value);
      }
    }

    /** `keydelay` with a payload: the key delay becomes the parsed value,
        or stays as it is and a warning quotes the line. */
    method SetKeyDelay(line: string, payload: string)
      modifies this, device
      ensures var v := DelayValue(payload, parse);
        && device.calls == old(device.calls)
        && device.trace == old(device.trace) + (if v.None? then [InvalidDelay(line)] else [])
        && Current() == (if v.None? then old(Current()) else old(Current()).(keydelay := v.value))
    {
      var ms := DelayValue(payload, parse);
      if ms.None? {
        device.Report("invalid delay: " + TrimStart(line));
      } else {
        keydelay := ms.value;
        assert device.trace + [] == device.trace;
      }
    }

    /** A `type` line (main.rs:432-451). */
    method TypeCommand(remainder: Option<string>) returns (panic: Option<Panic>)
      modifies device
      ensures var r := TypeLine(remainder, Current(), old(device.calls), device.failing);
        && device.trace == old(device.trace) + r.out.events && device.calls == r.out.next
        && r.settings == Current() && panic == r.panic
    {
      if remainder.None? {
        panic := Some(MissingString);
        assert device.trace + [] == device.trace;
      } else {
        panic := None;
        Type(remainder.value);
      }
    }

    /** A `typedelay` line (main.rs:452-458). */
    method TypeDelayCommand(line: string, remainder: Option<string>) returns (panic: Option<Panic>)
      modifies this, device
      ensures var r := TypeDelayLine(line, remainder, old(Current()), old(device.calls), parse);
        && device.trace == old(device.trace) + r.out.events && device.calls == r.out.next
        && Current() == r.settings && panic == r.panic
    {
      if remainder.None? {
        panic := Some(MissingTypedelay);
        assert device.trace + [] == device.trace;
      } else {
        panic := None;
        SetTypeDelay(line, remainder.value);
      }
    }

    /** `typedelay` with a payload: the type delay becomes the parsed value,
        or stays as it is and a warning quotes the line. */
    method SetTypeDelay(line: string, payload: string)
      modifies this, device
      ensures var v := DelayValue(payload, parse);
        && device.calls == old(device.calls)
        && device.trace == old(device.trace) + (if v.None? then [InvalidDelay(line)] else [])
        && Current() == (if v.None? then old(Current()) else old(Current()).(typedelay := v.value))
    {
      var ms := DelayValue(payload, parse);
      if ms.None? {
        device.Report("invalid delay: " + TrimStart(line));
      } else {
        typedelay := ms.value;
        assert device.trace + [] == device.trace;
      }
    }

    /** The match on the opcode (main.rs:381-460). A panic is returned
        rather than raised. */
    method Execute(line: string, op: string, fields: seq<string>, remainder: Option<string>)
      returns (panic: Option<Panic>)
      modifies this, device
      ensures var r := CommandSpec(line, op, fields, remainder, old(Current()), old(device.calls), device.failing, parse);
        && device.trace == old(device.trace) + r.out.events && device.calls == r.out.next
        && Current() == r.settings && panic == r.panic
    {
      CommandArms(line, op, fields, remainder, Current(), device.calls, device.failing, parse);
      panic := None;
      match Decode(op)
      case KeyOp =>
        KeyFields(fields);
      case KeyDownOp =>
        KeyDownFields(fields);
      case KeyUpOp =>
        KeyUpFields(fields);
      case KeyDelayOp =>
        panic := KeyDelayCommand(line, remainder);
      case TypeOp =>
        panic := TypeCommand(remainder);
      case TypeDelayOp =>
        panic := TypeDelayCommand(line, remainder);
      case Unknown =>
        panic := Some(UnknownOperation);
        assert device.trace + [] == device.trace;
    }

    /** The body of the loop of run for one line (main.rs:367-460): blank
        lines are skipped. */
    method Step(line: string) returns (panic: Option<Panic>)
      modifies this, device
      ensures var r := StepSpec(line, old(Current()), old(device.calls), device.failing, parse);
        && device.trace == old(device.trace) + r.out.events && device.calls == r.out.next
        && Current() == r.settings && panic == r.panic
    {
      match Tokenize(line)
      case Blank =>
        panic := None;
        assert device.trace + [] == device.trace;
      case Command(op, fields, remainder) =>
        panic := Execute(line, op, fields, remainder);
    }

    /** `for line in reader.lines()` (main.rs:366-461): every line in turn,
        until one panics. */
    method Run(lines: seq<string>) returns (panic: Option<Panic>)
      modifies this, device
      ensures var r := RunSpec(lines, old(Current()), old(device.calls), device.failing, parse);
        && device.trace == old(device.trace) + r.out.events && device.calls == r.out.next
        && Current() == r.settings && panic == r.panic
    {
      ghost var s0, from0, trace0 := Current(), device.calls, device.trace;
      ghost var r := RunSpec([], s0, from0, device.failing, parse);
      panic := None;
      var i := 0;
      while i < |lines| && panic.None?
        invariant 0 <= i <= |lines|
        invariant r == RunSpec(lines[..i], s0, from0, device.failing, parse)
        invariant device.trace == trace0 + r.out.events && device.calls == r.out.next
        invariant Current() == r.settings && panic == r.panic
      {
        ghost var last := StepSpec(lines[i], r.settings, r.out.next, device.failing, parse);
        panic := Step(lines[i]);
        RunSnoc(lines, i, s0, from0, device.failing, parse);
        Grew(trace0, r.out.events, last.out.events);
        r := Then(r, last);
        i := i + 1;
      }
      RunStopped(lines, i, s0, from0, device.failing, parse);
    }
  }
}
