/** What one line of input does (main.rs:358-461), stated as values: the
    events a line appends to the trace, the device calls it uses, the delay
    settings it leaves behind, and whether it ends the session with a panic.
    The Interpreter class runs lines step by step and is proved to do exactly
    this. */
module Effects {
  import opened Wrappers
  import opened Keys
  import opened Device
  import opened Chords
  import opened Parser
  import opened Translator
  import opened Lines

  /** The two fixed hold times, in milliseconds (main.rs:359, 361). */
  const KeyHold: nat := 8
  const TypeHold: nat := 8

  /** The two delays a session can change, in milliseconds. */
  datatype Settings = Settings(keydelay: nat, typedelay: nat)

  /** The delays a session starts with (main.rs:358, 360). */
  const Defaults: Settings := Settings(2, 2)

  /** What `str::parse::<f64>` can yield. */
  datatype Float = Finite(value: real) | Infinite(negative: bool) | NaN

  const U64Max: nat := 0xFFFF_FFFF_FFFF_FFFF

  /** `d as u64`, the millisecond count of Duration::from_millis: towards
      zero, with negative numbers and NaN giving 0 and too large numbers
      saturating. */
  function Millis(d: Float): (ms: nat) {
    match d
    case NaN => 0
    case Infinite(negative) => if negative then 0 else U64Max
    case Finite(r) => if r <= 0.0 then 0 else if r.Floor >= U64Max then U64Max else r.Floor
  }

  /** Millis drops the fraction of a number in range and clamps the rest. */
  lemma MillisTruncates(r: real)
    ensures 0.0 <= r < (U64Max + 1) as real ==>
      Millis(Finite(r)) as real <= r < Millis(Finite(r)) as real + 1.0
    ensures r <= 0.0 ==> Millis(Finite(r)) == 0
    ensures r >= U64Max as real ==> Millis(Finite(r)) == U64Max
    ensures Millis(Finite(r)) <= U64Max
  {
  }

  /** What a run of the interpreter leaves behind: the events in order and
      the number of the next device call. */
  datatype Outcome = Outcome(events: seq<Event>, next: nat)

  function WarnIf(b: bool, message: string): seq<Event> {
    if b then [Warn(message)] else []
  }

  /** One chord of a `key` line (main.rs:386-394): down, a warning if that
      failed, the hold, up, a warning if that failed, the delay. A failed
      key_down does not stop key_up. */
  function KeyEffect(c: Chord, keydelay: nat, from: nat, failing: set<nat>): Outcome {
    var down := Perform(DownCalls(c), from, failing);
    var up := Perform(UpCalls(c), down.next, failing);
    Outcome(down.events + WarnIf(!down.ok, "key down error") + [Sleep(KeyHold)]
            + up.events + WarnIf(!up.ok, "key up error") + [Sleep(keydelay)], up.next)
  }

  /** One chord of a `keydown` line (main.rs:402-406). */
  function KeyDownEffect(c: Chord, keydelay: nat, from: nat, failing: set<nat>): Outcome {
    var down := Perform(DownCalls(c), from, failing);
    Outcome(down.events + WarnIf(!down.ok, "key down error") + [Sleep(keydelay)], down.next)
  }

  /** One chord of a `keyup` line (main.rs:415-419). */
  function KeyUpEffect(c: Chord, keydelay: nat, from: nat, failing: set<nat>): Outcome {
    var up := Perform(UpCalls(c), from, failing);
    Outcome(up.events + WarnIf(!up.ok, "key up error") + [Sleep(keydelay)], up.next)
  }

  /** One field of a `key` line: a field that does not parse is reported
      and costs no device call (main.rs:385-397). */
  function KeyField(field: string, keydelay: nat, from: nat, failing: set<nat>): Outcome {
    match ParseChord(field)
    case Err(e) => Outcome([Warn(Message(e))], from)
    case Ok(c) => KeyEffect(c, keydelay, from, failing)
  }

  /** The fields of a `key` line, one after another. */
  function KeyFields(fields: seq<string>, keydelay: nat, from: nat, failing: set<nat>): Outcome
    decreases |fields|
  {
    if fields == [] then Outcome([], from)
    else
      var done := KeyFields(fields[..|fields| - 1], keydelay, from, failing);
      var last := KeyField(fields[|fields| - 1], keydelay, done.next, failing);
      Outcome(done.events + last.events, last.next)
  }

  /** One field of a `keydown` line (main.rs:401-410). */
  function KeyDownField(field: string, keydelay: nat, from: nat, failing: set<nat>): Outcome {
    match ParseChord(field)
    case Err(e) => Outcome([Warn(Message(e))], from)
    case Ok(c) => KeyDownEffect(c, keydelay, from, failing)
  }

  function KeyDownFields(fields: seq<string>, keydelay: nat, from: nat, failing: set<nat>): Outcome
    decreases |fields|
  {
    if fields == [] then Outcome([], from)
    else
      var done := KeyDownFields(fields[..|fields| - 1], keydelay, from, failing);
      var last := KeyDownField(fields[|fields| - 1], keydelay, done.next, failing);
      Outcome(done.events + last.events, last.next)
  }

  /** One field of a `keyup` line (main.rs:414-423). */
  function KeyUpField(field: string, keydelay: nat, from: nat, failing: set<nat>): Outcome {
    match ParseChord(field)
    case Err(e) => Outcome([Warn(Message(e))], from)
    case Ok(c) => KeyUpEffect(c, keydelay, from, failing)
  }

  function KeyUpFields(fields: seq<string>, keydelay: nat, from: nat, failing: set<nat>): Outcome
    decreases |fields|
  {
    if fields == [] then Outcome([], from)
    else
      var done := KeyUpFields(fields[..|fields| - 1], keydelay, from, failing);
      var last := KeyUpField(fields[|fields| - 1], keydelay, done.next, failing);
      Outcome(done.events + last.events, last.next)
  }

  /** One character of a `type` line (main.rs:434-448). A failed key_down is
      reported and the character ends there: no hold, no key_up, no delay. */
  function CharEffect(ch: char, typedelay: nat, from: nat, failing: set<nat>): Outcome {
    match CharToChord(ch)
    case None => Outcome([Warn("cannot type character: " + [ch])], from)
    case Some(c) =>
      var down := Perform(DownCalls(c), from, failing);
      if !down.ok then Outcome(down.events + [Warn("type error")], down.next)
      else
        var up := Perform(UpCalls(c), down.next, failing);
        Outcome(down.events + [Sleep(TypeHold)] + up.events + WarnIf(!up.ok, "type error")
                + [Sleep(typedelay)], up.next)
  }

  /** The characters of a `type` line, one after another. */
  function TextEffect(text: string, typedelay: nat, from: nat, failing: set<nat>): Outcome
    decreases |text|
  {
    if text == [] then Outcome([], from)
    else
      var done := TextEffect(text[..|text| - 1], typedelay, from, failing);
      var last := CharEffect(text[|text| - 1], typedelay, done.next, failing);
      Outcome(done.events + last.events, last.next)
  }

  /** The panics of the loop, in source order. The first one, "Invalid
      command" (main.rs:376-379), cannot happen, since a line that is not
      blank always has an opcode (Lines.CommandWords). */
  datatype Panic = DelayMissing | MissingString | MissingTypedelay | UnknownOperation

  /** What one line, or a run of lines, leaves behind. */
  datatype StepResult = StepResult(settings: Settings, out: Outcome, panic: Option<Panic>)

  /** The delay a `keydelay` or `typedelay` payload sets, if it parses;
      `parse` stands for `str::parse::<f64>`. */
  function DelayValue(payload: string, parse: string -> Option<Float>): Option<nat> {
    match parse(Trim(payload))
    case None => None
    case Some(d) => Some(Millis(d))
  }

  /** The opcodes the loop knows (main.rs:381-459); every other word,
      keyhold and typehold among them, is Unknown. */
  datatype Opcode = KeyOp | KeyDownOp | KeyUpOp | KeyDelayOp | TypeOp | TypeDelayOp | Unknown

  function Decode(op: string): (code: Opcode) {
    if op == "key" then KeyOp
    else if op == "keydown" then KeyDownOp
    else if op == "keyup" then KeyUpOp
    else if op == "keydelay" then KeyDelayOp
    else if op == "type" then TypeOp
    else if op == "typedelay" then TypeDelayOp
    else Unknown
  }

  /** The warning for a delay that does not parse: it quotes the line from
      its first non-whitespace character on (main.rs:428, 455). */
  function InvalidDelay(line: string): Event {
    Warn("invalid delay: " + TrimStart(line))
  }

  /** A `keydelay` line (main.rs:425-431). */
  function KeyDelayLine(line: string, remainder: Option<string>, s: Settings, from: nat,
                        parse: string -> Option<Float>): StepResult
  {
    if remainder.None? then StepResult(s, Outcome([], from), Some(DelayMissing))
    else match DelayValue(remainder.value, parse)
      case None => StepResult(s, Outcome([InvalidDelay(line)], from), None)
      case Some(ms) => StepResult(s.(keydelay := ms), Outcome([], from), None)
  }

  /** A `type` line (main.rs:432-451). */
  function TypeLine(remainder: Option<string>, s: Settings, from: nat, failing: set<nat>): StepResult {
    if remainder.None? then StepResult(s, Outcome([], from), Some(MissingString))
    else StepResult(s, TextEffect(remainder.value, s.typedelay, from, failing), None)
  }

  /** A `typedelay` line (main.rs:452-458). */
  function TypeDelayLine(line: string, remainder: Option<string>, s: Settings, from: nat,
                         parse: string -> Option<Float>): StepResult
  {
    if remainder.None? then StepResult(s, Outcome([], from), Some(MissingTypedelay))
    else match DelayValue(remainder.value, parse)
      case None => StepResult(s, Outcome([InvalidDelay(line)], from), None)
      case Some(ms) => StepResult(s.(typedelay := ms), Outcome([], from), None)
  }

  /** What a line with opcode `op` does: the arms of the match at
      main.rs:381-460. */
  function CommandSpec(line: string, op: string, fields: seq<string>, remainder: Option<string>,
                       s: Settings, from: nat, failing: set<nat>, parse: string -> Option<Float>): (r: StepResult)
  {
    match Decode(op)
    case KeyOp => StepResult(s, KeyFields(fields, s.keydelay, from, failing), None)
    case KeyDownOp => StepResult(s, KeyDownFields(fields, s.keydelay, from, failing), None)
    case KeyUpOp => StepResult(s, KeyUpFields(fields, s.keydelay, from, failing), None)
    case KeyDelayOp => KeyDelayLine(line, remainder, s, from, parse)
    case TypeOp => TypeLine(remainder, s, from, failing)
    case TypeDelayOp => TypeDelayLine(line, remainder, s, from, parse)
    case Unknown => StepResult(s, Outcome([], from), Some(UnknownOperation))
  }

  /** CommandSpec arm by arm. */
  lemma CommandArms(line: string, op: string, fields: seq<string>, remainder: Option<string>,
                    s: Settings, from: nat, failing: set<nat>, parse: string -> Option<Float>)
    ensures var r := CommandSpec(line, op, fields, remainder, s, from, failing, parse);
      && (Decode(op) == KeyOp ==> r == StepResult(s, KeyFields(fields, s.keydelay, from, failing), None))
      && (Decode(op) == KeyDownOp ==> r == StepResult(s, KeyDownFields(fields, s.keydelay, from, failing), None))
      && (Decode(op) == KeyUpOp ==> r == StepResult(s, KeyUpFields(fields, s.keydelay, from, failing), None))
      && (Decode(op) == KeyDelayOp ==> r == KeyDelayLine(line, remainder, s, from, parse))
      && (Decode(op) == TypeOp ==> r == TypeLine(remainder, s, from, failing))
      && (Decode(op) == TypeDelayOp ==> r == TypeDelayLine(line, remainder, s, from, parse))
      && (Decode(op) == Unknown ==> r == StepResult(s, Outcome([], from), Some(UnknownOperation)))
  {
  }

  /** The body of the loop of run for one line (main.rs:367-460): a blank
      line is skipped, any other line is split into its opcode and payload. */
  function StepSpec(line: string, s: Settings, from: nat, failing: set<nat>,
                    parse: string -> Option<Float>): (r: StepResult)
  {
    match Tokenize(line)
    case Blank => StepResult(s, Outcome([], from), None)
    case Command(op, fields, remainder) => CommandSpec(line, op, fields, remainder, s, from, failing, parse)
  }

  /** The loop of run over a sequence of lines: each line starts from the
      settings and the device call number the previous one left, and a panic
      ends the session. */
  function RunSpec(lines: seq<string>, s: Settings, from: nat, failing: set<nat>,
                   parse: string -> Option<Float>): (r: StepResult)
    decreases |lines|
  {
    if lines == [] then StepResult(s, Outcome([], from), None)
    else
      var done := RunSpec(lines[..|lines| - 1], s, from, failing, parse);
      if done.panic.Some? then done
      else
        Then(done, StepSpec(lines[|lines| - 1], done.settings, done.out.next, failing, parse))
  }

  /** One more field after the first `i`, for each of the three chord
      opcodes. */
  lemma KeyFieldsSnoc(fields: seq<string>, i: nat, keydelay: nat, from: nat, failing: set<nat>)
    requires i < |fields|
    ensures var done := KeyFields(fields[..i], keydelay, from, failing);
      var last := KeyField(fields[i], keydelay, done.next, failing);
      KeyFields(fields[..i + 1], keydelay, from, failing) == Outcome(done.events + last.events, last.next)
  {
    assert fields[..i + 1][..i] == fields[..i];
  }

  lemma KeyDownFieldsSnoc(fields: seq<string>, i: nat, keydelay: nat, from: nat, failing: set<nat>)
    requires i < |fields|
    ensures var done := KeyDownFields(fields[..i], keydelay, from, failing);
      var last := KeyDownField(fields[i], keydelay, done.next, failing);
      KeyDownFields(fields[..i + 1], keydelay, from, failing) == Outcome(done.events + last.events, last.next)
  {
    assert fields[..i + 1][..i] == fields[..i];
  }

  lemma KeyUpFieldsSnoc(fields: seq<string>, i: nat, keydelay: nat, from: nat, failing: set<nat>)
    requires i < |fields|
    ensures var done := KeyUpFields(fields[..i], keydelay, from, failing);
      var last := KeyUpField(fields[i], keydelay, done.next, failing);
      KeyUpFields(fields[..i + 1], keydelay, from, failing) == Outcome(done.events + last.events, last.next)
  {
    assert fields[..i + 1][..i] == fields[..i];
  }

  /** One more character after the first `i`. */
  lemma TextSnoc(text: string, i: nat, typedelay: nat, from: nat, failing: set<nat>)
    requires i < |text|
    ensures var done := TextEffect(text[..i], typedelay, from, failing);
      var last := CharEffect(text[i], typedelay, done.next, failing);
      TextEffect(text[..i + 1], typedelay, from, failing) == Outcome(done.events + last.events, last.next)
  {
    assert text[..i + 1][..i] == text[..i];
  }

  /** What one more line adds to a session that has not panicked. */
  function Then(done: StepResult, last: StepResult): StepResult {
    StepResult(last.settings, Outcome(done.out.events + last.out.events, last.out.next), last.panic)
  }

  /** One more line after the first `i`. */
  lemma RunSnoc(lines: seq<string>, i: nat, s: Settings, from: nat, failing: set<nat>,
                parse: string -> Option<Float>)
    requires i < |lines|
    ensures var done := RunSpec(lines[..i], s, from, failing, parse);
      RunSpec(lines[..i + 1], s, from, failing, parse) ==
        if done.panic.Some? then done
        else Then(done, StepSpec(lines[i], done.settings, done.out.next, failing, parse))
  {
    assert lines[..i + 1][..i] == lines[..i];
  }

  /** Where the loop of run stops: after every line, or after the first line
      that panics. Either way the session is that of the lines it ran. */
  lemma RunStopped(lines: seq<string>, i: nat, s: Settings, from: nat,
                   failing: set<nat>, parse: string -> Option<Float>)
    requires i <= |lines|
    requires i < |lines| ==> RunSpec(lines[..i], s, from, failing, parse).panic.Some?
    ensures RunSpec(lines, s, from, failing, parse) == RunSpec(lines[..i], s, from, failing, parse)
  {
    if i < |lines| {
      PanicEndsSession(lines, i, s, from, failing, parse);
    } else {
      assert lines[..i] == lines;
    }
  }

  /** Once a line panics, the lines after it change nothing. */
  lemma {:induction false} PanicEndsSession(lines: seq<string>, i: nat, s: Settings, from: nat,
                                            failing: set<nat>, parse: string -> Option<Float>)
    requires i <= |lines|
    requires RunSpec(lines[..i], s, from, failing, parse).panic.Some?
    ensures RunSpec(lines, s, from, failing, parse) == RunSpec(lines[..i], s, from, failing, parse)
    decreases |lines| - i
  {
    if i < |lines| {
      var j := |lines| - 1;
      assert lines[..j][..i] == lines[..i];
      PanicEndsSession(lines[..j], i, s, from, failing, parse);
      RunSnoc(lines, j, s, from, failing, parse);
      assert lines[..j + 1] == lines;
    } else {
      assert lines[..i] == lines;
    }
  }
}
