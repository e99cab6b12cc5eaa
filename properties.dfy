/** What the lines of a session do, stated over the Effects specification:
    the calls and pauses of one chord, what a field or character that cannot
    be used costs, which lines change the delays, and which lines end the
    session. */
module Properties {
  import opened Wrappers
  import opened Keys
  import opened Device
  import opened Chords
  import opened Parser
  import opened Translator
  import opened Lines
  import opened Effects

  /** Pressing or releasing a list of keys takes one call per key. */
  lemma {:induction false} PressesLength(ks: seq<KeyId>)
    ensures |Presses(ks)| == |ks| && |Releases(ks)| == |ks| && |Reversed(ks)| == |ks|
  {
    if ks != [] {
      PressesLength(ks[1..]);
    }
  }

  /** Every call key_down plans is a press or the closing synchronize. */
  lemma {:induction false} OnlyPresses(ks: seq<KeyId>)
    ensures forall e :: e in Presses(ks) ==> e.Press?
  {
    if ks != [] {
      OnlyPresses(ks[1..]);
    }
  }

  /** When none of its calls fails, a chord goes down in full: the
      modifiers, the key and a synchronize, m + 2 calls for m modifiers. */
  lemma DownRunsWhole(c: Chord, from: nat, failing: set<nat>)
    requires forall i :: from <= i < from + |ModifierKeys(c)| + 2 ==> i !in failing
    ensures Perform(DownCalls(c), from, failing)
      == Attempt(Presses(ModifierKeys(c)) + [Press(c.key), Sync], from + |ModifierKeys(c)| + 2, true)
  {
    DownPressesModifiersThenKey(c);
    PressesLength(ModifierKeys(c));
    PerformStopsAtFirstFailure(DownCalls(c), from, failing);
  }

  /** ... and up in full: the key, the modifiers in reverse and a
      synchronize, again m + 2 calls. */
  lemma UpRunsWhole(c: Chord, from: nat, failing: set<nat>)
    requires forall i :: from <= i < from + |ModifierKeys(c)| + 2 ==> i !in failing
    ensures Perform(UpCalls(c), from, failing)
      == Attempt([Release(c.key)] + Releases(Reversed(ModifierKeys(c))) + [Sync], from + |ModifierKeys(c)| + 2, true)
  {
    UpReleasesKeyThenModifiersReversed(c);
    PressesLength(ModifierKeys(c));
    PressesLength(Reversed(ModifierKeys(c)));
    PerformStopsAtFirstFailure(UpCalls(c), from, failing);
  }

  /** A whole chord, down and then up: 2m + 4 calls. */
  lemma ChordRunsWhole(c: Chord, from: nat, failing: set<nat>)
    requires forall i :: from <= i < from + 2 * |ModifierKeys(c)| + 4 ==> i !in failing
    ensures var mid := from + |ModifierKeys(c)| + 2;
      && Perform(DownCalls(c), from, failing)
         == Attempt(Presses(ModifierKeys(c)) + [Press(c.key), Sync], mid, true)
      && Perform(UpCalls(c), mid, failing)
         == Attempt([Release(c.key)] + Releases(Reversed(ModifierKeys(c))) + [Sync],
                    from + 2 * |ModifierKeys(c)| + 4, true)
  {
    var mid := from + |ModifierKeys(c)| + 2;
    assert forall i :: from <= i < mid ==> i !in failing;
    assert forall i :: mid <= i < mid + |ModifierKeys(c)| + 2 ==> i !in failing;
    DownRunsWhole(c, from, failing);
    UpRunsWhole(c, mid, failing);
  }

  /** How the events of a chord that runs whole line up with its pauses. */
  lemma KeyLayout(p: seq<Event>, r: seq<Event>, key: KeyId, hold: nat, delay: nat)
    ensures (p + [Press(key), Sync]) + [] + [Sleep(hold)] + ([Release(key)] + r + [Sync]) + [] + [Sleep(delay)]
      == p + [Press(key), Sync, Sleep(hold), Release(key)] + r + [Sync, Sleep(delay)]
  {
  }

  lemma TypeLayout(p: seq<Event>, r: seq<Event>, key: KeyId, hold: nat, delay: nat)
    ensures (p + [Press(key), Sync]) + [Sleep(hold)] + ([Release(key)] + r + [Sync]) + [] + [Sleep(delay)]
      == p + [Press(key), Sync, Sleep(hold), Release(key)] + r + [Sync, Sleep(delay)]
  {
  }

  /** A `key` chord when no call fails: down, the hold of 8 ms, up, then the
      key delay, and no warning. */
  lemma KeyChordWhenNoCallFails(c: Chord, keydelay: nat, from: nat, failing: set<nat>)
    requires forall i :: from <= i < from + 2 * |ModifierKeys(c)| + 4 ==> i !in failing
    ensures KeyEffect(c, keydelay, from, failing) ==
      Outcome(Presses(ModifierKeys(c)) + [Press(c.key), Sync, Sleep(8), Release(c.key)]
              + Releases(Reversed(ModifierKeys(c))) + [Sync, Sleep(keydelay)],
              from + 2 * |ModifierKeys(c)| + 4)
  {
    ChordRunsWhole(c, from, failing);
    assert WarnIf(false, "key down error") == [] && WarnIf(false, "key up error") == [];
    KeyLayout(Presses(ModifierKeys(c)), Releases(Reversed(ModifierKeys(c))), c.key, KeyHold, keydelay);
  }

  /** A `key` chord whose key_down fails: the failure is reported, and the
      hold and key_up still follow; key_up makes at least one call. */
  lemma KeyChordAfterFailedDown(c: Chord, keydelay: nat, from: nat, failing: set<nat>)
    requires !Perform(DownCalls(c), from, failing).ok
    ensures var down := Perform(DownCalls(c), from, failing);
      var e := KeyEffect(c, keydelay, from, failing);
      && e.events[..|down.events| + 2] == down.events + [Warn("key down error"), Sleep(KeyHold)]
      && e.events[|e.events| - 1] == Sleep(keydelay)
      && e.next > down.next
  {
    var down := Perform(DownCalls(c), from, failing);
    PerformStopsAtFirstFailure(UpCalls(c), down.next, failing);
    var e := KeyEffect(c, keydelay, from, failing);
    assert e.events[..|down.events| + 2] == (down.events + [Warn("key down error"), Sleep(KeyHold)] + []) [..|down.events| + 2];
  }

  /** A `type` character whose key_down fails: the failure is reported and
      the character ends there, with no hold, no release and no delay. */
  lemma TypeCharAfterFailedDown(ch: char, typedelay: nat, from: nat, failing: set<nat>)
    requires CharToChord(ch).Some?
    requires !Perform(DownCalls(CharToChord(ch).value), from, failing).ok
    ensures var down := Perform(DownCalls(CharToChord(ch).value), from, failing);
      CharEffect(ch, typedelay, from, failing) == Outcome(down.events + [Warn("type error")], down.next)
    ensures forall e :: e in CharEffect(ch, typedelay, from, failing).events ==>
      e.Press? || e.Sync? || e.Warn?
  {
    var c := CharToChord(ch).value;
    var down := Perform(DownCalls(c), from, failing);
    PerformStopsAtFirstFailure(DownCalls(c), from, failing);
    DownPressesModifiersThenKey(c);
    OnlyPresses(ModifierKeys(c));
    forall e | e in down.events
      ensures e.Press? || e.Sync?
    {
      var i :| 0 <= i < |down.events| && down.events[i] == e;
      assert e == DownCalls(c)[i];
    }
  }

  /** A `type` character when no call fails: down, the hold of 8 ms, up,
      then the type delay. */
  lemma TypeCharWhenNoCallFails(ch: char, typedelay: nat, from: nat, failing: set<nat>)
    requires CharToChord(ch).Some?
    requires forall i :: from <= i < from + 2 * |ModifierKeys(CharToChord(ch).value)| + 4 ==> i !in failing
    ensures var c := CharToChord(ch).value;
      CharEffect(ch, typedelay, from, failing) ==
        Outcome(Presses(ModifierKeys(c)) + [Press(c.key), Sync, Sleep(8), Release(c.key)]
                + Releases(Reversed(ModifierKeys(c))) + [Sync, Sleep(typedelay)],
                from + 2 * |ModifierKeys(c)| + 4)
  {
    var c := CharToChord(ch).value;
    ChordRunsWhole(c, from, failing);
    assert WarnIf(false, "type error") == [];
    TypeLayout(Presses(ModifierKeys(c)), Releases(Reversed(ModifierKeys(c))), c.key, TypeHold, typedelay);
  }

  /** The fields of a `key` line run one after another: the fields of
      `a + b` do what those of `a` do and then what those of `b` do, from
      the call after. */
  lemma KeyFieldsAppend(a: seq<string>, b: seq<string>, keydelay: nat, from: nat, failing: set<nat>)
    ensures var first := KeyFields(a, keydelay, from, failing);
      var second := KeyFields(b, keydelay, first.next, failing);
      KeyFields(a + b, keydelay, from, failing) == Outcome(first.events + second.events, second.next)
  {
    var step := (f, n) => KeyField(f, keydelay, n, failing);
    KeyFieldsIsFold(a + b, keydelay, from, failing);
    KeyFieldsIsFold(a, keydelay, from, failing);
    KeyFieldsIsFold(b, keydelay, KeyFields(a, keydelay, from, failing).next, failing);
    FoldAppend(a, b, step, from);
  }

  lemma {:induction false} KeyFieldsIsFold(fields: seq<string>, keydelay: nat, from: nat, failing: set<nat>)
    ensures KeyFields(fields, keydelay, from, failing) == Fold(fields, (f, n) => KeyField(f, keydelay, n, failing), from)
    decreases |fields|
  {
    if fields != [] {
      KeyFieldsIsFold(fields[..|fields| - 1], keydelay, from, failing);
    }
  }

  /** A field of a `key` line that does not parse only adds its warning: the
      fields before and after it run as if it were not there. */
  lemma BadKeyFieldOnlyWarns(before: seq<string>, field: string, after: seq<string>,
                             keydelay: nat, from: nat, failing: set<nat>)
    requires ParseChord(field).Err?
    ensures var first := KeyFields(before, keydelay, from, failing);
      var rest := KeyFields(after, keydelay, first.next, failing);
      KeyFields(before + [field] + after, keydelay, from, failing)
        == Outcome(first.events + [Warn(Message(ParseChord(field).error))] + rest.events, rest.next)
  {
    var first := KeyFields(before, keydelay, from, failing);
    KeyFieldsAppend(before + [field], after, keydelay, from, failing);
    KeyFieldsAppend(before, [field], keydelay, from, failing);
    assert [field][..0] == [];
  }

  lemma KeyDownFieldsAppend(a: seq<string>, b: seq<string>, keydelay: nat, from: nat, failing: set<nat>)
    ensures var first := KeyDownFields(a, keydelay, from, failing);
      var second := KeyDownFields(b, keydelay, first.next, failing);
      KeyDownFields(a + b, keydelay, from, failing) == Outcome(first.events + second.events, second.next)
  {
    var step := (f, n) => KeyDownField(f, keydelay, n, failing);
    KeyDownFieldsIsFold(a + b, keydelay, from, failing);
    KeyDownFieldsIsFold(a, keydelay, from, failing);
    KeyDownFieldsIsFold(b, keydelay, KeyDownFields(a, keydelay, from, failing).next, failing);
    FoldAppend(a, b, step, from);
  }

  lemma {:induction false} KeyDownFieldsIsFold(fields: seq<string>, keydelay: nat, from: nat, failing: set<nat>)
    ensures KeyDownFields(fields, keydelay, from, failing) == Fold(fields, (f, n) => KeyDownField(f, keydelay, n, failing), from)
    decreases |fields|
  {
    if fields != [] {
      KeyDownFieldsIsFold(fields[..|fields| - 1], keydelay, from, failing);
    }
  }

  /** The same for a `keydown` line. */
  lemma BadKeyDownFieldOnlyWarns(before: seq<string>, field: string, after: seq<string>,
                                 keydelay: nat, from: nat, failing: set<nat>)
    requires ParseChord(field).Err?
    ensures var first := KeyDownFields(before, keydelay, from, failing);
      var rest := KeyDownFields(after, keydelay, first.next, failing);
      KeyDownFields(before + [field] + after, keydelay, from, failing)
        == Outcome(first.events + [Warn(Message(ParseChord(field).error))] + rest.events, rest.next)
  {
    KeyDownFieldsAppend(before + [field], after, keydelay, from, failing);
    KeyDownFieldsAppend(before, [field], keydelay, from, failing);
    assert [field][..0] == [];
  }

  lemma KeyUpFieldsAppend(a: seq<string>, b: seq<string>, keydelay: nat, from: nat, failing: set<nat>)
    ensures var first := KeyUpFields(a, keydelay, from, failing);
      var second := KeyUpFields(b, keydelay, first.next, failing);
      KeyUpFields(a + b, keydelay, from, failing) == Outcome(first.events + second.events, second.next)
  {
    var step := (f, n) => KeyUpField(f, keydelay, n, failing);
    KeyUpFieldsIsFold(a + b, keydelay, from, failing);
    KeyUpFieldsIsFold(a, keydelay, from, failing);
    KeyUpFieldsIsFold(b, keydelay, KeyUpFields(a, keydelay, from, failing).next, failing);
    FoldAppend(a, b, step, from);
  }

  lemma {:induction false} KeyUpFieldsIsFold(fields: seq<string>, keydelay: nat, from: nat, failing: set<nat>)
    ensures KeyUpFields(fields, keydelay, from, failing) == Fold(fields, (f, n) => KeyUpField(f, keydelay, n, failing), from)
    decreases |fields|
  {
    if fields != [] {
      KeyUpFieldsIsFold(fields[..|fields| - 1], keydelay, from, failing);
    }
  }

  /** The same for a `keyup` line. */
  lemma BadKeyUpFieldOnlyWarns(before: seq<string>, field: string, after: seq<string>,
                               keydelay: nat, from: nat, failing: set<nat>)
    requires ParseChord(field).Err?
    ensures var first := KeyUpFields(before, keydelay, from, failing);
      var rest := KeyUpFields(after, keydelay, first.next, failing);
      KeyUpFields(before + [field] + after, keydelay, from, failing)
        == Outcome(first.events + [Warn(Message(ParseChord(field).error))] + rest.events, rest.next)
  {
    KeyUpFieldsAppend(before + [field], after, keydelay, from, failing);
    KeyUpFieldsAppend(before, [field], keydelay, from, failing);
    assert [field][..0] == [];
  }

  /** The characters of a `type` line run one after another. */
  lemma TextAppend(a: string, b: string, typedelay: nat, from: nat, failing: set<nat>)
    ensures var first := TextEffect(a, typedelay, from, failing);
      var second := TextEffect(b, typedelay, first.next, failing);
      TextEffect(a + b, typedelay, from, failing) == Outcome(first.events + second.events, second.next)
  {
    var step := (ch, n) => CharEffect(ch, typedelay, n, failing);
    TextIsFold(a + b, typedelay, from, failing);
    TextIsFold(a, typedelay, from, failing);
    TextIsFold(b, typedelay, TextEffect(a, typedelay, from, failing).next, failing);
    FoldAppend(a, b, step, from);
  }

  lemma {:induction false} TextIsFold(t: string, typedelay: nat, from: nat, failing: set<nat>)
    ensures TextEffect(t, typedelay, from, failing) == Fold(t, (ch, n) => CharEffect(ch, typedelay, n, failing), from)
    decreases |t|
  {
    if t != [] {
      TextIsFold(t[..|t| - 1], typedelay, from, failing);
    }
  }

  /** A character the table lacks only adds its warning, which names it; the
      characters around it are typed as if it were not there. */
  lemma UntypeableCharOnlyWarns(before: string, ch: char, after: string, typedelay: nat, from: nat, failing: set<nat>)
    requires CharToChord(ch).None?
    ensures var first := TextEffect(before, typedelay, from, failing);
      var rest := TextEffect(after, typedelay, first.next, failing);
      TextEffect(before + [ch] + after, typedelay, from, failing)
        == Outcome(first.events + [Warn("cannot type character: " + [ch])] + rest.events, rest.next)
  {
    TextAppend(before + [ch], after, typedelay, from, failing);
    TextAppend(before, [ch], typedelay, from, failing);
    assert [ch][..0] == [];
  }

  /** A line of nothing but whitespace does nothing (main.rs:368-372). */
  lemma BlankLineIsNoOp(line: string, s: Settings, from: nat, failing: set<nat>, parse: string -> Option<Float>)
    requires forall i :: 0 <= i < |line| ==> IsWhitespace(line[i])
    ensures StepSpec(line, s, from, failing, parse) == StepResult(s, Outcome([], from), None)
  {
    BlankExactly(line);
  }

  /** The six opcodes of the match; every other word is unknown, including
      the two hold settings the usage text lists (main.rs:87, 89). */
  lemma DecodeExactly(op: string)
    ensures Decode(op) == Unknown <==> op !in {"key", "keydown", "keyup", "keydelay", "type", "typedelay"}
    ensures Decode("keyhold") == Unknown && Decode("typehold") == Unknown
  {
  }

  /** The line a command comes from decides nothing but the command: a line
      that is not blank does what its opcode, fields and remainder say. */
  lemma StepOfCommand(line: string, s: Settings, from: nat, failing: set<nat>, parse: string -> Option<Float>)
    requires Tokenize(line).Command?
    ensures var cmd := Tokenize(line);
      StepSpec(line, s, from, failing, parse) == CommandSpec(line, cmd.op, cmd.fields, cmd.remainder, s, from, failing, parse)
  {
  }

  /** A command panics exactly when its opcode is unknown, or when it is one
      of the three opcodes that read the raw remainder and nothing follows the
      opcode; a command that panics does nothing else. */
  lemma CommandPanics(line: string, op: string, fields: seq<string>, remainder: Option<string>,
                      s: Settings, from: nat, failing: set<nat>, parse: string -> Option<Float>)
    ensures var r := CommandSpec(line, op, fields, remainder, s, from, failing, parse);
      && (r.panic.Some? <==>
            (|| Decode(op) == Unknown
             || (Decode(op) in {KeyDelayOp, TypeOp, TypeDelayOp} && remainder.None?)))
      && (r.panic.Some? ==> r.settings == s && r.out == Outcome([], from))
  {
    CommandArms(line, op, fields, remainder, s, from, failing, parse);
  }

  /** The same for a line: only a line that is not blank can panic. */
  lemma PanicsExactly(line: string, s: Settings, from: nat, failing: set<nat>, parse: string -> Option<Float>)
    ensures var r := StepSpec(line, s, from, failing, parse);
      && (r.panic.Some? <==>
            Tokenize(line).Command? &&
            (|| Decode(Tokenize(line).op) == Unknown
             || (Decode(Tokenize(line).op) in {KeyDelayOp, TypeOp, TypeDelayOp} && Tokenize(line).remainder.None?)))
      && (r.panic.Some? ==> r.settings == s && r.out == Outcome([], from))
  {
    match Tokenize(line)
    case Blank =>
    case Command(op, fields, remainder) =>
      StepOfCommand(line, s, from, failing, parse);
      CommandPanics(line, op, fields, remainder, s, from, failing, parse);
  }

  /** Only a `keydelay` command changes the key delay and only a `typedelay`
      command the type delay. */
  lemma CommandSettings(line: string, op: string, fields: seq<string>, remainder: Option<string>,
                        s: Settings, from: nat, failing: set<nat>, parse: string -> Option<Float>)
    ensures var r := CommandSpec(line, op, fields, remainder, s, from, failing, parse);
      && (Decode(op) != KeyDelayOp ==> r.settings.keydelay == s.keydelay)
      && (Decode(op) != TypeDelayOp ==> r.settings.typedelay == s.typedelay)
  {
    CommandArms(line, op, fields, remainder, s, from, failing, parse);
  }

  /** The same for lines. */
  lemma OnlyDelayLinesChangeSettings(line: string, s: Settings, from: nat, failing: set<nat>,
                                     parse: string -> Option<Float>)
    ensures var r := StepSpec(line, s, from, failing, parse);
      && (r.settings.keydelay != s.keydelay ==> Tokenize(line).Command? && Decode(Tokenize(line).op) == KeyDelayOp)
      && (r.settings.typedelay != s.typedelay ==> Tokenize(line).Command? && Decode(Tokenize(line).op) == TypeDelayOp)
  {
    match Tokenize(line)
    case Blank =>
    case Command(op, fields, remainder) =>
      StepOfCommand(line, s, from, failing, parse);
      CommandSettings(line, op, fields, remainder, s, from, failing, parse);
  }

  /** A `keydelay` command with a payload makes no device call and changes
      only the key delay: to the parsed value, or not at all and with a
      warning that quotes the line when the payload does not parse. */
  lemma KeyDelayCommandEffect(line: string, fields: seq<string>, remainder: string, s: Settings, from: nat, failing: set<nat>,
                              parse: string -> Option<Float>)
    ensures var r := CommandSpec(line, "keydelay", fields, Some(remainder), s, from, failing, parse);
      var v := DelayValue(remainder, parse);
      && r.panic.None? && r.out.next == from
      && r.settings == (if v.Some? then s.(keydelay := v.value) else s)
      && r.out.events == (if v.Some? then [] else [Warn("invalid delay: " + TrimStart(line))])
  {
    CommandArms(line, "keydelay", fields, Some(remainder), s, from, failing, parse);
  }

  /** The same for a `typedelay` command and the type delay. */
  lemma TypeDelayCommandEffect(line: string, fields: seq<string>, remainder: string, s: Settings, from: nat, failing: set<nat>,
                               parse: string -> Option<Float>)
    ensures var r := CommandSpec(line, "typedelay", fields, Some(remainder), s, from, failing, parse);
      var v := DelayValue(remainder, parse);
      && r.panic.None? && r.out.next == from
      && r.settings == (if v.Some? then s.(typedelay := v.value) else s)
      && r.out.events == (if v.Some? then [] else [Warn("invalid delay: " + TrimStart(line))])
  {
    CommandArms(line, "typedelay", fields, Some(remainder), s, from, failing, parse);
  }

  /** `keyhold` and `typehold` are listed in the usage text but have no arm,
      so a line that tries to set a hold time ends the session, whatever
      follows the opcode. */
  lemma HoldLinesPanic(line: string, s: Settings, from: nat, failing: set<nat>, parse: string -> Option<Float>)
    requires Tokenize(line).Command? && Tokenize(line).op in {"keyhold", "typehold"}
    ensures StepSpec(line, s, from, failing, parse) == StepResult(s, Outcome([], from), Some(UnknownOperation))
  {
    var cmd := Tokenize(line);
    HoldOpsUnknown(cmd.op);
    StepOfCommand(line, s, from, failing, parse);
    CommandArms(line, cmd.op, cmd.fields, cmd.remainder, s, from, failing, parse);
  }

  /** Neither hold opcode is one the dispatch knows. */
  lemma HoldOpsUnknown(op: string)
    requires op in {"keyhold", "typehold"}
    ensures Decode(op) == Unknown
  {
  }

  /** An opcode that needs a payload and ends the line panics, each with its
      own message. */
  lemma MissingPayloads(line: string, s: Settings, from: nat, failing: set<nat>, parse: string -> Option<Float>)
    requires IsWord(TrimStart(line)) && Decode(TrimStart(line)) in {KeyDelayOp, TypeOp, TypeDelayOp}
    ensures StepSpec(line, s, from, failing, parse) ==
      StepResult(s, Outcome([], from), Some(MissingPayload(Decode(TrimStart(line)))))
  {
    OpcodeAlone(line);
    StepOfCommand(line, s, from, failing, parse);
    MissingPayloadCommand(line, TrimStart(line), [], s, from, failing, parse);
  }

  /** The panic of each opcode that reads the raw remainder when there is
      none. */
  function MissingPayload(op: Opcode): Panic {
    match op
    case KeyDelayOp => DelayMissing
    case TypeOp => MissingString
    case _ => MissingTypedelay
  }

  lemma MissingPayloadCommand(line: string, op: string, fields: seq<string>,
                              s: Settings, from: nat, failing: set<nat>, parse: string -> Option<Float>)
    requires Decode(op) in {KeyDelayOp, TypeOp, TypeDelayOp}
    ensures CommandSpec(line, op, fields, None, s, from, failing, parse) ==
      StepResult(s, Outcome([], from), Some(MissingPayload(Decode(op))))
  {
    CommandArms(line, op, fields, None, s, from, failing, parse);
  }

  /** One whitespace character after `type` is enough to avoid that panic,
      and then there is nothing to type. */
  lemma TrailingSpaceTypesNothing(sep: char, s: Settings, from: nat, failing: set<nat>, parse: string -> Option<Float>)
    requires IsWhitespace(sep)
    ensures StepSpec("type" + [sep], s, from, failing, parse) == StepResult(s, Outcome([], from), None)
  {
    TypeAndSeparator(sep);
    StepOfCommand("type" + [sep], s, from, failing, parse);
    TypeEmpty("type" + [sep], s, from, failing, parse);
  }

  lemma TypeAndSeparator(sep: char)
    requires IsWhitespace(sep)
    ensures Tokenize("type" + [sep]) == Command("type", [], Some([]))
  {
    assert IsWord("type");
    OpcodeAndSeparator("type", sep);
  }

  /** `type` with an empty remainder types nothing. */
  lemma TypeEmpty(line: string, s: Settings, from: nat, failing: set<nat>, parse: string -> Option<Float>)
    ensures CommandSpec(line, "type", [], Some([]), s, from, failing, parse) == StepResult(s, Outcome([], from), None)
  {
    CommandArms(line, "type", [], Some([]), s, from, failing, parse);
  }

  /** `key ctrl+c` on a device where no call fails: ctrl and c go down, the
      hold, c and ctrl come up, the key delay; six device calls. */
  lemma KeyCtrlCLine(sep: char, s: Settings, from: nat, failing: set<nat>, parse: string -> Option<Float>)
    requires IsWhitespace(sep)
    requires forall i :: from <= i < from + 6 ==> i !in failing
    ensures StepSpec("key" + [sep] + "ctrl+c", s, from, failing, parse) ==
      StepResult(s, Outcome([Press(LeftControl), Press(C), Sync, Sleep(8), Release(C), Release(LeftControl), Sync,
                             Sleep(s.keydelay)], from + 6), None)
  {
    assert IsWord("ctrl+c");
    CtrlCExample();
    KeyLineOfChord(sep, "ctrl+c", NewChord(C).(ctrl := true), s, from, failing, parse);
    CtrlCEffect(s.keydelay, from, failing);
  }

  /** A `key` line of one token that parses does what its chord does. */
  lemma KeyLineOfChord(sep: char, field: string, c: Chord, s: Settings, from: nat, failing: set<nat>,
                       parse: string -> Option<Float>)
    requires IsWhitespace(sep) && IsWord(field) && ParseChord(field) == Ok(c)
    ensures StepSpec("key" + [sep] + field, s, from, failing, parse) ==
      StepResult(s, KeyEffect(c, s.keydelay, from, failing), None)
  {
    KeyLineOfOneField(sep, field, s, from, failing, parse);
  }

  lemma CtrlCEffect(keydelay: nat, from: nat, failing: set<nat>)
    requires forall i :: from <= i < from + 6 ==> i !in failing
    ensures KeyEffect(NewChord(C).(ctrl := true), keydelay, from, failing) ==
      Outcome([Press(LeftControl), Press(C), Sync, Sleep(8), Release(C), Release(LeftControl), Sync, Sleep(keydelay)], from + 6)
  {
    var c := NewChord(C).(ctrl := true);
    CtrlAlone();
    KeyChordWhenNoCallFails(c, keydelay, from, failing);
    assert [Press(LeftControl)] + [Press(C), Sync, Sleep(KeyHold), Release(C)] + [Release(LeftControl)] + [Sync, Sleep(keydelay)]
        == [Press(LeftControl), Press(C), Sync, Sleep(8), Release(C), Release(LeftControl), Sync, Sleep(keydelay)];
  }

  /** Left control is the one modifier key of ctrl+c. */
  lemma CtrlAlone()
    ensures var mods := ModifierKeys(NewChord(C).(ctrl := true));
      && mods == [LeftControl]
      && Presses(mods) == [Press(LeftControl)]
      && Releases(Reversed(mods)) == [Release(LeftControl)]
  {
    assert Presses([LeftControl]) == [Press(LeftControl)];
    assert Releases(Reversed([LeftControl])) == [Release(LeftControl)];
  }

  /** A `key` line of one field does what that field does. */
  lemma KeyLineOfOneField(sep: char, field: string, s: Settings, from: nat, failing: set<nat>,
                          parse: string -> Option<Float>)
    requires IsWhitespace(sep) && IsWord(field)
    ensures StepSpec("key" + [sep] + field, s, from, failing, parse) ==
      StepResult(s, KeyField(field, s.keydelay, from, failing), None)
  {
    var line := "key" + [sep] + field;
    assert IsWord("key");
    TwoWords("key", sep, field);
    StepOfCommand(line, s, from, failing, parse);
    CommandArms(line, "key", [field], Some(field), s, from, failing, parse);
    OneKeyField(field, s.keydelay, from, failing);
  }

  /** One field alone runs as itself. */
  lemma OneKeyField(field: string, keydelay: nat, from: nat, failing: set<nat>)
    ensures KeyFields([field], keydelay, from, failing) == KeyField(field, keydelay, from, failing)
  {
    var fs := [field];
    assert fs[..0] == [] && fs[0] == field;
    assert Outcome([] + KeyField(field, keydelay, from, failing).events, KeyField(field, keydelay, from, failing).next)
        == KeyField(field, keydelay, from, failing);
  }

  /** A `keyhold` line ends the session: no line after it runs. */
  lemma KeyholdEndsSession(n: string, rest: seq<string>, s: Settings, from: nat, failing: set<nat>,
                           parse: string -> Option<Float>)
    requires IsWord(n)
    ensures RunSpec(["keyhold " + n] + rest, s, from, failing, parse) == StepResult(s, Outcome([], from), Some(UnknownOperation))
  {
    var lines := ["keyhold " + n] + rest;
    assert IsWord("keyhold");
    assert "keyhold " + n == "keyhold" + [' '] + n;
    TwoWords("keyhold", ' ', n);
    HoldLinesPanic("keyhold " + n, s, from, failing, parse);
    RunSnoc(lines, 0, s, from, failing, parse);
    assert lines[..0] == [];
    assert Outcome([] + [], from) == Outcome([], from);
    PanicEndsSession(lines, 1, s, from, failing, parse);
  }

  /** A non-empty `b` ends with its last element, after `a` as well. */
  lemma SplitLast<T>(a: seq<T>, b: seq<T>)
    requires b != []
    ensures a + b == (a + b[..|b| - 1]) + [b[|b| - 1]]
    ensures b == b[..|b| - 1] + [b[|b| - 1]]
  {
  }

  /** Running a step over items one after another, each from the call the
      previous one left. */
  function Fold<T>(items: seq<T>, step: (T, nat) -> Outcome, from: nat): Outcome
    decreases |items|
  {
    if items == [] then Outcome([], from)
    else
      var done := Fold(items[..|items| - 1], step, from);
      var last := step(items[|items| - 1], done.next);
      Outcome(done.events + last.events, last.next)
  }

  lemma {:induction false} FoldAppend<T>(a: seq<T>, b: seq<T>, step: (T, nat) -> Outcome, from: nat)
    ensures var first := Fold(a, step, from);
      var second := Fold(b, step, first.next);
      Fold(a + b, step, from) == Outcome(first.events + second.events, second.next)
    decreases |b|
  {
    var first := Fold(a, step, from);
    if b == [] {
      assert a + b == a;
      assert first.events + [] == first.events;
    } else {
      var init := b[..|b| - 1];
      SplitLast(a, b);
      assert (a + b)[..|a + b| - 1] == a + init;
      FoldAppend(a, init, step, from);
      var mid := Fold(init, step, first.next);
      var last := step(b[|b| - 1], mid.next);
      assert first.events + mid.events + last.events == first.events + (mid.events + last.events);
    }
  }
}
