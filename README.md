# rdotool command interpreter, in Dafny

rdotool reads actions from standard input, one per line, and replays them on a
virtual uinput keyboard. This project models the core of `main.rs`:

- the `Chord` record and its `key_down` / `key_up` device sequences;
- `parse_chord`, which turns a token such as `ctrl+shift+a` into a chord;
- `char_to_chord`, which turns one character of a `type` line into a chord;
- `init_linux_keys`, the fixed registry of key names;
- the per-line loop of `run`: the opcodes `key`, `keydown`, `keyup`,
  `keydelay`, `type` and `typedelay`, the two mutable delays (both 2 ms at
  start), the two fixed hold times (8 ms), warnings, and the panics that end
  a session.

The device is a class that records a trace of `Press`, `Release` and `Sync`
events. Every device call is numbered, and a set of call numbers
(`failing`) says which calls fail. The interpreter also writes its pauses
(`Sleep(ms)`) and warnings (`Warn(text)`) into the same trace, so the trace
is the whole observable order of a session.

The model has two layers:

- **Values.** `Effects.KeyEffect`, `KeyFields`, `CharEffect`, `TextEffect`,
  `CommandSpec`, `StepSpec` and `RunSpec` say what a chord, a field, a
  character, a command, a line and a sequence of lines append to the trace.
  They also give the next call number, the new delays and any panic.
- **Imperative code.** The class `Interpreter.Interpreter` runs lines with
  loops and in-place updates of `keydelay` and `typedelay`. Each of its
  methods is proved to do exactly what the value layer says.

The properties are proved in `Chords`, `Parser`, `Translator`, `Lines` and
`Properties`.

Modules (one file each):

- `Wrappers`: Option and Result.
- `Keys`: the registry.
- `Device`: the device, `Perform`.
- `Chords`: chords, key_down and key_up.
- `Parser`: parse_chord.
- `Translator`: char_to_chord.
- `Lines`: trim_start and split_whitespace.
- `Effects`: the value layer.
- `Interpreter`: the class.
- `Properties`: lemmas about a session.

Where the code and its documentation disagree, the model follows the code:

- `key_down` and `key_up` stop at the first failing device call, because
  every call is followed by `?`. They are not best-effort.
- `parse_chord("")` and `parse_chord("+")` fail with "impossible key for
  layout", not "empty chord". `split('+')` always yields at least one piece,
  so the "empty chord" branch is dead.
- `keyhold` and `typehold` appear in the usage text, but the dispatch has
  no arm for them. Such a line panics with "Unknown operation", so the hold
  times can never change.

## Model

| member | source | states |
|---|---|---|
| Keys.LetterNames | main.rs:155-180 | every lower-case ASCII letter is a registry name on its own |
| Keys.DigitNames | main.rs:181-190 | every ASCII digit is a registry name on its own |
| Keys.WhitespaceKeys | main.rs:215-218 | "space", "enter" and "tab" name Space, Enter and Tab |
| Keys.MinusKey | main.rs:246 | "minus" names Minus |
| Keys.EqualKey | main.rs:247 | "equal" names Equal |
| Keys.LeftBraceKey | main.rs:248 | "leftbrace" names LeftBrace |
| Keys.RightBraceKey | main.rs:249 | "rightbrace" names RightBrace |
| Keys.SemiColonKey | main.rs:250 | "semicolon" names SemiColon |
| Keys.ApostropheKey | main.rs:251 | "apostrophe" names Apostrophe |
| Keys.GraveKey | main.rs:252 | "grave" names Grave |
| Keys.BackSlashKey | main.rs:253 | "backslash" names BackSlash |
| Keys.CommaKey | main.rs:254 | "comma" names Comma |
| Keys.DotKey | main.rs:255 | "dot" names Dot |
| Keys.SlashKey | main.rs:256 | "slash" names Slash |
| Keys.LowDigitKeys | main.rs:181-185 | "0" to "4" name Digit0 to Digit4 |
| Keys.HighDigitKeys | main.rs:186-190 | "5" to "9" name Digit5 to Digit9 |
| Device.PerformStopsAtFirstFailure | main.rs:34-74 | a `?` chain of calls runs whole exactly when none of its calls fails; otherwise it emits the prefix before the first failing call and consumes that call too |
| Device.PerformAppend | main.rs:34-74 | running two chains back to back runs the second only if the first ran whole |
| Device.PerformSnoc | main.rs:34-74 | one more call is attempted only after a whole run, and emits its event only if it succeeds |
| Device.PerformSnocIf | main.rs:35-49 | the same for a call guarded by a modifier flag |
| Device.Device.constructor | main.rs:349-356 | a fresh device has an empty trace, has made no call, and fails on the given call numbers |
| Device.Device.Press | main.rs:36 | one call: the Press event is recorded exactly when the call does not fail |
| Device.Device.Release | main.rs:56 | one call: the Release event is recorded exactly when the call does not fail |
| Device.Device.Synchronize | main.rs:51 | one call: the Sync event is recorded exactly when the call does not fail |
| Device.Device.Pause | main.rs:389 | a sleep is recorded in the trace and is not a device call |
| Device.Device.Report | main.rs:387 | a warning is recorded in the trace and is not a device call |
| Chords.NewChord | main.rs:23-32 | the key alone, with all five modifier flags clear |
| Chords.ModifierKeysMatchFlags | main.rs:34-49 | each modifier key is held exactly when its flag is set, so at most five are held |
| Chords.DownPressesModifiersThenKey | main.rs:34-53 | key_down presses LeftMeta, RightAlt, LeftControl, LeftAlt and LeftShift (those whose flag is set, in that order), then the key, then synchronizes |
| Chords.UpReleasesKeyThenModifiersReversed | main.rs:55-74 | key_up releases the key first, then the modifiers in the reverse of the press order, then synchronizes |
| Chords.DownPressesExactly | main.rs:34-53 | key_down presses exactly the chord's key and its held modifiers |
| Chords.UpReleasesExactly | main.rs:34-74 | key_up releases exactly the keys key_down presses, so a chord run whole leaves no key held |
| Chords.PressesAppend | main.rs:34-49 | pressing a list of keys in two parts presses them in order |
| Chords.ReleasesAppend | main.rs:57-71 | the same for releasing |
| Chords.ReversedAppend | main.rs:55-74 | the reverse of a joined list is the reversed parts swapped |
| Chords.PressesMembers | main.rs:34-49 | a key is pressed by a list exactly when it is in the list |
| Chords.ReleasesMembers | main.rs:57-71 | a key is released by a list exactly when it is in the list |
| Chords.ReversedMembers | main.rs:55-74 | reversing keeps the same members |
| Chords.InModifierKeys | main.rs:34-49 | a key is a held modifier exactly when it is the key of a set flag |
| Chords.KeyDown | main.rs:34-53 | key_down on the device: the trace grows by the calls made before the first failing one, the call counter moves past every attempted call, and `ok` says whether all ran |
| Chords.KeyUp | main.rs:55-74 | the same for key_up |
| Chords.CallIf | main.rs:35-51 | one step of a `?` chain: the call is made only when every earlier one succeeded and its flag is set |
| Parser.Split | main.rs:107 | split('+') yields at least one piece, and no piece holds a `+` |
| Parser.JoinSplit | main.rs:107 | splitting loses nothing: joining the pieces with `+` gives the token back |
| Parser.SplitJoin | main.rs:107 | splitting pieces joined with `+` gives the pieces back |
| Parser.SplitFront | main.rs:107 | a piece without `+` splits off the front of what follows it |
| Parser.BaseChord | main.rs:113-125 | the chord before modifiers: the looked-up key, with shift set exactly when the key piece is one upper-case letter, and no other flag |
| Parser.SetModifierMeaning | main.rs:128-135 | one modifier piece sets the flag its lowered name gives; a piece outside the vocabulary is refused |
| Parser.ApplyKnownModifiers | main.rs:127-136 | when every piece is a modifier, the loop sets exactly the flags their lowered names give |
| Parser.ApplyUnknownModifier | main.rs:127-136 | otherwise the loop stops at the first piece that is not a modifier and reports it as written |
| Parser.ApplyModifiersErrors | main.rs:127-136 | the modifier loop can only fail with "unknown modifier" |
| Parser.KeyLookedUpFirst | main.rs:113-118 | a token fails with "impossible key for layout", naming its last piece as written, exactly when that piece lowered is not in the registry, whatever the modifiers say |
| Parser.ParseKnownChord | main.rs:106-139 | a token with a known key and only modifier pieces parses to the key with exactly the named flags, plus the implied shift |
| Parser.ParseUnknownModifier | main.rs:127-136 | a token with a known key fails at its first unknown modifier piece |
| Parser.NeverEmptyChord | main.rs:109-111 | the "empty chord" error is never returned |
| Parser.EmptyKeyPiece | main.rs:107-118 | "" and "+" fail with "impossible key for layout" on the empty piece |
| Parser.NoEmptyName | main.rs:152-263 | no key is registered under the empty name |
| Parser.LeadingPiece | main.rs:107-113 | a leading modifier piece leaves the key piece alone and heads the modifier pieces |
| Parser.RepeatedModifier | main.rs:127-136 | naming a modifier twice parses the same as naming it once |
| Parser.ModifiersCommute | main.rs:127-136 | two modifiers may be named in either order |
| Parser.ModifierCaseInsensitive | main.rs:128 | modifier pieces are read without regard to ASCII case |
| Parser.SameModifier | main.rs:128-135 | a modifier piece may be replaced by any piece that sets the same flags |
| Parser.CtrlIsControl | main.rs:131 | "ctrl" and "control" set the same flag |
| Parser.CtrlSynonyms | main.rs:131 | "ctrl" is a modifier, and it sets the same flag as "control" on every chord |
| Parser.ImpliedShift | main.rs:113-125 | one upper-case letter gives the key of its lower-case letter with shift, with or without an explicit shift piece; the lower-case letter gives it without shift |
| Parser.OneModifier | main.rs:106-139 | a token of one modifier piece and a known key is that key's base chord with that modifier applied |
| Parser.UnknownModifierExample | main.rs:134 | "foo+a" fails with "unknown modifier: foo" |
| Parser.CtrlCExample | main.rs:106-139 | "ctrl+c" is the key C with ctrl held |
| Translator.TypeableExactly | main.rs:265-313 | every name in the table is registered, so a character gives a chord exactly when it is an ASCII letter, a digit or one of the listed symbols; every other character gives None |
| Translator.SymbolsRegistered | main.rs:270-309 | the names of the whitespace and punctuation entries are all registered, and the table covers exactly the listed symbols |
| Translator.SymbolNamesRegistered | main.rs:270-309 | every symbol's key name is in the registry |
| Translator.SymbolsCovered | main.rs:270-306 | the table has an entry for exactly the listed symbols |
| Translator.OnlyShift | main.rs:310-311 | only the shift flag is ever set, exactly as the table says |
| Translator.LettersAndDigits | main.rs:267-269 | a lower-case letter or digit types its own key without shift, the same chord as the one-character token |
| Translator.UpperCaseLetters | main.rs:268 | an upper-case letter types the key of its lower-case letter with shift, the same chord as the one-character token |
| Translator.ShiftedSymbols | main.rs:284-305 | each shifted symbol types the key of its unshifted partner on a US layout with shift; the partner is typed without shift |
| Translator.SameKeyName | main.rs:273-305 | a shifted symbol and its partner name the same key, the symbol with shift |
| Translator.SameKeyNameOfDigit | main.rs:285-294 | the same for the symbols above the digits |
| Translator.SameKeyNameOfPunctuation | main.rs:273-305 | the same for the other punctuation |
| Translator.ShiftOfSameKey | main.rs:309-312 | two characters with the same registered key name give the same chord up to shift |
| Lines.TrimStart | main.rs:368 | trim_start keeps a suffix that starts with a non-whitespace character |
| Lines.TrimStartDropsWhitespace | main.rs:368 | what trim_start drops is whitespace |
| Lines.TrimEnd | main.rs:426 | trim_end keeps a prefix that ends with a non-whitespace character, and drops only whitespace |
| Lines.WordEnd | main.rs:374 | a word ends at the first whitespace character |
| Lines.WordEndStopsAtWhitespace | main.rs:374 | a word holds no whitespace |
| Lines.FirstWord | main.rs:374-379 | a non-blank text starts with a word |
| Lines.WordsAreWords | main.rs:374 | split_whitespace yields only non-empty words without whitespace |
| Lines.BlankExactly | main.rs:368-372 | a line is skipped exactly when it is all whitespace |
| Lines.CommandWords | main.rs:374-379 | the opcode and the fields are the words of the line, and the opcode is never empty, so the "Invalid command" panic cannot happen |
| Lines.WordsAfterSeparator | main.rs:374 | one leading whitespace character does not change the words |
| Lines.RemainderFollowsOp | main.rs:374-376 | the remainder is present exactly when a whitespace character follows the opcode; the trimmed line is then the opcode, that character and the remainder |
| Lines.RemainderHoldsFields | main.rs:374-383 | the remainder holds the same words as the fields |
| Lines.WordEndOfWord | main.rs:374 | a word followed by whitespace ends where the whitespace starts |
| Lines.LeadingWord | main.rs:374-376 | a line that starts with a word has that word as its opcode, the words after it as fields, and the text after the next character as remainder |
| Lines.SingleWord | main.rs:374 | a word alone splits into itself |
| Lines.TwoWords | main.rs:374-376 | an opcode, one whitespace character and a word: one field, which is also the remainder |
| Lines.OpcodeAlone | main.rs:374-376 | a line whose only word is its opcode has no fields and no remainder |
| Lines.OpcodeAndSeparator | main.rs:374-376 | an opcode followed by one whitespace character has an empty remainder |
| Effects.MillisTruncates | main.rs:427 | `d as u64` drops the fraction of a number in range, gives 0 for a negative number and saturates at the u64 maximum |
| Effects.RunStopped | main.rs:366-461 | the session is that of the lines the loop ran: all of them, or those up to the first panic |
| Effects.PanicEndsSession | main.rs:366-461 | once a line panics, the lines after it change nothing |
| Interpreter.Interpreter.constructor | main.rs:358-361 | the key delay and the type delay start at 2 ms |
| Interpreter.Interpreter.WarnUnless | main.rs:386-388 | a warning is recorded exactly when a device sequence failed |
| Interpreter.Interpreter.KeyChord | main.rs:385-394 | one chord of a `key` line does what KeyEffect says: down, a warning if that failed, the 8 ms hold, up, a warning if that failed, the key delay |
| Interpreter.Interpreter.KeyDownChord | main.rs:402-406 | one chord of a `keydown` line: down, a warning if it failed, the key delay |
| Interpreter.Interpreter.KeyUpChord | main.rs:415-419 | one chord of a `keyup` line: up, a warning if it failed, the key delay |
| Interpreter.Interpreter.KeyField | main.rs:384-396 | a `key` field that does not parse only records its warning; one that parses runs its chord |
| Interpreter.Interpreter.KeyFields | main.rs:382-398 | the `key` loop does what KeyFields says, field after field |
| Interpreter.Interpreter.KeyDownField | main.rs:401-409 | the same for one `keydown` field |
| Interpreter.Interpreter.KeyDownFields | main.rs:399-411 | the `keydown` loop does what KeyDownFields says |
| Interpreter.Interpreter.KeyUpField | main.rs:414-422 | the same for one `keyup` field |
| Interpreter.Interpreter.KeyUpFields | main.rs:412-424 | the `keyup` loop does what KeyUpFields says |
| Interpreter.Interpreter.TypeChar | main.rs:435-447 | one character does what CharEffect says: a warning for a character without a chord; after a failed key_down a warning and nothing more; otherwise down, the 8 ms hold, up, a warning if that failed, the type delay |
| Interpreter.Interpreter.Type | main.rs:434-449 | the `type` loop does what TextEffect says, character after character |
| Interpreter.Interpreter.KeyDelayCommand | main.rs:425-431 | `keydelay` panics without a remainder; otherwise it sets the key delay to the parsed value, or records a warning that quotes the trimmed line |
| Interpreter.Interpreter.TypeCommand | main.rs:432-451 | `type` panics without a remainder, and otherwise types it |
| Interpreter.Interpreter.SetKeyDelay | main.rs:426-429 | with a payload, the key delay becomes the parsed value; an unparsable payload leaves it and records a warning quoting the trimmed line; nothing else changes |
| Interpreter.Interpreter.TypeDelayCommand | main.rs:452-458 | the same as `keydelay`, for the type delay |
| Interpreter.Interpreter.Execute | main.rs:381-460 | the dispatch does what CommandSpec says: the trace, the call counter, both delays and the panic |
| Interpreter.Interpreter.Step | main.rs:367-460 | one line does what StepSpec says: a blank line is skipped, any other is dispatched on its first word |
| Interpreter.Interpreter.Run | main.rs:366-461 | the loop over the lines does what RunSpec says, and stops at the first panic |
| Properties.PressesLength | main.rs:34-74 | pressing or releasing a list of keys takes one call per key |
| Properties.OnlyPresses | main.rs:34-49 | the modifier calls of key_down are all presses |
| Properties.DownRunsWhole | main.rs:34-53 | when none of its m + 2 calls fails, key_down emits every press and the synchronize |
| Properties.UpRunsWhole | main.rs:55-74 | when none of its m + 2 calls fails, key_up emits every release and the synchronize |
| Properties.ChordRunsWhole | main.rs:34-74 | when none of its 2m + 4 calls fails, a chord goes down and then up in full |
| Properties.KeyChordWhenNoCallFails | main.rs:385-394 | a `key` chord with no failing call: the modifiers and the key go down, then synchronize, the 8 ms hold, the key and the modifiers in reverse go up, then synchronize and the key delay, and no warning |
| Properties.KeyChordAfterFailedDown | main.rs:386-393 | a failed key_down is reported, and the hold, key_up and the key delay still follow |
| Properties.TypeCharAfterFailedDown | main.rs:436-439 | in `type`, a failed key_down is reported and the character ends there: no hold, no release, no delay |
| Properties.TypeCharWhenNoCallFails | main.rs:435-444 | a typed character with no failing call: down, the 8 ms hold, up, the type delay |
| Properties.KeyFieldsAppend | main.rs:383-397 | the fields of a `key` line compose: the fields of `a + b` do those of `a`, then those of `b` |
| Properties.KeyFieldsIsFold | main.rs:383-397 | the `key` fields are a left fold of the field step |
| Properties.BadKeyFieldOnlyWarns | main.rs:395 | a `key` field that does not parse only adds its warning; the fields around it run as if it were absent |
| Properties.KeyDownFieldsAppend | main.rs:400-410 | the fields of a `keydown` line compose |
| Properties.KeyDownFieldsIsFold | main.rs:400-410 | the `keydown` fields are a left fold of the field step |
| Properties.BadKeyDownFieldOnlyWarns | main.rs:408 | a `keydown` field that does not parse only adds its warning |
| Properties.KeyUpFieldsAppend | main.rs:413-423 | the fields of a `keyup` line compose |
| Properties.KeyUpFieldsIsFold | main.rs:413-423 | the `keyup` fields are a left fold of the field step |
| Properties.BadKeyUpFieldOnlyWarns | main.rs:421 | a `keyup` field that does not parse only adds its warning |
| Properties.TextAppend | main.rs:434-448 | the characters of a `type` line compose |
| Properties.TextIsFold | main.rs:434-448 | typing is a left fold of the character step |
| Properties.UntypeableCharOnlyWarns | main.rs:445-447 | a character without a chord only adds a warning that names it; the characters around it are typed as if it were absent |
| Properties.BlankLineIsNoOp | main.rs:368-372 | a line of only whitespace does nothing |
| Properties.DecodeExactly | main.rs:381-460 | the six opcodes of the match are known; every other word is unknown, `keyhold` and `typehold` included |
| Properties.CommandPanics | main.rs:425-459 | a command panics exactly when its opcode is unknown, or when it is `keydelay`, `type` or `typedelay` with no remainder; a panicking command does nothing else |
| Properties.PanicsExactly | main.rs:368-459 | the same for a line; a blank line never panics |
| Properties.CommandSettings | main.rs:381-460 | only `keydelay` changes the key delay, and only `typedelay` the type delay |
| Properties.OnlyDelayLinesChangeSettings | main.rs:366-460 | the same for lines |
| Interpreter.Interpreter.SetTypeDelay | main.rs:453-456 | the same for the type delay |
| Properties.KeyDelayCommandEffect | main.rs:425-429 | `keydelay` with a remainder makes no device call and changes only the key delay: to the parsed value, or not at all with a warning that quotes the line |
| Properties.TypeDelayCommandEffect | main.rs:452-456 | the same for `typedelay` and the type delay |
| Properties.HoldLinesPanic | main.rs:381-460 | a `keyhold` or `typehold` line panics with "Unknown operation" and does nothing else |
| Properties.HoldOpsUnknown | main.rs:381-460 | neither `keyhold` nor `typehold` is an opcode the dispatch matches |
| Properties.MissingPayloads | main.rs:425-458 | `keydelay`, `type` or `typedelay` alone on a line panics, each with its own message |
| Properties.MissingPayloadCommand | main.rs:425-458 | the same at the level of the command |
| Properties.TrailingSpaceTypesNothing | main.rs:432-449 | `type` followed by one whitespace character types nothing and does not panic |
| Properties.TypeAndSeparator | main.rs:374-376 | `type` and one whitespace character: no fields and an empty remainder |
| Properties.TypeEmpty | main.rs:433-449 | `type` with an empty remainder does nothing |
| Properties.KeyCtrlCLine | main.rs:382-398 | `key ctrl+c` with no failing call: ctrl down, c down, synchronize, the 8 ms hold, c up, ctrl up, synchronize, the key delay; six device calls |
| Properties.KeyLineOfOneField | main.rs:382-398 | a `key` line of one token does what that token does |
| Properties.KeyLineOfChord | main.rs:382-398 | a `key` line of one token that parses runs that token's chord |
| Properties.CtrlCEffect | main.rs:385-394 | the chord of `ctrl+c` run with no failing call |
| Properties.KeyholdEndsSession | main.rs:366-461 | a `keyhold` line ends the session: no line after it runs |
| Properties.FoldAppend | main.rs:383-448 | a fold over `a + b` is the fold over `a`, then the fold over `b` from where it stopped |

## Left out

- The uinput device (main.rs:349-356) is not modelled. It is replaced by a
  device that records a trace, with a set of call numbers saying which calls
  fail. The text of a device error is not modelled: a warning is
  "key down error", "key up error" or "type error", without the error
  that follows in the source.
- Reading standard input (main.rs:363-367) is not modelled. Lines come in as
  a sequence of strings, and a read error, which ends the session, is not
  modelled.
- `thread::sleep` is not modelled as a pause. It is recorded as a
  `Sleep(ms)` event in the trace.
- `str::parse::<f64>` is a parameter of the interpreter (`parse`), because
  float parsing is not modelled. `d as u64` is modelled on the float
  `parse` returns (`Effects.Millis`).
- Command-line arguments, `usage`, `list_keys`, `inform`, the `main`
  wrapper and the "dotool: WARNING: " prefix of `warn` (main.rs:77-104,
  141-150, 315-347) are not modelled.
- Parser.LowerChar: `to_lowercase` and `is_uppercase` are modelled on ASCII
  only, and other characters are left as they are. Every registry name and
  modifier is ASCII, so this only differs on a non-ASCII character whose
  lower case is ASCII. The Kelvin sign U+212A is one: as a key piece the
  source lowers it to `k`, and the model reports it as an impossible key.
- The registry is the function `Keys.Lookup`, with one case per entry of
  the table, rather than a `map` value. A lookup in it is the same partial
  function from names to keys.
- The "Invalid command" panic (main.rs:376-379) is not a case of
  `Effects.Panic`, because it cannot happen: `Lines.CommandWords` proves
  that a line that is not blank always has an opcode.
- A panic is returned by `Step` and `Run` rather than raised. The run stops
  at that line, as the process would.
- `split_whitespace` and its `remainder` are modelled on the Unicode
  White_Space characters that `char::is_whitespace` accepts. Only
  `remainder` for the case that matters here is modelled: after the first
  word, it is everything after the one whitespace character that ends the
  word.
