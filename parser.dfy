/** parse_chord (main.rs:106-139): a token such as `ctrl+shift+a` becomes a
    chord, or an error the interpreter reports as a warning. */
module Parser {
  import opened Wrappers
  import opened Keys
  import opened Chords

  /** The three ways parse_chord can fail. EmptyChord is the message of the
      branch at main.rs:109-111, which no token reaches (see NeverEmptyChord). */
  datatype ParseError = EmptyChord | ImpossibleKey(part: string) | UnknownModifier(part: string)

  /** The warning text each error is reported with (main.rs:110, 117, 134). */
  function Message(e: ParseError): string {
    match e
    case EmptyChord => "empty chord"
    case ImpossibleKey(part) => "impossible key for layout: " + part
    case UnknownModifier(part) => "unknown modifier: " + part
  }

  /** to_lowercase, on the ASCII letters; every other character is left as it is. */
  function LowerChar(ch: char): char {
    if 'A' <= ch <= 'Z' then (ch as int - 'A' as int + 'a' as int) as char else ch
  }

  function Lower(s: string): string {
    seq(|s|, i requires 0 <= i < |s| => LowerChar(s[i]))
  }

  /** str::split('+'): the pieces between the `+` characters, in order. A string
      without `+` is one piece, so there is always at least one, possibly empty. */
  function Split(s: string): (parts: seq<string>)
    ensures |parts| >= 1
    ensures forall i :: 0 <= i < |parts| ==> '+' !in parts[i]
  {
    if s == [] then [""]
    else
      var rest := Split(s[1..]);
      if s[0] == '+' then [""] + rest
      else [[s[0]] + rest[0]] + rest[1..]
  }

  /** The inverse of Split: the pieces with a `+` between each two. */
  function Join(parts: seq<string>): string
    requires |parts| >= 1
  {
    parts[0] + if |parts| == 1 then "" else "+" + Join(parts[1..])
  }

  /** Splitting loses nothing: joining the pieces gives the token back. */
  lemma {:induction false} JoinSplit(s: string)
    ensures Join(Split(s)) == s
  {
    if s != [] {
      var rest := Split(s[1..]);
      JoinSplit(s[1..]);
      if s[0] == '+' {
        assert Split(s) == [""] + rest;
        assert s == "+" + s[1..];
      } else {
        var parts := Split(s);
        assert parts[0] == [s[0]] + rest[0] && parts[1..] == rest[1..];
        assert s == [s[0]] + s[1..];
      }
    }
  }

  /** A piece without `+` splits off the front of what follows it. */
  lemma {:induction false} SplitFront(a: string, b: string)
    requires '+' !in a
    ensures Split(a + "+" + b) == [a] + Split(b)
    ensures Split(a) == [a]
  {
    if a == [] {
      assert a + "+" + b == "+" + b;
      assert ("+" + b)[1..] == b;
    } else {
      SplitFront(a[1..], b);
      assert (a + "+" + b)[1..] == a[1..] + "+" + b;
      assert [a[0]] + a[1..] == a;
    }
  }

  /** Splitting what Join built gives the pieces back, when no piece has a `+`. */
  lemma {:induction false} SplitJoin(parts: seq<string>)
    requires |parts| >= 1
    requires forall i :: 0 <= i < |parts| ==> '+' !in parts[i]
    ensures Split(Join(parts)) == parts
  {
    SplitFront(parts[0], "");
    if |parts| > 1 {
      SplitJoin(parts[1..]);
      SplitFront(parts[0], Join(parts[1..]));
      assert parts[0] + ("+" + Join(parts[1..])) == parts[0] + "+" + Join(parts[1..]);
      assert [parts[0]] + parts[1..] == parts;
    } else {
      assert parts[0] + "" == parts[0];
    }
  }

  /** The last piece of a token names the key; all pieces before it name
      modifiers. */
  function KeyPart(token: string): string {
    var parts := Split(token);
    parts[|parts| - 1]
  }

  function ModifierParts(token: string): seq<string> {
    var parts := Split(token);
    parts[..|parts| - 1]
  }

  /** The modifier vocabulary, after lowering. */
  const Vocabulary: set<string> := {"super", "altgr", "ctrl", "control", "alt", "shift"}

  predicate IsModifier(part: string) {
    Lower(part) in Vocabulary
  }

  /** The match at main.rs:128-135: set the flag a modifier piece names, or
      nothing when it names none. */
  function SetModifier(c: Chord, part: string): Option<Chord> {
    match Lower(part)
    case "super" => Some(c.(superKey := true))
    case "altgr" => Some(c.(altgr := true))
    case "ctrl" => Some(c.(ctrl := true))
    case "control" => Some(c.(ctrl := true))
    case "alt" => Some(c.(alt := true))
    case "shift" => Some(c.(shift := true))
    case _ => None
  }

  /** The loop at main.rs:127-136: the modifier pieces in order, returning at
      the first one that is not in the vocabulary. */
  function ApplyModifiers(c: Chord, parts: seq<string>): Result<Chord, ParseError>
    decreases |parts|
  {
    if parts == [] then Ok(c)
    else match SetModifier(c, parts[0])
      case None => Err(UnknownModifier(parts[0]))
      case Some(c') => ApplyModifiers(c', parts[1..])
  }

  /** The key piece alone implies shift when it is one upper-case character
      (main.rs:123-125). */
  predicate ImpliesShift(keyPart: string) {
    |keyPart| == 1 && 'A' <= keyPart[0] <= 'Z'
  }

  /** parse_chord: the key piece is looked up first, lowered; only then is the
      implied shift applied and are the modifier pieces read. */
  function ParseChord(token: string): (r: Result<Chord, ParseError>) {
    var parts := Split(token);
    if |parts| == 0 then Err(EmptyChord)
    else
      var keyPart := parts[|parts| - 1];
      match Lookup(Lower(keyPart))
      case None => Err(ImpossibleKey(keyPart))
      case Some(key) =>
        var c := NewChord(key);
        var c' := if ImpliesShift(keyPart) then c.(shift := true) else c;
        ApplyModifiers(c', parts[..|parts| - 1])
  }

  /** The lowered names of a list of modifier pieces. */
  function Names(parts: seq<string>): set<string> {
    set p | p in parts :: Lower(p)
  }

  /** The reference meaning of a set of modifier names: each name sets its
      own flag, "ctrl" and "control" the same one, and nothing is ever cleared. */
  function WithModifiers(c: Chord, names: set<string>): Chord {
    c.(superKey := c.superKey || "super" in names,
       altgr := c.altgr || "altgr" in names,
       ctrl := c.ctrl || "ctrl" in names || "control" in names,
       alt := c.alt || "alt" in names,
       shift := c.shift || "shift" in names)
  }

  /** One modifier piece sets the flag its lowered name gives, and an unknown
      one is refused. */
  lemma SetModifierMeaning(c: Chord, part: string)
    ensures SetModifier(c, part) == if IsModifier(part) then Some(WithModifiers(c, {Lower(part)})) else None
  {
  }

  lemma WithModifiersUnion(c: Chord, a: set<string>, b: set<string>)
    ensures WithModifiers(WithModifiers(c, a), b) == WithModifiers(c, a + b)
  {
  }

  /** When every piece is a modifier, reading them one by one sets exactly the
      flags the reference meaning gives for their lowered names. */
  lemma {:induction false} ApplyKnownModifiers(c: Chord, parts: seq<string>)
    requires forall i :: 0 <= i < |parts| ==> IsModifier(parts[i])
    ensures ApplyModifiers(c, parts) == Ok(WithModifiers(c, Names(parts)))
    decreases |parts|
  {
    if parts == [] {
      assert Names(parts) == {};
    } else {
      var p := parts[0];
      assert Names(parts) == {Lower(p)} + Names(parts[1..]) by {
        assert parts == [p] + parts[1..];
      }
      SetModifierMeaning(c, p);
      var c' := WithModifiers(c, {Lower(p)});
      assert forall i :: 0 <= i < |parts[1..]| ==> IsModifier(parts[1..][i]) by {
        forall i | 0 <= i < |parts[1..]| ensures IsModifier(parts[1..][i]) {
          assert parts[1..][i] == parts[i + 1];
        }
      }
      ApplyKnownModifiers(c', parts[1..]);
      WithModifiersUnion(c, {Lower(p)}, Names(parts[1..]));
    }
  }

  /** Otherwise reading stops at the first piece that is not a modifier and
      reports that piece, as written. */
  lemma {:induction false} ApplyUnknownModifier(c: Chord, parts: seq<string>, i: nat)
    requires i < |parts| && !IsModifier(parts[i])
    requires forall j :: 0 <= j < i ==> IsModifier(parts[j])
    ensures ApplyModifiers(c, parts) == Err(UnknownModifier(parts[i]))
    decreases i
  {
    SetModifierMeaning(c, parts[0]);
    if i > 0 {
      assert forall j :: 0 <= j < i - 1 ==> IsModifier(parts[1..][j]) by {
        forall j | 0 <= j < i - 1 ensures IsModifier(parts[1..][j]) {
          assert parts[1..][j] == parts[j + 1];
        }
      }
      ApplyUnknownModifier(WithModifiers(c, {Lower(parts[0])}), parts[1..], i - 1);
    }
  }

  /** ApplyModifiers only ever fails with UnknownModifier. */
  lemma {:induction false} ApplyModifiersErrors(c: Chord, parts: seq<string>)
    ensures ApplyModifiers(c, parts).Err? ==> ApplyModifiers(c, parts).error.UnknownModifier?
    decreases |parts|
  {
    if parts != [] {
      match SetModifier(c, parts[0])
      case None =>
      case Some(c') => ApplyModifiersErrors(c', parts[1..]);
    }
  }

  /** The chord a token's key piece gives before any modifier is read. */
  function BaseChord(key: KeyId, keyPart: string): (c: Chord)
    ensures c.key == key && c.shift == ImpliesShift(keyPart)
    ensures !c.superKey && !c.altgr && !c.ctrl && !c.alt
  {
    var c := NewChord(key);
    if ImpliesShift(keyPart) then c.(shift := true) else c
  }

  /** The key is looked up before any modifier is examined: a token fails with
      "impossible key for layout", naming its last piece as written, exactly
      when that piece, lowered, is not in the registry, whatever the modifier
      pieces say. */
  lemma KeyLookedUpFirst(token: string)
    ensures ParseChord(token) == Err(ImpossibleKey(KeyPart(token)))
      <==> Lookup(Lower(KeyPart(token))).None?
  {
    match Lookup(Lower(KeyPart(token)))
    case None =>
    case Some(key) =>
      ApplyModifiersErrors(BaseChord(key, KeyPart(token)), ModifierParts(token));
  }

  /** A token whose key is known and whose other pieces are all modifiers
      parses to the key with exactly the flags its modifier pieces name, plus
      shift when the key piece is one upper-case letter. */
  lemma ParseKnownChord(token: string, key: KeyId)
    requires Lookup(Lower(KeyPart(token))) == Some(key)
    requires forall i :: 0 <= i < |ModifierParts(token)| ==> IsModifier(ModifierParts(token)[i])
    ensures ParseChord(token) == Ok(WithModifiers(BaseChord(key, KeyPart(token)), Names(ModifierParts(token))))
  {
    ApplyKnownModifiers(BaseChord(key, KeyPart(token)), ModifierParts(token));
  }

  /** A token whose key is known fails at its first piece that is not a
      modifier, naming that piece. */
  lemma ParseUnknownModifier(token: string, i: nat)
    requires Lookup(Lower(KeyPart(token))).Some?
    requires i < |ModifierParts(token)| && !IsModifier(ModifierParts(token)[i])
    requires forall j :: 0 <= j < i ==> IsModifier(ModifierParts(token)[j])
    ensures ParseChord(token) == Err(UnknownModifier(ModifierParts(token)[i]))
  {
    var key := Lookup(Lower(KeyPart(token))).value;
    ApplyUnknownModifier(BaseChord(key, KeyPart(token)), ModifierParts(token), i);
  }

  /** The "empty chord" branch is never taken: splitting always yields a piece. */
  lemma NeverEmptyChord(token: string)
    ensures ParseChord(token) != Err(EmptyChord)
  {
    ApplyModifiersErrors(BaseChord(A, ""), []);
    match Lookup(Lower(KeyPart(token)))
    case None =>
    case Some(key) =>
      ApplyModifiersErrors(BaseChord(key, KeyPart(token)), ModifierParts(token));
  }

  /** The empty token and a lone `+` have an empty key piece, and so fail
      with "impossible key for layout" rather than as empty chords. */
  lemma EmptyKeyPiece()
    ensures ParseChord("") == Err(ImpossibleKey(""))
    ensures ParseChord("+") == Err(ImpossibleKey(""))
  {
    NoEmptyName();
    assert Split("") == [""];
    SplitFront("", "");
    assert "" + "+" + "" == "+";
  }

  /** No key is registered under the empty name. */
  lemma NoEmptyName()
    ensures Lower("") == "" && Lookup("") == None
  {
    assert Lower("") == "";
  }

  /** parse_chord in terms of the key piece and the modifier pieces. */
  lemma ParseByPieces(token: string)
    ensures ParseChord(token) == match Lookup(Lower(KeyPart(token)))
      case None => Err(ImpossibleKey(KeyPart(token)))
      case Some(key) => ApplyModifiers(BaseChord(key, KeyPart(token)), ModifierParts(token))
  {
  }

  /** A leading modifier piece leaves the key piece alone and heads the
      modifier pieces. */
  lemma LeadingPiece(m: string, rest: string)
    requires '+' !in m
    ensures KeyPart(m + "+" + rest) == KeyPart(rest)
    ensures ModifierParts(m + "+" + rest) == [m] + ModifierParts(rest)
  {
    SplitFront(m, rest);
    var ps := Split(rest);
    assert ([m] + ps)[..|[m] + ps| - 1] == [m] + ps[..|ps| - 1];
  }

  lemma ApplyCons(c: Chord, m: string, parts: seq<string>)
    ensures ApplyModifiers(c, [m] + parts) == match SetModifier(c, m)
      case None => Err(UnknownModifier(m))
      case Some(c') => ApplyModifiers(c', parts)
  {
    assert ([m] + parts)[0] == m && ([m] + parts)[1..] == parts;
  }

  /** Naming a modifier twice is the same as naming it once. */
  lemma RepeatedModifier(m: string, rest: string)
    requires '+' !in m
    ensures ParseChord(m + "+" + m + "+" + rest) == ParseChord(m + "+" + rest)
  {
    var once := m + "+" + rest;
    assert m + "+" + m + "+" + rest == m + "+" + once;
    LeadingPiece(m, once);
    LeadingPiece(m, rest);
    ParseByPieces(m + "+" + once);
    ParseByPieces(once);
    match Lookup(Lower(KeyPart(rest)))
    case None =>
    case Some(key) =>
      var c := BaseChord(key, KeyPart(rest));
      ApplyCons(c, m, [m] + ModifierParts(rest));
      ApplyCons(c, m, ModifierParts(rest));
      SetModifierMeaning(c, m);
      if IsModifier(m) {
        var c' := WithModifiers(c, {Lower(m)});
        SetModifierMeaning(c', m);
        assert WithModifiers(c', {Lower(m)}) == c';
        ApplyCons(c', m, ModifierParts(rest));
      }
  }

  /** Two modifiers may be named in either order. */
  lemma ModifiersCommute(m1: string, m2: string, rest: string)
    requires '+' !in m1 && '+' !in m2 && IsModifier(m1) && IsModifier(m2)
    ensures ParseChord(m1 + "+" + m2 + "+" + rest) == ParseChord(m2 + "+" + m1 + "+" + rest)
  {
    var r1, r2 := m1 + "+" + rest, m2 + "+" + rest;
    assert m1 + "+" + m2 + "+" + rest == m1 + "+" + r2;
    assert m2 + "+" + m1 + "+" + rest == m2 + "+" + r1;
    LeadingPiece(m1, r2);
    LeadingPiece(m2, rest);
    LeadingPiece(m2, r1);
    LeadingPiece(m1, rest);
    ParseByPieces(m1 + "+" + r2);
    ParseByPieces(m2 + "+" + r1);
    match Lookup(Lower(KeyPart(rest)))
    case None =>
    case Some(key) =>
      var c := BaseChord(key, KeyPart(rest));
      var tail := ModifierParts(rest);
      SetModifierMeaning(c, m1);
      SetModifierMeaning(c, m2);
      var c1, c2 := WithModifiers(c, {Lower(m1)}), WithModifiers(c, {Lower(m2)});
      SetModifierMeaning(c1, m2);
      SetModifierMeaning(c2, m1);
      ApplyCons(c, m1, [m2] + tail);
      ApplyCons(c, m2, [m1] + tail);
      ApplyCons(c1, m2, tail);
      ApplyCons(c2, m1, tail);
      WithModifiersUnion(c, {Lower(m1)}, {Lower(m2)});
      WithModifiersUnion(c, {Lower(m2)}, {Lower(m1)});
      assert {Lower(m1)} + {Lower(m2)} == {Lower(m2)} + {Lower(m1)};
  }

  /** Modifier pieces are read without regard to case. */
  lemma ModifierCaseInsensitive(m: string, rest: string)
    requires '+' !in m && IsModifier(m)
    ensures ParseChord(m + "+" + rest) == ParseChord(Lower(m) + "+" + rest)
  {
    assert Lower(Lower(m)) == Lower(m);
    LeadingPiece(m, rest);
    LeadingPiece(Lower(m), rest);
    ParseByPieces(m + "+" + rest);
    ParseByPieces(Lower(m) + "+" + rest);
    match Lookup(Lower(KeyPart(rest)))
    case None =>
    case Some(key) =>
      var c := BaseChord(key, KeyPart(rest));
      SetModifierMeaning(c, m);
      SetModifierMeaning(c, Lower(m));
      ApplyCons(c, m, ModifierParts(rest));
      ApplyCons(c, Lower(m), ModifierParts(rest));
  }

  /** A modifier piece may be replaced by any piece that sets the same flags. */
  lemma SameModifier(m1: string, m2: string, rest: string)
    requires '+' !in m1 && '+' !in m2 && IsModifier(m1)
    requires forall c :: SetModifier(c, m1) == SetModifier(c, m2)
    ensures ParseChord(m1 + "+" + rest) == ParseChord(m2 + "+" + rest)
  {
    LeadingPiece(m1, rest);
    LeadingPiece(m2, rest);
    ParseByPieces(m1 + "+" + rest);
    ParseByPieces(m2 + "+" + rest);
    match Lookup(Lower(KeyPart(rest)))
    case None =>
    case Some(key) =>
      var c := BaseChord(key, KeyPart(rest));
      SetModifierMeaning(c, m1);
      assert SetModifier(c, m1) == SetModifier(c, m2);
      ApplyCons(c, m1, ModifierParts(rest));
      ApplyCons(c, m2, ModifierParts(rest));
  }

  /** "ctrl" and "control" are the same modifier. */
  lemma CtrlIsControl(rest: string)
    ensures ParseChord("ctrl+" + rest) == ParseChord("control+" + rest)
  {
    assert "ctrl+" + rest == "ctrl" + "+" + rest;
    assert "control+" + rest == "control" + "+" + rest;
    CtrlSynonyms();
    SameModifier("ctrl", "control", rest);
  }

  lemma CtrlSynonyms()
    ensures IsModifier("ctrl")
    ensures forall c :: SetModifier(c, "ctrl") == SetModifier(c, "control")
  {
    assert Lower("ctrl") == "ctrl" && Lower("control") == "control";
  }

  /** A single upper-case letter names the key of its lower-case letter with
      shift set, with or without an explicit shift piece; the lower-case letter
      alone names the same key without shift. */
  lemma ImpliedShift(ch: char)
    requires 'A' <= ch <= 'Z'
    ensures Lookup([LowerChar(ch)]).Some?
    ensures ParseChord([ch]) == Ok(NewChord(Lookup([LowerChar(ch)]).value).(shift := true))
    ensures ParseChord("shift+" + [ch]) == ParseChord([ch])
    ensures ParseChord([LowerChar(ch)]) == Ok(NewChord(Lookup([LowerChar(ch)]).value))
  {
    LetterNames(LowerChar(ch));
    SplitFront([ch], "");
    SplitFront([LowerChar(ch)], "");
    assert Lower([ch]) == [LowerChar(ch)];
    assert Lower([LowerChar(ch)]) == [LowerChar(ch)];
    assert "shift+" + [ch] == "shift" + "+" + [ch];
    LeadingPiece("shift", [ch]);
    ParseByPieces("shift" + "+" + [ch]);
    ParseByPieces([ch]);
    var c := BaseChord(Lookup([LowerChar(ch)]).value, [ch]);
    assert Lower("shift") == "shift";
    SetModifierMeaning(c, "shift");
    ApplyCons(c, "shift", []);
  }

  /** A token of one modifier piece and a known key piece is the key's base
      chord with that one modifier applied. */
  lemma OneModifier(m: string, k: string, key: KeyId)
    requires '+' !in m && '+' !in k && Lookup(Lower(k)) == Some(key)
    ensures ParseChord(m + "+" + k) == match SetModifier(BaseChord(key, k), m)
      case None => Err(UnknownModifier(m))
      case Some(c) => Ok(c)
  {
    SplitFront(k, "");
    LeadingPiece(m, k);
    ParseByPieces(m + "+" + k);
    ApplyCons(BaseChord(key, k), m, []);
  }

  /** A token with a misspelt modifier and a known key fails because of the
      modifier. */
  lemma UnknownModifierExample()
    ensures ParseChord("foo+a") == Err(UnknownModifier("foo"))
  {
    assert "foo+a" == "foo" + "+" + "a";
    LowerA();
    FooIsNoModifier();
    OneModifier("foo", "a", A);
  }

  lemma LowerA()
    ensures Lower("a") == "a" && Lookup("a") == Some(A)
  {
    assert Lower("a") == "a";
  }

  lemma FooIsNoModifier()
    ensures SetModifier(BaseChord(A, "a"), "foo") == None
  {
    assert Lower("foo") == "foo";
  }

  /** "ctrl+c" is the key c with ctrl held. */
  lemma CtrlCExample()
    ensures ParseChord("ctrl+c") == Ok(NewChord(C).(ctrl := true))
  {
    assert "ctrl+c" == "ctrl" + "+" + "c";
    LowerC();
    CtrlOnC();
    OneModifier("ctrl", "c", C);
  }

  lemma LowerC()
    ensures Lower("c") == "c" && Lookup("c") == Some(C)
  {
    assert Lower("c") == "c";
  }

  lemma CtrlOnC()
    ensures SetModifier(BaseChord(C, "c"), "ctrl") == Some(NewChord(C).(ctrl := true))
  {
    assert Lower("ctrl") == "ctrl";
  }
}
