/** A chord: one key together with the modifiers held while it is pressed
    (main.rs:12-75), and the two device sequences that press and release it. */
module Chords {
  import opened Keys
  import opened Device

  /** Five independent modifier flags and the key. */
  datatype Chord = Chord(superKey: bool, altgr: bool, ctrl: bool, alt: bool, shift: bool, key: KeyId)

  /** Chord::new: the key alone, with no modifier. */
  function NewChord(key: KeyId): (c: Chord)
    ensures c.key == key
    ensures !c.superKey && !c.altgr && !c.ctrl && !c.alt && !c.shift
  {
    Chord(false, false, false, false, false, key)
  }

  function KeyIf(b: bool, k: KeyId): seq<KeyId> { if b then [k] else [] }
  function PressIf(b: bool, k: KeyId): seq<Event> { if b then [Press(k)] else [] }
  function ReleaseIf(b: bool, k: KeyId): seq<Event> { if b then [Release(k)] else [] }

  /** The modifier keys a chord holds, in the order key_down presses them:
      super (LeftMeta), altgr (RightAlt), ctrl (LeftControl), alt (LeftAlt),
      shift (LeftShift). */
  function ModifierKeys(c: Chord): seq<KeyId> {
    KeyIf(c.superKey, LeftMeta) + KeyIf(c.altgr, RightAlt) + KeyIf(c.ctrl, LeftControl) +
    KeyIf(c.alt, LeftAlt) + KeyIf(c.shift, LeftShift)
  }

  /** The calls key_down makes when none of them fails (main.rs:34-53). */
  function DownCalls(c: Chord): seq<Event> {
    PressIf(c.superKey, LeftMeta) + PressIf(c.altgr, RightAlt) + PressIf(c.ctrl, LeftControl) +
    PressIf(c.alt, LeftAlt) + PressIf(c.shift, LeftShift) + [Press(c.key)] + [Sync]
  }

  /** The calls key_up makes when none of them fails (main.rs:55-74). */
  function UpCalls(c: Chord): seq<Event> {
    [Release(c.key)] + ReleaseIf(c.shift, LeftShift) + ReleaseIf(c.alt, LeftAlt) +
    ReleaseIf(c.ctrl, LeftControl) + ReleaseIf(c.altgr, RightAlt) + ReleaseIf(c.superKey, LeftMeta) + [Sync]
  }

  /** A press, a release, for each key in order. */
  function Presses(ks: seq<KeyId>): seq<Event> {
    if ks == [] then [] else [Press(ks[0])] + Presses(ks[1..])
  }

  function Releases(ks: seq<KeyId>): seq<Event> {
    if ks == [] then [] else [Release(ks[0])] + Releases(ks[1..])
  }

  function Reversed<T>(s: seq<T>): seq<T> {
    if s == [] then [] else Reversed(s[1..]) + [s[0]]
  }

  lemma {:induction false} PressesAppend(a: seq<KeyId>, b: seq<KeyId>)
    ensures Presses(a + b) == Presses(a) + Presses(b)
  {
    if a == [] {
      assert a + b == b;
    } else {
      assert (a + b)[0] == a[0] && (a + b)[1..] == a[1..] + b;
      PressesAppend(a[1..], b);
      Assoc([Press(a[0])], Presses(a[1..]), Presses(b));
    }
  }

  lemma {:induction false} ReleasesAppend(a: seq<KeyId>, b: seq<KeyId>)
    ensures Releases(a + b) == Releases(a) + Releases(b)
  {
    if a == [] {
      assert a + b == b;
    } else {
      assert (a + b)[0] == a[0] && (a + b)[1..] == a[1..] + b;
      ReleasesAppend(a[1..], b);
      Assoc([Release(a[0])], Releases(a[1..]), Releases(b));
    }
  }

  lemma {:induction false} ReversedAppend<T>(a: seq<T>, b: seq<T>)
    ensures Reversed(a + b) == Reversed(b) + Reversed(a)
  {
    if a == [] {
      assert a + b == b;
      assert Reversed(b) + [] == Reversed(b);
    } else {
      assert (a + b)[0] == a[0] && (a + b)[1..] == a[1..] + b;
      ReversedAppend(a[1..], b);
      Assoc(Reversed(b), Reversed(a[1..]), [a[0]]);
    }
  }

  lemma {:induction false} PressesMembers(ks: seq<KeyId>, k: KeyId)
    ensures Press(k) in Presses(ks) <==> k in ks
  {
    if ks != [] {
      PressesMembers(ks[1..], k);
      assert ks == [ks[0]] + ks[1..];
    }
  }

  lemma {:induction false} ReleasesMembers(ks: seq<KeyId>, k: KeyId)
    ensures Release(k) in Releases(ks) <==> k in ks
  {
    if ks != [] {
      ReleasesMembers(ks[1..], k);
      assert ks == [ks[0]] + ks[1..];
    }
  }

  lemma {:induction false} ReversedMembers<T>(s: seq<T>, x: T)
    ensures x in Reversed(s) <==> x in s
  {
    if s != [] {
      ReversedMembers(s[1..], x);
      assert s == [s[0]] + s[1..];
    }
  }

  lemma ModifierKeysMatchFlags(c: Chord)
    ensures LeftMeta in ModifierKeys(c) <==> c.superKey
    ensures RightAlt in ModifierKeys(c) <==> c.altgr
    ensures LeftControl in ModifierKeys(c) <==> c.ctrl
    ensures LeftAlt in ModifierKeys(c) <==> c.alt
    ensures LeftShift in ModifierKeys(c) <==> c.shift
    ensures |ModifierKeys(c)| <= 5
  {
    InModifierKeys(c, LeftMeta);
    InModifierKeys(c, RightAlt);
    InModifierKeys(c, LeftControl);
    InModifierKeys(c, LeftAlt);
    InModifierKeys(c, LeftShift);
  }

  lemma InModifierKeys(c: Chord, k: KeyId)
    ensures k in ModifierKeys(c) <==>
      || (c.superKey && k == LeftMeta) || (c.altgr && k == RightAlt) || (c.ctrl && k == LeftControl)
      || (c.alt && k == LeftAlt) || (c.shift && k == LeftShift)
  {
    var k1, k2, k3, k4, k5 := KeyIf(c.superKey, LeftMeta), KeyIf(c.altgr, RightAlt),
      KeyIf(c.ctrl, LeftControl), KeyIf(c.alt, LeftAlt), KeyIf(c.shift, LeftShift);
    assert ModifierKeys(c) == k1 + k2 + k3 + k4 + k5;
    InConcat(k, k1 + k2 + k3 + k4, k5);
    InConcat(k, k1 + k2 + k3, k4);
    InConcat(k, k1 + k2, k3);
    InConcat(k, k1, k2);
    InKeyIf(c.superKey, LeftMeta, k);
    InKeyIf(c.altgr, RightAlt, k);
    InKeyIf(c.ctrl, LeftControl, k);
    InKeyIf(c.alt, LeftAlt, k);
    InKeyIf(c.shift, LeftShift, k);
  }

  lemma InKeyIf(b: bool, x: KeyId, k: KeyId)
    ensures k in KeyIf(b, x) <==> b && k == x
  {
    if b {
      assert KeyIf(b, x) == [x];
    } else {
      assert |KeyIf(b, x)| == 0;
    }
  }

  lemma Assoc<T>(a: seq<T>, b: seq<T>, c: seq<T>)
    ensures a + b + c == a + (b + c)
  {
  }

  lemma PressesKeyIf(b: bool, k: KeyId)
    ensures Presses(KeyIf(b, k)) == PressIf(b, k) && Releases(KeyIf(b, k)) == ReleaseIf(b, k)
    ensures Reversed(KeyIf(b, k)) == KeyIf(b, k)
  {
    if b {
      assert Presses([k]) == [Press(k)];
      assert Releases([k]) == [Release(k)];
      assert Reversed([k]) == [k];
    }
  }

  /** key_down presses the modifiers in the fixed order, then the key, then
      synchronizes. */
  lemma DownPressesModifiersThenKey(c: Chord)
    ensures DownCalls(c) == Presses(ModifierKeys(c)) + [Press(c.key), Sync]
  {
    var k1, k2, k3, k4, k5 := KeyIf(c.superKey, LeftMeta), KeyIf(c.altgr, RightAlt),
      KeyIf(c.ctrl, LeftControl), KeyIf(c.alt, LeftAlt), KeyIf(c.shift, LeftShift);
    PressesKeyIf(c.superKey, LeftMeta);
    PressesKeyIf(c.altgr, RightAlt);
    PressesKeyIf(c.ctrl, LeftControl);
    PressesKeyIf(c.alt, LeftAlt);
    PressesKeyIf(c.shift, LeftShift);
    PressesAppend(k1, k2);
    PressesAppend(k1 + k2, k3);
    PressesAppend(k1 + k2 + k3, k4);
    PressesAppend(k1 + k2 + k3 + k4, k5);
    var mods := Presses(ModifierKeys(c));
    assert ModifierKeys(c) == k1 + k2 + k3 + k4 + k5;
    Assoc(mods, [Press(c.key)], [Sync]);
    assert [Press(c.key)] + [Sync] == [Press(c.key), Sync];
  }

  /** key_up releases the key first, then the modifiers in the reverse of the
      order key_down pressed them, then synchronizes. */
  lemma UpReleasesKeyThenModifiersReversed(c: Chord)
    ensures UpCalls(c) == [Release(c.key)] + Releases(Reversed(ModifierKeys(c))) + [Sync]
  {
    var r1, r2, r3, r4, r5 := ReleaseIf(c.superKey, LeftMeta), ReleaseIf(c.altgr, RightAlt),
      ReleaseIf(c.ctrl, LeftControl), ReleaseIf(c.alt, LeftAlt), ReleaseIf(c.shift, LeftShift);
    ReleasesOfReversedModifiers(c);
    var key := [Release(c.key)];
    Assoc(key, r5, r4 + (r3 + (r2 + r1)));
    Assoc(key + r5, r4, r3 + (r2 + r1));
    Assoc(key + r5 + r4, r3, r2 + r1);
    Assoc(key + r5 + r4 + r3, r2, r1);
  }

  lemma ReversedModifiers(c: Chord)
    ensures var k1, k2, k3, k4, k5 := KeyIf(c.superKey, LeftMeta), KeyIf(c.altgr, RightAlt),
      KeyIf(c.ctrl, LeftControl), KeyIf(c.alt, LeftAlt), KeyIf(c.shift, LeftShift);
      Reversed(ModifierKeys(c)) == k5 + (k4 + (k3 + (k2 + k1)))
  {
    var k1, k2, k3, k4, k5 := KeyIf(c.superKey, LeftMeta), KeyIf(c.altgr, RightAlt),
      KeyIf(c.ctrl, LeftControl), KeyIf(c.alt, LeftAlt), KeyIf(c.shift, LeftShift);
    PressesKeyIf(c.superKey, LeftMeta);
    PressesKeyIf(c.altgr, RightAlt);
    PressesKeyIf(c.ctrl, LeftControl);
    PressesKeyIf(c.alt, LeftAlt);
    PressesKeyIf(c.shift, LeftShift);
    ReversedAppend(k1, k2);
    ReversedAppend(k1 + k2, k3);
    ReversedAppend(k1 + k2 + k3, k4);
    ReversedAppend(k1 + k2 + k3 + k4, k5);
  }

  lemma ReleasesOfReversedModifiers(c: Chord)
    ensures var r1, r2, r3, r4, r5 := ReleaseIf(c.superKey, LeftMeta), ReleaseIf(c.altgr, RightAlt),
      ReleaseIf(c.ctrl, LeftControl), ReleaseIf(c.alt, LeftAlt), ReleaseIf(c.shift, LeftShift);
      Releases(Reversed(ModifierKeys(c))) == r5 + (r4 + (r3 + (r2 + r1)))
  {
    var k1, k2, k3, k4, k5 := KeyIf(c.superKey, LeftMeta), KeyIf(c.altgr, RightAlt),
      KeyIf(c.ctrl, LeftControl), KeyIf(c.alt, LeftAlt), KeyIf(c.shift, LeftShift);
    ReversedModifiers(c);
    PressesKeyIf(c.superKey, LeftMeta);
    PressesKeyIf(c.altgr, RightAlt);
    PressesKeyIf(c.ctrl, LeftControl);
    PressesKeyIf(c.alt, LeftAlt);
    PressesKeyIf(c.shift, LeftShift);
    ReleasesAppend(k5, k4 + (k3 + (k2 + k1)));
    ReleasesAppend(k4, k3 + (k2 + k1));
    ReleasesAppend(k3, k2 + k1);
    ReleasesAppend(k2, k1);
  }

  /** key_down presses exactly the chord's key and the modifiers it holds. */
  lemma DownPressesExactly(c: Chord, k: KeyId)
    ensures Press(k) in DownCalls(c) <==> k == c.key || k in ModifierKeys(c)
  {
    DownPressesModifiersThenKey(c);
    PressesMembers(ModifierKeys(c), k);
    InConcat(Press(k), Presses(ModifierKeys(c)), [Press(c.key), Sync]);
  }

  lemma InConcat<T>(x: T, a: seq<T>, b: seq<T>)
    ensures x in a + b <==> x in a || x in b
  {
  }

  /** key_up releases exactly the keys key_down presses: the chord's key and
      the modifiers it holds. So when both run to the end no key is left held. */
  lemma UpReleasesExactly(c: Chord, k: KeyId)
    ensures Release(k) in UpCalls(c) <==> Press(k) in DownCalls(c)
  {
    DownPressesExactly(c, k);
    UpReleasesKeyThenModifiersReversed(c);
    var ks := ModifierKeys(c);
    InConcat(Release(k), [Release(c.key)] + Releases(Reversed(ks)), [Sync]);
    InConcat(Release(k), [Release(c.key)], Releases(Reversed(ks)));
    ReleasesMembers(Reversed(ks), k);
    ReversedMembers(ks, k);
  }

  /** The device has run the calls of `plan` from call number `start` on,
      stopping at the first failure, and `ok` says whether all of them ran. */
  ghost predicate Reached(plan: seq<Event>, before: seq<Event>, start: nat, ok: bool, device: Device)
    reads device
  {
    var a := Perform(plan, start, device.failing);
    device.trace == before + a.events && device.calls == a.next && ok == a.ok
  }

  /** One step of a `?` chain: unless an earlier call failed, make the call
      `e` when `made` holds. The device has then run `done` followed by that
      call, stopping at the first failure. */
  method CallIf(device: Device, made: bool, e: Event, ok: bool,
                ghost done: seq<Event>, ghost before: seq<Event>, ghost start: nat) returns (ok': bool)
    requires e.Press? || e.Release? || e.Sync?
    requires Reached(done, before, start, ok, device)
    modifies device
    ensures Reached(done + (if made then [e] else []), before, start, ok', device)
  {
    ok' := ok;
    if ok && made {
      match e
      case Press(k) => ok' := device.Press(k);
      case Release(k) => ok' := device.Release(k);
      case Sync => ok' := device.Synchronize();
    }
    PerformSnocIf(done, made, e, start, device.failing);
  }

  /** Chord::key_down (main.rs:34-53): press the modifiers that are set, in the
      fixed order, then the key, then synchronize, stopping at the first call
      that fails (each call of the source is followed by `?`). `ok` is false
      exactly when a call failed. */
  method KeyDown(c: Chord, device: Device) returns (ok: bool)
    modifies device
    ensures var a := Perform(DownCalls(c), old(device.calls), device.failing);
      device.trace == old(device.trace) + a.events && device.calls == a.next && ok == a.ok
  {
    ghost var before, start := device.trace, device.calls;
    assert Reached([], before, start, true, device);
    ok := CallIf(device, c.superKey, Press(LeftMeta), true, [], before, start);
    assert [] + PressIf(c.superKey, LeftMeta) == PressIf(c.superKey, LeftMeta);
    ok := CallIf(device, c.altgr, Press(RightAlt), ok, PressIf(c.superKey, LeftMeta), before, start);
    ghost var done := PressIf(c.superKey, LeftMeta) + PressIf(c.altgr, RightAlt);
    ok := CallIf(device, c.ctrl, Press(LeftControl), ok, done, before, start);
    done := done + PressIf(c.ctrl, LeftControl);
    ok := CallIf(device, c.alt, Press(LeftAlt), ok, done, before, start);
    done := done + PressIf(c.alt, LeftAlt);
    ok := CallIf(device, c.shift, Press(LeftShift), ok, done, before, start);
    done := done + PressIf(c.shift, LeftShift);
    ok := CallIf(device, true, Press(c.key), ok, done, before, start);
    done := done + [Press(c.key)];
    ok := CallIf(device, true, Sync, ok, done, before, start);
  }

  /** Chord::key_up (main.rs:55-74): release the key, then the modifiers that
      are set in the reverse of the press order, then synchronize, stopping at
      the first call that fails. */
  method KeyUp(c: Chord, device: Device) returns (ok: bool)
    modifies device
    ensures var a := Perform(UpCalls(c), old(device.calls), device.failing);
      device.trace == old(device.trace) + a.events && device.calls == a.next && ok == a.ok
  {
    ghost var before, start := device.trace, device.calls;
    assert Reached([], before, start, true, device);
    ok := CallIf(device, true, Release(c.key), true, [], before, start);
    assert [] + [Release(c.key)] == [Release(c.key)];
    ghost var done := [Release(c.key)];
    ok := CallIf(device, c.shift, Release(LeftShift), ok, done, before, start);
    done := done + ReleaseIf(c.shift, LeftShift);
    ok := CallIf(device, c.alt, Release(LeftAlt), ok, done, before, start);
    done := done + ReleaseIf(c.alt, LeftAlt);
    ok := CallIf(device, c.ctrl, Release(LeftControl), ok, done, before, start);
    done := done + ReleaseIf(c.ctrl, LeftControl);
    ok := CallIf(device, c.altgr, Release(RightAlt), ok, done, before, start);
    done := done + ReleaseIf(c.altgr, RightAlt);
    ok := CallIf(device, c.superKey, Release(LeftMeta), ok, done, before, start);
    done := done + ReleaseIf(c.superKey, LeftMeta);
    ok := CallIf(device, true, Sync, ok, done, before, start);
  }
}
