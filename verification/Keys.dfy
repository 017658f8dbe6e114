/** The keyboard of a session: which keys were sent as KEY DOWN and still wait for their KEY UP. */
module Keys {

  // ---- The bitmap

  function Mask(i: nat): bv8
    requires i < 8
  {
    (1 as bv8) << i
  }

  predicate Test(b: bv8, i: nat)
    requires i < 8
  {
    (b >> i) & 1 == 1
  }

  /** Bit i set or cleared. */
  function Changed(b: bv8, i: nat, on: bool): bv8
    requires i < 8
  {
    if on then b | Mask(i) else b & !Mask(i)
  }

  /** Only bit i changes. */
  lemma OnlyThatBit(b: bv8, i: nat, on: bool, j: nat)
    requires i < 8 && j < 8
    ensures Test(Changed(b, i, on), j) == if i == j then on else Test(b, j)
  {
    assert Mask(0) == 1 && Mask(1) == 2 && Mask(2) == 4 && Mask(3) == 8;
    assert Mask(4) == 16 && Mask(5) == 32 && Mask(6) == 64 && Mask(7) == 128;
    TestTable(b, j);
    TestTable(b | Mask(i), j);
    TestTable(b & !Mask(i), j);
  }

  /** Bit j by its mask. */
  lemma TestTable(b: bv8, j: nat)
    requires j < 8
    ensures Test(b, j) == (b & (if j == 0 then 1 else if j == 1 then 2 else if j == 2 then 4 else if j == 3 then 8
      else if j == 4 then 16 else if j == 5 then 32 else if j == 6 then 64 else 128) != 0)
  {
  }

  // ---- Key codes

  /** `gdk_to_android_key`: navigation and editing keys by their GDK key value, -1 for all others. */
  function NavKey(keyval: nat): (c: int)
    ensures c == -1 || (c in NAV_CODES && keyval >= 0xff08)
  {
    match keyval
    case 0xff0d => 66   // Return
    case 0xff8d => 66   // KP_Enter
    case 0xff08 => 67   // BackSpace
    case 0xffff => 112  // Delete
    case 0xff09 => 61   // Tab
    case 0xff1b => 4    // Escape: Android's BACK
    case 0xff51 => 21   // Left
    case 0xff53 => 22   // Right
    case 0xff52 => 19   // Up
    case 0xff54 => 20   // Down
    case 0xff50 => 122  // Home
    case 0xff57 => 123  // End
    case 0xff55 => 92   // Page_Up
    case 0xff56 => 93   // Page_Down
    case _ => -1
  }

  // GDK's names for key values.
  const GDK_BACKSPACE := 0xff08
  const GDK_TAB := 0xff09
  const GDK_RETURN := 0xff0d
  const GDK_ESCAPE := 0xff1b
  const GDK_HOME := 0xff50
  const GDK_LEFT := 0xff51
  const GDK_UP := 0xff52
  const GDK_RIGHT := 0xff53
  const GDK_DOWN := 0xff54
  const GDK_PAGE_UP := 0xff55
  const GDK_PAGE_DOWN := 0xff56
  const GDK_END := 0xff57
  const GDK_KP_ENTER := 0xff8d
  const GDK_DELETE := 0xffff

  /** A key and the Android key it should act as: ENTER 66, DEL 67, FORWARD_DEL 112, TAB 61, BACK 4, DPAD 19 to 22, and so on. */
  ghost predicate ActsAs(keyval: nat, code: int)
  {
    match code
    case 66 => keyval == GDK_RETURN || keyval == GDK_KP_ENTER
    case 67 => keyval == GDK_BACKSPACE
    case 112 => keyval == GDK_DELETE
    case 61 => keyval == GDK_TAB
    case 4 => keyval == GDK_ESCAPE
    case 19 => keyval == GDK_UP
    case 20 => keyval == GDK_DOWN
    case 21 => keyval == GDK_LEFT
    case 22 => keyval == GDK_RIGHT
    case 92 => keyval == GDK_PAGE_UP
    case 93 => keyval == GDK_PAGE_DOWN
    case 122 => keyval == GDK_HOME
    case 123 => keyval == GDK_END
    case _ => false
  }

  /** Every navigation key acts as its Android key, and no other key does. */
  lemma NavKeyActs(keyval: nat, code: int)
    requires code >= 0
    ensures NavKey(keyval) == code <==> ActsAs(keyval, code)
  {
  }

  /** Letters, digits and space have consecutive codes from A, 0 and SPACE; no other key has one. */
  lemma AlnumKeyActs(c: char)
    ensures AlnumKey(c as int) ==
      if 'a' <= c <= 'z' then 29 + (c as int - 'a' as int)
      else if '0' <= c <= '9' then 7 + (c as int - '0' as int)
      else if c == ' ' then 62 else -1
  {
  }

  const NAV_CODES := {66, 67, 112, 61, 4, 21, 22, 19, 20, 122, 123, 92, 93}

  /** `gdk_alnum_to_android_key` of a lower-cased key value: letters, digits and space; -1 for all others. */
  function AlnumKey(kv: nat): (c: int)
    ensures c == -1 || 29 <= c <= 54 || 7 <= c <= 16 || c == 62
  {
    if 0x61 <= kv <= 0x7a then 29 + (kv - 0x61)
    else if 0x30 <= kv <= 0x39 then 7 + (kv - 0x30)
    else if kv == 0x20 then 62
    else -1
  }

  /** Every code a key can be sent as. */
  predicate KeyCode(c: int)
  {
    c in NAV_CODES || 29 <= c <= 54 || 7 <= c <= 16 || c == 62
  }

  /** The codes of the buttons: Back, Home, recent apps, menu, power, volume down and up. */
  const BUTTONS := {4, 3, 187, 82, 26, 25, 24}

  /** Lower-casing merges only letters: a navigation key is alone with its lower case. */
  ghost predicate CaseMap(lower: nat -> nat)
  {
    forall x, y :: lower(x) == lower(y) && NavKey(x) >= 0 ==> x == y
  }

  /** The code a press is sent as; -1 when it is sent as text or not at all. */
  function PressCode(lower: nat -> nat, keyval: nat, modified: bool): int
  {
    if NavKey(keyval) >= 0 then NavKey(keyval) else if modified then AlnumKey(lower(keyval)) else -1
  }

  function ReleaseCode(lower: nat -> nat, keyval: nat): int
  {
    if NavKey(keyval) >= 0 then NavKey(keyval) else AlnumKey(lower(keyval))
  }

  /** Releasing the same key, up to letter case, meets the code its press was sent as, whatever the modifiers. */
  lemma SameKeySameCode(lower: nat -> nat, pressed: nat, released: nat, modified: bool)
    requires CaseMap(lower) && lower(pressed) == lower(released) && PressCode(lower, pressed, modified) >= 0
    ensures ReleaseCode(lower, released) == PressCode(lower, pressed, modified)
  {
    if NavKey(released) >= 0 || NavKey(pressed) >= 0 {
      assert pressed == released;
    }
  }

  // ---- Messages

  datatype Message = Key(down: bool, code: int, button: bool) | TextOf(unicode: nat)

  /** The last KEY message of the keyboard for code c was DOWN. */
  predicate HeldByKey(log: seq<Message>, c: int)
  {
    if log == [] then false
    else
      var m := log[|log| - 1];
      if m.Key? && m.code == c && !m.button then m.down else HeldByKey(log[..|log| - 1], c)
  }

  /** The last KEY message of all for code c was DOWN: what the device sees. */
  predicate Held(log: seq<Message>, c: int)
  {
    if log == [] then false
    else
      var m := log[|log| - 1];
      if m.Key? && m.code == c then m.down else Held(log[..|log| - 1], c)
  }

  lemma AfterMessage(log: seq<Message>, m: Message, c: int)
    ensures HeldByKey(log + [m], c) == (if m.Key? && m.code == c && !m.button then m.down else HeldByKey(log, c))
    ensures Held(log + [m], c) == (if m.Key? && m.code == c then m.down else Held(log, c))
  {
    assert (log + [m])[..|log|] == log;
  }

  /** Only codes a key can be sent as are held by keys. */
  ghost predicate KeysOnly(log: seq<Message>)
  {
    forall c :: HeldByKey(log, c) ==> KeyCode(c)
  }

  /** Every UP of the keyboard follows its DOWN. */
  ghost predicate UpsMatched(log: seq<Message>)
  {
    forall n :: 0 <= n < |log| && log[n].Key? && !log[n].button && !log[n].down ==> HeldByKey(log[..n], log[n].code)
  }

  lemma UpsMatchedAfter(log: seq<Message>, m: Message)
    requires UpsMatched(log) && (m.Key? && !m.button && !m.down ==> HeldByKey(log, m.code))
    ensures UpsMatched(log + [m])
  {
    var l := log + [m];
    forall n | 0 <= n < |l| && l[n].Key? && !l[n].button && !l[n].down
      ensures HeldByKey(l[..n], l[n].code)
    {
      assert l[..n] == log[..n];
      assert log[..|log|] == log;
    }
  }

  /** The device sees exactly the keys the keyboard holds. */
  ghost predicate InStep(log: seq<Message>)
  {
    forall c :: HeldByKey(log, c) == Held(log, c)
  }

  lemma KeysStayInStep(log: seq<Message>, m: Message)
    requires InStep(log) && (m.Key? ==> !m.button)
    ensures InStep(log + [m])
  {
    forall c
      ensures HeldByKey(log + [m], c) == Held(log + [m], c)
    {
      AfterMessage(log, m, c);
    }
  }

  /** A click on a button keeps them in step exactly when its code is not held by a key at that moment. */
  lemma ButtonInStepIff(log: seq<Message>, code: int)
    requires InStep(log)
    ensures InStep(log + [Key(true, code, true)] + [Key(false, code, true)]) <==> !HeldByKey(log, code)
  {
    var l1 := log + [Key(true, code, true)];
    var l2 := l1 + [Key(false, code, true)];
    forall c
      ensures HeldByKey(l2, c) == HeldByKey(log, c) && Held(l2, c) == (c != code && Held(log, c))
    {
      AfterMessage(log, Key(true, code, true), c);
      AfterMessage(l1, Key(false, code, true), c);
    }
    if HeldByKey(log, code) {
      assert HeldByKey(l2, code) != Held(l2, code);
    }
  }

  /** A key never looks held to the device without the keyboard knowing. */
  ghost predicate NeverStuck(log: seq<Message>)
  {
    forall c :: Held(log, c) ==> HeldByKey(log, c)
  }

  // ---- The handlers

  datatype Event =
    | Press(keyval: nat, ctrlOrAlt: bool, unicode: nat)
    | Release(keyval: nat)
    | Click(code: int)

  class Keyboard {
    const lower: nat -> nat
    const keys: array<bv8>
    var log: seq<Message>

    constructor (lower: nat -> nat)
      ensures Valid() && log == [] && fresh(keys) && this.lower == lower
    {
      this.lower := lower;
      keys := new bv8[32](_ => 0);
      log := [];
      new;
      forall c | 0 <= c < 256
        ensures !On(c)
      {
        TestTable(0, c % 8);
      }
    }

    ghost predicate On(c: int)
      requires keys.Length == 32 && 0 <= c < 256
      reads keys
    {
      Test(keys[c / 8], c % 8)
    }

    /** The bitmap is the set of codes whose last KEY message of the keyboard was DOWN. */
    ghost predicate Valid()
      reads this, keys
    {
      && keys.Length == 32
      && (forall c :: 0 <= c < 256 ==> On(c) == HeldByKey(log, c))
      && KeysOnly(log)
      && UpsMatched(log) && NeverStuck(log)
    }

    /** `key_mark`. */
    method KeyMark(code: int, down: bool)
      requires keys.Length == 32
      modifies keys
      ensures forall c :: 0 <= c < 256 ==> On(c) == (if c == code then down else old(On(c)))
    {
      hide Test, Changed;
      if code < 0 || code >= 256 { return; }
      var b := keys[code / 8];
      keys[code / 8] := Changed(b, code % 8, down);
      forall c | 0 <= c < 256
        ensures On(c) == (if c == code then down else old(On(c)))
      {
        OnlyThatBit(b, code % 8, down, c % 8);
      }
    }

    /** `key_marked`. */
    method KeyMarked(code: int) returns (b: bool)
      requires keys.Length == 32
      ensures b <==> 0 <= code < 256 && On(code)
    {
      if code < 0 || code >= 256 { return false; }
      b := Test(keys[code / 8], code % 8);
    }

    /** Appends a KEY message of the keyboard and marks its code. */
    method SendKey(code: int, down: bool)
      requires Valid() && KeyCode(code) && (!down ==> HeldByKey(log, code))
      modifies this`log, keys
      ensures Valid() && log == old(log) + [Key(down, code, false)]
    {
      ghost var l := log;
      var m := Key(down, code, false);
      log := log + [m];
      KeyMark(code, down);
      UpsMatchedAfter(l, m);
      forall c
        ensures HeldByKey(log, c) == (if c == code then down else HeldByKey(l, c))
        ensures Held(log, c) == (if c == code then down else Held(l, c))
      {
        AfterMessage(l, m, c);
      }
    }

    /** `on_key_pressed`: a KEY DOWN for navigation keys and shortcuts, text otherwise. */
    method OnKeyPressed(keyval: nat, ctrlOrAlt: bool, unicode: nat) returns (handled: bool)
      requires Valid()
      modifies this`log, keys
      ensures Valid()
      ensures var code := PressCode(lower, keyval, ctrlOrAlt);
        log == old(log) + (if code >= 0 then [Key(true, code, false)]
                           else if unicode >= 0x20 && unicode != 0x7f then [TextOf(unicode)] else [])
      ensures handled == (log != old(log))
    {
      var code := NavKey(keyval);
      if code < 0 && ctrlOrAlt {
        code := AlnumKey(lower(keyval));
      }
      if code >= 0 {
        SendKey(code, true);
        return true;
      }
      if unicode >= 0x20 && unicode != 0x7f {
        SendText(unicode);
        return true;
      }
      return false;
    }

    method SendText(unicode: nat)
      requires Valid()
      modifies this`log
      ensures Valid() && log == old(log) + [TextOf(unicode)]
    {
      ghost var l := log;
      log := log + [TextOf(unicode)];
      UpsMatchedAfter(l, TextOf(unicode));
      forall c
        ensures HeldByKey(log, c) == HeldByKey(l, c) && Held(log, c) == Held(l, c)
      {
        AfterMessage(l, TextOf(unicode), c);
      }
    }

    /** `on_key_released`: an UP exactly when the key's code was sent DOWN and not yet UP. */
    method OnKeyReleased(keyval: nat)
      requires Valid()
      modifies this`log, keys
      ensures Valid()
      ensures var code := ReleaseCode(lower, keyval);
        log == old(log) + if HeldByKey(old(log), code) then [Key(false, code, false)] else []
      ensures !HeldByKey(log, ReleaseCode(lower, keyval))
    {
      var code := NavKey(keyval);
      if code < 0 {
        code := AlnumKey(lower(keyval));
      }
      var marked := KeyMarked(code);
      ghost var l := log;
      if code >= 0 && marked {
        SendKey(code, false);
        AfterMessage(l, Key(false, code, false), code);
      }
    }

    /** `on_navbtn`: DOWN and UP at once, without touching the bitmap. */
    method OnNavButton(code: int)
      requires Valid()
      modifies this`log
      ensures Valid() && log == old(log) + [Key(true, code, true)] + [Key(false, code, true)]
    {
      ghost var l := log;
      var d, u := Key(true, code, true), Key(false, code, true);
      log := log + [d];
      ghost var l1 := log;
      log := log + [u];
      UpsMatchedAfter(l, d);
      UpsMatchedAfter(l1, u);
      forall c
        ensures HeldByKey(log, c) == HeldByKey(l, c) && (Held(log, c) ==> Held(l, c))
      {
        AfterMessage(l, d, c);
        AfterMessage(l1, u, c);
      }
    }

    /**
     Any sequence of events: the bitmap stays exact, and the messages are those the events alone
     determine. With ClicksFreeIff this says when the device stays in step.
     */
    method Play(events: seq<Event>)
      requires Valid()
      modifies this`log, keys
      ensures Valid() && log == LogAfter(lower, old(log), events)
    {
      hide UpsMatched, NeverStuck, HeldByKey, Held, PressCode, ReleaseCode;
      assert events[..0] == [];
      for n := 0 to |events|
        invariant Valid() && log == LogAfter(lower, old(log), events[..n])
      {
        LogSnoc(lower, old(log), events[..n], events[n]);
        assert events[..n + 1] == events[..n] + [events[n]];
        match events[n] {
          case Press(keyval, modified, unicode) =>
            var _ := OnKeyPressed(keyval, modified, unicode);
          case Release(keyval) =>
            OnKeyReleased(keyval);
          case Click(code) =>
            OnNavButton(code);
        }
      }
      assert events[..|events|] == events;
    }
  }

  // ---- Whole runs

  /** What one event makes the desktop send. */
  function Sent(lower: nat -> nat, log: seq<Message>, e: Event): seq<Message>
  {
    match e
    case Press(keyval, modified, unicode) =>
      var code := PressCode(lower, keyval, modified);
      if code >= 0 then [Key(true, code, false)]
      else if unicode >= 0x20 && unicode != 0x7f then [TextOf(unicode)] else []
    case Release(keyval) =>
      var code := ReleaseCode(lower, keyval);
      if HeldByKey(log, code) then [Key(false, code, false)] else []
    case Click(code) => [Key(true, code, true)] + [Key(false, code, true)]
  }

  /** A key that acts as an Android navigation key. */
  ghost predicate Navigates(keyval: nat)
  {
    exists code :: code >= 0 && ActsAs(keyval, code)
  }

  /**
   What a press sends: a navigation key its own code, a letter with Ctrl, Alt or the like held that
   letter's code, and any other key without them the character it types, unless that is a control character.
   */
  lemma PressSends(lower: nat -> nat, log: seq<Message>, keyval: nat, modified: bool, unicode: nat)
    ensures forall code :: code >= 0 && ActsAs(keyval, code) ==> Sent(lower, log, Press(keyval, modified, unicode)) == [Key(true, code, false)]
    ensures modified && !Navigates(keyval) && 'a' as int <= lower(keyval) <= 'z' as int ==>
      Sent(lower, log, Press(keyval, modified, unicode)) == [Key(true, 29 + lower(keyval) - 'a' as int, false)]
    ensures !modified && !Navigates(keyval) ==>
      Sent(lower, log, Press(keyval, modified, unicode)) == if unicode < 0x20 || unicode == 0x7f then [] else [TextOf(unicode)]
  {
    forall code: int | code >= 0
      ensures NavKey(keyval) == code <==> ActsAs(keyval, code)
    {
      NavKeyActs(keyval, code);
    }
    if NavKey(keyval) >= 0 {
      assert ActsAs(keyval, NavKey(keyval)) && Navigates(keyval);
    }
  }

  /** All messages after a run of events. */
  function LogAfter(lower: nat -> nat, log: seq<Message>, events: seq<Event>): seq<Message>
    decreases |events|
  {
    if events == [] then log else LogAfter(lower, log + Sent(lower, log, events[0]), events[1..])
  }

  lemma {:induction false} LogSnoc(lower: nat -> nat, log: seq<Message>, events: seq<Event>, e: Event)
    ensures var l := LogAfter(lower, log, events); LogAfter(lower, log, events + [e]) == l + Sent(lower, l, e)
    decreases |events|
  {
    hide Sent;
    if events == [] {
      assert (events + [e])[1..] == [];
    } else {
      assert (events + [e])[1..] == events[1..] + [e];
      LogSnoc(lower, log + Sent(lower, log, events[0]), events[1..], e);
    }
  }

  /** The device is in step after each of the first n events and before them. */
  ghost predicate AlwaysInStep(lower: nat -> nat, log: seq<Message>, events: seq<Event>)
  {
    forall n :: 0 <= n <= |events| ==> InStep(LogAfter(lower, log, events[..n]))
  }

  /** Every button is clicked at a moment when no key holds its code. */
  ghost predicate ClicksFree(lower: nat -> nat, log: seq<Message>, events: seq<Event>)
  {
    forall n :: 0 <= n < |events| && events[n].Click? ==> !HeldByKey(LogAfter(lower, log, events[..n]), events[n].code)
  }

  /** One event keeps the device in step exactly unless it is a click on a held code. */
  lemma EventInStepIff(lower: nat -> nat, log: seq<Message>, e: Event)
    requires InStep(log)
    ensures InStep(log + Sent(lower, log, e)) <==> !(e.Click? && HeldByKey(log, e.code))
  {
    hide PressCode, ReleaseCode, HeldByKey, Held, InStep;
    var sent := Sent(lower, log, e);
    match e {
      case Click(code) =>
        ButtonInStepIff(log, code);
        assert log + sent == log + [Key(true, code, true)] + [Key(false, code, true)];
      case _ =>
        if sent != [] {
          KeysStayInStep(log, sent[0]);
          assert sent == [sent[0]];
        } else {
          assert log + sent == log;
        }
    }
  }

  /** Over every run the device is always in step if and only if no button is clicked while a key holds its code. */
  lemma ClicksFreeIff(lower: nat -> nat, log: seq<Message>, events: seq<Event>)
    requires InStep(log)
    ensures AlwaysInStep(lower, log, events) <==> ClicksFree(lower, log, events)
  {
    hide InStep, HeldByKey, LogAfter, Sent;
    if ClicksFree(lower, log, events) {
      forall n | 0 <= n <= |events|
        ensures InStep(LogAfter(lower, log, events[..n]))
      {
        InStepUpTo(lower, log, events, n);
      }
    }
    if AlwaysInStep(lower, log, events) {
      forall n | 0 <= n < |events| && events[n].Click?
        ensures !HeldByKey(LogAfter(lower, log, events[..n]), events[n].code)
      {
        assert InStep(LogAfter(lower, log, events[..n])) && InStep(LogAfter(lower, log, events[..n + 1]));
        assert events[..n + 1] == events[..n] + [events[n]];
        LogSnoc(lower, log, events[..n], events[n]);
        EventInStepIff(lower, LogAfter(lower, log, events[..n]), events[n]);
      }
    }
  }

  lemma {:induction false} InStepUpTo(lower: nat -> nat, log: seq<Message>, events: seq<Event>, n: nat)
    requires InStep(log) && ClicksFree(lower, log, events) && n <= |events|
    ensures InStep(LogAfter(lower, log, events[..n]))
  {
    hide InStep, HeldByKey, Sent;
    if n == 0 {
      assert events[..0] == [];
    } else {
      InStepUpTo(lower, log, events, n - 1);
      assert events[..n] == events[..n - 1] + [events[n - 1]];
      LogSnoc(lower, log, events[..n - 1], events[n - 1]);
      EventInStepIff(lower, LogAfter(lower, log, events[..n - 1]), events[n - 1]);
    }
  }

  lemma SentKeysOnly(lower: nat -> nat, log: seq<Message>, e: Event)
    requires KeysOnly(log)
    ensures KeysOnly(log + Sent(lower, log, e))
  {
    hide HeldByKey, Held, KeyCode;
    var sent := Sent(lower, log, e);
    forall c | HeldByKey(log + sent, c)
      ensures KeyCode(c)
    {
      match e {
        case Click(code) =>
          AfterMessage(log, sent[0], c);
          AfterMessage(log + [sent[0]], sent[1], c);
          assert log + sent == log + [sent[0]] + [sent[1]];
        case _ =>
          if sent != [] {
            AfterMessage(log, sent[0], c);
            assert log + sent == log + [sent[0]];
            CodesAreKeys(lower, e);
          } else {
            assert log + sent == log;
          }
      }
    }
  }

  lemma CodesAreKeys(lower: nat -> nat, e: Event)
    ensures e.Press? ==> PressCode(lower, e.keyval, e.ctrlOrAlt) == -1 || KeyCode(PressCode(lower, e.keyval, e.ctrlOrAlt))
    ensures e.Release? ==> ReleaseCode(lower, e.keyval) == -1 || KeyCode(ReleaseCode(lower, e.keyval))
  {
  }

  lemma {:induction false} KeysOnlyAfter(lower: nat -> nat, log: seq<Message>, events: seq<Event>)
    requires KeysOnly(log)
    ensures KeysOnly(LogAfter(lower, log, events))
    decreases |events|
  {
    hide KeysOnly, Sent;
    if events != [] {
      SentKeysOnly(lower, log, events[0]);
      KeysOnlyAfter(lower, log + Sent(lower, log, events[0]), events[1..]);
    }
  }

  /**
   With the buttons there are, the device is always in step if and only if Back is never clicked while
   Escape is held: no other button shares its code with a key.
   */
  lemma BackClicksIff(lower: nat -> nat, log: seq<Message>, events: seq<Event>)
    requires InStep(log) && KeysOnly(log)
    requires forall n :: 0 <= n < |events| && events[n].Click? ==> events[n].code in BUTTONS
    ensures AlwaysInStep(lower, log, events) <==>
      forall n :: 0 <= n < |events| && events[n] == Click(4) ==> !HeldByKey(LogAfter(lower, log, events[..n]), 4)
  {
    hide InStep, HeldByKey, LogAfter, Sent;
    ClicksFreeIff(lower, log, events);
    forall n | 0 <= n < |events| && events[n].Click? && events[n].code != 4
      ensures !HeldByKey(LogAfter(lower, log, events[..n]), events[n].code)
    {
      KeysOnlyAfter(lower, log, events[..n]);
      assert !KeyCode(events[n].code);
    }
  }

  /** Escape held, Back clicked, Escape released: the bitmap and the device disagree in between. */
  lemma BackDuringEscape()
    ensures var log := [Key(true, 4, false)];
      InStep(log) && NavKey(0xff1b) == 4 && 4 in BUTTONS && !InStep(log + [Key(true, 4, true)] + [Key(false, 4, true)])
  {
    var log := [Key(true, 4, false)];
    assert log == [] + [Key(true, 4, false)];
    KeysStayInStep([], Key(true, 4, false));
    AfterMessage([], Key(true, 4, false), 4);
    ButtonInStepIff(log, 4);
  }
}
