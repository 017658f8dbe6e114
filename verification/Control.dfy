/**
 The control socket: the desktop encodes input events, the device parses and injects them.
 Floats travel as opaque 32-bit patterns.
 */
module Control {
  import opened Bytes
  import opened Sockets

  type Word = n: nat | n < 0x1_0000_0000

  const MAX_TEXT := 0x10_0000
  const BUTTON_LEFT := 1

  datatype Msg =
    | MouseMotion(buttons: Word, x: Word, y: Word)
    | MouseButton(down: bool, button: Word, buttons: Word, x: Word, y: Word)
    | Scroll(x: Word, y: Word, h: Word, v: Word)
    | Key(down: bool, keycode: Word, meta: Word, repeat: Word)
    | Text(utf8: seq<byte>)
    | DeviceAction(action: byte)

  /** Messages the client agrees to send. */
  predicate Sendable(m: Msg)
  {
    m.Text? ==> |m.utf8| <= 1048576
  }

  function Bit(b: bool): byte
  {
    if b then 1 else 0
  }

  function TypeOf(m: Msg): byte
  {
    match m
    case MouseMotion(_, _, _) => 0
    case MouseButton(_, _, _, _, _) => 1
    case Scroll(_, _, _, _) => 2
    case Key(_, _, _, _) => 3
    case Text(_) => 4
    case DeviceAction(_) => 5
  }

  /** The fields that follow the type byte. */
  function Body(m: Msg): (s: seq<byte>)
  {
    match m
    case MouseMotion(b, x, y) => Put32(b) + Put32(x) + Put32(y)
    case MouseButton(d, k, b, x, y) => [Bit(d)] + Put32(k) + Put32(b) + Put32(x) + Put32(y)
    case Scroll(x, y, h, v) => Put32(x) + Put32(y) + Put32(h) + Put32(v)
    case Key(d, k, meta, r) => [Bit(d)] + Put32(k) + Put32(meta) + Put32(r)
    case Text(t) => Put32(|t|) + t
    case DeviceAction(a) => [a]
  }

  /** The bytes of one message. */
  function Encode(m: Msg): (s: seq<byte>)
    ensures s != []
  {
    [TypeOf(m)] + Body(m)
  }

  function EncodeAll(ms: seq<Msg>): (s: seq<byte>)
  {
    if ms == [] then [] else Encode(ms[0]) + EncodeAll(ms[1..])
  }

  // ---- The desktop side

  /** The client's control channel: whether it was requested, and its socket once connected. */
  class Channel {
    const enabled: bool
    const sock: Socket?

    constructor (enabled: bool, sock: Socket?)
      ensures this.enabled == enabled && this.sock == sock
    {
      this.enabled, this.sock := enabled, sock;
    }

    /** `rc_control_send`. */
    method Send(bytes: seq<byte>) returns (st: Status, ghost taken: nat)
      modifies sock
      ensures !enabled ==> st == ErrInvalidArg
      ensures enabled && sock == null ==> st == ErrConnect
      ensures Effect(bytes, st, taken)
    {
      taken := 0;
      if !enabled { return ErrInvalidArg, 0; }
      if sock == null { return ErrConnect, 0; }
      st, taken := WriteFull(sock, bytes);
    }

    /** Ok means all of `bytes` went out; an error means only a proper prefix did. */
    twostate predicate Effect(bytes: seq<byte>, st: Status, taken: nat)
      reads sock
    {
      && taken <= |bytes|
      && (st == Ok ==> enabled && sock != null && taken == |bytes|)
      && (st != Ok ==> taken < |bytes| || bytes == [])
      && (sock != null ==> sock.outgoing == old(sock.outgoing) + bytes[..taken])
      && (enabled && sock != null && old(sock.Reliable()) ==> st == Ok && sock.Reliable())
    }

    method SendMouseMotion(buttons: Word, x: Word, y: Word) returns (st: Status, ghost taken: nat)
      modifies sock
      ensures Effect(Encode(MouseMotion(buttons, x, y)), st, taken)
    {
      var b := FillMotion(buttons, x, y);
      st, taken := Send(b[..]);
    }

    method SendMouseButton(action: int, button: Word, buttons: Word, x: Word, y: Word) returns (st: Status, ghost taken: nat)
      modifies sock
      ensures Effect(Encode(MouseButton(action != 0, button, buttons, x, y)), st, taken)
    {
      var b := FillButton(action, button, buttons, x, y);
      st, taken := Send(b[..]);
    }

    method SendScroll(x: Word, y: Word, h: Word, v: Word) returns (st: Status, ghost taken: nat)
      modifies sock
      ensures Effect(Encode(Scroll(x, y, h, v)), st, taken)
    {
      var b := FillScroll(x, y, h, v);
      st, taken := Send(b[..]);
    }

    method SendKey(action: int, keycode: Word, meta: Word, repeat: Word) returns (st: Status, ghost taken: nat)
      modifies sock
      ensures Effect(Encode(Key(action != 0, keycode, meta, repeat)), st, taken)
    {
      var b := FillKey(action, keycode, meta, repeat);
      st, taken := Send(b[..]);
    }

    /** Text longer than the receiver accepts is refused without sending a byte. */
    method SendText(utf8: seq<byte>) returns (st: Status, ghost taken: nat)
      modifies sock
      ensures |utf8| > MAX_TEXT ==> st == ErrInvalidArg && taken == 0
      ensures |utf8| <= MAX_TEXT ==> Effect(Encode(Text(utf8)), st, taken)
      ensures sock != null && |utf8| > MAX_TEXT ==> sock.outgoing == old(sock.outgoing)
    {
      if |utf8| > MAX_TEXT { return ErrInvalidArg, 0; }
      var b := FillText(utf8);
      st, taken := Send(b[..]);
    }

    method SendDeviceAction(action: byte) returns (st: Status, ghost taken: nat)
      modifies sock
      ensures Effect(Encode(DeviceAction(action)), st, taken)
    {
      var b := new byte[2];
      b[0], b[1] := 5, action;
      assert b[..] == Encode(DeviceAction(action));
      st, taken := Send(b[..]);
    }
  }

  // The buffers filled by the encoders.

  method FillMotion(buttons: Word, x: Word, y: Word) returns (b: array<byte>)
    ensures fresh(b) && b[..] == Encode(MouseMotion(buttons, x, y))
  {
    hide Put32;
    b := new byte[13];
    b[0] := 0;
    assert b[..1] == [0];
    PutU32(b, 1, buttons);
    PutU32(b, 5, x);
    Assoc(0, Put32(buttons), Put32(x));
    PutU32(b, 9, y);
    Assoc(0, Put32(buttons) + Put32(x), Put32(y));
    assert b[..] == b[..13];
  }

  method FillButton(action: int, button: Word, buttons: Word, x: Word, y: Word) returns (b: array<byte>)
    ensures fresh(b) && b[..] == Encode(MouseButton(action != 0, button, buttons, x, y))
  {
    hide Put32;
    b := new byte[18];
    b[0] := 1;
    b[1] := if action != 0 then 1 else 0;
    ghost var body := [Bit(action != 0)];
    assert b[..2] == [1] + body;
    PutU32(b, 2, button);
    Assoc(1, body, Put32(button));
    PutU32(b, 6, buttons);
    Assoc(1, body + Put32(button), Put32(buttons));
    PutU32(b, 10, x);
    Assoc(1, body + Put32(button) + Put32(buttons), Put32(x));
    PutU32(b, 14, y);
    Assoc(1, body + Put32(button) + Put32(buttons) + Put32(x), Put32(y));
    assert b[..] == b[..18];
  }

  method FillScroll(x: Word, y: Word, h: Word, v: Word) returns (b: array<byte>)
    ensures fresh(b) && b[..] == Encode(Scroll(x, y, h, v))
  {
    hide Put32;
    b := new byte[17];
    b[0] := 2;
    assert b[..1] == [2];
    PutU32(b, 1, x);
    PutU32(b, 5, y);
    Assoc(2, Put32(x), Put32(y));
    PutU32(b, 9, h);
    Assoc(2, Put32(x) + Put32(y), Put32(h));
    PutU32(b, 13, v);
    Assoc(2, Put32(x) + Put32(y) + Put32(h), Put32(v));
    assert b[..] == b[..17];
  }

  method FillKey(action: int, keycode: Word, meta: Word, repeat: Word) returns (b: array<byte>)
    ensures fresh(b) && b[..] == Encode(Key(action != 0, keycode, meta, repeat))
  {
    hide Put32;
    b := new byte[14];
    b[0] := 3;
    b[1] := if action != 0 then 1 else 0;
    ghost var body := [Bit(action != 0)];
    assert b[..2] == [3] + body;
    PutU32(b, 2, keycode);
    Assoc(3, body, Put32(keycode));
    PutU32(b, 6, meta);
    Assoc(3, body + Put32(keycode), Put32(meta));
    PutU32(b, 10, repeat);
    Assoc(3, body + Put32(keycode) + Put32(meta), Put32(repeat));
    assert b[..] == b[..14];
  }

  method FillText(utf8: seq<byte>) returns (b: array<byte>)
    requires |utf8| <= MAX_TEXT
    ensures fresh(b) && b[..] == Encode(Text(utf8))
  {
    hide Put32;
    b := new byte[5 + |utf8|];
    b[0] := 4;
    assert b[..1] == [4];
    PutU32(b, 1, |utf8|);
    for i := 0 to |utf8|
      invariant b[..5 + i] == [4] + Put32(|utf8|) + utf8[..i]
    {
      b[5 + i] := utf8[i];
      assert b[..5 + i + 1] == b[..5 + i] + [utf8[i]];
      assert utf8[..i] + [utf8[i]] == utf8[..i + 1];
    }
    assert b[..] == b[..5 + |utf8|];
  }

  lemma Assoc(typ: byte, s: seq<byte>, t: seq<byte>)
    ensures [typ] + s + t == [typ] + (s + t)
  {
  }

  /** `put_u32`. */
  method PutU32(b: array<byte>, off: nat, v: Word)
    requires off + 4 <= b.Length
    modifies b
    ensures b[..off + 4] == old(b[..off]) + Put32(v)
  {
    b[off], b[off + 1], b[off + 2], b[off + 3] :=
      v / 0x100_0000 % 256, v / 0x1_0000 % 256, v / 256 % 256, v % 256;
  }

  // ---- The device side

  /** Why the receiver stopped. */
  datatype Stop = Closed | CutShort | UnknownType | BadTextLength

  /** The outcome of taking something off the stream. */
  datatype Take<+T> = Took(v: T, rest: seq<byte>) | Halt(why: Stop) {
    predicate IsFailure() { Halt? }
    function PropagateFailure<U>(): Take<U> requires Halt? { Halt(why) }
    function Extract(): (T, seq<byte>) requires Took? { (v, rest) }
  }

  function TakeInt(s: seq<byte>): (t: Take<Word>)
    ensures t.Took? ==> |t.rest| < |s|
  {
    if |s| < 4 then Halt(CutShort) else Took(Be32(s), s[4..])
  }

  function TakeByte(s: seq<byte>): (t: Take<byte>)
    ensures t.Took? ==> |t.rest| < |s|
  {
    if |s| < 1 then Halt(CutShort) else Took(s[0], s[1..])
  }

  /** Sign of a Java int with these 32 bits. */
  predicate NegativeInt(w: Word)
  {
    w >= 0x1_0000_0000 / 2
  }

  /** The fields that follow a type byte. */
  function ParseBody(typ: byte, s: seq<byte>): (t: Take<Msg>)
    ensures t.Took? ==> |t.rest| <= |s|
  {
    if typ == 0 then
      var (b, s) :- TakeInt(s);
      var (x, s) :- TakeInt(s);
      var (y, s) :- TakeInt(s);
      Took(MouseMotion(b, x, y), s)
    else if typ == 1 then
      var (a, s) :- TakeByte(s);
      var (k, s) :- TakeInt(s);
      var (b, s) :- TakeInt(s);
      var (x, s) :- TakeInt(s);
      var (y, s) :- TakeInt(s);
      Took(MouseButton(a == 1, k, b, x, y), s)
    else if typ == 2 then
      var (x, s) :- TakeInt(s);
      var (y, s) :- TakeInt(s);
      var (h, s) :- TakeInt(s);
      var (v, s) :- TakeInt(s);
      Took(Scroll(x, y, h, v), s)
    else if typ == 3 then
      var (a, s) :- TakeByte(s);
      var (k, s) :- TakeInt(s);
      var (m, s) :- TakeInt(s);
      var (r, s) :- TakeInt(s);
      Took(Key(a == 1, k, m, r), s)
    else if typ == 4 then
      var (n, s) :- TakeInt(s);
      if NegativeInt(n) || n > MAX_TEXT then Halt(BadTextLength) else
      if |s| < n then Halt(CutShort) else
      Took(Text(s[..n]), s[n..])
    else if typ == 5 then
      var (a, s) :- TakeByte(s);
      Took(DeviceAction(a), s)
    else
      Halt(UnknownType)
  }

  function ParseOne(s: seq<byte>): (t: Take<Msg>)
    ensures t.Took? ==> |t.rest| < |s|
  {
    if s == [] then Halt(Closed) else ParseBody(s[0], s[1..])
  }

  function ParseAll(s: seq<byte>): (r: (seq<Msg>, Stop))
    decreases |s|
  {
    match ParseOne(s)
    case Halt(why) => ([], why)
    case Took(m, rest) =>
      var (ms, why) := ParseAll(rest);
      ([m] + ms, why)
  }

  /** What the receiver injects into the system. */
  datatype Touch = TouchDown | TouchMove | TouchUp
  datatype Event =
    | Touched(kind: Touch, x: Word, y: Word)
    | Scrolled(x: Word, y: Word, h: Word, v: Word)
    | Keyed(down: bool, keycode: Word, meta: Word, repeat: Word)
    | Typed(utf8: seq<byte>)
    | Performed(action: byte)

  /** Only the left button touches the screen, and only a held left button drags. */
  function Events(m: Msg): (es: seq<Event>)
    ensures |es| <= 1
  {
    match m
    case MouseMotion(b, x, y) => if b % 2 == 1 then [Touched(TouchMove, x, y)] else []
    case MouseButton(d, k, _, x, y) =>
      if k == BUTTON_LEFT then [Touched(if d then TouchDown else TouchUp, x, y)] else []
    case Scroll(x, y, h, v) => [Scrolled(x, y, h, v)]
    case Key(d, k, meta, r) => [Keyed(d, k, meta, r)]
    case Text(t) => if t == [] then [] else [Typed(t)]
    case DeviceAction(a) => [Performed(a)]
  }

  function AllEvents(ms: seq<Msg>): (es: seq<Event>)
  {
    if ms == [] then [] else Events(ms[0]) + AllEvents(ms[1..])
  }

  /** `DataInputStream.readInt` / `readUnsignedByte` over a fragmented stream. */
  method ReadInt(s: Socket) returns (ok: bool, v: Word)
    requires s.Reliable()
    modifies s`answers, s`incoming
    ensures s.Reliable()
    ensures ok ==> TakeInt(old(s.incoming)) == Took(v, s.incoming)
    ensures !ok ==> TakeInt(old(s.incoming)) == Halt(CutShort)
  {
    v := 0;
    var b := new byte[4];
    var st := ReadFull(s, b, 0, 4);
    ok := st == Ok;
    if ok {
      assert b[..] == b[0..4] == old(s.incoming)[..4];
      BePrefix(b[..], old(s.incoming));
      v := Be32(b[..]);
    }
  }

  method ReadByte(s: Socket) returns (ok: bool, v: byte)
    requires s.Reliable()
    modifies s`answers, s`incoming
    ensures s.Reliable()
    ensures ok ==> TakeByte(old(s.incoming)) == Took(v, s.incoming)
    ensures !ok ==> TakeByte(old(s.incoming)) == Halt(CutShort)
  {
    v := 0;
    var b := new byte[1];
    var st := ReadFull(s, b, 0, 1);
    ok := st == Ok;
    if ok {
      v := b[0];
      assert b[0..1][0] == old(s.incoming)[..1][0];
    }
  }

  /** `dispatch`: reads the fields of one message and injects it. */
  method Dispatch(s: Socket, typ: byte) returns (t: Take<Msg>, events: seq<Event>)
    requires s.Reliable()
    modifies s`answers, s`incoming
    ensures s.Reliable()
    ensures t.Halt? ==> ParseBody(typ, old(s.incoming)) == t && events == []
    ensures t.Took? ==> t.rest == s.incoming && ParseBody(typ, old(s.incoming)) == t && events == Events(t.v)
  {
    hide TakeInt, TakeByte;
    events := [];
    var ok, a, p, q, r, z;
    t := Halt(CutShort);
    if typ == 0 {
      ok, p := ReadInt(s); if !ok { return; }
      ok, q := ReadInt(s); if !ok { return; }
      ok, r := ReadInt(s); if !ok { return; }
      if p % 2 == 1 { events := [Touched(TouchMove, q, r)]; }
      t := Took(MouseMotion(p, q, r), s.incoming);
    } else if typ == 1 {
      ok, a := ReadByte(s); if !ok { return; }
      ok, p := ReadInt(s); if !ok { return; }
      ok, z := ReadInt(s); if !ok { return; }
      ok, q := ReadInt(s); if !ok { return; }
      ok, r := ReadInt(s); if !ok { return; }
      if p == BUTTON_LEFT {
        if a == 1 { events := [Touched(TouchDown, q, r)]; } else { events := [Touched(TouchUp, q, r)]; }
      }
      t := Took(MouseButton(a == 1, p, z, q, r), s.incoming);
    } else if typ == 2 {
      ok, p := ReadInt(s); if !ok { return; }
      ok, q := ReadInt(s); if !ok { return; }
      ok, r := ReadInt(s); if !ok { return; }
      ok, z := ReadInt(s); if !ok { return; }
      events := [Scrolled(p, q, r, z)];
      t := Took(Scroll(p, q, r, z), s.incoming);
    } else if typ == 3 {
      ok, a := ReadByte(s); if !ok { return; }
      ok, p := ReadInt(s); if !ok { return; }
      ok, q := ReadInt(s); if !ok { return; }
      ok, r := ReadInt(s); if !ok { return; }
      events := [Keyed(a == 1, p, q, r)];
      t := Took(Key(a == 1, p, q, r), s.incoming);
    } else if typ == 4 {
      ok, p := ReadInt(s); if !ok { return; }
      if NegativeInt(p) || p > MAX_TEXT { t := Halt(BadTextLength); return; }
      var buf := new byte[p];
      ghost var before := s.incoming;
      var st := ReadFull(s, buf, 0, p);
      if st != Ok { return; }
      assert buf[..] == buf[0..p] == before[..p];
      if buf.Length > 0 { events := [Typed(buf[..])]; }
      t := Took(Text(buf[..]), s.incoming);
    } else if typ == 5 {
      ok, a := ReadByte(s); if !ok { return; }
      events := [Performed(a)];
      t := Took(DeviceAction(a), s.incoming);
    } else {
      t := Halt(UnknownType);
    }
  }

  /** `run`: the receiver's loop injects exactly the events of the messages parsed from the stream. */
  method Receive(s: Socket) returns (ghost ms: seq<Msg>, injected: seq<Event>, why: Stop)
    requires s.Reliable()
    modifies s`answers, s`incoming
    ensures (ms, why) == ParseAll(old(s.incoming))
    ensures injected == AllEvents(ms)
  {
    hide ParseBody, Events;
    ms, injected := [], [];
    assert [] + ParseAll(s.incoming).0 == ParseAll(s.incoming).0;
    while true
      invariant s.Reliable()
      invariant ParseAll(old(s.incoming)) == (ms + ParseAll(s.incoming).0, ParseAll(s.incoming).1)
      invariant injected == AllEvents(ms)
      decreases |s.incoming|
    {
      ghost var before := s.incoming;
      var ok, typ := ReadByte(s);
      if !ok {
        why := Closed;
        assert before == [] && ms + [] == ms;
        return;
      }
      var t, events := Dispatch(s, typ);
      assert ParseOne(before) == t;
      if t.Halt? {
        why := t.why;
        assert ms + [] == ms;
        return;
      }
      AllEventsSnoc(ms, t.v);
      assert ms + ([t.v] + ParseAll(s.incoming).0) == ms + [t.v] + ParseAll(s.incoming).0;
      ms := ms + [t.v];
      injected := injected + events;
    }
  }

  // ---- Lemmas

  /** What a message should do on the device. */
  ghost predicate Means(m: Msg, es: seq<Event>)
  {
    match m
    // A motion drags exactly while the left button, bit 0 of the mask, is held.
    case MouseMotion(b, x, y) =>
      (b % 2 == 1 ==> es == [Touched(TouchMove, x, y)]) && (b % 2 == 0 ==> es == [])
    // Button 1 is the left one: its press touches the screen at the point, its release lets go there.
    case MouseButton(down, k, _, x, y) =>
      && (k == 1 && down ==> es == [Touched(TouchDown, x, y)])
      && (k == 1 && !down ==> es == [Touched(TouchUp, x, y)])
      && (k != 1 ==> es == [])
    case Scroll(x, y, h, v) => es == [Scrolled(x, y, h, v)]
    case Key(down, k, meta, r) => es == [Keyed(down, k, meta, r)]
    case Text(t) => (t != [] ==> es == [Typed(t)]) && (t == [] ==> es == [])
    case DeviceAction(a) => es == [Performed(a)]
  }

  lemma EventsMean(m: Msg)
    ensures Means(m, Events(m))
  {
  }

  /** The events of a run, message by message. */
  ghost predicate AllMean(ms: seq<Msg>, es: seq<Event>)
  {
    if ms == [] then es == []
    else exists n: nat :: n <= |es| && Means(ms[0], es[..n]) && AllMean(ms[1..], es[n..])
  }

  /** From the desktop's messages to what happens on the device. */
  lemma {:induction false} SentIsDone(ms: seq<Msg>)
    requires forall i :: 0 <= i < |ms| ==> Sendable(ms[i])
    ensures AllMean(ms, AllEvents(ParseAll(EncodeAll(ms)).0))
  {
    RoundTrip(ms);
    EventsAllMean(ms);
  }

  lemma {:induction false} EventsAllMean(ms: seq<Msg>)
    ensures AllMean(ms, AllEvents(ms))
  {
    if ms != [] {
      EventsMean(ms[0]);
      EventsAllMean(ms[1..]);
      var es, n := AllEvents(ms), |Events(ms[0])|;
      assert es[..n] == Events(ms[0]) && es[n..] == AllEvents(ms[1..]);
    }
  }

  lemma {:induction false} AllEventsSnoc(ms: seq<Msg>, m: Msg)
    ensures AllEvents(ms + [m]) == AllEvents(ms) + Events(m)
  {
    if ms == [] {
      assert [m][1..] == [] && ([] + [m]) == [m];
    } else {
      AllEventsSnoc(ms[1..], m);
      assert (ms + [m])[1..] == ms[1..] + [m];
    }
  }

  lemma TakePut(v: Word, rest: seq<byte>)
    ensures TakeInt(Put32(v) + rest) == Took(v, rest)
  {
    hide Put32, Be32;
    Put32Be32(v);
    var s := Put32(v) + rest;
    assert s[..4] == Put32(v) && s[4..] == rest;
    BePrefix(s, Put32(v));
  }

  lemma Take2(v: Word, w: Word, rest: seq<byte>)
    ensures TakeInt(Put32(v) + Put32(w) + rest) == Took(v, Put32(w) + rest)
    ensures TakeInt(Put32(w) + rest) == Took(w, rest)
  {
    hide Put32, TakeInt;
    assert Put32(v) + Put32(w) + rest == Put32(v) + (Put32(w) + rest);
    TakePut(v, Put32(w) + rest);
    TakePut(w, rest);
  }

  lemma Take3(u: Word, v: Word, w: Word, rest: seq<byte>)
    ensures TakeInt(Put32(u) + Put32(v) + Put32(w) + rest) == Took(u, Put32(v) + Put32(w) + rest)
    ensures TakeInt(Put32(v) + Put32(w) + rest) == Took(v, Put32(w) + rest)
    ensures TakeInt(Put32(w) + rest) == Took(w, rest)
  {
    hide Put32, TakeInt;
    assert Put32(u) + Put32(v) + Put32(w) + rest == Put32(u) + (Put32(v) + Put32(w) + rest);
    TakePut(u, Put32(v) + Put32(w) + rest);
    Take2(v, w, rest);
  }

  lemma Take4(t: Word, u: Word, v: Word, w: Word, rest: seq<byte>)
    ensures TakeInt(Put32(t) + Put32(u) + Put32(v) + Put32(w) + rest) == Took(t, Put32(u) + Put32(v) + Put32(w) + rest)
    ensures TakeInt(Put32(u) + Put32(v) + Put32(w) + rest) == Took(u, Put32(v) + Put32(w) + rest)
    ensures TakeInt(Put32(v) + Put32(w) + rest) == Took(v, Put32(w) + rest)
    ensures TakeInt(Put32(w) + rest) == Took(w, rest)
  {
    hide Put32, TakeInt;
    assert Put32(t) + Put32(u) + Put32(v) + Put32(w) + rest == Put32(t) + (Put32(u) + Put32(v) + Put32(w) + rest);
    TakePut(t, Put32(u) + Put32(v) + Put32(w) + rest);
    Take3(u, v, w, rest);
  }

  lemma BodyMotion(b: Word, x: Word, y: Word, rest: seq<byte>)
    ensures ParseBody(0, Body(MouseMotion(b, x, y)) + rest) == Took(MouseMotion(b, x, y), rest)
  {
    hide Put32, TakeInt;
    Take3(b, x, y, rest);
  }

  lemma BodyButton(d: bool, k: Word, b: Word, x: Word, y: Word, rest: seq<byte>)
    ensures ParseBody(1, Body(MouseButton(d, k, b, x, y)) + rest) == Took(MouseButton(d, k, b, x, y), rest)
  {
    hide Put32, TakeInt;
    var s := Body(MouseButton(d, k, b, x, y)) + rest;
    var tail := Put32(k) + Put32(b) + Put32(x) + Put32(y) + rest;
    assert s[1..] == tail && TakeByte(s) == Took(Bit(d), tail);
    Take4(k, b, x, y, rest);
  }

  lemma BodyScroll(x: Word, y: Word, h: Word, v: Word, rest: seq<byte>)
    ensures ParseBody(2, Body(Scroll(x, y, h, v)) + rest) == Took(Scroll(x, y, h, v), rest)
  {
    hide Put32, TakeInt;
    Take4(x, y, h, v, rest);
  }

  lemma BodyKey(d: bool, k: Word, meta: Word, r: Word, rest: seq<byte>)
    ensures ParseBody(3, Body(Key(d, k, meta, r)) + rest) == Took(Key(d, k, meta, r), rest)
  {
    hide Put32, TakeInt;
    var s := Body(Key(d, k, meta, r)) + rest;
    var tail := Put32(k) + Put32(meta) + Put32(r) + rest;
    assert s[1..] == tail && TakeByte(s) == Took(Bit(d), tail);
    Take3(k, meta, r, rest);
  }

  lemma BodyText(t: seq<byte>, rest: seq<byte>)
    requires |t| <= MAX_TEXT
    ensures ParseBody(4, Body(Text(t)) + rest) == Took(Text(t), rest)
  {
    hide Put32, TakeInt;
    assert Body(Text(t)) + rest == Put32(|t|) + (t + rest);
    TakePut(|t|, t + rest);
    assert (t + rest)[..|t|] == t && (t + rest)[|t|..] == rest;
  }

  /** One encoded message is parsed back and leaves the rest of the stream untouched. */
  lemma ParseEncode(m: Msg, rest: seq<byte>)
    requires Sendable(m)
    ensures ParseOne(Encode(m) + rest) == Took(m, rest)
  {
    hide Put32;
    var s := Encode(m) + rest;
    assert s[0] == TypeOf(m) && s[1..] == Body(m) + rest;
    match m
    case MouseMotion(b, x, y) => BodyMotion(b, x, y, rest);
    case MouseButton(d, k, b, x, y) => BodyButton(d, k, b, x, y, rest);
    case Scroll(x, y, h, v) => BodyScroll(x, y, h, v, rest);
    case Key(d, k, meta, r) => BodyKey(d, k, meta, r, rest);
    case Text(t) => BodyText(t, rest);
    case DeviceAction(a) => assert (Body(m) + rest)[1..] == rest;
  }

  /** Round trip: the receiver recovers any sequence of sent messages, with no byte left over. */
  lemma {:induction false} RoundTrip(ms: seq<Msg>)
    requires forall i :: 0 <= i < |ms| ==> Sendable(ms[i])
    ensures ParseAll(EncodeAll(ms)) == (ms, Closed)
  {
    hide Encode, ParseBody;
    if ms != [] {
      ParseEncode(ms[0], EncodeAll(ms[1..]));
      RoundTrip(ms[1..]);
      assert [ms[0]] + ms[1..] == ms;
    }
  }

  /** Exactly the texts the client refuses are those the receiver would refuse. */
  lemma RefusalsAgree(t: seq<byte>, rest: seq<byte>)
    requires |t| < 0x1_0000_0000
    ensures ParseOne(Encode(Text(t)) + rest) == Halt(BadTextLength) <==> !Sendable(Text(t))
  {
    var s := Encode(Text(t)) + rest;
    assert s[1..] == Put32(|t|) + (t + rest);
    TakePut(|t|, t + rest);
  }
}
