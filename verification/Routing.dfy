/**
 From a session on the desktop to the port its server listens on inside the device: the address of
 the session, the agent's listener, adb's forward and the server's own port.
 */
module Routing {
  import opened Sockets
  import opened AgentTables
  import Text
  import Deploy
  import Discovery
  import Sessions

  // ---- Ports

  /** The port `tcp_listen_addr` really binds: the low 16 bits. */
  function Bound(port: int): (b: int)
    ensures 0 <= b < 0x1_0000 && (0 <= port < 0x1_0000 ==> b == port)
  {
    port % 0x1_0000
  }

  /** Everything on the agent's machine that takes a port. */
  datatype Use = DiscoveryPort | AdbPublic(i: nat) | StreamPublic(i: nat, k: nat) | AdbLocal(i: nat) | StreamLocal(i: nat, k: nat)

  /** Uses that can occur: at most eight slots, and stream ports only if they are relayed. */
  predicate Proper(p: Params, u: Use)
  {
    match u
    case DiscoveryPort => true
    case AdbPublic(i) => i < 8
    case AdbLocal(i) => i < 8
    case StreamPublic(i, k) => i < 8 && k < 4 && !p.noStream
    case StreamLocal(i, k) => i < 8 && k < 4 && !p.noStream
  }

  /** The port taken: public ports are cut to 16 bits by bind, local ones are named to adb as they are. */
  function PortOf(p: Params, u: Use): int
  {
    match u
    case DiscoveryPort => Bound(p.discoveryPort)
    case AdbPublic(i) => Bound(p.adbBase + i)
    case AdbLocal(i) => p.adbBase + i + 10000
    case StreamPublic(i, k) => Bound(StreamBaseOf(i) + k)
    case StreamLocal(i, k) => StreamBaseOf(i) + k + 10000
  }

  /** A use takes a port of its own choosing: 0 lets the system choose a free one, and adb refuses what is no port. */
  predicate Takes(p: Params, u: Use)
  {
    Proper(p, u) && 0 < PortOf(p, u) < 0x1_0000
  }

  /** No two uses take the same port. */
  ghost predicate NoCollision(p: Params)
  {
    forall u, v :: Takes(p, u) && Takes(p, v) && PortOf(p, u) == PortOf(p, v) ==> u == v
  }

  predicate Within(x: int, lo: int, hi: int)
  {
    lo <= x <= hi
  }

  /** What can be checked on the command line. */
  predicate Sound(p: Params)
  {
    var b, d := Bound(p.adbBase), Bound(p.discoveryPort);
    && (!p.noStream ==>
          && !Within(b, 27176, 27214) && !Within(b, 37176, 37214) && !Within(p.adbBase, 17176, 17214)
          && !Within(d, 27183, 27214) && !Within(d, 37183, 37214))
    && (d != 0 ==> Bound(p.discoveryPort - p.adbBase) > 7 && !Within(d, p.adbBase + 10000, p.adbBase + 10007))
  }

  lemma StreamPortsDistinct(i: nat, k: nat, j: nat, l: nat)
    requires k < 4 && l < 4
    ensures StreamBaseOf(i) + k == StreamBaseOf(j) + l ==> i == j && k == l
  {
  }

  /** Adding a small number to a bound port wraps around at most once. */
  lemma BoundNear(x: int, i: nat)
    requires i < 8
    ensures Bound(x + i) == Bound(x) + i || (Bound(x + i) == Bound(x) + i - 0x1_0000 && Bound(x + i) < 7)
  {
  }

  lemma BoundSame(x: int, y: int, i: nat)
    requires i < 8 && Bound(x) == Bound(y + i)
    ensures Bound(x - y) == i
  {
  }

  /** Two adb ports, public or local, of different slots never meet. */
  lemma AdbApart(p: Params, u: Use, v: Use)
    requires Takes(p, u) && Takes(p, v) && PortOf(p, u) == PortOf(p, v)
    requires u.AdbPublic? || u.AdbLocal?
    requires v.AdbPublic? || v.AdbLocal?
    ensures u == v
  {
    var x, y := p.adbBase + u.i + (if u.AdbLocal? then 10000 else 0), p.adbBase + v.i + (if v.AdbLocal? then 10000 else 0);
    assert Bound(x) == PortOf(p, u) && Bound(y) == PortOf(p, v);
    assert (x - y) % 0x1_0000 == 0;
  }

  lemma AdbStreamApart(p: Params, u: Use, v: Use)
    requires Sound(p) && Takes(p, u) && Takes(p, v) && (u.AdbPublic? || u.AdbLocal?) && (v.StreamPublic? || v.StreamLocal?)
    ensures PortOf(p, u) != PortOf(p, v)
  {
    BoundNear(p.adbBase, u.i);
  }

  lemma DiscoveryApart(p: Params, v: Use)
    requires Sound(p) && Takes(p, DiscoveryPort) && Takes(p, v) && v != DiscoveryPort
    ensures PortOf(p, DiscoveryPort) != PortOf(p, v)
  {
    if v.AdbPublic? && PortOf(p, DiscoveryPort) == PortOf(p, v) {
      BoundSame(p.discoveryPort, p.adbBase, v.i);
    }
  }

  lemma SoundIsEnough(p: Params)
    requires Sound(p)
    ensures NoCollision(p)
  {
    hide Sound;
    forall u, v | Takes(p, u) && Takes(p, v) && PortOf(p, u) == PortOf(p, v)
      ensures u == v
    {
      if u == DiscoveryPort || v == DiscoveryPort {
        if u != v {
          DiscoveryApart(p, if u == DiscoveryPort then v else u);
        }
      } else if u.AdbPublic? || u.AdbLocal? {
        if v.AdbPublic? || v.AdbLocal? {
          AdbApart(p, u, v);
        } else {
          AdbStreamApart(p, u, v);
        }
      } else if v.AdbPublic? || v.AdbLocal? {
        AdbStreamApart(p, v, u);
      } else {
        StreamPortsDistinct(u.i, u.k, v.i, v.k);
      }
    }
  }

  /** The stream use that a number in the public stream range belongs to. */
  function StreamUse(x: int): (u: Use)
    requires 27183 <= x <= 27214
    ensures u.StreamPublic? && u.i < 8 && u.k < 4 && StreamBaseOf(u.i) + u.k == x
  {
    StreamPublic((x - 27183) / 4, (x - 27183) % 4)
  }

  function LocalUse(x: int): (u: Use)
    requires 37183 <= x <= 37214
    ensures u.StreamLocal? && u.i < 8 && u.k < 4 && StreamBaseOf(u.i) + u.k + 10000 == x
  {
    StreamLocal((x - 37183) / 4, (x - 37183) % 4)
  }

  lemma Collides(p: Params, u: Use, v: Use)
    requires Takes(p, u) && Takes(p, v) && u != v && PortOf(p, u) == PortOf(p, v)
    ensures !NoCollision(p)
  {
  }

  /** The first slot whose port lies in the range from lo, for a base up to seven below it. */
  function Reaching(base: int, lo: int): nat
  {
    if base >= lo then 0 else lo - base
  }

  /** An adb base that reaches into a stream range. */
  lemma BaseCollides(p: Params)
    requires !p.noStream
    requires Within(Bound(p.adbBase), 27176, 27214) || Within(Bound(p.adbBase), 37176, 37214) || Within(p.adbBase, 17176, 17214)
    ensures !NoCollision(p)
  {
    hide NoCollision;
    var b := Bound(p.adbBase);
    if Within(b, 27176, 27214) {
      var i := Reaching(b, 27183);
      BoundNear(p.adbBase, i);
      Collides(p, AdbPublic(i), StreamUse(b + i));
    } else if Within(b, 37176, 37214) {
      var i := Reaching(b, 37183);
      BoundNear(p.adbBase, i);
      Collides(p, AdbPublic(i), LocalUse(b + i));
    } else {
      var i := Reaching(p.adbBase, 17183);
      Collides(p, AdbLocal(i), StreamUse(p.adbBase + i + 10000));
    }
  }

  lemma SoundIsNeeded(p: Params)
    requires !Sound(p)
    ensures !NoCollision(p)
  {
    hide NoCollision;
    var b, d := Bound(p.adbBase), Bound(p.discoveryPort);
    if !p.noStream && (Within(b, 27176, 27214) || Within(b, 37176, 37214) || Within(p.adbBase, 17176, 17214)) {
      BaseCollides(p);
    } else if !p.noStream && Within(d, 27183, 27214) {
      Collides(p, DiscoveryPort, StreamUse(d));
    } else if !p.noStream && Within(d, 37183, 37214) {
      Collides(p, DiscoveryPort, LocalUse(d));
    } else if Bound(p.discoveryPort - p.adbBase) <= 7 {
      var i := Bound(p.discoveryPort - p.adbBase);
      SumBound(p.discoveryPort, p.adbBase, i);
      Collides(p, DiscoveryPort, AdbPublic(i));
    } else {
      Collides(p, DiscoveryPort, AdbLocal(d - p.adbBase - 10000));
    }
  }

  lemma SumBound(x: int, y: int, i: int)
    requires Bound(x - y) == i
    ensures Bound(y + i) == Bound(x)
  {
  }

  /** Ports never collide exactly for a sound choice of bases. */
  lemma NoCollisionIff(p: Params)
    ensures NoCollision(p) <==> Sound(p)
  {
    if Sound(p) {
      SoundIsEnough(p);
    } else {
      SoundIsNeeded(p);
    }
  }

  /** The default bases are sound. */
  lemma DefaultsSound(p: Params)
    requires p.adbBase == 15553 && p.discoveryPort == 8888
    ensures NoCollision(p)
  {
    SoundIsEnough(p);
  }

  /** A base beyond 16 bits is bound elsewhere: 92719 takes the first stream port. Without streams 27183 is free. */
  lemma WrappedBase(p: Params)
    ensures p.adbBase == 92719 && !p.noStream ==> PortOf(p, AdbPublic(0)) == PortOf(p, StreamPublic(0, 0)) && !NoCollision(p)
    ensures p.adbBase == 27183 && p.noStream && p.discoveryPort == 8888 ==> NoCollision(p)
  {
    NoCollisionIff(p);
  }

  // ---- The way of one session

  /** adb's end of a stream port, in any table. */
  lemma StreamEnd(p: Params, slots: seq<Slot>, adb: map<int, End>, i: nat, k: nat)
    requires Sound(p) && !p.noStream && SlotsOk(p, slots) && AdbOk(p, slots, adb) && i < |slots| && k < 4
    requires StreamBaseOf(i) + k + 10000 in adb
    ensures adb[StreamBaseOf(i) + k + 10000] == End(slots[i].serial, 27183 + k)
  {
    var loc := StreamBaseOf(i) + k + 10000;
    assert EndOk(p, slots, loc, adb[loc]);
    var j: nat :| j < |slots| && EndOf(p, slots[j], j, loc, adb[loc]);
    if loc == p.adbBase + j + 10000 {
      BoundNear(p.adbBase, j);
    }
  }

  /** The listener that is bound to a stream port, in any table. */
  lemma StreamListener(p: Params, slots: seq<Slot>, ls: seq<Listener>, i: nat, k: nat, l: Listener)
    requires Sound(p) && !p.noStream && SlotsOk(p, slots) && ListenersOk(p, slots, ls) && i < |slots| && k < 4
    requires l in ls && Bound(l.pub) == StreamBaseOf(i) + k
    ensures !l.isDiscovery && l.group == StreamGroup(i, k) && l.dst == Target("127.0.0.1", StreamBaseOf(i) + k + 10000)
  {
    assert ListenerOk(p, slots, l);
    if !l.isDiscovery && l.group == NoGroup {
      BoundNear(p.adbBase, l.pub - p.adbBase);
    }
  }

  /** What is printed after the last colon is the port that is parsed. */
  lemma AddressParses(host: string, port: int)
    requires 0 < |host| < 128 && port > 0
    ensures Deploy.ParseAddr(Some(Sessions.Address(host, port))) == Some((host, port))
  {
    assert forall i :: 0 <= i < |Text.PrintNat(port)| ==> Text.IsDigit(Text.PrintNat(port)[i]);
    Deploy.ParseAddrWithPort(host, Text.Print(port));
    Text.AtoiPrint(port);
  }

  /** adb's end of a slot's adb port, in any table. */
  lemma AdbEnd(p: Params, slots: seq<Slot>, adb: map<int, End>, i: nat)
    requires Sound(p) && SlotsOk(p, slots) && AdbOk(p, slots, adb) && i < |slots|
    requires slots[i].adbPort + 10000 in adb
    ensures adb[slots[i].adbPort + 10000] == End(slots[i].serial, p.tcpipPort)
  {
    assert SlotOk(p, slots[i], i);
    var loc := slots[i].adbPort + 10000;
    assert EndOk(p, slots, loc, adb[loc]);
    var j: nat :| j < |slots| && EndOf(p, slots[j], j, loc, adb[loc]);
    if loc != p.adbBase + j + 10000 {
      BoundNear(p.adbBase, i);
    }
  }

  /** An "ip:port" serial, whose adbd is reached without the adb server. */
  predicate OverNetwork(serial: string)
  {
    ':' in serial && !("emulator-" <= serial)
  }

  /**
   Where a relay of the slot's adb port has to go: to the local port that adb forwards to the device's
   adbd, or for a device on the network straight to the address that is its serial.
   */
  ghost predicate ToAdbd(s: Slot, dst: Target)
  {
    if OverNetwork(s.serial)
    then forall host, rest :: s.serial == host + ":" + rest && ':' !in rest ==> dst == Target(host, Text.Atoi(rest))
    else dst == Target("127.0.0.1", s.adbPort + 10000)
  }

  lemma DstIsAdbd(p: Params, s: Slot, i: nat)
    requires SlotOk(p, s, i)
    ensures ToAdbd(s, AdbDst(s)) && (s.kind == AgentTables.Wireless <==> OverNetwork(s.serial))
  {
    hide Text.LastColon, Text.Atoi, DevOk;
    forall host, rest | OverNetwork(s.serial) && s.serial == host + ":" + rest && ':' !in rest
      ensures AdbDst(s) == Target(host, Text.Atoi(rest))
    {
      Text.LastColonOf(s.serial, host, rest);
    }
  }

  /** Listener l is the relay of the slot's adb port, and behind it is the adbd of the slot's own device. */
  ghost predicate AdbRelay(p: Params, adb: map<int, End>, s: Slot, l: Listener, held: bool)
  {
    && !l.isDiscovery && l.group == NoGroup && ToAdbd(s, l.dst)
    && (!OverNetwork(s.serial) ==>
          && (l.dst.port in adb ==> adb[l.dst.port] == End(s.serial, p.tcpipPort))
          && (held ==> l.dst.port in adb))
  }

  lemma RelaysAdb(p: Params, t: Snapshot, i: nat, l: Listener, held: bool)
    requires SnapshotOk(p, t) && Sound(p) && i < |t.slots|
    requires !l.isDiscovery && l.group == NoGroup && l.dst == AdbDst(t.slots[i])
    requires held && t.slots[i].kind != AgentTables.Wireless ==> t.slots[i].adbPort + 10000 in t.adb
    ensures AdbRelay(p, t.adb, t.slots[i], l, held)
  {
    hide Sound, ListenersOk, FwdsOk, AdbOk, AgentTables.Known, Advertised, SlotOk, AdbDst;
    assert SlotOk(p, t.slots[i], i);
    DstIsAdbd(p, t.slots[i], i);
    if t.slots[i].adbPort + 10000 in t.adb {
      AdbEnd(p, t.slots, t.adb, i);
    }
  }

  /** The slot's adb port has a relay. */
  ghost predicate AdbServed(p: Params, t: Snapshot, s: Slot, held: bool)
  {
    exists j :: 0 <= j < |t.ls| && t.ls[j].pub == s.adbPort && AdbRelay(p, t.adb, s, t.ls[j], held)
  }

  lemma ServesAdb(p: Params, t: Snapshot, i: nat, held: bool)
    requires SnapshotOk(p, t) && Sound(p) && i < |t.slots|
    requires Listens(t.ls, t.slots[i].adbPort, AdbDst(t.slots[i]), NoGroup)
    requires held && t.slots[i].kind != AgentTables.Wireless ==> t.slots[i].adbPort + 10000 in t.adb
    ensures AdbServed(p, t, t.slots[i], held)
  {
    hide Sound, SnapshotOk, AdbDst, AdbRelay;
    var s := t.slots[i];
    var j :| 0 <= j < |t.ls| && t.ls[j].pub == s.adbPort && t.ls[j].dst == AdbDst(s) && t.ls[j].group == NoGroup && !t.ls[j].isDiscovery;
    RelaysAdb(p, t, i, t.ls[j], held);
  }

  /** A slot whose forwards adb has leads to its own device, on every port it relays. */
  ghost predicate LeadsHome(p: Params, s: Slot, adb: map<int, End>)
  {
    && (!OverNetwork(s.serial) ==> s.adbPort + 10000 in adb && adb[s.adbPort + 10000] == End(s.serial, p.tcpipPort))
    && (s.streamBase != 0 ==> forall k: nat :: k < 4 ==>
          StreamFwd(s, k).loc in adb && adb[StreamFwd(s, k).loc] == End(s.serial, 27183 + k))
  }

  lemma LinkedHome(p: Params, t: Snapshot, i: nat)
    requires SnapshotOk(p, t) && Sound(p) && i < |t.slots| && Linked(t.slots[i], t.adb)
    ensures LeadsHome(p, t.slots[i], t.adb)
  {
    hide Sound, ListenersOk, FwdsOk, AdbOk, AgentTables.Known, Advertised, AdbDst;
    var s := t.slots[i];
    assert SlotOk(p, s, i);
    if !OverNetwork(s.serial) {
      AdbEnd(p, t.slots, t.adb, i);
    }
    if s.streamBase != 0 {
      forall k: nat | k < 4
        ensures StreamFwd(s, k).loc in t.adb && t.adb[StreamFwd(s, k).loc] == End(s.serial, 27183 + k)
      {
        assert StreamFwd(s, k).loc in t.adb && StreamFwd(s, k).loc == StreamBaseOf(i) + k + 10000;
        StreamEnd(p, t.slots, t.adb, i, k);
      }
    }
  }

  /** Every device that came back with this listing leads home again. */
  ghost predicate HomeAgain(p: Params, s0: seq<Slot>, t: Snapshot, listing: Listing)
  {
    listing.Output? ==>
      var devs := DevicesOf(Text.Split(listing.text, '\n'), 64);
      forall i :: 0 <= i < |s0| && i < |t.slots| && CameBack(s0[i], devs) ==> LeadsHome(p, t.slots[i], t.adb)
  }

  lemma RepairedHome(p: Params, s0: seq<Slot>, t: Snapshot, listing: Listing)
    requires SnapshotOk(p, t) && Sound(p) && Repaired(s0, t.slots, listing, t.adb)
    ensures HomeAgain(p, s0, t, listing)
  {
    hide SnapshotOk, Sound, LeadsHome, Linked;
    if listing.Output? {
      var devs := DevicesOf(Text.Split(listing.text, '\n'), 64);
      forall i | 0 <= i < |s0| && i < |t.slots| && CameBack(s0[i], devs)
        ensures LeadsHome(p, t.slots[i], t.adb)
      {
        LinkedHome(p, t, i);
      }
    }
  }

  /** The listener that is bound to a slot's adb port, in any table. */
  lemma AdbListener(p: Params, slots: seq<Slot>, ls: seq<Listener>, i: nat, l: Listener)
    requires Sound(p) && SlotsOk(p, slots) && ListenersOk(p, slots, ls) && i < |slots|
    requires l in ls && Bound(l.pub) == Bound(slots[i].adbPort) != 0
    ensures !l.isDiscovery && l.group == NoGroup && l.dst == AdbDst(slots[i]) && ToAdbd(slots[i], l.dst)
  {
    DstIsAdbd(p, slots[i], i);
    assert ListenerOk(p, slots, l) && SlotOk(p, slots[i], i);
    if l.isDiscovery {
      BoundSame(p.discoveryPort, p.adbBase, i);
    } else if l.group == NoGroup {
      var j: nat := l.pub - p.adbBase;
      BoundSame(p.adbBase + j, p.adbBase, i);
    } else {
      BoundNear(p.adbBase, i);
    }
  }

  /**
   What the tables make of a session with stream port k of slot i at host. With `served` the ports have
   their relays, with `held` adb has the forwards behind them.
   */
  ghost predicate Arrives(p: Params, t: Snapshot, s: Sessions.Session, host: string, i: nat, served: bool, held: bool)
  {
    && i < |t.slots| && 0 <= s.streamK < 4
    // It connects to the slot's public port.
    && var pub, slot := StreamBaseOf(i) + s.streamK, t.slots[i];
    && Deploy.ParseAddr(s.cfg.tcpAddr) == Some((host, pub))
    // Whoever listens there is that port's own relay, with its own group.
    && (forall l :: l in t.ls && Bound(l.pub) == pub ==>
          !l.isDiscovery && l.group == StreamGroup(i, s.streamK) && l.dst == Target("127.0.0.1", pub + 10000))
    && (served ==> StreamListens(t.ls, i, s.streamK))
    // From there adb leads to the slot's own device, to the port its server is told to listen on.
    && s.cfg.tcpDevicePort == 27183 + s.streamK
    && (pub + 10000 in t.adb ==> t.adb[pub + 10000] == End(slot.serial, s.cfg.tcpDevicePort))
    && (held ==> pub + 10000 in t.adb)
    // The adb address of the same session leads to the same device.
    && (Bound(slot.adbPort) != 0 ==> forall l :: l in t.ls && Bound(l.pub) == Bound(slot.adbPort) ==>
          AdbRelay(p, t.adb, slot, l, held))
    && (served ==> AdbServed(p, t, slot, held))
  }

  /** End to end, for a session on the range of slot i, in any table. */
  lemma EndToEnd(p: Params, t: Snapshot, i: nat, s: Sessions.Session, host: string, served: bool, held: bool)
    requires SnapshotOk(p, t) && Sound(p) && !p.noStream && i < |t.slots| && 0 < |host| < 128
    requires Sessions.RoutedTo(s, host, StreamBaseOf(i))
    requires served ==> StreamListens(t.ls, i, s.streamK) && Listens(t.ls, t.slots[i].adbPort, AdbDst(t.slots[i]), NoGroup)
    requires held ==> StreamBaseOf(i) + s.streamK + 10000 in t.adb
    requires held && t.slots[i].kind != Wireless ==> t.slots[i].adbPort + 10000 in t.adb
    ensures Arrives(p, t, s, host, i, served, held)
  {
    hide Deploy.ParseAddr, Sessions.Address, SlotsOk, ListenersOk, FwdsOk, AdbOk, AgentTables.Known, Advertised, Sound, AdbDst, Bound, Listens, StreamListens, AdbRelay, AdbServed;
    var pub := StreamBaseOf(i) + s.streamK;
    AddressParses(host, pub);
    forall l | l in t.ls && Bound(l.pub) == pub
      ensures !l.isDiscovery && l.group == StreamGroup(i, s.streamK) && l.dst == Target("127.0.0.1", pub + 10000)
    {
      StreamListener(p, t.slots, t.ls, i, s.streamK, l);
    }
    if pub + 10000 in t.adb {
      StreamEnd(p, t.slots, t.adb, i, s.streamK);
    }
    forall l | l in t.ls && Bound(l.pub) == Bound(t.slots[i].adbPort) != 0
      ensures AdbRelay(p, t.adb, t.slots[i], l, held)
    {
      AdbListener(p, t.slots, t.ls, i, l);
      RelaysAdb(p, t, i, l, held);
    }
    if served {
      ServesAdb(p, t, i, held);
    }
  }

  // ---- Agent and desktop together

  /** d is slot i of this agent as discovery showed it at moment t. */
  ghost predicate From(ip: string, t: Snapshot, i: nat, d: Discovery.AgentDev)
  {
    i < |t.slots| && d == Discovery.Known(ip, t.slots[i]) && Discovery.Shown(t.slots[i])
  }

  /** All the desktop ever learned was shown at some moment of this agent. */
  ghost predicate Learned(ip: string, ms: seq<Snapshot>, scanned: set<Discovery.AgentDev>)
  {
    forall d :: d in scanned ==> exists x: nat, i: nat :: x < |ms| && From(ip, ms[x], i, d)
  }

  lemma LearnedKept(ip: string, ms: seq<Snapshot>, more: seq<Snapshot>, scanned: set<Discovery.AgentDev>)
    requires Learned(ip, ms, scanned) && ms <= more
    ensures Learned(ip, more, scanned)
  {
    hide From;
    forall d | d in scanned
      ensures exists x: nat, i: nat :: x < |more| && From(ip, more[x], i, d)
    {
      var x: nat, i: nat :| x < |ms| && From(ip, ms[x], i, d);
      assert more[x] == ms[x];
    }
  }

  lemma {:induction false} ExpectedFrom(slots: seq<Slot>, ip: string, d: Discovery.AgentDev) returns (i: nat)
    requires d in Discovery.Expected(ip, slots)
    ensures i < |slots| && Discovery.Shown(slots[i]) && d == Discovery.Known(ip, slots[i])
  {
    if d in Discovery.Expected(ip, slots[1..]) {
      var j := ExpectedFrom(slots[1..], ip, d);
      i := j + 1;
    } else {
      i := 0;
    }
  }

  /** Whatever the desktop learns is a slot that is present and ready at that moment. */
  lemma AdvertisedBase(ip: string, ms: seq<Snapshot>, x: nat, d: Discovery.AgentDev)
    requires x < |ms| && d in Discovery.Expected(ip, ms[x].slots)
    ensures exists y: nat, i: nat :: y < |ms| && From(ip, ms[y], i, d)
  {
    var i := ExpectedFrom(ms[x].slots, ip, d);
    assert From(ip, ms[x], i, d);
  }

  /** s was given its stream port for slot i as it was at moment t. */
  ghost predicate OfSlot(ip: string, t: Snapshot, i: nat, s: Sessions.Session)
  {
    && i < |t.slots| && s.serial == Some(Discovery.Known(ip, t.slots[i]).serial)
    && Discovery.Shown(t.slots[i]) && t.slots[i].streamBase > 0
    && Sessions.RoutedTo(s, Discovery.Cut(ip, 64), t.slots[i].streamBase)
  }

  lemma SlotOf(ip: string, ms: seq<Snapshot>, scanned: set<Discovery.AgentDev>, s: Sessions.Session) returns (x: nat, i: nat)
    requires Learned(ip, ms, scanned) && Sessions.Routed(s, scanned) && s.streamK >= 0
    ensures x < |ms| && OfSlot(ip, ms[x], i, s)
  {
    var d :| d in scanned && Sessions.RoutedBy(s, d);
    x, i :| x < |ms| && From(ip, ms[x], i, d);
  }

  /** From moment x on, the session arrives at slot i. */
  ghost predicate ArrivesFrom(p: Params, ip: string, ms: seq<Snapshot>, s: Sessions.Session, x: nat, i: nat, served: bool, held: bool)
  {
    && x < |ms| && OfSlot(ip, ms[x], i, s)
    && forall y :: x <= y < |ms| ==> Arrives(p, ms[y], s, Discovery.Cut(ip, 64), i, served, held)
  }

  /** Every session with a stream port arrives where it should, at every moment since its device was scanned. */
  ghost predicate AllArrive(p: Params, ip: string, ms: seq<Snapshot>, sessions: seq<Sessions.Session>, served: bool, held: bool)
  {
    forall n :: 0 <= n < |sessions| && sessions[n].streamK >= 0 ==>
      exists x: nat, i: nat :: ArrivesFrom(p, ip, ms, sessions[n], x, i, served, held)
  }

  /** Two live sessions with stream ports differ in their public port, and in the device port if they share a device. */
  ghost predicate AllApart(sessions: seq<Sessions.Session>)
  {
    forall m, n :: 0 <= m < n < |sessions| && LiveStream(sessions[m]) && LiveStream(sessions[n]) ==>
      && sessions[m].cfg.tcpAddr != sessions[n].cfg.tcpAddr
      && (sessions[m].serial == sessions[n].serial ==> sessions[m].cfg.tcpDevicePort != sessions[n].cfg.tcpDevicePort)
  }

  predicate LiveStream(s: Sessions.Session)
  {
    !s.torn && s.streamK >= 0
  }

  /** What slot i offered at moment s is there at a later moment t. */
  lemma OfferStands(p: Params, s: Snapshot, t: Snapshot, i: nat, k: nat)
    requires SnapshotOk(p, s) && Follows(s, t) && i < |s.slots| && s.slots[i].ready && s.slots[i].streamBase == StreamBaseOf(i) && k < 4
    ensures i < |t.slots| && t.slots[i].adbPort == s.slots[i].adbPort && t.slots[i].kind == s.slots[i].kind
    ensures ReadyServed(s) ==> StreamListens(t.ls, i, k) && Listens(t.ls, t.slots[i].adbPort, AdbDst(t.slots[i]), NoGroup)
    ensures Held(t) ==> StreamBaseOf(i) + k + 10000 in t.adb
    ensures Held(t) && t.slots[i].kind != Wireless ==> t.slots[i].adbPort + 10000 in t.adb
  {
    hide ListenersOk, FwdsOk, AdbOk, AgentTables.Known, Listens;
    var a, b := s.slots[i], t.slots[i];
    assert SameSlot(a, b) && SlotOk(p, a, i);
    if ReadyServed(s) {
      assert Served(a, s.ls, false);
      StillListens(s.ls, t.ls, a.adbPort, AdbDst(a), NoGroup);
      assert StreamListens(s.ls, a.idx, k);
      StillListens(s.ls, t.ls, StreamBaseOf(i) + k, Target("127.0.0.1", StreamBaseOf(i) + k + 10000), StreamGroup(i, k));
    }
    assert Furnished(a, s.made);
    assert StreamFwd(a, k) in s.made;
    if Held(t) {
      assert StreamFwd(a, k).loc in t.adb;
      assert a.kind != Wireless ==> AdbFwd(a).loc in t.adb;
    }
  }

  lemma ArrivalOne(p: Params, ip: string, ms: seq<Snapshot>, s: Sessions.Session, x: nat, i: nat, served: bool, held: bool)
    requires Chain(p, ms) && Sound(p) && ip != "" && x < |ms| && OfSlot(ip, ms[x], i, s)
    requires (served ==> AllServe(ms)) && (held ==> AllHeld(ms))
    ensures ArrivesFrom(p, ip, ms, s, x, i, served, held)
  {
    hide SnapshotOk, Follows, Sound, Arrives, Sessions.RoutedTo, ReadyServed, Held;
    BaseAt(p, ms[x], i);
    RoutedK(s, Discovery.Cut(ip, 64), ms[x].slots[i].streamBase);
    forall y | x <= y < |ms|
      ensures Arrives(p, ms[y], s, Discovery.Cut(ip, 64), i, served, held)
    {
      OfferStands(p, ms[x], ms[y], i, s.streamK);
      EndToEnd(p, ms[y], i, s, Discovery.Cut(ip, 64), served, held);
    }
  }

  lemma BaseAt(p: Params, t: Snapshot, i: nat)
    requires SnapshotOk(p, t) && i < |t.slots| && t.slots[i].streamBase > 0
    ensures t.slots[i].streamBase == StreamBaseOf(i) && !p.noStream
  {
    assert SlotOk(p, t.slots[i], i);
  }

  lemma RoutedK(s: Sessions.Session, host: string, base: int)
    requires Sessions.RoutedTo(s, host, base)
    ensures 0 <= s.streamK < 4
  {
  }

  lemma Arrival(p: Params, ip: string, ms: seq<Snapshot>, scanned: set<Discovery.AgentDev>, sessions: seq<Sessions.Session>,
                served: bool, held: bool)
    requires Chain(p, ms) && Sound(p) && Learned(ip, ms, scanned) && Sessions.AllRouted(sessions, scanned) && ip != ""
    requires (served ==> AllServe(ms)) && (held ==> AllHeld(ms))
    ensures AllArrive(p, ip, ms, sessions, served, held)
  {
    hide Chain, Sound, Learned, OfSlot, ArrivesFrom, Sessions.Routed, AllServe, AllHeld;
    forall n | 0 <= n < |sessions| && sessions[n].streamK >= 0
      ensures exists x: nat, i: nat :: ArrivesFrom(p, ip, ms, sessions[n], x, i, served, held)
    {
      var x, i := SlotOf(ip, ms, scanned, sessions[n]);
      ArrivalOne(p, ip, ms, sessions[n], x, i, served, held);
    }
  }

  /** Two sessions on slots i and j, whatever moments they were scanned at. */
  lemma PairApart(p: Params, ip: string, ms: seq<Snapshot>, sessions: seq<Sessions.Session>, m: nat, n: nat,
                  x: nat, i: nat, y: nat, j: nat)
    requires Chain(p, ms) && x < |ms| && y < |ms|
    requires Sessions.Distinct(sessions) && m < n < |sessions| && LiveStream(sessions[m]) && LiveStream(sessions[n])
    requires OfSlot(ip, ms[x], i, sessions[m]) && OfSlot(ip, ms[y], j, sessions[n])
    ensures sessions[m].cfg.tcpAddr != sessions[n].cfg.tcpAddr
    ensures sessions[m].serial == sessions[n].serial ==> sessions[m].cfg.tcpDevicePort != sessions[n].cfg.tcpDevicePort
  {
    hide Text.Print, Sessions.Address, SnapshotOk, Discovery.Shown;
    var a, b := sessions[m], sessions[n];
    BaseAt(p, ms[x], i);
    BaseAt(p, ms[y], j);
    StreamPortsDistinct(i, a.streamK, j, b.streamK);
    if i == j {
      SameKnown(p, ip, ms[x], ms[y], i);
      assert a.serial == b.serial;
    }
    assert StreamBaseOf(i) + a.streamK != StreamBaseOf(j) + b.streamK;
    AddressInjective(Discovery.Cut(ip, 64), StreamBaseOf(i) + a.streamK, StreamBaseOf(j) + b.streamK);
  }

  /** A slot is known by the same serial at all moments. */
  lemma SameKnown(p: Params, ip: string, s: Snapshot, t: Snapshot, i: nat)
    requires SnapshotOk(p, s) && SnapshotOk(p, t) && i < |s.slots| && i < |t.slots|
    ensures Discovery.Known(ip, s.slots[i]).serial == Discovery.Known(ip, t.slots[i]).serial
  {
    assert SlotOk(p, s.slots[i], i) && SlotOk(p, t.slots[i], i);
  }

  lemma AddressInjective(host: string, x: int, y: int)
    ensures Sessions.Address(host, x) == Sessions.Address(host, y) ==> x == y
  {
    var a, b := Sessions.Address(host, x), Sessions.Address(host, y);
    assert a[|host| + 1..] == Text.Print(x) && b[|host| + 1..] == Text.Print(y);
    Text.AtoiPrint(x);
    Text.AtoiPrint(y);
  }

  lemma SessionsApart(p: Params, ip: string, ms: seq<Snapshot>, scanned: set<Discovery.AgentDev>, sessions: seq<Sessions.Session>)
    requires Chain(p, ms) && Sessions.Distinct(sessions) && Learned(ip, ms, scanned) && Sessions.AllRouted(sessions, scanned)
    ensures AllApart(sessions)
  {
    hide Chain, Learned, OfSlot, Sessions.Routed, Sessions.Distinct;
    forall m: nat, n: nat | 0 <= m < n < |sessions| && LiveStream(sessions[m]) && LiveStream(sessions[n])
      ensures sessions[m].cfg.tcpAddr != sessions[n].cfg.tcpAddr
      ensures sessions[m].serial == sessions[n].serial ==> sessions[m].cfg.tcpDevicePort != sessions[n].cfg.tcpDevicePort
    {
      var x, i := SlotOf(ip, ms, scanned, sessions[m]);
      var y, j := SlotOf(ip, ms, scanned, sessions[n]);
      PairApart(p, ip, ms, sessions, m, n, x, i, y, j);
    }
  }

  /** What can happen to an agent and a desktop that uses it. */
  datatype Event =
    | Rescan(listing: Listing)
    // The desktop is answered at any moment so far, also inside a rescan, and registers the devices it can connect to.
    | ScanAgent(at: nat, connects: set<string>)
    | Start(created: bool)
    | Open(serial: string, created: bool)
    | Close(n: nat)

  /** How many sessions an event adds: one when it opens one, by the chooser or by the environment. */
  function Adds(base: Deploy.Config, e: Event): nat
  {
    match e
    case Start(created) => if created && Sessions.ByEnvironment(base) then 1 else 0
    case Open(_, created) => if created && !Sessions.ByEnvironment(base) then 1 else 0
    case _ => 0
  }

  function AddsUpTo(base: Deploy.Config, events: seq<Event>, n: nat): nat
    requires n <= |events|
  {
    if n == 0 then 0 else AddsUpTo(base, events, n - 1) + Adds(base, events[n - 1])
  }

  /** The newest listing that adb gave among the first n events. */
  function LatestListing(events: seq<Event>, n: nat): Listing
    requires n <= |events|
  {
    if n == 0 then NoListing
    else if events[n - 1].Rescan? && events[n - 1].listing != NoListing then events[n - 1].listing
    else LatestListing(events, n - 1)
  }

  /**
   The desktop knows every device that was shown and that it can connect to, as it was shown, and what it
   knows of other devices is as before.
   */
  ghost predicate Heard(ip: string, slots: seq<Slot>, connects: set<string>, before: map<string, Discovery.AgentDev>,
                        after: map<string, Discovery.AgentDev>)
  {
    && (forall d :: d in Discovery.Expected(ip, slots) && d.serial in connects ==>
          d.serial in after && after[d.serial] in Discovery.Expected(ip, slots))
    && (forall x :: x in before ==> x in after && (after[x] == before[x] || after[x] in Discovery.Expected(ip, slots)))
    && (forall x :: x in after ==> (x in before && after[x] == before[x]) || (after[x] in Discovery.Expected(ip, slots) && x in connects))
  }

  /** The same, for the first n of the devices found. */
  ghost predicate HeardSome(devs: seq<Discovery.AgentDev>, n: nat, connects: set<string>, before: map<string, Discovery.AgentDev>,
                            after: map<string, Discovery.AgentDev>)
  {
    && n <= |devs|
    && (forall j :: 0 <= j < n && devs[j].serial in connects ==> devs[j].serial in after && after[devs[j].serial] in devs)
    && (forall x :: x in before ==> x in after && (after[x] == before[x] || after[x] in devs))
    && (forall x :: x in after ==> (x in before && after[x] == before[x]) || (after[x] in devs && x in connects))
  }

  lemma NothingHeard(devs: seq<Discovery.AgentDev>, connects: set<string>, known: map<string, Discovery.AgentDev>)
    ensures HeardSome(devs, 0, connects, known, known)
  {
  }

  lemma HeardMore(devs: seq<Discovery.AgentDev>, n: nat, connects: set<string>, before: map<string, Discovery.AgentDev>,
                  after: map<string, Discovery.AgentDev>)
    requires n < |devs|
    ensures HeardSome(devs, n, connects, before, after) ==>
      HeardSome(devs, n + 1, connects, before, if devs[n].serial in connects then after[devs[n].serial := devs[n]] else after)
  {
  }

  lemma AllHeard(ip: string, slots: seq<Slot>, devs: seq<Discovery.AgentDev>, connects: set<string>,
                 before: map<string, Discovery.AgentDev>, after: map<string, Discovery.AgentDev>)
    requires devs == Discovery.Expected(ip, slots)
    ensures HeardSome(devs, |devs|, connects, before, after) ==> Heard(ip, slots, connects, before, after)
  {
    hide Discovery.Expected;
  }

  /** `agent_scan` of the table as it was at some moment, and the registration of the devices found. */
  method ScanInto(a: Agent, app: Sessions.App, ip: string, at: nat, connects: set<string>)
    requires a.Valid() && app.Valid() && app.Routes() && Learned(ip, a.moments, app.scanned) && at < |a.moments|
    requires -0x8000_0000 <= a.p.adbBase < 0x7FFF_FFF0
    modifies app`agentDevs, app`scanned
    ensures app.Valid() && app.Routes() && Learned(ip, a.moments, app.scanned)
    ensures !Sessions.ByEnvironment(app.base) ==> Heard(ip, a.moments[at].slots, connects, old(app.agentDevs), app.agentDevs)
  {
    hide AllServe, AllHeld, Follows, SlotsOk, AllReachable, Learned, From, Sessions.AllRouted, Sessions.Distinct, Sessions.AllOk;
    hide Heard, HeardSome, Discovery.Expected;
    assert SnapshotOk(a.p, a.moments[at]);
    var r := Discovery.Exchange(a.p, a.moments[at].slots, ip);
    var devs := r.devs;
    NothingHeard(devs, connects, app.agentDevs);
    for n := 0 to |devs|
      invariant app.Valid() && app.Routes() && Learned(ip, a.moments, app.scanned)
      invariant !Sessions.ByEnvironment(app.base) ==> HeardSome(devs, n, connects, old(app.agentDevs), app.agentDevs)
    {
      HeardMore(devs, n, connects, old(app.agentDevs), app.agentDevs);
      if devs[n].serial in connects {
        AdvertisedBase(ip, a.moments, at, devs[n]);
        LearnedMore(ip, a.moments, app.scanned, devs[n]);
        app.Learn(devs[n]);
      }
    }
    AllHeard(ip, a.moments[at].slots, devs, connects, old(app.agentDevs), app.agentDevs);
  }

  lemma LearnedMore(ip: string, ms: seq<Snapshot>, scanned: set<Discovery.AgentDev>, d: Discovery.AgentDev)
    requires Learned(ip, ms, scanned) && exists x: nat, i: nat :: x < |ms| && From(ip, ms[x], i, d)
    ensures Learned(ip, ms, scanned + {d})
  {
  }

  /**
   For every run of the agent and every use of the desktop, in any order: at every moment since its
   device was scanned, also inside a rescan, every session with a stream port arrives at its own device,
   at the port its server listens on, and no two live ones meet. Without failed calls its ports are
   relayed, and while adb loses nothing they are forwarded.
   */
  method Everything(p: Params, script: seq<AgentTables.Answer>, ip: string, base: Deploy.Config, events: seq<Event>)
    returns (a: Agent, app: Sessions.App)
    requires Sound(p) && -0x8000_0000 <= p.adbBase < 0x7FFF_FFF0 && ip != ""
    ensures Chain(p, a.moments) && app.Valid() && app.Routes()
    ensures AllArrive(p, ip, a.moments, app.sessions, a.failures == 0 && !a.dropped, a.losses == 0) && AllApart(app.sessions)
    ensures |app.sessions| == AddsUpTo(base, events, |events|) && Reflects(a.slots, LatestListing(events, |events|))
  {
    hide Chain, AllServe, AllHeld, AllReachable, Learned, Sound, DevOk, AllArrive, AllApart, HomeAgain, Heard;
    hide Sessions.AllRouted, Sessions.Distinct, Sessions.AllOk;
    a := new Agent(p, script);
    app := new Sessions.App(base);
    NothingLearned(ip, a.moments);
    ghost var ms := a.moments;
    var ok := a.OpenDiscovery();
    LearnedKept(ip, ms, a.moments, app.scanned);
    for n := 0 to |events|
      modifies a, app
      invariant a.Valid() && a.p == p && fresh(a) && fresh(app) && app.Valid() && app.Routes()
      invariant Learned(ip, a.moments, app.scanned) && app.base == base
      invariant |app.sessions| == AddsUpTo(base, events, n) && Reflects(a.slots, LatestListing(events, n))
    {
      Happen(a, app, ip, events[n]);
    }
    Arrival(p, ip, a.moments, app.scanned, app.sessions, a.failures == 0 && !a.dropped, a.losses == 0);
    SessionsApart(p, ip, a.moments, app.scanned, app.sessions);
  }

  lemma NothingLearned(ip: string, ms: seq<Snapshot>)
    ensures Learned(ip, ms, {})
  {
  }

  /** One event keeps everything. */
  method Happen(a: Agent, app: Sessions.App, ip: string, e: Event)
    requires a.Valid() && app.Valid() && app.Routes() && Learned(ip, a.moments, app.scanned)
    requires -0x8000_0000 <= a.p.adbBase < 0x7FFF_FFF0
    modifies a, app
    ensures a.Valid() && app.Valid() && app.Routes() && Learned(ip, a.moments, app.scanned)
    ensures old(a.moments) <= a.moments
    // The agent's slots follow its listings; what came back leads home again, unless a call failed or adb lost forwards.
    ensures if e.Rescan? then unchanged(app) && Reflects(a.slots, e.listing) else unchanged(a)
    ensures e.Rescan? && e.listing == NoListing ==> a.slots == old(a.slots)
    ensures e.Rescan? && Sound(a.p) && a.failures == old(a.failures) && a.losses == old(a.losses) ==>
      HomeAgain(a.p, old(a.slots), a.Now(), e.listing)
    // The desktop knows what it was answered, and opens and closes what it is asked to.
    ensures e.ScanAgent? && e.at < |a.moments| && !Sessions.ByEnvironment(app.base) ==>
      Heard(ip, a.moments[e.at].slots, e.connects, old(app.agentDevs), app.agentDevs)
    ensures |app.sessions| == |old(app.sessions)| + Adds(app.base, e)
    ensures e.ScanAgent? || e.Rescan? ==> app.sessions == old(app.sessions)
    ensures e.Open? && e.created && !Sessions.ByEnvironment(app.base) ==>
      |app.sessions| == |old(app.sessions)| + 1 && app.sessions[1..] == old(app.sessions)
      && app.ChosenSession(e.serial, old(app.sessions), app.sessions[0])
    ensures e.Start? && e.created && Sessions.ByEnvironment(app.base) ==>
      |app.sessions| == |old(app.sessions)| + 1 && app.sessions[1..] == old(app.sessions)
      && app.NamedSession(old(app.sessions), app.sessions[0])
    ensures e.Close? && e.n < |old(app.sessions)| ==>
      app.sessions == old(app.sessions)[e.n := old(app.sessions)[e.n].(torn := true)]
  {
    hide Chain, AllServe, AllHeld, AllReachable, Learned, DevOk, Sessions.AllRouted, Sessions.Distinct, Sessions.AllOk;
    hide Reflects, Repaired, HomeAgain, Heard, Sound, Grown;
    match e {
      case Rescan(listing) =>
        ghost var ms, s0 := a.moments, a.slots;
        a.Rescan(listing);
        LearnedKept(ip, ms, a.moments, app.scanned);
        a.NowOk();
        if Sound(a.p) && a.failures == old(a.failures) && a.losses == old(a.losses) {
          RepairedHome(a.p, s0, a.Now(), listing);
        }
      case ScanAgent(at, connects) =>
        if at < |a.moments| {
          ScanInto(a, app, ip, at, connects);
        }
      case Start(created) => app.Activate(created);
      case Open(serial, created) => app.Choose(serial, created);
      case Close(n) =>
        if n < |app.sessions| {
          app.Teardown(n);
        }
    }
  }

  /**
   A reachable misroute, for every adb base that is bound to the first stream port: the binds of that
   port fail, since the adb listener has it, and nothing else does. The run ends with a wireless device that
   is ready and offers the port, while the only listeners bound to it lead straight to the device's
   adbd, outside the port's group.
   */
  method CollisionMisroutes(p: Params, d: Dev) returns (a: Agent)
    requires Bound(p.adbBase) == 27183 && Bound(p.discoveryPort) != 27183 && !p.noStream && 1 <= p.nbind <= 16
    requires DevOk(d) && DevKind(d.serial) == Wireless && Reachable(d.serial)
    ensures a.p == p && a.failures == p.nbind && !a.dropped && |a.slots| == 1
    ensures a.slots[0].serial == d.serial && a.slots[0].ready && a.slots[0].streamBase == StreamBaseOf(0)
    ensures exists l :: l in a.ls && Bound(l.pub) == StreamBaseOf(0)
    ensures forall l :: l in a.ls && Bound(l.pub) == StreamBaseOf(0) ==>
      !l.isDiscovery && l.group == NoGroup && ToAdbd(a.slots[0], l.dst)
  {
    hide Chain, AllServe, AllHeld, DevOk, Reachable, AdbDst, AllGood, AllBad, Drop, Refused, Clash;
    var script := ClashScript(p.nbind);
    ClashScripted(p.nbind);
    a := new Agent(p, script);
    var ok := a.OpenDiscovery();
    ghost var ls0 := a.ls;
    a.RescanOnce(true, [d]);
    a.NowOk();
    OneSlot(p, a.slots, d);
    assert !a.dropped by {
      assert a.calls <= 6;
      MoreCalls(p.nbind, a.calls, 6);
    }
    OnlyAdb(p, a.Now(), ls0);
    a.SlotAt(0);
    DstIsAdbd(p, a.slots[0], 0);
  }

  /** The script of that run: discovery, four forwards and the adb port go well, then the binds of one port fail. */
  function ClashScript(nbind: nat): seq<AgentTables.Answer>
  {
    seq(nbind + 4 + nbind, i => AgentTables.Answer(1, {})) + seq(nbind, i => AgentTables.Answer(0, {}))
  }

  lemma ClashScripted(nbind: nat)
    ensures AllGood(ClashScript(nbind), nbind) && Clash(nbind, Drop(ClashScript(nbind), nbind))
  {
    var s := ClashScript(nbind);
    var t := Drop(s, nbind);
    var u := Drop(t, 4);
    assert t == s[nbind..] && u == s[nbind + 4..];
    assert Drop(u, nbind) == s[nbind + 4 + nbind..];
  }

  /** Of the listeners bound to the first stream port all are the adb port's. */
  lemma OnlyAdb(p: Params, t: Snapshot, ls0: seq<Listener>)
    requires SnapshotOk(p, t) && |t.slots| == 1 && Bound(p.adbBase) == 27183 && Bound(p.discoveryPort) != 27183
    requires ls0 <= t.ls && (forall l :: l in ls0 ==> l.isDiscovery) && NoneFor(t.ls, |ls0|, 0)
    requires Listens(t.ls, t.slots[0].adbPort, AdbDst(t.slots[0]), NoGroup)
    ensures exists l :: l in t.ls && Bound(l.pub) == StreamBaseOf(0)
    ensures forall l :: l in t.ls && Bound(l.pub) == StreamBaseOf(0) ==>
      !l.isDiscovery && l.group == NoGroup && l.dst == AdbDst(t.slots[0])
  {
    hide AdbDst;
    assert SlotOk(p, t.slots[0], 0);
    var j :| 0 <= j < |t.ls| && t.ls[j].pub == t.slots[0].adbPort && t.ls[j].dst == AdbDst(t.slots[0])
      && t.ls[j].group == NoGroup && !t.ls[j].isDiscovery;
    assert t.ls[j] in t.ls;
    forall n | 0 <= n < |ls0|
      ensures t.ls[n].isDiscovery
    {
      assert ls0[n] in ls0;
    }
    forall l | l in t.ls && Bound(l.pub) == StreamBaseOf(0)
      ensures !l.isDiscovery && l.group == NoGroup && l.dst == AdbDst(t.slots[0])
    {
      assert ListenerOk(p, t.slots, l);
      var n :| 0 <= n < |t.ls| && t.ls[n] == l;
    }
  }

  lemma OneSlot(p: Params, slots: seq<Slot>, d: Dev)
    requires SlotsOk(p, slots) && (|slots| == 8 || Slotted(slots, [d], 1))
    requires forall i :: 0 <= i < |slots| ==> Listed([d], slots[i].serial)
    ensures |slots| == 1 && slots[0].serial == d.serial
  {
    assert |slots| >= 2 ==> slots[0].serial != slots[1].serial;
    if |slots| != 8 {
      assert HasSlot(slots, [d][0].serial);
    }
    forall i | 0 <= i < |slots|
      ensures slots[i].serial == d.serial
    {
      assert Listed([d], slots[i].serial);
    }
  }
}
