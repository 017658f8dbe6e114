/**
 Deploying the server and the life of a client: direct LAN with a probe, a token and a meta check,
 falling back to the adb tunnel. Every external call may end any way it likes.
 */
module Deploy {
  import opened Sockets
  import Text
  import Meta

  const DEFAULT_TCP_PORT := 27183
  const ACCEPT_TIMEOUT_MS := 15000
  const META_TIMEOUT_MS := 12000
  const WAIT_SLICE_MS := 100

  // ---- What is held open

  datatype Kind = Sock | Process | Thread | Decoder | Player
  datatype Handle = Handle(kind: Kind, id: int)

  /** The handle fields of a client. Sockets, threads, decoder and player: -1 for none; pid: 0 for none. */
  datatype Fields = Fields(
    video: int, audio: int, control: int, listener: int,
    pid: int, netThread: int, audioThread: int, decoder: int, player: int)

  datatype Slot = Video | Audio | Control | Listener | Server | NetThread | AudioThread | VideoDecoder | AudioPlayer

  const NOTHING := Fields(-1, -1, -1, -1, 0, -1, -1, -1, -1)

  function KindOf(s: Slot): Kind
  {
    match s
    case Video => Sock case Audio => Sock case Control => Sock case Listener => Sock
    case Server => Process case NetThread => Thread case AudioThread => Thread
    case VideoDecoder => Decoder case AudioPlayer => Player
  }

  function Get(f: Fields, s: Slot): int
  {
    match s
    case Video => f.video case Audio => f.audio case Control => f.control case Listener => f.listener
    case Server => f.pid case NetThread => f.netThread case AudioThread => f.audioThread
    case VideoDecoder => f.decoder case AudioPlayer => f.player
  }

  function Put(f: Fields, s: Slot, id: int): (g: Fields)
    ensures Get(g, s) == id
    ensures forall t :: t != s ==> Get(g, t) == Get(f, t)
  {
    match s
    case Video => f.(video := id) case Audio => f.(audio := id)
    case Control => f.(control := id) case Listener => f.(listener := id)
    case Server => f.(pid := id) case NetThread => f.(netThread := id)
    case AudioThread => f.(audioThread := id) case VideoDecoder => f.(decoder := id)
    case AudioPlayer => f.(player := id)
  }

  function Absent(s: Slot): int
  {
    if s == Server then 0 else -1
  }

  /** Every handle ever opened, those still open, and every close ever made. */
  datatype Book = Book(next: nat, issued: set<Handle>, live: set<Handle>, closes: multiset<Handle>)

  function Opened(b: Book, kind: Kind): Book
  {
    var h := Handle(kind, b.next);
    Book(b.next + 1, b.issued + {h}, b.live + {h}, b.closes)
  }

  function Closed(b: Book, h: Handle): Book
  {
    b.(live := b.live - {h}, closes := b.closes + multiset{h})
  }

  /** Each handle ever opened is either still open and never closed, or closed exactly once. */
  ghost predicate Accounted(b: Book)
  {
    && b.next >= 1 && b.live <= b.issued
    && (forall h :: h in b.issued ==> 1 <= h.id < b.next)
    && (forall h :: b.closes[h] == if h in b.issued && h !in b.live then 1 else 0)
  }

  /** The fields name exactly what is open, and no two fields name the same thing. */
  ghost predicate Owned(live: set<Handle>, f: Fields)
  {
    && (forall s :: Get(f, s) == Absent(s) || Handle(KindOf(s), Get(f, s)) in live)
    && (forall h :: h in live ==> exists s :: KindOf(s) == h.kind && Get(f, s) == h.id)
    && (forall s, t :: s != t && KindOf(s) == KindOf(t) && Get(f, s) == Get(f, t) ==> Get(f, s) == Absent(s))
  }

  /** Conservation. */
  ghost predicate Balanced(b: Book, f: Fields)
  {
    Accounted(b) && Owned(b.live, f)
  }

  lemma OpenAccounts(b: Book, kind: Kind)
    requires Accounted(b)
    ensures Accounted(Opened(b, kind)) && Handle(kind, b.next) !in b.issued
  {
  }

  lemma CloseAccounts(b: Book, h: Handle)
    requires Accounted(b) && h in b.live
    ensures Accounted(Closed(b, h))
  {
  }

  /** A new handle stored in a free field. */
  lemma Store(b: Book, f: Fields, s: Slot)
    requires Balanced(b, f) && Get(f, s) == Absent(s)
    ensures Balanced(Opened(b, KindOf(s)), Put(f, s, b.next)) && b.next >= 1
  {
    OpenAccounts(b, KindOf(s));
    var b', g := Opened(b, KindOf(s)), Put(f, s, b.next);
    forall h | h in b'.live
      ensures exists t :: KindOf(t) == h.kind && Get(g, t) == h.id
    {
      if h in b.live {
        var t :| KindOf(t) == h.kind && Get(f, t) == h.id;
        assert Get(g, t) == h.id;
      } else {
        assert Get(g, s) == h.id;
      }
    }
  }

  /** What a field names is open; closing it and clearing the field keeps the balance. */
  lemma Drop(b: Book, f: Fields, s: Slot)
    requires Balanced(b, f) && Get(f, s) != Absent(s)
    ensures Handle(KindOf(s), Get(f, s)) in b.live
    ensures Balanced(Closed(b, Handle(KindOf(s), Get(f, s))), Put(f, s, Absent(s)))
  {
    var x := Handle(KindOf(s), Get(f, s));
    CloseAccounts(b, x);
    var b', g := Closed(b, x), Put(f, s, Absent(s));
    forall h | h in b'.live
      ensures exists t :: KindOf(t) == h.kind && Get(g, t) == h.id
    {
      var t :| KindOf(t) == h.kind && Get(f, t) == h.id;
      assert t != s;
      assert Get(g, t) == h.id;
    }
  }

  /** A handle opened and closed again without ever being stored. */
  lemma Passing(b: Book, f: Fields, kind: Kind)
    requires Balanced(b, f)
    ensures Handle(kind, b.next) in Opened(b, kind).live
    ensures Balanced(Closed(Opened(b, kind), Handle(kind, b.next)), f)
  {
    OpenAccounts(b, kind);
    var b' := Closed(Opened(b, kind), Handle(kind, b.next));
    CloseAccounts(Opened(b, kind), Handle(kind, b.next));
    assert b'.live == b.live;
  }

  /** With no field naming anything, everything ever opened has been closed exactly once. */
  lemma AllGivenBack(b: Book)
    requires Balanced(b, NOTHING)
    ensures GivenBack(b)
  {
    forall h | h in b.live
      ensures exists s :: KindOf(s) == h.kind && Get(NOTHING, s) == h.id && h.id >= 1
    {
    }
    assert b.live == {};
  }

  ghost predicate GivenBack(b: Book)
  {
    b.live == {} && forall h :: b.closes[h] == if h in b.issued then 1 else 0
  }

  // ---- The world

  lemma AllWell()
    ensures Yes([]) && Onward([]) == []
  {
  }

  /** The next outside call will go well. */
  predicate Yes(oracle: seq<nat>)
  {
    oracle == [] || oracle[0] % 2 == 1
  }

  function Onward(oracle: seq<nat>): seq<nat>
  {
    if oracle == [] then [] else oracle[1..]
  }

  /** What is asked of adb, and for which device. RunServer: the port and the token the server is told. */
  datatype Command =
    | Connect(serial: Option<string>)
    | PushServer(serial: Option<string>)
    | Reverse(serial: Option<string>, listener: int)
    | RunServer(serial: Option<string>, port: int, token: int)
    | Unreverse(serial: Option<string>)

  /** Everything outside the client: how each call ends, the clock, and the books. */
  class World {
    var oracle: seq<nat>
    var now: int
    var book: Book
    // Every command given to adb, in order.
    var cmds: seq<Command>
    // The token that went out on a socket.
    var sent: map<int, int>
    // How many polls, accepts, connects, spawns and creations ended in an error.
    var errors: nat
    // How many slices of 100 ms a poll waited through.
    var idle: nat
    // How many calls that had to succeed failed, timed out or were cancelled.
    var failures: nat
    // An adb reverse rule of this client may exist and its removal has not been issued.
    var rule: bool

    constructor (oracle: seq<nat>, now: int)
      ensures Balanced(book, NOTHING) && !rule && this.oracle == oracle
    {
      this.oracle, this.now, book, rule, failures := oracle, now, Book(1, {}, {}, multiset{}), false, 0;
      cmds, sent, errors, idle := [], map[], 0, 0;
    }

    /**
     The outcome of the next external call; it may also take time. Once the oracle is used up every
     call goes well, which 1 stands for everywhere.
     */
    method Ask() returns (v: nat)
      modifies this`oracle, this`now
      ensures now == old(now) + v / 1000 && oracle == Onward(old(oracle))
      ensures v == if old(oracle) == [] then 1 else old(oracle)[0]
    {
      v := 1;
      if oracle != [] {
        v := oracle[0];
        oracle := oracle[1..];
        now := now + v / 1000;
      }
    }

    /** socket+connect, accept, spawn, thread or decoder creation: -1 on failure. */
    method Acquire(kind: Kind) returns (id: int)
      modifies this`oracle, this`now, this`book, this`errors
      ensures now >= old(now) && oracle == Onward(old(oracle))
      ensures old(oracle) != [] ==> now == old(now) + old(oracle)[0] / 1000
      ensures if Yes(old(oracle)) then id == old(book).next && book == Opened(old(book), kind) && errors == old(errors)
              else id == -1 && book == old(book) && errors == old(errors) + 1
    {
      var v := Ask();
      id := -1;
      if v % 2 == 1 {
        id := book.next;
        book := Opened(book, kind);
      } else {
        errors := errors + 1;
      }
    }

    /** One slice of poll: something there, nothing within 100 ms, or an error. */
    method Poll() returns (p: Polled)
      modifies this`oracle, this`now, this`errors, this`idle
      ensures now >= old(now) && oracle == Onward(old(oracle)) && (old(oracle) == [] ==> p == Ready)
      ensures errors == old(errors) + (if p == Faulty then 1 else 0) && idle == old(idle) + if p == Quiet then 1 else 0
    {
      var v := Ask();
      p := if v % 3 == 1 then Ready else if v % 3 == 2 then Faulty else Quiet;
      errors, idle := errors + (if p == Faulty then 1 else 0), idle + if p == Quiet then 1 else 0;
    }

    /** The write of a token on a socket. */
    method SendToken(fd: int, token: int) returns (ok: bool)
      modifies this`oracle, this`now, this`sent, this`errors
      ensures now >= old(now) && oracle == Onward(old(oracle)) && ok == Yes(old(oracle))
      ensures sent == (if ok then old(sent)[fd := token] else old(sent)) && errors == old(errors) + if ok then 0 else 1
    {
      var v := Ask();
      ok := v % 2 == 1;
      if ok {
        sent := sent[fd := token];
      } else {
        errors := errors + 1;
      }
    }

    /** close, waitpid, join, destroy: only for something open, so nothing is released twice. */
    method Release(h: Handle)
      requires h in book.live
      modifies this`book
      ensures book == Closed(old(book), h)
    {
      book := Closed(book, h);
    }

    /** An adb command: any exit. */
    method Adb(cmd: Command) returns (st: Status)
      modifies this`oracle, this`now, this`failures, this`cmds
      ensures cmds == old(cmds) + [cmd]
      ensures now >= old(now) && oracle == Onward(old(oracle)) && st == (if Yes(old(oracle)) then Ok else ErrAdb)
      ensures failures == old(failures) + if st == Ok then 0 else 1
    {
      cmds := cmds + [cmd];
      var v := Ask();
      st := if v % 2 == 1 then Ok else ErrAdb;
      failures := failures + if st == Ok then 0 else 1;
    }
  }

  datatype Polled = Ready | Quiet | Faulty
  datatype Transport = Usb | Tcp
  datatype Route = Unknown | LanDirect | LanOverAdb | AdbEmulator | UsbCable

  datatype Config = Config(
    serial: Option<string>,
    transport: Transport,
    tcpAddr: Option<string>,
    tcpDevicePort: int,
    audio: bool,
    control: bool)

  /** `parse_addr`: "ip[:port]" with the last colon as separator. */
  function ParseAddr(addr: Option<string>): (r: Option<(string, int)>)
    ensures r.Some? ==> |r.value.0| < 128 && r.value.1 > 0
  {
    if addr.None? || addr.value == "" then None else
    var s := addr.value;
    var c := Text.LastColon(s, |s|);
    if c >= 0 then
      if c == 0 || c >= 128 then None else
      var port := Text.Atoi(s[c + 1..]);
      Some((s[..c], if port <= 0 then DEFAULT_TCP_PORT else port))
    else if |s| >= 128 then None
    else Some((s, DEFAULT_TCP_PORT))
  }

  /** The host is all before the last colon, the port what follows it. */
  lemma ParseAddrWithPort(host: string, rest: string)
    requires ':' !in rest
    ensures ParseAddr(Some(host + ":" + rest)) ==
      if 0 < |host| < 128 then Some((host, if Text.Atoi(rest) > 0 then Text.Atoi(rest) else 27183)) else None
  {
    Text.LastColonOf(host + ":" + rest, host, rest);
  }

  /** Without a colon it is all host. */
  lemma ParseAddrPlain(s: string)
    requires ':' !in s
    ensures ParseAddr(Some(s)) == if 0 < |s| < 128 then Some((s, 27183)) else None
  {
  }

  /** The path a tunnelled session reports, from its serial. */
  function TunnelRoute(serial: Option<string>): (r: Route)
    ensures r != Unknown && r != LanDirect
  {
    if serial.Some? && ':' in serial.value then LanOverAdb
    else if serial.Some? && "emulator-" <= serial.value then AdbEmulator
    else UsbCable
  }

  /** A number the server sends: anything, where 1 stands for the right one. */
  function Said(v: nat, right: nat): nat
  {
    if v == 1 then right else v
  }

  const CODECS := {0x68323634, 0x68323635, 0x00617631}

  /** Whether `deploy_tcp` starts a server itself. */
  predicate Deploys(cfg: Config)
  {
    cfg.serial.Some? && cfg.serial.value != ""
  }

  /** The command given k commands before the last one. */
  ghost predicate Ago(cmds: seq<Command>, k: nat, cmd: Command)
  {
    k < |cmds| && cmds[|cmds| - 1 - k] == cmd
  }

  /**
   The server behind a direct LAN session: it was pushed and started on this device, it has this client's
   token, and it listens on the port configured for it, or else on the very port the client connects to.
   */
  ghost predicate LanServer(cfg: Config, token: int, cmds: seq<Command>)
  {
    Deploys(cfg) ==>
      && token != 0 && ParseAddr(cfg.tcpAddr).Some?
      && (cfg.tcpDevicePort > 0 ==> Ago(cmds, 0, RunServer(cfg.serial, cfg.tcpDevicePort, token)))
      && (cfg.tcpDevicePort <= 0 ==> Ago(cmds, 0, RunServer(cfg.serial, ParseAddr(cfg.tcpAddr).value.1, token)))
      && Ago(cmds, 1, PushServer(cfg.serial)) && (Networked(cfg) ==> Ago(cmds, 2, Connect(cfg.serial)))
  }

  /** The server behind the tunnel: pushed, a rule made, and started without a port and without a token. */
  ghost predicate TunnelServer(cfg: Config, cmds: seq<Command>)
  {
    && Ago(cmds, 0, RunServer(cfg.serial, 0, 0))
    && (exists l :: l >= 1 && Ago(cmds, 1, Reverse(cfg.serial, l)))
    && Ago(cmds, 2, PushServer(cfg.serial)) && (Networked(cfg) ==> Ago(cmds, 3, Connect(cfg.serial)))
  }

  lemma TunnelMade(cfg: Config, cmds: seq<Command>, listener: int)
    requires Ago(cmds, 0, PushServer(cfg.serial)) && (Networked(cfg) ==> Ago(cmds, 1, Connect(cfg.serial))) && listener >= 1
    ensures TunnelServer(cfg, cmds + [Reverse(cfg.serial, listener)] + [RunServer(cfg.serial, 0, 0)])
    ensures Ago(cmds + [Reverse(cfg.serial, listener)] + [RunServer(cfg.serial, 0, 0)], 1, Reverse(cfg.serial, listener))
  {
    assert Ago(cmds + [Reverse(cfg.serial, listener)] + [RunServer(cfg.serial, 0, 0)], 1, Reverse(cfg.serial, listener));
  }

  /** The token, if there is one, went out on every channel. */
  ghost predicate TokenSent(cfg: Config, f: Fields, token: int, sent: map<int, int>)
  {
    token != 0 ==>
      && f.video in sent && sent[f.video] == token
      && (cfg.audio ==> f.audio in sent && sent[f.audio] == token)
      && (cfg.control ==> f.control in sent && sent[f.control] == token)
  }

  /** What a tunnelled session shows as its path: by the serial alone. */
  ghost predicate RouteOk(serial: Option<string>, r: Route)
  {
    && (serial.Some? && ':' in serial.value <==> r == LanOverAdb)
    && (serial.Some? && ':' !in serial.value && "emulator-" <= serial.value <==> r == AdbEmulator)
    && (serial.None? || (':' !in serial.value && !("emulator-" <= serial.value)) <==> r == UsbCable)
  }

  /** `adb connect`, where it is needed, and the push go well. */
  predicate PushWell(cfg: Config, oracle: seq<nat>)
  {
    if Networked(cfg) then Yes(oracle) && Yes(Onward(oracle)) else Yes(oracle)
  }

  function AfterPush(cfg: Config, oracle: seq<nat>): seq<nat>
  {
    if Networked(cfg) then Onward(Onward(oracle)) else Onward(oracle)
  }

  /** One connect is refused and takes the whole budget; nobody aborts, and the server process lives. */
  predicate Refused(oracle: seq<nat>, budget: nat)
  {
    |oracle| == 3 && oracle[0] % 2 == 0 && oracle[0] / 1000 >= budget && oracle[1] % 2 == 1 && oracle[2] % 2 == 1
  }

  /** Push and spawn go well, the video channel cannot be connected, and everything goes well afterwards. */
  predicate Declined(cfg: Config, oracle: seq<nat>)
  {
    PushWell(cfg, oracle) && var o := AfterPush(cfg, oracle); |o| == 5 && o[1] % 2 == 1 && Refused(o[2..], 3000)
  }

  /** A direct session behind a firewall: the probe, if there is one, is refused, and so are the channels. */
  predicate Walled(cfg: Config, oracle: seq<nat>)
  {
    && cfg.transport == Tcp && ParseAddr(cfg.tcpAddr).Some? && Deploys(cfg)
    && if cfg.tcpDevicePort <= 0 then !Yes(oracle) && Declined(cfg, Onward(oracle)) else Declined(cfg, oracle)
  }

  /** The probe of `deploy_tcp` is made and finds the port already served. */
  predicate Occupied(cfg: Config, oracle: seq<nat>)
  {
    cfg.transport == Tcp && ParseAddr(cfg.tcpAddr).Some? && Deploys(cfg) && cfg.tcpDevicePort <= 0 && Yes(oracle)
  }

  /** The ways to the tunnel that do not touch the token. */
  predicate KeepsToken(cfg: Config, oracle: seq<nat>)
  {
    cfg.transport == Usb || Occupied(cfg, oracle)
  }

  /** A direct session whose port is free at the probe and where everything goes well afterwards. */
  predicate Straight(cfg: Config, oracle: seq<nat>)
  {
    && cfg.transport == Tcp && ParseAddr(cfg.tcpAddr).Some? && Deploys(cfg) && cfg.tcpDevicePort <= 0
    && !Yes(oracle) && Onward(oracle) == []
  }

  /** Video is open, audio and control are exactly when requested, and they were opened in this order. */
  ghost predicate Serves(cfg: Config, f: Fields)
  {
    && f.video >= 1 && (if cfg.audio then f.audio >= 1 else f.audio == -1)
    && (if cfg.control then f.control >= 1 else f.control == -1)
    && (cfg.audio ==> f.video < f.audio) && (cfg.control ==> f.video < f.control)
    && (cfg.audio && cfg.control ==> f.audio < f.control)
  }

  lemma ThreadsApart(cfg: Config, f: Fields, g: Fields)
    requires g == f.(decoder := g.decoder, netThread := g.netThread, audioThread := g.audioThread)
    ensures Serves(cfg, f) ==> Serves(cfg, g)
  {
  }

  lemma SameSockets(cfg: Config, f: Fields, g: Fields, token: int, sent: map<int, int>)
    requires g == f.(decoder := g.decoder, netThread := g.netThread, audioThread := g.audioThread)
    ensures TokenSent(cfg, f, token, sent) ==> TokenSent(cfg, g, token, sent)
  {
  }

  /** An "ip:port" serial, which needs an `adb connect` first. */
  predicate Networked(cfg: Config)
  {
    cfg.serial.Some? && ':' in cfg.serial.value
  }

  /** adb connect and push go well, a token is made, and the server cannot be started. */
  predicate SpawnFails(oracle: seq<nat>)
  {
    |oracle| == 4 && oracle[0] % 2 == 1 && oracle[1] % 2 == 1 && oracle[3] % 2 == 0
  }

  /** What these scripts mean for the start of a LAN server. */
  lemma Prospects(cfg: Config, oracle: seq<nat>)
    ensures oracle == [] ==>
      && PushWell(cfg, oracle) && AfterPush(cfg, oracle) == []
      && Yes(Onward(AfterPush(cfg, oracle))) && Onward(Onward(AfterPush(cfg, oracle))) == []
    ensures Networked(cfg) && SpawnFails(oracle) ==>
      PushWell(cfg, oracle) && !Yes(Onward(AfterPush(cfg, oracle))) && Onward(Onward(AfterPush(cfg, oracle))) == []
    ensures Declined(cfg, oracle) ==>
      && PushWell(cfg, oracle) && Yes(Onward(AfterPush(cfg, oracle)))
      && Refused(Onward(Onward(AfterPush(cfg, oracle))), 3000)
  {
    if Declined(cfg, oracle) {
      var o := AfterPush(cfg, oracle);
      assert Onward(Onward(o)) == o[2..];
    }
  }

  /** A direct session whose port is free at the probe and whose server cannot be started. */
  predicate Trips(cfg: Config, oracle: seq<nat>)
  {
    && cfg.transport == Tcp && ParseAddr(cfg.tcpAddr).Some? && Deploys(cfg) && cfg.tcpDevicePort <= 0 && Networked(cfg)
    && |oracle| == 5 && !Yes(oracle) && SpawnFails(oracle[1..])
  }

  predicate NoThreads(f: Fields)
  {
    f.netThread == -1 && f.audioThread == -1 && f.decoder == -1 && f.player == -1
  }

  predicate SameThreads(f: Fields, g: Fields)
  {
    f.netThread == g.netThread && f.audioThread == g.audioThread && f.decoder == g.decoder && f.player == g.player
  }

  /** From f to g, channel s was filled or left empty, and the server process may have been reaped. */
  ghost predicate Opening(f: Fields, g: Fields, s: Slot, ok: bool)
  {
    if ok then Get(g, s) >= 1 && (g == Put(f, s, Get(g, s)) || g == Put(f.(pid := 0), s, Get(g, s)))
    else g == f || g == f.(pid := 0)
  }

  /** Handles are numbered in the order they are opened: a new one comes after all earlier ones. */
  ghost predicate Numbered(b: Book, c: Book, f: Fields, s: Slot, ok: bool)
  {
    b.next <= c.next && (ok ==> b.next <= Get(f, s) < c.next)
  }

  lemma PutSame(f: Fields, s: Slot)
    ensures Put(f, s, Get(f, s)) == f
  {
  }

  class Client {
    const w: World
    var cfg: Config
    var f: Fields
    var token: int              // 0: no LAN token
    var running: bool
    var abort: bool
    var route: Route
    // The device_meta last read, and the socket it came from.
    var metaMagic: nat
    var metaVersion: nat
    var metaCodec: nat
    var metaFrom: int

    constructor (w: World, cfg: Config)
      requires Balanced(w.book, NOTHING) && !w.rule
      ensures this.w == w && Valid() && f == NOTHING && !running && token == 0 && this.cfg == cfg && !abort
    {
      this.w, this.cfg, f := w, cfg, NOTHING;
      token, running, abort, route := 0, false, false, Unknown;
      metaMagic, metaVersion, metaCodec, metaFrom := 0, 0, 0, -1;
    }

    /** Conservation, and a reverse rule exists only where teardown will remove it. */
    ghost predicate Valid()
      reads this, w
    {
      Balanced(w.book, f) && (w.rule ==> cfg.transport == Usb)
    }

    /** The session owns no socket and no server process. */
    ghost predicate Shut()
      reads this
    {
      f.video == -1 && f.audio == -1 && f.control == -1 && f.listener == -1 && f.pid == 0
    }

    ghost predicate ChannelsOpen()
      reads this
    {
      Serves(cfg, f)
    }

    /** What a successful deployment leaves behind. */
    ghost predicate Coherent()
      reads this, w
    {
      && ChannelsOpen() && f.listener == -1
      && metaFrom == f.video && metaMagic == Meta.META_MAGIC
      && (cfg.transport == Tcp ==> route == LanDirect && LanServer(cfg, token, w.cmds) && TokenSent(cfg, f, token, w.sent))
      && (cfg.transport == Usb ==> RouteOk(cfg.serial, route) && TunnelServer(cfg, w.cmds))
    }

    lemma AudioAsked()
      requires Coherent()
      ensures f.audio >= 0 <==> cfg.audio
    {
    }

    /** The meta is one this client can use. */
    predicate MetaFine()
      reads this
    {
      metaVersion == Meta.VERSION && metaCodec in {0x68323634, 0x68323635, 0x00617631}
    }

    // ---- Fields

    /** Creates something and stores it. */
    method Fill(s: Slot) returns (ok: bool)
      requires Balanced(w.book, f) && Get(f, s) == Absent(s)
      modifies this`f, w`book, w`oracle, w`now, w`failures, w`errors
      ensures Balanced(w.book, f) && w.now >= old(w.now)
      ensures if ok then Get(f, s) >= 1 && f == Put(old(f), s, Get(f, s)) else f == old(f)
      ensures Numbered(old(w.book), w.book, f, s, ok) && w.failures == old(w.failures) + (if ok then 0 else 1)
      ensures w.oracle == Onward(old(w.oracle)) && ok == Yes(old(w.oracle))
      ensures w.errors == old(w.errors) + if ok then 0 else 1
    {
      hide Balanced, Put;
      ghost var b := w.book;
      var id := w.Acquire(KindOf(s));
      ok := id != -1;
      w.failures := w.failures + if ok then 0 else 1;
      if ok {
        Store(b, f, s);
        f := Put(f, s, id);
      }
    }

    /** Closes, reaps, joins or destroys what a field names, if it names anything, and clears the field. */
    method Empty(s: Slot)
      requires Balanced(w.book, f)
      modifies this`f, w`book
      ensures Balanced(w.book, f) && f == Put(old(f), s, Absent(s)) && w.book.next == old(w.book.next)
    {
      hide Balanced, Put;
      if Get(f, s) != Absent(s) {
        Drop(w.book, f, s);
        w.Release(Handle(KindOf(s), Get(f, s)));
        f := Put(f, s, Absent(s));
      } else {
        PutSame(f, s);
      }
    }

    // ---- Waiting

    /** `server_died`: reaps the server process if it has exited. */
    method ServerDied() returns (died: bool)
      requires Balanced(w.book, f)
      modifies this`f, w`book, w`oracle, w`now
      ensures Balanced(w.book, f) && w.now >= old(w.now) && w.book.next == old(w.book.next)
      ensures died <==> old(f).pid > 0 && !Yes(old(w.oracle))
      ensures f == if died then old(f).(pid := 0) else old(f)
      ensures w.oracle == if old(f).pid > 0 then Onward(old(w.oracle)) else old(w.oracle)
    {
      hide Balanced;
      died := false;
      if f.pid > 0 {
        var v := w.Ask();
        if v % 2 == 0 {
          Empty(Server);
          died := true;
        }
      }
    }

    /** `wait_cancelled`; another thread may have asked for an abort meanwhile. */
    method WaitCancelled() returns (c: bool)
      requires Balanced(w.book, f)
      modifies this`f, this`abort, w`book, w`oracle, w`now, w`failures
      ensures Balanced(w.book, f) && w.now >= old(w.now) && w.book.next == old(w.book.next)
      ensures abort <==> old(abort) || !Yes(old(w.oracle))
      ensures c <==> abort || (old(f).pid > 0 && !Yes(Onward(old(w.oracle))))
      ensures f == if c && !abort then old(f).(pid := 0) else old(f)
      ensures w.failures == old(w.failures) + if c then 1 else 0
      ensures !abort && old(f).pid > 0 ==> w.oracle == Onward(Onward(old(w.oracle)))
      ensures old(w.oracle) == [] ==> w.oracle == []
    {
      hide Balanced;
      var v := w.Ask();
      abort := abort || v % 2 == 0;
      c := abort;
      if !c {
        c := ServerDied();
      }
      w.failures := w.failures + if c then 1 else 0;
    }

    /**
     `accept_timeout` into a field: filled within 15 s, unless the wait is cancelled, the server process
     exits, or the poll or the accept fails.
     */
    method AcceptTimeout(s: Slot) returns (ok: bool)
      requires Balanced(w.book, f) && s in {Video, Audio, Control} && Get(f, s) == -1
      modifies this`f, this`abort, w`book, w`oracle, w`now, w`failures, w`errors, w`idle
      ensures Balanced(w.book, f) && Opening(old(f), f, s, ok) && Numbered(old(w.book), w.book, f, s, ok)
      ensures if ok then w.failures == old(w.failures) else w.failures > old(w.failures)
      ensures old(w.idle) <= w.idle <= old(w.idle) + 150 && w.errors >= old(w.errors) && (old(abort) ==> abort)
      ensures ok ==> w.idle < old(w.idle) + 150
      ensures !ok ==> abort || f.pid != old(f).pid || w.errors > old(w.errors) || w.idle == old(w.idle) + 150
      ensures old(w.oracle) == [] ==> w.oracle == [] && ok && abort == old(abort)
    {
      hide Balanced, Put, Yes, Onward;
      AllWell();
      var waited := 0;
      ok := false;
      while waited < ACCEPT_TIMEOUT_MS
        invariant old(w.oracle) == [] ==> w.oracle == [] && waited == 0 && abort == old(abort)
        invariant Balanced(w.book, f) && w.book.next == old(w.book.next)
        invariant w.failures == old(w.failures) && w.errors == old(w.errors) && f == old(f)
        invariant waited == WAIT_SLICE_MS * (w.idle - old(w.idle)) && 0 <= waited <= ACCEPT_TIMEOUT_MS && (old(abort) ==> abort)
      {
        var r := w.Poll();
        if r == Ready {
          ok := Fill(s);
          return;
        }
        if r == Faulty {
          w.failures := w.failures + 1;
          return;
        }
        var c := WaitCancelled();
        if c { return; }
        waited := waited + WAIT_SLICE_MS;
      }
      w.failures := w.failures + 1;
    }

    /**
     `connect_retry` into a field: retries until the budget is spent, the wait is cancelled or the server
     process exits. A connected socket gets the token, if there is one, and is closed again if it does not.
     */
    method ConnectRetry(s: Slot, budget: nat) returns (ok: bool)
      requires Balanced(w.book, f) && s in {Video, Audio, Control} && Get(f, s) == -1
      modifies this`f, this`abort, w`book, w`oracle, w`now, w`failures, w`errors, w`sent
      ensures Balanced(w.book, f) && Opening(old(f), f, s, ok) && Numbered(old(w.book), w.book, f, s, ok)
      ensures if ok then w.failures == old(w.failures) else w.failures > old(w.failures)
      ensures w.now >= old(w.now) && w.errors >= old(w.errors) && (old(abort) ==> abort)
      ensures w.sent == if ok && token != 0 then old(w.sent)[Get(f, s) := token] else old(w.sent)
      ensures !ok ==> abort || f.pid != old(f).pid || w.now >= old(w.now) + budget || (token != 0 && w.errors > old(w.errors))
      ensures old(w.oracle) == [] ==> w.oracle == [] && ok && abort == old(abort)
      ensures Refused(old(w.oracle), budget) && old(f).pid > 0 && !old(abort) ==> !ok && w.oracle == [] && !abort
    {
      hide Balanced, Put;
      var deadline := w.now + budget;
      ok := false;
      while true
        invariant Balanced(w.book, f) && w.book.next == old(w.book.next) && w.failures == old(w.failures) && f == old(f)
        invariant old(w.oracle) == [] ==> w.oracle == [] && abort == old(abort)
        invariant w.now >= old(w.now) && w.errors >= old(w.errors) && (old(abort) ==> abort) && w.sent == old(w.sent)
        invariant Refused(old(w.oracle), budget) && old(f).pid > 0 && !old(abort) ==>
          w.oracle == old(w.oracle) && w.now == old(w.now) && !abort
        decreases deadline - w.now
      {
        ghost var b := w.book;
        var fd := w.Acquire(Sock);
        if fd != -1 {
          ok := Greet(s, fd, b);
          return;
        }
        var c := WaitCancelled();
        if c || w.now >= deadline {
          w.failures := w.failures + 1;
          return;
        }
        w.now := w.now + 200;
      }
    }

    /** A connected socket: the token goes out first, if there is one; the socket is kept, or closed. */
    method Greet(s: Slot, fd: int, ghost b: Book) returns (ok: bool)
      requires Balanced(b, f) && Get(f, s) == -1 && s in {Video, Audio, Control}
      requires fd == b.next && w.book == Opened(b, Sock)
      modifies this`f, w`book, w`oracle, w`now, w`failures, w`errors, w`sent
      ensures Balanced(w.book, f) && w.book.next == b.next + 1 && w.now >= old(w.now)
      ensures f == if ok then Put(old(f), s, fd) else old(f)
      ensures w.failures == old(w.failures) + if ok then 0 else 1
      ensures w.sent == if ok && token != 0 then old(w.sent)[fd := token] else old(w.sent)
      ensures w.errors >= old(w.errors) && (!ok ==> token != 0 && w.errors > old(w.errors))
      ensures old(w.oracle) == [] ==> w.oracle == [] && ok
      ensures fd >= 1
    {
      hide Balanced, Put;
      Store(b, f, s);
      ok := true;
      if token != 0 {
        ok := w.SendToken(fd, token);
      }
      if ok {
        f := Put(f, s, fd);
      } else {
        Passing(b, f, Sock);
        w.Release(Handle(Sock, fd));
        w.failures := w.failures + 1;
      }
    }

    /** `read_meta_timeout`: reads device_meta from the video socket within 12 s and checks its magic. */
    method ReadMetaTimeout() returns (st: Status)
      requires Balanced(w.book, f)
      modifies this`f, this`abort, this`metaMagic, this`metaVersion, this`metaCodec, this`metaFrom,
               w`book, w`oracle, w`now, w`failures, w`errors, w`idle
      ensures Balanced(w.book, f) && (f == old(f) || f == old(f).(pid := 0))
      ensures st in {Ok, ErrConnect, ErrProtocol} && (st != ErrConnect ==> metaFrom == f.video && f == old(f))
      ensures st != ErrConnect ==> (st == Ok <==> metaMagic == Meta.META_MAGIC)
      ensures if st == Ok then w.failures == old(w.failures) else w.failures > old(w.failures)
      ensures old(w.idle) <= w.idle <= old(w.idle) + 120 && w.errors >= old(w.errors) && (old(abort) ==> abort)
      ensures st == ErrConnect ==>
        abort || f.pid != old(f).pid || w.errors > old(w.errors) || w.idle == old(w.idle) + 120
      ensures old(w.oracle) == [] ==> w.oracle == [] && st == Ok && f == old(f) && MetaFine() && abort == old(abort)
    {
      hide Balanced, Yes, Onward;
      AllWell();
      var waited := 0;
      while waited < META_TIMEOUT_MS
        invariant old(w.oracle) == [] ==> w.oracle == [] && waited == 0 && abort == old(abort)
        invariant Balanced(w.book, f) && w.book.next == old(w.book.next)
        invariant w.failures == old(w.failures) && w.errors == old(w.errors) && f == old(f)
        invariant waited == WAIT_SLICE_MS * (w.idle - old(w.idle)) && 0 <= waited <= META_TIMEOUT_MS && (old(abort) ==> abort)
      {
        var r := w.Poll();
        if r == Ready {
          st := ReadMeta();
          return;
        }
        if r == Faulty {
          w.failures := w.failures + 1;
          return ErrConnect;
        }
        var c := WaitCancelled();
        if c { return ErrConnect; }
        waited := waited + WAIT_SLICE_MS;
      }
      w.failures := w.failures + 1;
      return ErrConnect;
    }

    /** The read itself: it may fail, and what it finds may be anything. */
    method ReadMeta() returns (st: Status)
      modifies this`metaMagic, this`metaVersion, this`metaCodec, this`metaFrom, w`oracle, w`now, w`failures, w`errors
      ensures st in {Ok, ErrConnect, ErrProtocol} && (st != ErrConnect ==> metaFrom == f.video)
      ensures st != ErrConnect ==> (st == Ok <==> metaMagic == Meta.META_MAGIC)
      ensures if st == Ok then w.failures == old(w.failures) else w.failures > old(w.failures)
      ensures w.errors == old(w.errors) + if st == ErrConnect then 1 else 0
      ensures old(w.oracle) == [] ==> w.oracle == [] && st == Ok && MetaFine()
    {
      var v := w.Ask();
      if v == 0 {
        w.failures, w.errors := w.failures + 1, w.errors + 1;
        return ErrConnect;
      }
      metaMagic, metaFrom := Said(v, Meta.META_MAGIC), f.video;
      v := w.Ask();
      metaVersion := Said(v, Meta.VERSION);
      v := w.Ask();
      metaCodec := Said(v, 0x68323634);
      if metaMagic != Meta.META_MAGIC {
        w.failures := w.failures + 1;
        return ErrProtocol;
      }
      return Ok;
    }

    /** `ensure_adb_device` (an `adb connect` for an "ip:port" serial), then the push of the server. */
    method Push() returns (st: Status)
      modifies w`oracle, w`now, w`failures, w`cmds
      ensures (st == Ok && w.failures == old(w.failures)) || (st == ErrAdb && w.failures > old(w.failures))
      ensures st == Ok <==> PushWell(cfg, old(w.oracle))
      ensures st == Ok ==> w.oracle == AfterPush(cfg, old(w.oracle))
      ensures st == Ok ==> Ago(w.cmds, 0, PushServer(cfg.serial)) && (Networked(cfg) ==> Ago(w.cmds, 1, Connect(cfg.serial)))
    {
      st := Ok;
      if cfg.serial.Some? && ':' in cfg.serial.value {
        st := w.Adb(Connect(cfg.serial));
      }
      if st == Ok {
        st := w.Adb(PushServer(cfg.serial));
      }
    }

    /** `rc_adb_run_server`: starts the server process, telling it its port and token. */
    method Spawn(port: int, lanToken: int) returns (ok: bool)
      requires Balanced(w.book, f) && f.pid == 0
      modifies this`f, w`book, w`oracle, w`now, w`failures, w`errors, w`cmds
      ensures Balanced(w.book, f) && f == old(f).(pid := f.pid) && (if ok then f.pid >= 1 else f.pid == 0)
      ensures w.failures == old(w.failures) + (if ok then 0 else 1) && w.errors >= old(w.errors)
      ensures w.oracle == Onward(old(w.oracle)) && ok == Yes(old(w.oracle))
      ensures w.cmds == old(w.cmds) + [RunServer(cfg.serial, port, lanToken)]
    {
      hide Balanced;
      w.cmds := w.cmds + [RunServer(cfg.serial, port, lanToken)];
      ok := Fill(Server);
    }

    // ---- Deployment

    /** Opens the listener and the reverse rule, and starts the server. */
    method OpenTunnel() returns (st: Status)
      requires Valid() && Shut() && cfg.transport == Usb
      modifies this`f, w
      ensures Valid()
      ensures f == old(f).(listener := f.listener, pid := f.pid) && w.failures >= old(w.failures) && w.errors >= old(w.errors)
      ensures st in {Ok, ErrAdb, ErrConnect} && (st != Ok ==> w.failures > old(w.failures))
      ensures st == Ok ==> f.listener >= 1 && f.pid >= 1 && w.rule && TunnelServer(cfg, w.cmds)
      ensures st == Ok ==> Ago(w.cmds, 1, Reverse(cfg.serial, f.listener))
      ensures st == ErrConnect ==> w.errors > old(w.errors)
      ensures w.idle == old(w.idle)
      ensures old(w.oracle) == [] ==> w.oracle == [] && st == Ok
    {
      hide Balanced, Yes, Onward, PushWell, AfterPush, TunnelServer, Ago;
      AllWell();
      Prospects(cfg, w.oracle);
      st := Push();
      if st != Ok { return; }
      var ok := Fill(Listener);
      if !ok { return ErrConnect; }
      w.rule := true;
      ghost var cmds := w.cmds;
      st := w.Adb(Reverse(cfg.serial, f.listener));
      if st != Ok { return; }
      ok := Spawn(0, 0);
      if !ok { return ErrAdb; }
      TunnelMade(cfg, cmds, f.listener);
    }

    /** Accepts video, then audio and control as requested. */
    method AcceptChannels() returns (st: Status)
      requires Balanced(w.book, f) && f.video == -1 && f.audio == -1 && f.control == -1
      modifies this`f, this`abort, w`book, w`oracle, w`now, w`failures, w`errors, w`idle
      ensures Balanced(w.book, f)
      ensures f == old(f).(video := f.video, audio := f.audio, control := f.control, pid := f.pid)
      ensures w.failures >= old(w.failures) && w.errors >= old(w.errors) && w.idle >= old(w.idle)
      ensures (f.pid == 0 || f.pid == old(f).pid) && (old(abort) ==> abort)
      ensures (st == ErrConnect && w.failures > old(w.failures)) || (st == Ok && ChannelsOpen())
      ensures st == ErrConnect ==> abort || f.pid != old(f).pid || w.errors > old(w.errors) || w.idle >= old(w.idle) + 150
      ensures old(w.oracle) == [] ==> w.oracle == [] && st == Ok && abort == old(abort)
    {
      hide Balanced;
      var ok := AcceptTimeout(Video);
      if !ok { return ErrConnect; }
      if cfg.audio {
        ok := AcceptTimeout(Audio);
        if !ok { return ErrConnect; }
      }
      if cfg.control {
        ok := AcceptTimeout(Control);
        if !ok { return ErrConnect; }
      }
      return Ok;
    }

    /**
     `deploy_usb`. Without an adb failure it gives up only when aborted, when the server process is gone,
     when a call failed, or when the server stayed silent for 12 s.
     */
    method DeployUsb() returns (st: Status)
      requires Valid() && Shut() && cfg.transport == Usb
      modifies this`f, this`abort, this`route,
               this`metaMagic, this`metaVersion, this`metaCodec, this`metaFrom, w
      ensures Valid() && SameThreads(old(f), f) && (st == Ok ==> Coherent() && w.rule) && st != ErrInvalidArg
      ensures w.failures >= old(w.failures) && (st != Ok ==> w.failures > old(w.failures))
      ensures st == ErrConnect ==> abort || f.pid == 0 || w.errors > old(w.errors) || w.idle >= old(w.idle) + 120
      ensures st == ErrProtocol ==> metaMagic != Meta.META_MAGIC
      ensures old(w.oracle) == [] ==> w.oracle == [] && st == Ok && MetaFine()
    {
      hide Balanced, Yes, Onward, TunnelServer, LanServer, TokenSent;
      st := OpenTunnel();
      if st != Ok { return; }
      st := AcceptChannels();
      if st != Ok { return; }
      Empty(Listener);
      st := ReadMetaTimeout();
      if st != Ok { return; }
      route := TunnelRoute(cfg.serial);
    }

    /** Connects video, then audio and control as requested; stops at the first failure. */
    method ConnectChannels(deployed: bool) returns (ok: bool)
      requires Balanced(w.book, f) && f.video == -1 && f.audio == -1 && f.control == -1
      modifies this`f, this`abort, w`book, w`oracle, w`now, w`failures, w`errors, w`sent
      ensures Balanced(w.book, f)
      ensures f == old(f).(video := f.video, audio := f.audio, control := f.control, pid := f.pid)
      ensures ok ==> ChannelsOpen() && TokenSent(cfg, f, token, w.sent)
      ensures w.failures >= old(w.failures) && (!ok ==> w.failures > old(w.failures))
      ensures w.now >= old(w.now) && w.errors >= old(w.errors) && (old(abort) ==> abort)
      ensures f.pid == 0 || f.pid == old(f).pid
      ensures !ok ==> abort || f.pid != old(f).pid || w.now >= old(w.now) + 1000 || (token != 0 && w.errors > old(w.errors))
      ensures old(w.oracle) == [] ==> w.oracle == [] && ok && abort == old(abort)
      ensures deployed && Refused(old(w.oracle), 3000) && old(f).pid > 0 && !old(abort) ==> !ok && w.oracle == [] && !abort
    {
      hide Balanced, Refused, Yes, Onward;
      ok := ConnectRetry(Video, if deployed then 3000 else 1000);
      if ok {
        ok := ConnectRest();
      }
    }

    /** Audio and control, as requested. */
    method ConnectRest() returns (ok: bool)
      requires Balanced(w.book, f) && f.video >= 1 && f.audio == -1 && f.control == -1 && f.video < w.book.next
      modifies this`f, this`abort, w`book, w`oracle, w`now, w`failures, w`errors, w`sent
      ensures Balanced(w.book, f)
      ensures f == old(f).(audio := f.audio, control := f.control, pid := f.pid)
      ensures ok ==> ChannelsOpen() && (token != 0 && f.video in old(w.sent) && old(w.sent)[f.video] == token ==> TokenSent(cfg, f, token, w.sent))
      ensures w.failures >= old(w.failures) && (!ok ==> w.failures > old(w.failures))
      ensures w.now >= old(w.now) && w.errors >= old(w.errors) && (old(abort) ==> abort)
      ensures f.pid == 0 || f.pid == old(f).pid
      ensures !ok ==> abort || f.pid != old(f).pid || w.now >= old(w.now) + 1000 || (token != 0 && w.errors > old(w.errors))
      ensures old(w.oracle) == [] ==> w.oracle == [] && ok && abort == old(abort)
    {
      hide Balanced, Refused, Yes, Onward;
      ok := true;
      if cfg.audio {
        ok := ConnectRetry(Audio, 1000);
      }
      if ok && cfg.control {
        ok := ConnectRetry(Control, 1000);
      }
    }

    /** The probe for a port that something else already serves. */
    method Probe() returns (occupied: bool)
      requires Balanced(w.book, f)
      modifies w`book, w`oracle, w`now, w`failures, w`errors
      ensures Balanced(w.book, f) && w.failures == old(w.failures)
      ensures occupied == Yes(old(w.oracle)) && w.oracle == Onward(old(w.oracle))
    {
      hide Balanced;
      ghost var b := w.book;
      var fd := w.Acquire(Sock);
      occupied := fd != -1;
      if occupied {
        Passing(b, f, Sock);
        w.Release(Handle(Sock, fd));
      }
    }

    /** Push, token, and the server process listening on the device port. */
    method StartLanServer(port: int) returns (st: Status)
      requires Balanced(w.book, f) && f.pid == 0 && Deploys(cfg)
      requires ParseAddr(cfg.tcpAddr).Some? && ParseAddr(cfg.tcpAddr).value.1 == port
      modifies this`f, this`token, w`book, w`oracle, w`now, w`failures, w`errors, w`cmds
      ensures Balanced(w.book, f) && f == old(f).(pid := f.pid)
      ensures w.failures >= old(w.failures)
      ensures (st == ErrAdb && w.failures > old(w.failures)) || (st == Ok && f.pid >= 1 && LanServer(cfg, token, w.cmds))
      ensures st == Ok <==> PushWell(cfg, old(w.oracle)) && Yes(Onward(AfterPush(cfg, old(w.oracle))))
      ensures old(w.oracle) == [] ==> w.oracle == [] && st == Ok
      ensures Networked(cfg) && SpawnFails(old(w.oracle)) ==> st == ErrAdb && token != 0 && w.oracle == []
      ensures Declined(cfg, old(w.oracle)) ==> st == Ok && Refused(w.oracle, 3000)
    {
      hide Balanced, ParseAddr, Refused, Yes, Onward, SpawnFails, Declined, PushWell, AfterPush;
      Prospects(cfg, w.oracle);
      st := Push();
      if st != Ok { return; }
      var random := w.Ask();
      token := random + 1;
      var ok := Spawn(if cfg.tcpDevicePort > 0 then cfg.tcpDevicePort else port, token);
      st := if ok then Ok else ErrAdb;
    }

    /** The LAN attempt of `deploy_tcp`: channels, then the meta check. */
    method TryLan(deployed: bool) returns (ok: bool)
      requires Balanced(w.book, f) && f.video == -1 && f.audio == -1 && f.control == -1
      modifies this`f, this`abort, this`metaMagic, this`metaVersion, this`metaCodec, this`metaFrom,
               w`book, w`oracle, w`now, w`failures, w`errors, w`sent, w`idle
      ensures Balanced(w.book, f)
      ensures f == old(f).(video := f.video, audio := f.audio, control := f.control, pid := f.pid)
      ensures ok ==> ChannelsOpen() && metaFrom == f.video && metaMagic == Meta.META_MAGIC && TokenSent(cfg, f, token, w.sent)
      ensures w.failures >= old(w.failures) && (!ok ==> w.failures > old(w.failures))
      ensures old(w.oracle) == [] ==> w.oracle == [] && ok && MetaFine()
      ensures deployed && Refused(old(w.oracle), 3000) && old(f).pid > 0 && !old(abort) ==> !ok && w.oracle == [] && !abort
    {
      hide Balanced, Refused;
      ok := ConnectChannels(deployed);
      if ok {
        var st := ReadMetaTimeout();
        ok := st == Ok;
      }
    }

    /** From a failed LAN attempt to the tunnel: everything of the attempt is given back, the token wiped. */
    method FallBack() returns (st: Status)
      requires Valid() && cfg.transport == Tcp
      modifies this`f, this`cfg, this`token, this`abort, this`route,
               this`metaMagic, this`metaVersion, this`metaCodec, this`metaFrom, w
      ensures Valid() && SameThreads(old(f), f) && (st == Ok ==> Coherent()) && st != ErrInvalidArg
      ensures w.failures >= old(w.failures) && (st != Ok ==> w.failures > old(w.failures))
      ensures old(w.oracle) == [] ==> w.oracle == [] && st == Ok && MetaFine()
      ensures cfg == old(cfg).(transport := Usb) && token == 0
    {
      hide Balanced, Coherent;
      Teardown();
      token := 0;
      cfg := cfg.(transport := Usb);
      st := DeployUsb();
    }

    /**
     `deploy_tcp`. The token is wiped only by the fallback from a LAN attempt: the way to the tunnel
     through an occupied port leaves a token of an earlier session where it is. A server of its own that
     cannot be reached is given up for the tunnel, unless aborted.
     */
    method DeployTcp() returns (st: Status)
      requires Valid() && Shut() && cfg.transport == Tcp
      modifies this, w
      ensures Valid() && SameThreads(old(f), f) && running == old(running) && (st == Ok ==> Coherent())
      ensures cfg == old(cfg).(transport := cfg.transport)
      ensures if Occupied(old(cfg), old(w.oracle)) then cfg.transport == Usb && token == old(token)
              else cfg.transport == Usb ==> token == 0
      ensures st == ErrInvalidArg <==> ParseAddr(old(cfg).tcpAddr).None?
      ensures w.failures >= old(w.failures) && (st == Ok || st == ErrInvalidArg || w.failures > old(w.failures))
      ensures old(w.oracle) == [] ==> w.oracle == [] && (st == ErrInvalidArg || (st == Ok && MetaFine()))
      ensures st == ErrConnect && Deploys(cfg) && cfg.transport == Tcp ==> abort
      ensures cfg.transport == Usb ==> Deploys(cfg)
      ensures Straight(old(cfg), old(w.oracle)) ==> st == Ok && cfg.transport == Tcp && token != 0 && w.oracle == [] && MetaFine()
      ensures Trips(old(cfg), old(w.oracle)) ==> st == ErrAdb && cfg.transport == Tcp && token != 0 && w.oracle == []
      ensures Walled(old(cfg), old(w.oracle)) && !old(abort) ==> st == Ok && cfg.transport == Usb && w.oracle == [] && MetaFine()
    {
      hide Balanced, ParseAddr, Coherent, Declined;
      var addr := ParseAddr(cfg.tcpAddr);
      if addr.None? { return ErrInvalidArg; }
      if Deploys(cfg) && cfg.tcpDevicePort <= 0 {
        var occupied := Probe();
        if occupied {
          cfg := cfg.(transport := Usb);
          st := DeployUsb();
          return;
        }
      }
      st := Direct(addr.value.1);
    }

    /** The LAN attempt behind the probe, and the fallback when it fails. */
    method Direct(port: int) returns (st: Status)
      requires Valid() && Shut() && cfg.transport == Tcp
      requires ParseAddr(cfg.tcpAddr).Some? && ParseAddr(cfg.tcpAddr).value.1 == port
      modifies this, w
      ensures Valid() && SameThreads(old(f), f) && running == old(running) && (st == Ok ==> Coherent())
      ensures cfg == old(cfg).(transport := cfg.transport) && (cfg.transport == Usb ==> token == 0 && Deploys(cfg))
      ensures st != ErrInvalidArg
      ensures w.failures >= old(w.failures) && (st == Ok || w.failures > old(w.failures))
      ensures old(w.oracle) == [] ==> w.oracle == [] && st == Ok && cfg.transport == Tcp && MetaFine()
      ensures st == Ok && cfg.transport == Tcp && Deploys(cfg) ==> token != 0
      ensures st == ErrConnect && Deploys(cfg) && cfg.transport == Tcp ==> abort
      ensures Deploys(cfg) && Networked(cfg) && SpawnFails(old(w.oracle)) ==>
        st == ErrAdb && cfg.transport == Tcp && token != 0 && w.oracle == []
      ensures Deploys(old(cfg)) && Declined(old(cfg), old(w.oracle)) && !old(abort) ==> st == Ok && cfg.transport == Usb && w.oracle == [] && MetaFine()
    {
      hide Balanced, ParseAddr, Declined, Refused, TunnelServer;
      var deployed := Deploys(cfg);
      if deployed {
        st := StartLanServer(port);
        if st != Ok { return; }
      }
      var ok := TryLan(deployed);
      if ok {
        route := LanDirect;
        return Ok;
      }
      var v := w.Ask();
      abort := abort || v % 2 == 0;
      if deployed && !abort {
        st := FallBack();
        return;
      }
      return ErrConnect;
    }

    /**
     `rc_server_deploy`: on success the session is coherent, on whichever path was taken. A session on
     the tunnel has a LAN token left over exactly when one was there before and the tunnel was
     configured from the start or the LAN port was occupied. A server that was deployed and cannot be
     reached over the LAN is never the end of it: only an abort is.
     */
    method DeployServer() returns (st: Status)
      requires Valid() && Shut()
      modifies this, w
      ensures Valid() && SameThreads(old(f), f) && running == old(running) && (st == Ok ==> Coherent())
      ensures cfg == old(cfg).(transport := cfg.transport)
      ensures KeepsToken(old(cfg), old(w.oracle)) ==> cfg.transport == Usb
      ensures cfg.transport == Usb ==> token == if KeepsToken(old(cfg), old(w.oracle)) then old(token) else 0
      ensures st == ErrInvalidArg <==> old(cfg).transport == Tcp && ParseAddr(old(cfg).tcpAddr).None?
      ensures w.failures >= old(w.failures) && (st == Ok || st == ErrInvalidArg || w.failures > old(w.failures))
      ensures old(w.oracle) == [] ==> w.oracle == [] && (st == ErrInvalidArg || (st == Ok && MetaFine()))
      ensures st == ErrConnect && Deploys(cfg) && cfg.transport == Tcp ==> abort
      ensures old(cfg).transport == Tcp && cfg.transport == Usb ==> Deploys(cfg)
      ensures Straight(old(cfg), old(w.oracle)) ==> st == Ok && cfg.transport == Tcp && token != 0 && w.oracle == [] && MetaFine()
      ensures Trips(old(cfg), old(w.oracle)) ==> st == ErrAdb && cfg.transport == Tcp && token != 0 && w.oracle == []
      ensures Walled(old(cfg), old(w.oracle)) && !old(abort) ==> st == Ok && cfg.transport == Usb && w.oracle == [] && MetaFine()
    {
      hide Balanced, Coherent, ParseAddr, Declined;
      if cfg.transport == Tcp {
        st := DeployTcp();
      } else {
        st := DeployUsb();
      }
    }

    /** `rc_server_teardown`. */
    method Teardown()
      requires Valid()
      modifies this`f, w
      ensures Valid() && Shut() && SameThreads(old(f), f) && w.failures >= old(w.failures)
      ensures old(w.oracle) == [] ==> w.oracle == []
      ensures w.rule ==> cfg.transport == Tcp && old(w.rule)
      ensures w.cmds == old(w.cmds) + if cfg.transport == Usb then [Unreverse(cfg.serial)] else []
    {
      hide Balanced;
      Empty(Control);
      Empty(Audio);
      Empty(Video);
      Empty(Listener);
      Empty(Server);
      if cfg.transport == Usb {
        w.rule := false;
        var _ := w.Adb(Unreverse(cfg.serial));
      }
    }

    // ---- Start and stop

    /** The checks and creations of `rc_client_start` once the server is deployed. */
    method Launch() returns (st: Status)
      requires Balanced(w.book, f) && NoThreads(f)
      modifies this`f, this`running, w`book, w`oracle, w`now, w`failures, w`errors
      ensures Balanced(w.book, f) && f.player == -1
      ensures f == old(f).(decoder := f.decoder, netThread := f.netThread, audioThread := f.audioThread)
      ensures st == Ok ==> running && f.netThread >= 1 && f.decoder >= 1
      ensures st != Ok ==> !running && NoThreads(f)
      ensures st == ErrProtocol <==> !MetaFine()
      ensures st == ErrDecode <==> MetaFine() && !Yes(old(w.oracle))
      ensures st == ErrGeneric <==> MetaFine() && Yes(old(w.oracle)) && !Yes(Onward(old(w.oracle)))
      ensures st in {Ok, ErrProtocol, ErrDecode, ErrGeneric}
      ensures st == Ok ==>
        (f.audioThread >= 1 <==> cfg.audio && f.audio >= 0 && Yes(Onward(Onward(old(w.oracle)))))
      ensures st == Ok && old(Coherent()) ==> Coherent()
      ensures w.failures >= old(w.failures) && (st == Ok || st == ErrProtocol || w.failures > old(w.failures))
      ensures old(w.oracle) == [] && MetaFine() ==> w.oracle == [] && st == Ok
    {
      hide Balanced, Serves, LanServer, TunnelServer, TokenSent, RouteOk, Yes, Onward;
      AllWell();
      running := false;
      if metaVersion != Meta.VERSION || metaCodec !in CODECS { return ErrProtocol; }
      var ok := Fill(VideoDecoder);
      if !ok { return ErrDecode; }
      running := true;
      ok := Fill(NetThread);
      if !ok {
        running := false;
        Empty(VideoDecoder);
        return ErrGeneric;
      }
      if cfg.audio && f.audio >= 0 {
        var _ := Fill(AudioThread);
      }
      ThreadsApart(cfg, old(f), f);
      assert TokenSent(cfg, old(f), token, w.sent) ==> TokenSent(cfg, f, token, w.sent) by { SameSockets(cfg, old(f), f, token, w.sent); }
      return Ok;
    }

    /**
     `rc_client_start`, not to be called again between a successful start and a stop.
     A failed start leaves nothing open and no rule behind.
     */
    method Start() returns (st: Status)
      requires Valid() && (running || f == NOTHING)
      modifies this, w
      ensures Valid() && cfg == old(cfg).(transport := cfg.transport)
      ensures old(running) ==> st == Ok && unchanged(this) && unchanged(w)
      ensures !old(running) && st == Ok ==> running && Coherent() && f.netThread >= 1 && f.decoder >= 1 && MetaFine()
      ensures !old(running) && st == Ok && f.audioThread >= 1 ==> cfg.audio
      ensures !old(running) && st == Ok && old(w.oracle) == [] ==> (f.audioThread >= 1 <==> cfg.audio)
      ensures !old(running) && st != Ok ==> !running && f == NOTHING && GivenBack(w.book) && !w.rule
      ensures !old(running) && st != Ok && cfg.transport == Usb ==> Ago(w.cmds, 0, Unreverse(cfg.serial))
      ensures !old(running) && st == ErrConnect && Deploys(cfg) && cfg.transport == Tcp ==> abort
      ensures st == Ok || st == ErrInvalidArg || w.failures > old(w.failures) || !MetaFine()
      ensures !old(running) && cfg.transport == Usb ==> token == if KeepsToken(old(cfg), old(w.oracle)) then old(token) else 0
      ensures !old(running) && KeepsToken(old(cfg), old(w.oracle)) ==> cfg.transport == Usb
      ensures old(w.oracle) == [] ==> w.oracle == [] && (st == Ok || st == ErrInvalidArg)
      ensures !old(running) ==> (st == ErrInvalidArg <==> old(cfg).transport == Tcp && ParseAddr(old(cfg).tcpAddr).None?)
      ensures !old(running) && Straight(old(cfg), old(w.oracle)) ==> st == Ok && cfg.transport == Tcp && token != 0 && w.oracle == []
      ensures !old(running) && Trips(old(cfg), old(w.oracle)) ==> st == ErrAdb && cfg.transport == Tcp && token != 0 && w.oracle == []
      ensures !old(running) && Walled(old(cfg), old(w.oracle)) && !old(abort) ==> st == Ok && cfg.transport == Usb && w.oracle == []
    {
      hide Balanced, GivenBack, ParseAddr, KeepsToken, Straight, Trips, Walled, Coherent, ChannelsOpen, LanServer, TunnelServer, TokenSent, RouteOk;
      if running { return Ok; }
      st := DeployServer();
      if st == Ok {
        AudioAsked();
        st := Launch();
      }
      if st != Ok {
        Teardown();
        AllGivenBack(w.book);
      }
    }

    /** What the network thread may do to the client while it runs: swap or lose the decoder, end by itself. */
    method NetThreadActs()
      requires Balanced(w.book, f)
      modifies this`f, this`running, w`book, w`oracle, w`now, w`failures, w`errors
      ensures Balanced(w.book, f) && f == old(f).(decoder := f.decoder)
    {
      hide Balanced;
      var v := w.Ask();
      if v % 2 == 1 {
        Empty(VideoDecoder);
        var _ := Fill(VideoDecoder);
      }
      if v % 3 == 1 {
        running := false;
      }
    }

    /** What the audio thread may do: create its player, once. */
    method AudioThreadActs()
      requires Balanced(w.book, f)
      modifies this`f, w`book, w`oracle, w`now, w`failures, w`errors
      ensures Balanced(w.book, f) && f == old(f).(player := f.player)
    {
      hide Balanced;
      if f.player == -1 {
        var _ := Fill(AudioPlayer);
      }
    }

    /** `rc_client_stop`: after it nothing is held and no reverse rule is left, whatever happened before. */
    method Stop()
      requires Valid()
      modifies this, w
      ensures Valid() && f == NOTHING && !running && GivenBack(w.book) && !w.rule && cfg == old(cfg) && abort
      ensures token == old(token) && (old(w.oracle) == [] ==> w.oracle == [])
    {
      hide Balanced, GivenBack;
      abort, running := true, false;
      Empty(NetThread);
      Empty(AudioThread);
      Empty(VideoDecoder);
      Empty(AudioPlayer);
      Teardown();
      AllGivenBack(w.book);
    }

    /**
     Any number of start/stop rounds, with any number of acts of the threads in between: afterwards
     each handle ever opened was closed exactly once, and no reverse rule is left.
     */
    method Lifetime(rounds: seq<nat>)
      requires Valid() && f == NOTHING && !running && !w.rule
      modifies this, w
      ensures Valid() && f == NOTHING && !running && GivenBack(w.book) && !w.rule
    {
      hide Balanced, GivenBack;
      AllGivenBack(w.book);
      for i := 0 to |rounds|
        invariant Valid() && f == NOTHING && !running && GivenBack(w.book) && !w.rule
      {
        var st := Start();
        if st == Ok {
          for j := 0 to rounds[i]
            invariant Valid()
          {
            NetThreadActs();
            if f.audioThread >= 1 { AudioThreadActs(); }
          }
          Stop();
        }
      }
    }
  }

  /**
   A token left over: a first start makes a token and then cannot start its server; a second one finds the
   port occupied and ends on the tunnel, in a coherent session that still has the first one's token.
   */
  method StaleToken() returns (c: Client)
    ensures c.running && c.Coherent() && c.cfg.transport == Usb && c.token != 0
  {
    hide Balanced, Client.Coherent;
    var addr := "10.0.0.2:27183";
    var cfg := Config(Some("10.0.0.2:5555"), Tcp, Some(addr), 0, true, true);
    assert addr[0] != ':' && |addr| < 128 && ParseAddr(Some(addr)).Some?;
    assert cfg.serial.value[8] == ':';
    var w := new World([0, 1, 1, 1, 0], 0);
    assert w.oracle[1..] == [1, 1, 1, 0];
    c := new Client(w, cfg);
    var st := c.Start();
    st := c.Start();
  }
}
