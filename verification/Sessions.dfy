/** The desktop's sessions: which stream port or LAN port each one gets, over any sequence of opening and closing. */
module Sessions {
  import opened Sockets
  import Text
  import Deploy
  import Discovery
  import AgentTables

  /** streamK: -1 for none; lanPort: 0 for none. */
  datatype Session = Session(serial: Option<string>, cfg: Deploy.Config, streamK: int, lanPort: int, torn: bool)

  // ---- What is in use

  predicate HoldsK(s: Session, serial: Option<string>, k: int)
  {
    !s.torn && s.streamK == k && s.serial.Some? && serial == s.serial
  }

  ghost predicate KUsed(sessions: seq<Session>, serial: Option<string>, k: int)
  {
    exists i :: 0 <= i < |sessions| && HoldsK(sessions[i], serial, k)
  }

  ghost predicate LanUsed(sessions: seq<Session>, port: int)
  {
    exists i :: 0 <= i < |sessions| && !sessions[i].torn && sessions[i].lanPort == port
  }

  /** No two live sessions share what they were given. */
  ghost predicate Distinct(sessions: seq<Session>)
  {
    && (forall i, j :: 0 <= i < j < |sessions| && sessions[i].streamK >= 0 ==>
          !HoldsK(sessions[i], sessions[j].serial, sessions[j].streamK) || sessions[j].torn)
    && (forall i, j :: 0 <= i < j < |sessions| && !sessions[i].torn && !sessions[j].torn && sessions[i].lanPort != 0 ==>
          sessions[i].lanPort != sessions[j].lanPort)
  }

  ghost predicate SessionOk(s: Session)
  {
    -1 <= s.streamK < 4 && (s.streamK >= 0 ==> s.serial.Some?) && (s.lanPort == 0 || s.lanPort >= 27183)
  }

  ghost predicate AllOk(sessions: seq<Session>)
  {
    forall i :: 0 <= i < |sessions| ==> SessionOk(sessions[i])
  }

  function LiveCount(sessions: seq<Session>): nat
  {
    if sessions == [] then 0 else (if sessions[0].torn then 0 else 1) + LiveCount(sessions[1..])
  }

  function LanPorts(sessions: seq<Session>): set<int>
  {
    if sessions == [] then {}
    else (if sessions[0].torn then {} else {sessions[0].lanPort}) + LanPorts(sessions[1..])
  }

  lemma {:induction false} LanPortsCount(sessions: seq<Session>)
    ensures |LanPorts(sessions)| <= LiveCount(sessions)
  {
    if sessions != [] {
      LanPortsCount(sessions[1..]);
    }
  }

  lemma {:induction false} LanPortsHas(sessions: seq<Session>, i: nat)
    requires i < |sessions| && !sessions[i].torn
    ensures sessions[i].lanPort in LanPorts(sessions)
  {
    if i > 0 {
      LanPortsHas(sessions[1..], i - 1);
    }
  }

  /** The n ports from 27183 on. */
  function Interval(n: nat): (r: set<int>)
    ensures forall q :: q in r <==> 27183 <= q < 27183 + n
    ensures |r| == n
  {
    if n == 0 then {} else Interval(n - 1) + {27183 + n - 1}
  }

  /** Pigeonhole: n consecutive ports in use need n live sessions. */
  lemma PortsTaken(sessions: seq<Session>, n: nat)
    requires forall q :: 27183 <= q < 27183 + n ==> LanUsed(sessions, q)
    ensures n <= LiveCount(sessions)
  {
    forall q | q in Interval(n)
      ensures q in LanPorts(sessions)
    {
      assert LanUsed(sessions, q);
      var i: nat :| i < |sessions| && !sessions[i].torn && sessions[i].lanPort == q;
      LanPortsHas(sessions, i);
    }
    LanPortsCount(sessions);
    AgentTables.SubsetCount(Interval(n), LanPorts(sessions));
  }

  /** All four stream ports of a device are in use exactly by four sessions, one for each k. */
  lemma FourHolders(sessions: seq<Session>, serial: Option<string>) returns (h: seq<nat>)
    requires AllOk(sessions) && Distinct(sessions)
    requires forall k :: 0 <= k < 4 ==> KUsed(sessions, serial, k)
    ensures |h| == 4 && forall k :: 0 <= k < 4 ==> h[k] < |sessions| && HoldsK(sessions[h[k]], serial, k)
    ensures forall i :: 0 <= i < |sessions| && !sessions[i].torn && sessions[i].serial == serial && sessions[i].streamK >= 0 ==> i in h
  {
    hide HoldsK, Distinct, KUsed;
    var h0 := Holder(sessions, serial, 0);
    var h1 := Holder(sessions, serial, 1);
    var h2 := Holder(sessions, serial, 2);
    var h3 := Holder(sessions, serial, 3);
    h := [h0, h1, h2, h3];
    forall i | 0 <= i < |sessions| && !sessions[i].torn && sessions[i].serial == serial && sessions[i].streamK >= 0
      ensures i in h
    {
      var k := sessions[i].streamK;
      assert SessionOk(sessions[i]);
      HoldsOwn(sessions[i]);
      OneHolder(sessions, serial, k, i, h[k]);
    }
  }

  lemma Holder(sessions: seq<Session>, serial: Option<string>, k: int) returns (i: nat)
    requires KUsed(sessions, serial, k)
    ensures i < |sessions| && HoldsK(sessions[i], serial, k)
  {
    i :| i < |sessions| && HoldsK(sessions[i], serial, k);
  }

  lemma HoldsOwn(s: Session)
    requires SessionOk(s) && !s.torn && s.streamK >= 0
    ensures HoldsK(s, s.serial, s.streamK)
  {
  }

  lemma OneHolder(sessions: seq<Session>, serial: Option<string>, k: int, i: nat, j: nat)
    requires Distinct(sessions) && k >= 0 && i < |sessions| && j < |sessions|
    requires HoldsK(sessions[i], serial, k) && HoldsK(sessions[j], serial, k)
    ensures i == j
  {
  }

  /** A new session in front of the list. */
  lemma Opened(sessions: seq<Session>, s: Session)
    requires AllOk(sessions) && Distinct(sessions) && SessionOk(s)
    requires s.streamK >= 0 ==> !KUsed(sessions, s.serial, s.streamK)
    requires s.lanPort != 0 ==> !LanUsed(sessions, s.lanPort)
    ensures AllOk([s] + sessions) && Distinct([s] + sessions)
  {
    var all := [s] + sessions;
    forall i, j | 0 <= i < j < |all| && all[i].streamK >= 0
      ensures !HoldsK(all[i], all[j].serial, all[j].streamK) || all[j].torn
    {
      assert all[j] == sessions[j - 1];
      if i > 0 {
        assert all[i] == sessions[i - 1];
      } else {
        assert !HoldsK(sessions[j - 1], s.serial, s.streamK);
      }
    }
    forall i, j | 0 <= i < j < |all| && !all[i].torn && !all[j].torn && all[i].lanPort != 0
      ensures all[i].lanPort != all[j].lanPort
    {
      assert all[j] == sessions[j - 1];
      if i > 0 {
        assert all[i] == sessions[i - 1];
      }
    }
  }

  lemma Closed(sessions: seq<Session>, i: nat)
    requires AllOk(sessions) && Distinct(sessions) && i < |sessions|
    ensures var t := sessions[i := sessions[i].(torn := true)]; AllOk(t) && Distinct(t)
  {
    var t := sessions[i := sessions[i].(torn := true)];
    forall a, b | 0 <= a < b < |t| && t[a].streamK >= 0
      ensures !HoldsK(t[a], t[b].serial, t[b].streamK) || t[b].torn
    {
      assert !HoldsK(sessions[a], sessions[b].serial, sessions[b].streamK) || sessions[b].torn;
    }
    assert forall a :: 0 <= a < |t| ==> SessionOk(sessions[a]) && SessionOk(t[a]);
  }

  // ---- The application

  /** How `session_new` finds its transport. */
  datatype Plan = Tunnel | Given | ViaAgent(base: int) | Wireless

  class App {
    const base: Deploy.Config
    var sessions: seq<Session>
    var agentDevs: map<string, Discovery.AgentDev>
    // Every device ever learned from an agent.
    var scanned: set<Discovery.AgentDev>

    constructor (base: Deploy.Config)
      ensures sessions == [] && Valid() && Routes() && this.base == base && scanned == {}
    {
      this.base, sessions, agentDevs, scanned := base, [], map[], {};
    }

    ghost predicate Valid()
      reads this
    {
      AllOk(sessions) && Distinct(sessions)
    }

    /**
     Every session that was given a k goes, or went, to the agent and the stream range its own device
     was once scanned with. With a session set by the environment there is no chooser and no scan.
     */
    ghost predicate Routes()
      reads this
    {
      && (forall serial :: serial in agentDevs ==> agentDevs[serial] in scanned && agentDevs[serial].serial == serial)
      && (ByEnvironment(base) ==> agentDevs == map[])
      && AllRouted(sessions, scanned)
    }

    /** `alloc_lan_port`: the lowest port not in use; the search ends within the number of live sessions. */
    method AllocLanPort() returns (port: int)
      ensures 27183 <= port <= 27183 + LiveCount(sessions)
      ensures !LanUsed(sessions, port) && forall q :: 27183 <= q < port ==> LanUsed(sessions, q)
    {
      port := 27183;
      PortsTaken(sessions, 0);
      while true
        invariant 27183 <= port <= 27183 + LiveCount(sessions)
        invariant forall q :: 27183 <= q < port ==> LanUsed(sessions, q)
        decreases 27183 + LiveCount(sessions) - port
      {
        var used := false;
        var i := 0;
        while i < |sessions| && !used
          invariant i <= |sessions|
          invariant used ==> LanUsed(sessions, port)
          invariant !used ==> forall j :: 0 <= j < i ==> sessions[j].torn || sessions[j].lanPort != port
        {
          used := !sessions[i].torn && sessions[i].lanPort == port;
          i := i + 1;
        }
        if !used { return; }
        assert forall q :: 27183 <= q < 27183 + (port + 1 - 27183) ==> LanUsed(sessions, q);
        PortsTaken(sessions, port + 1 - 27183);
        port := port + 1;
      }
    }

    /** `alloc_stream_k`: the lowest k not in use by a live session of this serial, or -1 when there is none. */
    method AllocStreamK(serial: Option<string>) returns (k: int)
      ensures -1 <= k < 4
      ensures k >= 0 ==> !KUsed(sessions, serial, k) && forall j :: 0 <= j < k ==> KUsed(sessions, serial, j)
      ensures k == -1 <==> forall j :: 0 <= j < 4 ==> KUsed(sessions, serial, j)
    {
      k := 0;
      while k < 4
        invariant 0 <= k <= 4 && forall j :: 0 <= j < k ==> KUsed(sessions, serial, j)
      {
        var used := false;
        var i := 0;
        while i < |sessions| && !used
          invariant i <= |sessions|
          invariant used ==> KUsed(sessions, serial, k)
          invariant !used ==> forall j :: 0 <= j < i ==> !HoldsK(sessions[j], serial, k)
        {
          used := HoldsK(sessions[i], serial, k);
          i := i + 1;
        }
        if !used { return; }
        k := k + 1;
      }
      k := -1;
    }

    /** Which way `session_new` goes. */
    function PlanFor(serial: Option<string>, tcpAddr: Option<string>): Plan
      reads this
    {
      if tcpAddr.None? then Tunnel
      else if ':' in tcpAddr.value then Given
      else if serial.Some? && serial.value in agentDevs && agentDevs[serial.value].streamBase > 0
        then ViaAgent(agentDevs[serial.value].streamBase)
      else Wireless
    }

    /**
     `session_new` up to the start of the deployment; `created` is whether the client object could be made.
     A session via the agent connects to port base + k and has the server listen on 27183 + k; a direct
     one connects where the server listens; with no k left the session takes the tunnel.
     */
    method SessionNew(serial: Option<string>, tcpAddr: Option<string>, created: bool)
      requires Valid()
      modifies this`sessions
      ensures Valid()
      ensures !created ==> sessions == old(sessions)
      ensures created ==> |sessions| == |old(sessions)| + 1 && sessions[1..] == old(sessions)
      ensures created ==> Planned(PlanFor(serial, tcpAddr), serial, tcpAddr, old(sessions), sessions[0])
    {
      var cfg := base.(serial := serial);
      var k, lan := -1, 0;
      var plan := PlanFor(serial, tcpAddr);
      match plan {
        case Tunnel =>
        case Given => cfg := cfg.(transport := Deploy.Tcp, tcpAddr := tcpAddr);
        case ViaAgent(streamBase) =>
          k := AllocStreamK(serial);
          if k >= 0 {
            cfg := cfg.(transport := Deploy.Tcp, tcpAddr := Some(Address(tcpAddr.value, streamBase + k)),
                        tcpDevicePort := 27183 + k);
          } else {
            cfg := cfg.(transport := Deploy.Usb, tcpAddr := None);
          }
        case Wireless =>
          lan := AllocLanPort();
          cfg := cfg.(transport := Deploy.Tcp, tcpAddr := Some(Address(tcpAddr.value, lan)));
      }
      if created {
        var s := Session(serial, cfg, k, lan, false);
        Opened(sessions, s);
        sessions := [s] + sessions;
      }
    }

    /** What a new session looks like. */
    ghost predicate Planned(plan: Plan, serial: Option<string>, tcpAddr: Option<string>, before: seq<Session>, s: Session)
    {
      && s.serial == serial && s.cfg.serial == serial && !s.torn
      && s.cfg == base.(serial := serial, transport := s.cfg.transport, tcpAddr := s.cfg.tcpAddr, tcpDevicePort := s.cfg.tcpDevicePort)
      && (plan.ViaAgent? || s.streamK == -1) && (plan.Wireless? || s.lanPort == 0)
      && (plan.ViaAgent? || s.cfg.tcpDevicePort == base.tcpDevicePort)
      && match plan
         case Tunnel => s.cfg.transport == base.transport && s.cfg.tcpAddr == base.tcpAddr
         case Given => s.cfg.transport == Deploy.Tcp && s.cfg.tcpAddr == tcpAddr
         case ViaAgent(streamBase) =>
           if s.streamK >= 0 then
             && tcpAddr.Some? && RoutedTo(s, tcpAddr.value, streamBase)
             && !KUsed(before, serial, s.streamK) && (forall j :: 0 <= j < s.streamK ==> KUsed(before, serial, j))
           else
             && s.cfg.transport == Deploy.Usb && s.cfg.tcpAddr == None
             && (forall k :: 0 <= k < 4 ==> KUsed(before, serial, k))
         case Wireless =>
           && tcpAddr.Some? && s.cfg.transport == Deploy.Tcp
           && s.lanPort >= 27183 && s.cfg.tcpAddr == Some(Address(tcpAddr.value, s.lanPort)) && !LanUsed(before, s.lanPort)
           && (forall q :: 27183 <= q < s.lanPort ==> LanUsed(before, q))
    }

    /**
     The session the chooser opens for a serial. A device of an agent goes through it if the agent relays
     streams, and over the tunnel if not; any other "host:port" serial is tried over the LAN; the rest,
     and hosts that do not fit their buffer, over the tunnel. A host with a colon is used as it is.
     */
    ghost predicate ChosenSession(serial: string, before: seq<Session>, s: Session)
      reads this
    {
      if serial in agentDevs then
        var d := agentDevs[serial];
        && (d.streamBase > 0 && ':' !in d.host ==> Planned(ViaAgent(d.streamBase), Some(serial), Some(d.host), before, s))
        && (d.streamBase > 0 && ':' in d.host ==> Planned(Given, Some(serial), Some(d.host), before, s))
        && (d.streamBase <= 0 ==> Planned(Tunnel, Some(serial), None, before, s))
      else
        && (':' !in serial ==> Planned(Tunnel, Some(serial), None, before, s))
        && forall host, rest :: serial == host + ":" + rest && ':' !in rest ==>
             if host == "" || |host| >= 128 then Planned(Tunnel, Some(serial), None, before, s)
             else Planned(if ':' in host then Given else Wireless, Some(serial), Some(host), before, s)
    }

    /** The session named by the environment: at its address, at a port of its own, or over the tunnel. */
    ghost predicate NamedSession(before: seq<Session>, s: Session)
    {
      if base.transport == Deploy.Tcp && base.tcpAddr.Some?
      then Planned(if ':' in base.tcpAddr.value then Given else Wireless, base.serial, base.tcpAddr, before, s)
      else Planned(Tunnel, base.serial, None, before, s)
    }

    /** `session_teardown`, also when the session was torn down before. */
    method Teardown(i: nat)
      requires Valid() && i < |sessions|
      modifies this`sessions
      ensures Valid() && sessions == old(sessions)[i := old(sessions)[i].(torn := true)]
      ensures old(Routes()) ==> Routes()
    {
      if sessions[i].torn { return; }
      Closed(sessions, i);
      ClosedRouted(sessions, scanned, i);
      sessions := sessions[i := sessions[i].(torn := true)];
    }

    /** A scan result replaces what is known of a device; without a chooser there is no scan. */
    method Learn(d: Discovery.AgentDev)
      requires Routes()
      modifies this`agentDevs, this`scanned
      ensures Routes()
      ensures if ByEnvironment(base) then unchanged(this)
              else agentDevs == old(agentDevs)[d.serial := d] && scanned == old(scanned) + {d}
    {
      if ByEnvironment(base) { return; }
      MoreScanned(sessions, scanned, d);
      agentDevs := agentDevs[d.serial := d];
      scanned := scanned + {d};
    }

    /** `on_activate`: a session named by the environment. */
    method Activate(created: bool)
      requires Valid() && Routes()
      modifies this`sessions
      ensures Valid() && Routes()
      ensures !created || !ByEnvironment(base) ==> sessions == old(sessions)
      ensures created && ByEnvironment(base) ==>
        |sessions| == |old(sessions)| + 1 && sessions[1..] == old(sessions) && NamedSession(old(sessions), sessions[0])
    {
      if !ByEnvironment(base) { return; }
      ghost var was := sessions;
      SessionNew(base.serial, if base.transport == Deploy.Tcp then base.tcpAddr else None, created);
      if created {
        OpenedRouted(was, scanned, sessions);
      }
    }

    /** `on_row_activated`: a session for a listed device, through its agent, over the LAN or over the tunnel. */
    method Choose(serial: string, created: bool)
      requires Valid() && Routes()
      modifies this`sessions
      ensures Valid() && Routes()
      ensures !created || ByEnvironment(base) ==> sessions == old(sessions)
      ensures created && !ByEnvironment(base) ==>
        |sessions| == |old(sessions)| + 1 && sessions[1..] == old(sessions) && ChosenSession(serial, old(sessions), sessions[0])
    {
      hide Distinct, AllOk, Planned;
      if ByEnvironment(base) { return; }
      ghost var was := sessions;
      ChoosingPlans(serial);
      var addr := ChosenAddress(serial);
      SessionNew(Some(serial), addr, created);
      if created {
        var plan := PlanFor(Some(serial), addr);
        if sessions[0].streamK >= 0 {
          ViaAgentRouted(plan, Some(serial), addr, was, sessions[0]);
          assert RoutedBy(sessions[0], agentDevs[serial]);
        }
        OpenedRouted(was, scanned, sessions);
      }
    }

    /** The address the chooser passes on. */
    function ChosenAddress(serial: string): Option<string>
      reads this
    {
      if serial in agentDevs then
        (if agentDevs[serial].streamBase > 0 then Some(agentDevs[serial].host) else None)
      else
        var c := Text.LastColon(serial, |serial|);
        if 0 < c < 128 then Some(serial[..c]) else None
    }

    /** Which plan a serial leads to. */
    lemma ChoosingPlans(serial: string)
      ensures serial in agentDevs ==>
        var d := agentDevs[serial];
        && (d.streamBase > 0 ==> ChosenAddress(serial) == Some(d.host))
        && (d.streamBase > 0 && ':' !in d.host ==> PlanFor(Some(serial), Some(d.host)) == ViaAgent(d.streamBase))
        && (d.streamBase > 0 && ':' in d.host ==> PlanFor(Some(serial), Some(d.host)) == Given)
        && (d.streamBase <= 0 ==> ChosenAddress(serial) == None)
      ensures serial !in agentDevs && ':' !in serial ==> ChosenAddress(serial) == None
      ensures serial !in agentDevs ==> forall host, rest :: serial == host + ":" + rest && ':' !in rest ==>
        if host == "" || |host| >= 128 then ChosenAddress(serial) == None
        else ChosenAddress(serial) == Some(host) && PlanFor(Some(serial), Some(host)) == if ':' in host then Given else Wireless
      ensures PlanFor(Some(serial), None) == Tunnel
    {
      forall host, rest | serial !in agentDevs && serial == host + ":" + rest && ':' !in rest
        ensures Text.LastColon(serial, |serial|) == |host| && serial[..|host|] == host
      {
        Text.LastColonOf(serial, host, rest);
      }
    }

    lemma ViaAgentRouted(plan: Plan, serial: Option<string>, addr: Option<string>, before: seq<Session>, s: Session)
      requires Planned(plan, serial, addr, before, s) && s.streamK >= 0
      ensures plan.ViaAgent? && addr.Some? && s.serial == serial && RoutedTo(s, addr.value, plan.base)
    {
    }

    /** Any sequence of scans, openings and closings. */
    method Live(ops: seq<Op>)
      requires Valid() && Routes()
      modifies this
      ensures Valid() && Routes()
      ensures |sessions| == |old(sessions)| + Openings(base, ops, |ops|)
    {
      hide AllRouted;
      for n := 0 to |ops|
        invariant Valid() && Routes()
        invariant |sessions| == |old(sessions)| + Openings(base, ops, n)
      {
        match ops[n] {
          case Start(created) => Activate(created);
          case Open(serial, created) => Choose(serial, created);
          case Close(i) =>
            if i < |sessions| {
              Teardown(i);
            }
          case Scan(d) => Learn(d);
        }
      }
    }
  }

  datatype Op = Start(created: bool) | Open(serial: string, created: bool) | Close(i: nat) | Scan(dev: Discovery.AgentDev)

  /** How many of the first n operations open a session. */
  function Openings(base: Deploy.Config, ops: seq<Op>, n: nat): nat
    requires n <= |ops|
  {
    if n == 0 then 0
    else Openings(base, ops, n - 1) + match ops[n - 1]
      case Start(created) => if created && ByEnvironment(base) then 1 else 0
      case Open(_, created) => if created && !ByEnvironment(base) then 1 else 0
      case _ => 0
  }

  /** The environment names a session: no chooser is shown. */
  predicate ByEnvironment(base: Deploy.Config)
  {
    base.transport == Deploy.Tcp || Deploy.Deploys(base)
  }

  /** s goes to the agent and the stream range that d names, for the device d names. */
  ghost predicate RoutedBy(s: Session, d: Discovery.AgentDev)
  {
    d.streamBase > 0 && s.serial == Some(d.serial) && RoutedTo(s, d.host, d.streamBase)
  }

  ghost predicate Routed(s: Session, scanned: set<Discovery.AgentDev>)
  {
    s.streamK >= 0 ==> exists d :: d in scanned && RoutedBy(s, d)
  }

  ghost predicate AllRouted(sessions: seq<Session>, scanned: set<Discovery.AgentDev>)
  {
    forall i :: 0 <= i < |sessions| ==> Routed(sessions[i], scanned)
  }

  lemma OpenedRouted(was: seq<Session>, scanned: set<Discovery.AgentDev>, sessions: seq<Session>)
    requires AllRouted(was, scanned) && sessions != [] && sessions[1..] == was && Routed(sessions[0], scanned)
    ensures AllRouted(sessions, scanned)
  {
    assert forall i :: 1 <= i < |sessions| ==> sessions[i] == was[i - 1];
  }

  lemma ClosedRouted(sessions: seq<Session>, scanned: set<Discovery.AgentDev>, i: nat)
    requires i < |sessions|
    ensures AllRouted(sessions, scanned) ==> AllRouted(sessions[i := sessions[i].(torn := true)], scanned)
  {
    var s, t := sessions[i], sessions[i].(torn := true);
    assert forall d :: RoutedBy(s, d) ==> RoutedBy(t, d);
    assert Routed(s, scanned) ==> Routed(t, scanned);
  }

  lemma MoreScanned(sessions: seq<Session>, scanned: set<Discovery.AgentDev>, d: Discovery.AgentDev)
    requires AllRouted(sessions, scanned)
    ensures AllRouted(sessions, scanned + {d})
  {
    forall i | 0 <= i < |sessions|
      ensures Routed(sessions[i], scanned + {d})
    {
      assert Routed(sessions[i], scanned);
    }
  }

  /** "%s:%d". */
  function Address(host: string, port: int): string
  {
    host + ":" + Text.Print(port)
  }

  /** A session that goes through the agent at host, on the stream range that starts at streamBase. */
  ghost predicate RoutedTo(s: Session, host: string, streamBase: int)
  {
    && 0 <= s.streamK < 4 && s.cfg.transport == Deploy.Tcp
    && s.cfg.tcpAddr == Some(Address(host, streamBase + s.streamK)) && s.cfg.tcpDevicePort == 27183 + s.streamK
  }
}
