/**
 The relay engine of rc-agent for one client connection: opening an upstream with replay of what
 the client already sent, then pumping both ways. The network is an adversary: a script decides
 the outcome of every system call, how long it takes and when the process is told to stop; once
 the script is used up the network is dead. So a property at the end of every script is a property
 at every moment of every run.
 */
module Relay {
  import opened Bytes

  const PRE_CAP := 4096

  /** The outcome of one system call. */
  datatype Answer = Answer(code: nat, data: seq<byte>, elapsed: nat, signal: bool)

  /** One upstream connection: what was written to it and what was read from it. */
  datatype Link = Link(got: seq<byte>, gave: seq<byte>)

  datatype Polled = PollInterrupted | PollError | PollTimeout | Ready(up: bool, client: bool)

  const CONFIRMED := 1
  const DROPPED := -1
  const ABANDONED := -2
  const REPLAY_FAILED := 2

  /** Every upstream received a prefix of `sent`. */
  ghost predicate AllPrefixes(past: seq<Link>, sent: seq<byte>)
  {
    forall i :: 0 <= i < |past| ==> past[i].got <= sent
  }

  lemma NothingYet(sent: seq<byte>, deadline: int)
    ensures AllPrefixes([], sent) && InTime([], deadline)
  {
  }

  /** How one attempt ends. */
  datatype Outcome = Accepted | GaveUp | Waited | ReplayFailed

  /** Where a lagging run stands after each of its first attempts. */
  ghost predicate Lagging(s: seq<Answer>, t0: int, starts: seq<Start>, script: seq<Answer>, now: int, stop: bool, preLen: nat)
  {
    && (|starts| == 0 ==> script == s && now == t0 && !stop && preLen == 0)
    && (|starts| == 1 ==> |s| >= 8 && script == s[6..] && now == t0 + 150 && !stop && preLen > 0)
    && |s| >= 8 && (|starts| == 2 ==> now >= t0 + Lag(s))
    && (|starts| >= 3 ==> starts[2].at >= t0 + Lag(s))
    && (|starts| >= 1 ==> starts[0].at == t0)
  }

  lemma LagSnoc(s: seq<Answer>, t0: int, starts: seq<Start>, script: seq<Answer>, now: int, stop: bool, preLen: nat, behind: bool)
    requires Lagging(s, t0, starts, script, now, stop, preLen)
    ensures |starts| >= 2 ==> (starts + [Start(now, behind)])[2].at >= t0 + Lag(s)
    ensures (starts + [Start(now, behind)])[0].at == t0
  {
  }

  lemma LagsParts(s: seq<Answer>)
    requires Lags(s)
    ensures |s| >= 8 && Lapses(s)
    ensures s[6..][0].code % 2 == 1 && s[6..][1].code > 0 && s[6..][0].elapsed + s[6..][1].elapsed == Lag(s) && Lag(s) >= 10200
  {
  }

  lemma StallsParts(s: seq<Answer>)
    ensures Stalls(s) ==> |s| >= 5 && s[0].code == 6 && Calm(s, 1) && Speaks(s[1..]) && s[1..][2..] == s[3..]
    ensures Stalls(s) ==> var t := s[3..]; t[0].code == 3 && Calm(t, 1) && Calm(t[1..], 1) && t[1..][0].data == [] && t[1..][1..] == s[5..]
  {
  }

  lemma SpillsParts(s: seq<Answer>)
    ensures Spills(s) ==> |s| >= 3 && s[0].code > 2 && s[0].code % 2 == 1
    ensures Spills(s) ==> |s[1..]| >= 2 && s[1..][0].data != [] && s[1..][1].code > 0
  {
  }

  lemma StallsLong(s: seq<Answer>)
    ensures |s| >= 1 && Stalls(s[1..]) ==> |s| >= 6 && s[1..][5..] == s[6..]
    ensures |s| >= 2 ==> s[1..][1..] == s[2..]
  {
  }

  lemma InTimeSnoc(starts: seq<Start>, s: Start, deadline: int)
    requires InTime(starts, deadline) && (s.at < deadline + 200 || s.behindReplay)
    ensures InTime(starts + [s], deadline)
  {
  }

  lemma Grown(past: seq<Link>, sent: seq<byte>, more: seq<byte>)
    requires AllPrefixes(past, sent) && sent <= more
    ensures AllPrefixes(past, more)
  {
  }

  /** How many of len bytes a failing write takes. */
  function Took(code: nat, len: nat): (k: nat)
    requires code > 0 && len > 0
    ensures k < len
  {
    if code < len then code - 1 else len - 1
  }

  function Cut(data: seq<byte>, cap: nat): (r: seq<byte>)
    ensures |r| <= cap && r <= data
  {
    if |data| <= cap then data else data[..cap]
  }

  /** Next, the upstream is readable, delivers data, and writing that to the client fails. */
  predicate Spills(s: seq<Answer>)
  {
    |s| >= 3 && s[0].code > 2 && s[0].code % 2 == 1 && s[1].data != [] && s[2].code > 0
  }

  /** What the client then has received. */
  function Spilled(s: seq<Answer>): seq<byte>
    requires Spills(s)
  {
    var b := Cut(s[1].data, 4096);
    b[..Took(s[2].code, |b|)]
  }

  /** The first n answers come at once and bring no signal. */
  predicate Calm(s: seq<Answer>, n: nat)
  {
    n <= |s| && forall i :: 0 <= i < n ==> s[i].elapsed == 0 && !s[i].signal
  }

  /** Next, something is read from the client and forwarded. */
  predicate Speaks(s: seq<Answer>)
  {
    Calm(s, 2) && 0 < |s[0].data| <= 1024 && s[1].code == 0
  }

  /** Next, the client sends something, which is forwarded, and then the upstream ends. */
  predicate Stalls(s: seq<Answer>)
  {
    && Calm(s, 5) && s[0].code == 6 && 0 < |s[1].data| <= 1024 && s[2].code == 0 && s[3].code == 3 && s[4].data == []
  }

  /** A connection, and then that. */
  predicate Lapses(s: seq<Answer>)
  {
    Calm(s, 1) && s[0].code % 2 == 1 && Stalls(s[1..])
  }

  /** How long the second connection and its replay write take. */
  function Lag(s: seq<Answer>): nat
    requires |s| >= 8
  {
    s[6].elapsed + s[7].elapsed
  }

  /** After that comes a connection whose replay write takes more than ten seconds and fails. */
  predicate Lags(s: seq<Answer>)
  {
    && |s| >= 8 && Lapses(s)
    && s[6].code % 2 == 1 && s[7].code > 0 && Lag(s) >= 10200
  }

  /** When an attempt to open an upstream began, and whether the one before ended in a failed replay write. */
  datatype Start = Start(at: int, behindReplay: bool)

  /** Attempts begin within 200 ms of the deadline, or behind a failed replay write. */
  ghost predicate InTime(starts: seq<Start>, deadline: int)
  {
    forall i :: 0 <= i < |starts| ==> starts[i].at < deadline + 200 || starts[i].behindReplay
  }

  /** How often poll reported each side readable, the client alone among them, and how often each was read. */
  datatype Reads = Reads(upReady: nat, clientReady: nat, clientAlone: nat, up: nat, client: nat)

  /** Reports since then that were not followed by a read: of the upstream, of the client. */
  function Unread(before: Reads, now: Reads): (int, int)
  {
    ((now.upReady - before.upReady) - (now.up - before.up), (now.clientReady - before.clientReady) - (now.client - before.client))
  }

  function Reported(r: Reads, up: bool, client: bool): Reads
  {
    r.(upReady := r.upReady + (if up then 1 else 0), clientReady := r.clientReady + (if client then 1 else 0),
       clientAlone := r.clientAlone + (if client && !up then 1 else 0))
  }

  class Connection {
    var script: seq<Answer>
    var now: int
    var stop: bool              // g_stop
    // The client side: everything read from it, everything delivered to it.
    var clientRead: seq<byte>
    var clientGot: seq<byte>
    var clientOpen: bool
    // The upstreams opened and closed again, oldest first, and the one now open, if any.
    var past: seq<Link>
    var upOpen: bool
    var upGot: seq<byte>
    var upGave: seq<byte>
    // What has been observed to go wrong: a failed poll or write, an end of file; and a silent upstream.
    var pollFailed: bool
    var clientEnded: bool
    var clientBroken: bool
    var upEnded: bool
    var upBroken: bool
    // How many bytes the failing write to the client took, and when the attempts began.
    var spilled: nat
    var starts: seq<Start>
    var traffic: Reads
    // What is kept for replay.
    const pre: array<byte>
    var preLen: nat

    constructor (script: seq<Answer>, now: int)
      ensures this.script == script && this.now == now && !stop
      ensures Untouched() && fresh(pre)
    {
      this.script, this.now, stop := script, now, false;
      clientRead, clientGot, clientOpen, clientBroken := [], [], true, false;
      past, upOpen, upGot, upGave := [], false, [], [];
      pollFailed, clientEnded, upEnded, upBroken := false, false, false, false;
      spilled, starts, traffic := 0, [], Reads(0, 0, 0, 0, 0);
      pre, preLen := new byte[PRE_CAP], 0;
    }

    /** A connection just accepted. */
    ghost predicate Untouched()
      reads this
    {
      && pre.Length == PRE_CAP && preLen == 0
      && past == [] && !upOpen && clientRead == [] && clientGot == [] && clientOpen
      && !pollFailed && !clientEnded && !clientBroken && !upEnded && !upBroken && starts == []
    }

    /**
     Conservation: every upstream received a prefix of what the client sent; only the newest
     upstream was ever heard; the client received a prefix of what that one said.
     */
    ghost predicate Conserved()
      reads this
    {
      && pre.Length == PRE_CAP && preLen <= PRE_CAP
      && AllPrefixes(past, clientRead)
      && (forall i :: 0 <= i < |past| ==> past[i].gave == [] || (!upOpen && i == |past| - 1))
      && (upOpen ==> upGot <= clientRead && clientGot <= upGave)
      && (!upOpen ==> clientGot <= if past == [] then [] else past[|past| - 1].gave)
    }

    /** Past upstreams said nothing, and all the client sent is kept for replay. */
    ghost predicate Heard()
      reads this, pre
    {
      && pre.Length == PRE_CAP && preLen <= PRE_CAP
      && clientGot == [] && !clientBroken && clientRead == pre[..preLen]
      && AllPrefixes(past, clientRead)
      && (forall i :: 0 <= i < |past| ==> past[i].gave == [])
    }

    /** Between two attempts. */
    ghost predicate Searching()
      reads this, pre
    {
      Heard() && !upOpen
    }

    /** An upstream is open and has received exactly what the client sent, once and in order. */
    ghost predicate Joined()
      reads this
    {
      Conserved() && upOpen && upGot == clientRead && clientGot == upGave
    }

    // ---- System calls

    method Next() returns (a: Answer, dead: bool)
      modifies this`script, this`now, this`stop
      ensures dead <==> old(script) == []
      ensures dead ==> stop && script == []
      ensures !dead ==> a == old(script)[0] && script == old(script)[1..] && |script| == |old(script)| - 1
      ensures !dead ==> now == old(now) + a.elapsed && stop == (old(stop) || a.signal)
      ensures now >= old(now)
    {
      if script == [] {
        stop := true;
        return Answer(0, [], 0, true), true;
      }
      a, dead := script[0], false;
      script := script[1..];
      now := now + a.elapsed;
      stop := stop || a.signal;
    }

    method Connect() returns (ok: bool)
      requires !upOpen
      modifies this`script, this`now, this`stop, this`upOpen, this`upGot, this`upGave, this`upEnded, this`upBroken
      ensures upOpen == ok
      ensures ok ==> upGot == [] && upGave == [] && !upEnded && !upBroken
      ensures old(script) == [] ==> !ok && stop && script == []
      ensures now >= old(now)
      ensures old(script) != [] ==> |script| < |old(script)|
      ensures old(script) != [] ==> script == old(script)[1..] && ok == (old(script)[0].code % 2 == 1)
      ensures old(script) != [] ==> now == old(now) + old(script)[0].elapsed && stop == (old(stop) || old(script)[0].signal)
    {
      var a, dead := Next();
      ok := !dead && a.code % 2 == 1;
      if ok {
        upOpen, upGot, upGave := true, [], [];
        upEnded, upBroken := false, false;
      }
    }

    /** poll(2) for at most `timeout` ms. */
    method Poll(timeout: nat) returns (p: Polled)
      modifies this`script, this`now, this`stop, this`pollFailed, this`traffic
      ensures traffic == if p.Ready? then Reported(old(traffic), p.up, p.client) else old(traffic)
      ensures pollFailed == (old(pollFailed) || p == PollError)
      ensures p == PollTimeout ==> now >= old(now) + timeout
      ensures now >= old(now)
      ensures old(script) == [] ==> p == PollError && script == []
      ensures old(script) != [] ==> |script| < |old(script)|
      ensures Spills(old(script)) ==> script == old(script)[1..] && p.Ready? && p.up
      ensures old(script) != [] && old(script)[0].code > 2 ==>
        && p == Ready(old(script)[0].code % 2 == 1, old(script)[0].code / 2 % 2 == 1) && script == old(script)[1..]
        && now == old(now) + old(script)[0].elapsed && stop == (old(stop) || old(script)[0].signal)
    {
      var a, dead := Next();
      if dead || a.code == 0 { pollFailed := true; return PollError; }
      if a.code == 1 { return PollInterrupted; }
      if a.code == 2 {
        now := now + if a.elapsed < timeout then timeout - a.elapsed else 0;
        return PollTimeout;
      }
      p := Ready(a.code % 2 == 1, a.code / 2 % 2 == 1);
      traffic := Reported(traffic, p.up, p.client);
    }

    /** read(2) on the upstream; [] at end of file or on error. */
    method ReadUp(cap: nat) returns (b: seq<byte>)
      modifies this`script, this`now, this`stop, this`upGave, this`upEnded, this`traffic
      ensures traffic == old(traffic).(up := old(traffic).up + 1)
      ensures upEnded == (old(upEnded) || b == []) && now >= old(now)
      ensures |b| <= cap && |script| <= |old(script)|
      ensures upGave == old(upGave) + b
      ensures old(script) != [] ==> script == old(script)[1..] && b == Cut(old(script)[0].data, cap)
      ensures old(script) != [] ==> now == old(now) + old(script)[0].elapsed && stop == (old(stop) || old(script)[0].signal)
    {
      var a, dead := Next();
      b := if dead then [] else Cut(a.data, cap);
      upGave := upGave + b;
      traffic := traffic.(up := traffic.up + 1);
      upEnded := upEnded || b == [];
    }

    method ReadClient(cap: nat) returns (b: seq<byte>)
      modifies this`script, this`now, this`stop, this`clientRead, this`clientEnded, this`traffic
      ensures traffic == old(traffic).(client := old(traffic).client + 1)
      ensures clientEnded == (old(clientEnded) || b == []) && now >= old(now)
      ensures |b| <= cap && |script| <= |old(script)|
      ensures clientRead == old(clientRead) + b
      ensures old(script) != [] ==> script == old(script)[1..] && b == Cut(old(script)[0].data, cap)
      ensures old(script) != [] ==> now == old(now) + old(script)[0].elapsed && stop == (old(stop) || old(script)[0].signal)
    {
      var a, dead := Next();
      b := if dead then [] else Cut(a.data, cap);
      clientRead := clientRead + b;
      traffic := traffic.(client := traffic.client + 1);
      clientEnded := clientEnded || b == [];
    }

    /** write_full: all of the data, or a proper prefix and a failure. */
    method WriteUp(data: seq<byte>) returns (ok: bool)
      requires data != []
      modifies this`script, this`now, this`stop, this`upGot, this`upBroken
      ensures |script| <= |old(script)| && now >= old(now)
      ensures upBroken == (old(upBroken) || !ok)
      ensures old(script) != [] ==> script == old(script)[1..] && ok == (old(script)[0].code == 0)
      ensures old(script) != [] ==> now == old(now) + old(script)[0].elapsed && stop == (old(stop) || old(script)[0].signal)
      ensures ok ==> upGot == old(upGot) + data
      ensures old(upGot) <= upGot && upGot <= old(upGot) + data
    {
      var a, dead := Next();
      ok := a.code == 0;
      var k := if ok then |data| else Took(a.code, |data|);
      assert ok ==> data[..k] == data;
      upGot := upGot + data[..k];
      upBroken := upBroken || !ok;
    }

    method WriteClient(data: seq<byte>) returns (ok: bool)
      requires data != []
      modifies this`script, this`now, this`stop, this`clientGot, this`clientBroken, this`spilled
      ensures |script| <= |old(script)| && now >= old(now)
      ensures clientBroken == (old(clientBroken) || !ok)
      ensures !ok ==> spilled == |clientGot| - |old(clientGot)|
      ensures old(script) != [] && old(script)[0].code > 0 ==>
        !ok && clientGot == old(clientGot) + data[..Took(old(script)[0].code, |data|)]
      ensures ok ==> clientGot == old(clientGot) + data
      ensures old(clientGot) <= clientGot && clientGot <= old(clientGot) + data
    {
      var a, dead := Next();
      ok := a.code == 0;
      var k := if ok then |data| else Took(a.code, |data|);
      assert ok ==> data[..k] == data;
      clientGot := clientGot + data[..k];
      clientBroken := clientBroken || !ok;
      spilled := if ok then spilled else k;
    }

    method CloseUp()
      requires upOpen
      modifies this`past, this`upOpen
      ensures !upOpen && past == old(past) + [Link(upGot, upGave)]
    {
      past := past + [Link(upGot, upGave)];
      upOpen := false;
    }

    // ---- The engine

    /** A reason to give the whole connection up. */
    ghost predicate Hopeless()
      reads this
    {
      pollFailed || clientEnded || clientBroken || upBroken || |clientRead| > PRE_CAP
    }

    /**
     The verdict loop of `stream_open_upstream`: the newest upstream is confirmed by data or by
     300 ms of silence, dropped by its end of file, or everything is abandoned.
     */
    method Settle() returns (verdict: int)
      requires Joined() && clientGot == [] && !clientBroken && !upBroken && clientRead == pre[..preLen]
      modifies this`script, this`now, this`stop, this`upGot, this`upGave, this`clientRead, this`clientGot,
               this`pollFailed, this`clientEnded, this`clientBroken, this`spilled, this`upEnded, this`upBroken, this`traffic,
               this`preLen, pre
      ensures |script| <= |old(script)|
      ensures Conserved()
      ensures verdict in {CONFIRMED, DROPPED, ABANDONED}
      ensures now >= old(now)
      ensures verdict == CONFIRMED ==> Joined() && !clientBroken && !upBroken
      ensures verdict == CONFIRMED ==> upGave != [] || now >= old(now) + 300
      ensures verdict != ABANDONED ==> clientRead == pre[..preLen]
      ensures verdict == DROPPED ==> upEnded && upGave == [] && clientGot == [] && !clientBroken
      ensures verdict == ABANDONED ==> Hopeless() && |clientGot| == (if clientBroken then spilled else 0)
      ensures Spills(old(script)) ==> verdict == ABANDONED && clientBroken && clientGot == Spilled(old(script))
      // Whatever poll reports is read: the upstream first, the client when it is alone.
      ensures traffic.up - old(traffic).up == traffic.upReady - old(traffic).upReady
      ensures traffic.client - old(traffic).client == traffic.clientAlone - old(traffic).clientAlone
      ensures old(preLen) == 0 && Stalls(old(script)) ==>
        verdict == DROPPED && preLen > 0 && script == old(script)[5..] && now == old(now) && stop == old(stop)
    {
      hide AllPrefixes, Cut, Took, Stalls, Spills, Speaks;
      StallsParts(script);
      SpillsParts(script);
      var t0 := now;
      while true
        invariant |script| <= |old(script)| && now >= t0
        invariant Spills(old(script)) ==> script == old(script) && now == t0
        invariant traffic.up - old(traffic).up == traffic.upReady - old(traffic).upReady
        invariant traffic.client - old(traffic).client == traffic.clientAlone - old(traffic).clientAlone
        invariant old(preLen) == 0 && Stalls(old(script)) ==> now == t0 && stop == old(stop)
        invariant old(preLen) == 0 && Stalls(old(script)) ==>
          (script == old(script) && preLen == 0) || (|old(script)| >= 5 && script == old(script)[3..] && preLen > 0)
        invariant Joined() && clientGot == [] && !clientBroken && !upBroken && clientRead == pre[..preLen]
        decreases |script|
      {
        if 300 - (now - t0) <= 0 {
          return CONFIRMED;
        }
        var p := Poll(300 - (now - t0));
        if p == PollInterrupted { continue; }
        if p == PollError { return ABANDONED; }
        if p == PollTimeout { return CONFIRMED; }
        if p.up {
          verdict := HearUpstream();
          return;
        } else if p.client {
          var ok := HearClient();
          if !ok { return ABANDONED; }
        }
      }
    }

    /** The upstream became readable before it was confirmed. */
    method HearUpstream() returns (verdict: int)
      requires Joined() && clientGot == [] && !clientBroken
      modifies this`script, this`now, this`stop, this`upGave, this`upEnded, this`clientGot, this`clientBroken, this`spilled, this`traffic
      ensures |script| <= |old(script)| && now >= old(now)
      ensures Conserved()
      ensures verdict == CONFIRMED ==> Joined() && !clientBroken && upGave != []
      ensures verdict == DROPPED ==> upEnded && upGave == [] && clientGot == [] && !clientBroken
      ensures traffic == old(traffic).(up := old(traffic).up + 1)
      ensures verdict == ABANDONED ==> clientBroken && |clientGot| == spilled
      ensures |old(script)| >= 1 && Calm(old(script), 1) && old(script)[0].data == [] ==>
        verdict == DROPPED && script == old(script)[1..] && now == old(now) && stop == old(stop)
      ensures |old(script)| >= 2 && old(script)[0].data != [] && old(script)[1].code > 0 ==>
        && verdict == ABANDONED
        && var b := Cut(old(script)[0].data, 4096); clientGot == b[..Took(old(script)[1].code, |b|)]
      ensures verdict in {CONFIRMED, DROPPED, ABANDONED}
    {
      var b := ReadUp(4096);
      if b == [] { return DROPPED; }
      var ok := WriteClient(b);
      return if ok then CONFIRMED else ABANDONED;
    }

    /** The client sent more before the upstream was confirmed: forward it and keep it for replay. */
    method HearClient() returns (ok: bool)
      requires Joined() && clientRead == pre[..preLen]
      modifies this`script, this`now, this`stop, this`upGot, this`upBroken, this`clientRead, this`clientEnded, this`traffic,
               this`preLen, pre
      ensures |script| <= |old(script)| && now >= old(now)
      ensures Conserved()
      ensures !ok ==> Hopeless()
      ensures traffic == old(traffic).(client := old(traffic).client + 1)
      ensures ok ==> upBroken == old(upBroken)
      ensures ok ==> Joined() && clientRead == pre[..preLen]
      ensures old(preLen) == 0 && Speaks(old(script)) ==>
        ok && preLen > 0 && script == old(script)[2..] && now == old(now) && stop == old(stop)
    {
      var b := ReadClient(1024);
      Grown(past, old(clientRead), clientRead);
      if b == [] || preLen + |b| > PRE_CAP { return false; }
      ok := WriteUp(b);
      if ok {
        Remember(b);
      }
    }

    /** Appends what was just read to the replay buffer. */
    method Remember(b: seq<byte>)
      requires pre.Length == PRE_CAP && preLen + |b| <= PRE_CAP
      modifies this`preLen, pre
      ensures preLen == old(preLen) + |b| && pre[..preLen] == old(pre[..preLen]) + b
    {
      for i := 0 to |b|
        modifies pre
        invariant pre[..preLen + i] == old(pre[..preLen]) + b[..i]
      {
        pre[preLen + i] := b[i];
      }
      preLen := preLen + |b|;
    }

    /**
     `stream_open_upstream`. An accepted upstream has received exactly the bytes read from the
     client so far; rejected ones are closed; of what rejected upstreams said exactly the bytes that a
     failing write to the client still took have reached it, and there are scripts where it took some.
     */
    method OpenUpstream() returns (ok: bool)
      requires Untouched()
      modifies this`script, this`now, this`stop, this`past, this`upOpen, this`upGot, this`upGave,
               this`clientRead, this`clientGot, this`pollFailed, this`clientEnded, this`clientBroken, this`spilled,
               this`upEnded, this`upBroken, this`traffic, this`preLen, this`starts, pre
      ensures Conserved() && ok == upOpen
      ensures ok ==> Joined() && |clientRead| <= 4096 && !clientBroken && !upBroken
      ensures ok ==> upGave != [] || now >= old(now) + 300
      ensures !ok ==> stop || now >= old(now) + 10000 || Hopeless()
      ensures !ok ==> |clientGot| == if clientBroken then spilled else 0
      ensures |old(script)| > 0 && old(script)[0].code % 2 == 1 && Spills(old(script)[1..]) ==>
        !ok && clientBroken && clientGot == Spilled(old(script)[1..])
      ensures InTime(starts, old(now) + 10000)
      ensures Lags(old(script)) && !old(stop) ==> |starts| >= 3 && starts[0].at == old(now) && starts[2].at >= old(now) + Lag(old(script))
    {
      NothingYet(clientRead, now + 10000);
      assert Searching();
      hide AllPrefixes, Spills, Spilled, InTime, Lags, Lag, Lapses, Connection.Searching, Connection.Joined, Connection.Conserved, Connection.Hopeless;
      var deadline := now + 10000;
      var behind := false;
      ghost var leaky := |script| > 0 && script[0].code % 2 == 1 && Spills(script[1..]);
      ghost var lags := Lags(script) && !stop;
      if lags {
        LagsParts(script);
      }
      while true
        invariant Searching() && now >= old(now)
        invariant leaky ==> script == old(script) && preLen == 0
        invariant InTime(starts, deadline) && (now < deadline + 200 || behind)
        invariant lags ==> |old(script)| >= 8 && Lagging(old(script), old(now), starts, script, now, stop, preLen)
        decreases |script|
      {
        InTimeSnoc(starts, Start(now, behind), deadline);
        if lags {
          LagSnoc(old(script), old(now), starts, script, now, stop, preLen, behind);
        }
        var outcome := TryOnce(deadline, behind);
        if outcome == Accepted { return true; }
        if outcome == GaveUp { return false; }
        behind := outcome == ReplayFailed;
      }
    }

    /** One attempt of `stream_open_upstream`, with the wait before the next one. */
    method TryOnce(deadline: int, behind: bool) returns (outcome: Outcome)
      requires Searching()
      modifies this`script, this`now, this`stop, this`past, this`upOpen, this`upGot, this`upGave,
               this`clientRead, this`clientGot, this`pollFailed, this`clientEnded, this`clientBroken, this`spilled,
               this`upEnded, this`upBroken, this`traffic, this`preLen, this`starts, pre
      ensures starts == old(starts) + [Start(old(now), behind)] && upOpen == (outcome == Accepted)
      ensures now >= old(now) && (outcome in {Waited, ReplayFailed} ==> |script| < |old(script)| && Searching())
      ensures outcome == Waited ==> now < deadline + 200 && now >= old(now) + 150
      ensures outcome == Accepted ==> Conserved() && Joined() && |clientRead| <= PRE_CAP && !clientBroken && !upBroken
      ensures outcome == Accepted ==> upGave != [] || now >= old(now) + 300
      ensures outcome == GaveUp ==> Conserved() && !upOpen && (stop || now >= deadline || Hopeless())
      ensures outcome == GaveUp ==> |clientGot| == if clientBroken then spilled else 0
      ensures old(preLen) == 0 && |old(script)| > 0 && old(script)[0].code % 2 == 1 && Spills(old(script)[1..]) ==>
        outcome == GaveUp && clientBroken && clientGot == Spilled(old(script)[1..])
      ensures !old(stop) && old(now) < deadline && old(preLen) == 0 && Lapses(old(script)) ==>
        outcome == Waited && preLen > 0 && script == old(script)[6..] && now == old(now) + 150 && !stop
      ensures old(preLen) > 0 && |old(script)| >= 2 && old(script)[0].code % 2 == 1 && old(script)[1].code > 0 ==>
        outcome == ReplayFailed && script == old(script)[2..] && now == old(now) + old(script)[0].elapsed + old(script)[1].elapsed
    {
      hide AllPrefixes, Spills, Spilled, Stalls;
      StallsLong(script);
      starts := starts + [Start(now, behind)];
      var ok := Connect();
      if !ok {
        if stop || now >= deadline { return GaveUp; }
        now := now + 200;
        return Waited;
      }
      var verdict := Attempt();
      if verdict == REPLAY_FAILED { return ReplayFailed; }
      if verdict == CONFIRMED { return Accepted; }
      if verdict == ABANDONED || stop || now >= deadline { return GaveUp; }
      now := now + 150;
      return Waited;
    }

    /** One freshly connected upstream: replay, then wait for the verdict; closed unless confirmed. */
    method Attempt() returns (verdict: int)
      requires Heard() && upOpen && upGot == [] && upGave == [] && !upBroken
      modifies this`script, this`now, this`stop, this`past, this`upOpen, this`upGot, this`upGave,
               this`clientRead, this`clientGot, this`pollFailed, this`clientEnded, this`clientBroken, this`spilled,
               this`upEnded, this`upBroken, this`traffic, this`preLen, pre
      ensures |script| <= |old(script)| && now >= old(now)
      ensures verdict in {CONFIRMED, DROPPED, ABANDONED, REPLAY_FAILED}
      ensures verdict == CONFIRMED ==> Joined() && |clientRead| <= PRE_CAP && !clientBroken && !upBroken
      ensures verdict == CONFIRMED ==> upGave != [] || now >= old(now) + 300
      ensures verdict == DROPPED ==> Searching() && upEnded
      ensures verdict == REPLAY_FAILED ==> Searching() && upBroken
      ensures verdict == ABANDONED ==> Conserved() && !upOpen && Hopeless() && |clientGot| == (if clientBroken then spilled else 0)
      ensures old(preLen) == 0 && Spills(old(script)) ==>
        verdict == ABANDONED && clientGot == Spilled(old(script)) && clientBroken
      ensures old(preLen) == 0 && Stalls(old(script)) ==>
        verdict == DROPPED && preLen > 0 && script == old(script)[5..] && now == old(now) && stop == old(stop)
      ensures old(preLen) > 0 && old(script) != [] && old(script)[0].code > 0 ==>
        verdict == REPLAY_FAILED && script == old(script)[1..] && now == old(now) + old(script)[0].elapsed
    {
      hide Spilled;
      if preLen > 0 {
        var ok := WriteUp(pre[..preLen]);
        if !ok {
          CloseUp();
          return REPLAY_FAILED;
        }
      }
      verdict := Settle();
      if verdict != CONFIRMED {
        CloseUp();
      }
    }

    /** One chunk from the client to the upstream; n is 0 at the client's end of file. */
    method PumpClient() returns (n: nat, ok: bool)
      requires Joined()
      modifies this`script, this`now, this`stop, this`upGot, this`upBroken, this`clientRead, this`clientEnded, this`traffic
      ensures |script| <= |old(script)|
      ensures Conserved() && old(upGot) <= upGot && |clientRead| == |old(clientRead)| + n
      ensures upBroken == (old(upBroken) || !ok) && clientEnded == (old(clientEnded) || n == 0)
      ensures ok ==> Joined()
      ensures now >= old(now) && traffic == old(traffic).(client := old(traffic).client + 1)
    {
      var b := ReadClient(65536);
      Grown(past, old(clientRead), clientRead);
      n, ok := |b|, true;
      if b != [] {
        ok := WriteUp(b);
      }
    }

    /** One chunk from the upstream to the client; n is 0 at the upstream's end of file. */
    method PumpUp() returns (n: nat, ok: bool)
      requires Joined() && !clientBroken
      modifies this`script, this`now, this`stop, this`upGave, this`upEnded, this`clientGot, this`clientBroken, this`spilled, this`traffic
      ensures |script| <= |old(script)|
      ensures Conserved() && old(clientGot) <= clientGot && ok == !clientBroken
      ensures upEnded == (old(upEnded) || n == 0)
      ensures ok ==> Joined() && |clientGot| == |old(clientGot)| + n
      ensures now >= old(now) && traffic == old(traffic).(up := old(traffic).up + 1) && |upGave| >= |old(upGave)|
    {
      var b := ReadUp(65536);
      n, ok := |b|, true;
      if b != [] {
        ok := WriteClient(b);
      }
    }

    /**
     `pump`: both directions until one end closes. What is delivered is always a prefix of what
     was read, and all of it unless a write failed; the counters count the whole chunks delivered.
     */
    method Pump() returns (c2u: nat, u2c: nat)
      requires Joined() && !clientBroken && !upBroken
      modifies this`script, this`now, this`stop, this`upGot, this`upGave, this`clientRead, this`clientGot,
               this`pollFailed, this`clientEnded, this`clientBroken, this`spilled, this`upEnded, this`upBroken, this`traffic
      ensures Conserved()
      ensures old(upGot) <= upGot && old(clientGot) <= clientGot
      ensures !upBroken ==> upGot == clientRead && c2u == |clientRead| - |old(clientRead)|
      ensures !clientBroken ==> clientGot == upGave && u2c == |clientGot| - |old(clientGot)|
      ensures stop || pollFailed || clientEnded || upEnded || clientBroken || upBroken
      ensures now >= old(now) && |upGave| >= |old(upGave)|
      // Whatever poll reports is read, but for the last report.
      ensures 0 <= Unread(old(traffic), traffic).0 <= 1 && 0 <= Unread(old(traffic), traffic).1 <= 1
      ensures Unread(old(traffic), traffic) != (0, 0) ==> stop || clientEnded || upBroken
    {
      hide AllPrefixes;
      c2u, u2c := 0, 0;
      while true
        invariant Joined() && !clientBroken && !upBroken
        invariant old(upGot) <= upGot && old(clientGot) <= clientGot
        invariant c2u == |clientRead| - |old(clientRead)| && u2c == |clientGot| - |old(clientGot)|
        invariant now >= old(now) && |upGave| >= |old(upGave)| && Unread(old(traffic), traffic) == (0, 0)
        decreases |script|
      {
        var p := Poll(1000);
        if p == PollInterrupted { continue; }
        if p == PollError || stop { return; }
        if p == PollTimeout { continue; }
        var n, m, done := PumpRound(p);
        c2u, u2c := c2u + n, u2c + m;
        if done { return; }
      }
    }

    /** What `pump` does after one poll: the client first, then the upstream unless the client is done. */
    method PumpRound(p: Polled) returns (n: nat, m: nat, done: bool)
      requires Joined() && !clientBroken && !upBroken && p.Ready?
      modifies this`script, this`now, this`stop, this`upGot, this`upGave, this`clientRead, this`clientGot,
               this`clientEnded, this`clientBroken, this`spilled, this`upEnded, this`upBroken, this`traffic
      ensures |script| <= |old(script)|
      ensures Conserved()
      ensures old(upGot) <= upGot && old(clientGot) <= clientGot
      ensures !upBroken ==> upGot == clientRead && |clientRead| == |old(clientRead)| + n
      ensures !clientBroken ==> clientGot == upGave && |clientGot| == |old(clientGot)| + m
      ensures !done ==> !upBroken && !clientBroken && clientEnded == old(clientEnded) && upEnded == old(upEnded)
      ensures done ==> clientEnded || upEnded || clientBroken || upBroken
      ensures now >= old(now) && |upGave| >= |old(upGave)|
      ensures traffic.client == old(traffic).client + (if p.client then 1 else 0)
      ensures traffic.up == old(traffic).up + (if p.up then 1 else 0) || (traffic.up == old(traffic).up && done && (clientEnded || upBroken))
      ensures traffic.upReady == old(traffic).upReady && traffic.clientReady == old(traffic).clientReady
    {
      hide AllPrefixes;
      n, m, done := 0, 0, false;
      var ok;
      if p.client {
        n, ok := PumpClient();
        if !ok { return 0, 0, true; }
        if n == 0 { return 0, 0, true; }
      }
      if p.up {
        m, ok := PumpUp();
        if !ok { return n, 0, true; }
        done := m == 0;
      }
    }

    /**
     `conn_thread` for one connection, stream port or transparent port; the Group protocol is modelled
     apart. A relayed connection was relayed whole unless a write failed, and on a stream port its
     upstream had been heard or had stayed open for 300 ms; one that was not relayed has a reason.
     */
    method Serve(stream: bool) returns (relayed: bool)
      requires Untouched()
      modifies this, pre
      ensures Conserved() && !clientOpen && !upOpen
      ensures relayed ==> past != [] && (stop || pollFailed || clientEnded || upEnded || clientBroken || upBroken)
      ensures relayed && !upBroken ==> past[|past| - 1].got == clientRead
      ensures relayed && !clientBroken ==> past[|past| - 1].gave == clientGot
      ensures relayed && stream ==> past[|past| - 1].gave != [] || now >= old(now) + 300
      ensures !relayed && stream ==> stop || now >= old(now) + 10000 || Hopeless()
      ensures !relayed && stream ==> |clientGot| == if clientBroken then spilled else 0
      ensures !stream ==> (relayed <==> old(script) != [] && old(script)[0].code % 2 == 1)
      ensures !stream ==> |past| == (if relayed then 1 else 0) && (!relayed ==> clientRead == [] && clientGot == [])
    {
      hide AllPrefixes;
      NothingYet(clientRead, now);
      if !stream {
        relayed := Connect();
      } else {
        relayed := OpenUpstream();
      }
      if relayed {
        var c2u, u2c := Pump();
        Finish();
      }
      clientOpen := false;
    }

    /** Closes the upstream that was pumped. */
    method Finish()
      requires Conserved() && upOpen
      modifies this`past, this`upOpen
      ensures Conserved() && !upOpen && past == old(past) + [Link(upGot, upGave)]
    {
      CloseUp();
    }
  }

  /** A concrete leak: an upstream is rejected after one of the two bytes it said has reached the client. */
  method Leak() returns (c: Connection)
    ensures !c.upOpen && c.clientGot == [1] && c.past != [] && [1] <= c.past[|c.past| - 1].gave
  {
    var connect, readable, data, broken := Answer(1, [], 0, false), Answer(3, [], 0, false), Answer(0, [1, 2], 0, false),
      Answer(2, [], 0, false);
    c := new Connection([connect, readable, data, broken], 0);
    ghost var s := c.script[1..];
    assert s == [readable, data, broken];
    var ok := c.OpenUpstream();
    assert Spilled(s) == [1, 2][..1] == [1];
  }

  /** A concrete run past the deadline: the third attempt begins twenty seconds after the first, ten after the deadline. */
  method Late() returns (c: Connection)
    ensures |c.starts| >= 3 && c.starts[2].at >= c.starts[0].at + 20000
  {
    var data := Answer(0, [7], 0, false);
    var up, client, sent, ended := Answer(3, [], 0, false), Answer(6, [], 0, false), Answer(0, [], 0, false), Answer(0, [], 0, false);
    var connect, broken := Answer(1, [], 0, false), Answer(1, [], 20000, false);
    c := new Connection([connect, client, data, sent, up, ended, connect, broken], 0);
    ghost var s := c.script;
    assert s[1..] == [client, data, sent, up, ended, connect, broken];
    assert Stalls(s[1..]) && Lags(s);
    var ok := c.OpenUpstream();
  }
}
