/**
 Which connection is which channel on direct LAN. The client opens video, then audio, then control,
 and sends the token on each; rc-server accepts in arrival order and keeps only connections that
 present the token. Strangers and the client's own timed-out attempts arrive in between.
 */
module Channels {
  import opened Bytes
  import opened Sockets

  datatype Name = Video | Audio | Control
  datatype Owner = Foreign | GivenUp | Own(name: Name)

  /** What a connection will deliver, and how the reads on it will behave. */
  datatype Conn = Conn(bytes: seq<byte>, answers: seq<Answer>)
  datatype Arrival = Arrival(owner: Owner, conn: Conn)

  // ---- The server

  /** Whether a loop of reads collects `need` bytes before an end of file or an error. */
  predicate Gathers(answers: seq<Answer>, avail: nat, need: nat)
    decreases need, |answers|
  {
    if need == 0 then true else
    var n := ReadCount(answers, avail, need);
    if n == 0 || n == -2 then false
    else if n < 0 then answers != [] && Gathers(Later(answers), avail, need)
    else Gathers(Later(answers), avail - n, need - n)
  }

  /** A connection delivers its first 32 bytes in time. */
  predicate InTime(c: Conn)
  {
    Gathers(c.answers, |c.bytes|, 32)
  }

  predicate Admits(token: Option<seq<byte>>, c: Conn)
  {
    token.None? || (InTime(c) && token.value == First32(c.bytes))
  }

  function First32(s: seq<byte>): seq<byte>
  {
    if |s| < 32 then s else s[..32]
  }

  /** Data that is only fragmented or interrupted is gathered whenever there is enough of it. */
  lemma {:induction false} FragmentsGather(answers: seq<Answer>, avail: nat, need: nat)
    requires Broken !in answers && need <= avail
    ensures Gathers(answers, avail, need)
    decreases need, |answers|
  {
    if need > 0 {
      var n := ReadCount(answers, avail, need);
      if answers != [] {
        assert answers[0] in answers;
        assert forall a :: a in answers[1..] ==> a in answers;
      }
      FragmentsGather(Later(answers), if n < 0 then avail else avail - n, if n < 0 then need else need - n);
    }
  }

  datatype Accepted = Accepted(arrival: Arrival, sock: Socket)

  /** The token loop of `acceptAuthed`. */
  method ReadToken(s: Socket, buf: array<byte>) returns (ok: bool)
    requires buf.Length == 32
    modifies s`answers, s`incoming, buf
    ensures ok == Gathers(old(s.answers), |old(s.incoming)|, 32)
    ensures ok ==> 32 <= |old(s.incoming)| && buf[..] == old(s.incoming)[..32] && s.incoming == old(s.incoming)[32..]
  {
    hide ReadCount, Later;
    var off := 0;
    while off < 32
      invariant off <= 32 && off <= |old(s.incoming)|
      invariant forall j :: 0 <= j < off ==> buf[j] == old(s.incoming)[j]
      invariant s.incoming == old(s.incoming)[off..]
      invariant Gathers(old(s.answers), |old(s.incoming)|, 32) == Gathers(s.answers, |s.incoming|, 32 - off)
      decreases 32 - off, |s.answers|
    {
      ghost var before := s.incoming;
      var n := s.Read(buf, off, 32 - off);
      if n == 0 || n == -2 {
        return false;
      }
      if n > 0 {
        assert forall j :: off <= j < off + n ==> buf[j] == before[j - off];
        off := off + n;
      }
    }
    return true;
  }

  /** Where the first admitted connection is in the queue. */
  function FirstAdmitted(token: Option<seq<byte>>, q: seq<Arrival>): (k: nat)
    ensures k <= |q|
    ensures k < |q| ==> Admits(token, q[k].conn)
    ensures forall i :: 0 <= i < k ==> !Admits(token, q[i].conn)
  {
    if q == [] || Admits(token, q[0].conn) then 0 else 1 + FirstAdmitted(token, q[1..])
  }

  /** All admitted connections, in order. */
  function Admitted(token: Option<seq<byte>>, q: seq<Arrival>): seq<Arrival>
  {
    if q == [] then []
    else (if Admits(token, q[0].conn) then [q[0]] else []) + Admitted(token, q[1..])
  }

  lemma OneMore(token: Option<seq<byte>>, q: seq<Arrival>)
    ensures q == [] ==> FirstAdmitted(token, q) == 0 && Admitted(token, q) == []
    ensures q != [] && Admits(token, q[0].conn) ==>
      FirstAdmitted(token, q) == 0 && Admitted(token, q) == [q[0]] + Admitted(token, q[1..])
    ensures q != [] && !Admits(token, q[0].conn) ==>
      FirstAdmitted(token, q) == 1 + FirstAdmitted(token, q[1..]) && Admitted(token, q) == Admitted(token, q[1..])
  {
    hide Admits;
  }

  lemma {:induction false} AdmittedFirst(token: Option<seq<byte>>, q: seq<Arrival>)
    ensures var k := FirstAdmitted(token, q);
      Admitted(token, q) == if k == |q| then [] else [q[k]] + Admitted(token, q[k + 1..])
  {
    hide Admits, Admitted, FirstAdmitted;
    OneMore(token, q);
    if q != [] && !Admits(token, q[0].conn) {
      AdmittedFirst(token, q[1..]);
      var k := FirstAdmitted(token, q);
      if k < |q| {
        assert q[1..][k - 1] == q[k] && q[1..][k..] == q[k + 1..];
      }
    }
  }

  /** What is left to read on an accepted connection. */
  function Remaining(token: Option<seq<byte>>, c: Conn): seq<byte>
  {
    if token.None? || |c.bytes| < 32 then c.bytes else c.bytes[32..]
  }

  function Nth(s: seq<Arrival>, i: nat): Option<Arrival>
  {
    if i < |s| then Some(s[i]) else None
  }

  function Taken(a: Option<Accepted>): Option<Arrival>
  {
    if a.None? then None else Some(a.value.arrival)
  }

  class Server {
    const token: Option<seq<byte>>
    // Connections not yet accepted, in the order they arrived, and those turned away.
    var queue: seq<Arrival>
    var closed: seq<Arrival>
    var video: Option<Accepted>
    var audio: Option<Accepted>
    var control: Option<Accepted>

    constructor (token: Option<seq<byte>>, queue: seq<Arrival>)
      ensures this.token == token && this.queue == queue && closed == []
      ensures video == None && audio == None && control == None
    {
      this.token, this.queue, closed := token, queue, [];
      video, audio, control := None, None, None;
    }

    predicate Complete(wantAudio: bool, wantControl: bool)
      reads this
    {
      video.Some? && (wantAudio ==> audio.Some?) && (wantControl ==> control.Some?)
    }

    /** An accepted socket is past its token and nothing more. */
    ghost predicate Positioned(a: Option<Accepted>)
      reads if a.Some? then {a.value.sock} else {}
    {
      a.Some? ==> a.value.sock.incoming == Remaining(token, a.value.arrival.conn)
    }

    /** `acceptAuthed`; none when it is still waiting for a connection. */
    method AcceptAuthed() returns (a: Option<Accepted>)
      modifies this`queue, this`closed
      ensures a.Some? ==> fresh(a.value.sock)
      ensures Positioned(a)
      ensures Taken(a) == Nth(Admitted(token, old(queue)), 0)
      ensures a.Some? ==> Admitted(token, queue) == Admitted(token, old(queue))[1..]
      ensures closed == old(closed) + old(queue)[..FirstAdmitted(token, old(queue))]
    {
      hide Admits, Admitted;
      AdmittedFirst(token, queue);
      ghost var k := FirstAdmitted(token, queue);
      ghost var i := 0;
      while queue != []
        invariant i <= k && queue == old(queue)[i..] && closed == old(closed) + old(queue)[..i]
        decreases |queue|
      {
        var arrival := queue[0];
        queue := queue[1..];
        var ok, s := Check(arrival.conn);
        if ok {
          return Some(Accepted(arrival, s));
        }
        closed := closed + [arrival];
        i := i + 1;
      }
      return None;
    }

    /** Accepts one connection and, when a token is in use, reads and compares it. */
    method Check(c: Conn) returns (ok: bool, s: Socket)
      ensures ok == Admits(token, c) && fresh(s)
      ensures ok ==> s.incoming == Remaining(token, c)
    {
      s := new Socket(c.bytes, c.answers);
      if token.None? {
        return true, s;
      }
      var buf := new byte[32];
      ok := ReadToken(s, buf);
      if ok {
        ok := buf[..] == token.value;
      }
    }

    /** `openTcp`: video, then audio and control if enabled; the channels are the first admitted connections. */
    method OpenTcp(wantAudio: bool, wantControl: bool)
      requires video == None && audio == None && control == None
      modifies this
      ensures Positioned(video) && Positioned(audio) && Positioned(control)
      ensures var adm := Admitted(token, old(queue));
        && Taken(video) == Nth(adm, 0)
        && Taken(audio) == (if wantAudio then Nth(adm, 1) else None)
        && Taken(control) == if wantControl then Nth(adm, if wantAudio then 2 else 1) else None
    {
      hide Admits, Admitted, Remaining, FirstAdmitted;
      video := AcceptAuthed();
      if video.None? { return; }
      if wantAudio {
        audio := AcceptAuthed();
        if audio.None? { return; }
      }
      if wantControl {
        control := AcceptAuthed();
      }
    }
  }

  // ---- The client and the rest of the network

  /** One event at the server's port, in arrival order. */
  datatype Event =
    | Stranger(conn: Conn)                            // somebody else connects
    | Attempt(conn: Conn)                             // a connect the client gave up on, after the queue took it
    | Connect(later: seq<byte>, answers: seq<Answer>) // the next channel: the token, then what follows
    | TokenLost(sent: nat, answers: seq<Answer>)      // the next channel, but sending the token failed part-way

  function Wanted(audio: bool, control: bool): seq<Name>
  {
    [Video] + (if audio then [Audio] else []) + (if control then [Control] else [])
  }

  /** What one event adds to the accept queue. */
  function Arriving(e: Event, wanted: seq<Name>, token: seq<byte>): (r: seq<Arrival>)
    ensures |r| <= 1
  {
    match e
    case Stranger(c) => [Arrival(Foreign, c)]
    case Attempt(c) => [Arrival(GivenUp, c.(bytes := []))]
    case Connect(later, answers) =>
      if wanted == [] then [] else [Arrival(Own(wanted[0]), Conn(token + later, answers))]
    case TokenLost(sent, answers) =>
      if wanted == [] then [] else [Arrival(GivenUp, Conn(if sent < |token| then token[..sent] else [], answers))]
  }

  /** The channels the client still has to open after an event; a lost token ends the attempt. */
  function StillWanted(e: Event, wanted: seq<Name>): seq<Name>
  {
    if e.TokenLost? then [] else if e.Connect? && wanted != [] then wanted[1..] else wanted
  }

  /** The accept queue that results; the client opens its channels one after the other. */
  function Arrivals(events: seq<Event>, wanted: seq<Name>, token: seq<byte>): seq<Arrival>
  {
    if events == [] then []
    else Arriving(events[0], wanted, token) + Arrivals(events[1..], StillWanted(events[0], wanted), token)
  }

  /** The client's own channels, in arrival order. */
  function Ours(q: seq<Arrival>): (r: seq<Arrival>)
    ensures forall i :: 0 <= i < |r| ==> r[i].owner.Own?
  {
    if q == [] then [] else (if q[0].owner.Own? then [q[0]] else []) + Ours(q[1..])
  }

  /** The channels in o are the first ones wanted, in order. */
  ghost predicate InOrder(o: seq<Arrival>, wanted: seq<Name>)
  {
    |o| <= |wanted| && forall i :: 0 <= i < |o| ==> o[i].owner == Own(wanted[i])
  }

  /** Nobody but the client knows the token. */
  ghost predicate Secret(events: seq<Event>, token: seq<byte>)
  {
    forall i :: 0 <= i < |events| && events[i].Stranger? ==> !(token <= events[i].conn.bytes)
  }

  lemma OursAfter(q: seq<Arrival>, r: seq<Arrival>)
    requires |q| <= 1
    ensures Ours(q + r) == Ours(q) + Ours(r)
  {
    if q == [] {
      assert q + r == r;
    } else {
      assert (q + r)[1..] == r && q[1..] == [];
    }
  }

  lemma AdmittedAfter(token: Option<seq<byte>>, q: seq<Arrival>, r: seq<Arrival>)
    requires |q| <= 1
    ensures Admitted(token, q + r) == Admitted(token, q) + Admitted(token, r)
  {
    if q == [] {
      assert q + r == r;
    } else {
      assert (q + r)[1..] == r && q[1..] == [];
    }
  }

  lemma TimelyAfter(q: seq<Arrival>, r: seq<Arrival>)
    requires |q| <= 1
    ensures Timely(q + r) == Timely(q) + Timely(r)
  {
    if q == [] {
      assert q + r == r;
    } else {
      assert (q + r)[1..] == r && q[1..] == [];
    }
  }

  /** The client's channels reach the queue in the order it opens them. */
  lemma {:induction false} OursInOrder(events: seq<Event>, wanted: seq<Name>, token: seq<byte>)
    ensures InOrder(Ours(Arrivals(events, wanted, token)), wanted)
  {
    if events != [] {
      hide Ours, Arriving;
      var q, next := Arriving(events[0], wanted, token), StillWanted(events[0], wanted);
      OursInOrder(events[1..], next, token);
      OursAfter(q, Arrivals(events[1..], next, token));
      OursOne(events[0], wanted, token);
      Lengthened(Ours(q), Ours(Arrivals(events[1..], next, token)), wanted, next);
    }
  }

  /** Connects up to the first token that could not be sent. */
  function Connects(events: seq<Event>): nat
  {
    if events == [] || events[0].TokenLost? then 0 else (if events[0].Connect? then 1 else 0) + Connects(events[1..])
  }

  /** The client gets as many channels as it connects, until all are open or a token is lost: then it opens no more. */
  lemma {:induction false} OursCount(events: seq<Event>, wanted: seq<Name>, token: seq<byte>)
    ensures |Ours(Arrivals(events, wanted, token))| == if Connects(events) < |wanted| then Connects(events) else |wanted|
  {
    if events != [] {
      hide Ours, Arriving;
      var q, next := Arriving(events[0], wanted, token), StillWanted(events[0], wanted);
      OursCount(events[1..], next, token);
      OursAfter(q, Arrivals(events[1..], next, token));
      OursOne(events[0], wanted, token);
    } else {
      assert Ours([]) == [];
    }
  }

  lemma Lengthened(one: seq<Arrival>, o: seq<Arrival>, wanted: seq<Name>, next: seq<Name>)
    requires InOrder(o, next)
    requires (one == [] && next <= wanted) || (|one| == 1 && wanted != [] && one[0].owner == Own(wanted[0]) && next == wanted[1..])
    ensures InOrder(one + o, wanted)
  {
  }

  lemma OursOne(e: Event, wanted: seq<Name>, token: seq<byte>)
    ensures var o := Ours(Arriving(e, wanted, token));
      && (forall a :: a in o ==> token <= a.conn.bytes)
      && if e.Connect? && wanted != [] then |o| == 1 && o[0].owner == Own(wanted[0]) else o == []
  {
    var q := Arriving(e, wanted, token);
    assert q == [] || q[1..] == [];
  }

  /** Each of the client's channels carries the token. */
  lemma {:induction false} OursCarryToken(events: seq<Event>, wanted: seq<Name>, token: seq<byte>)
    ensures forall a :: a in Ours(Arrivals(events, wanted, token)) ==> token <= a.conn.bytes
  {
    if events != [] {
      var q, next := Arriving(events[0], wanted, token), StillWanted(events[0], wanted);
      OursCarryToken(events[1..], next, token);
      OursAfter(q, Arrivals(events[1..], next, token));
      OursOne(events[0], wanted, token);
    }
  }

  /** With a token, only the client's own channels are admitted: those whose token arrives in time. */
  lemma {:induction false} OnlyOursAdmitted(events: seq<Event>, wanted: seq<Name>, token: seq<byte>)
    requires |token| == 32 && Secret(events, token)
    ensures var q := Arrivals(events, wanted, token);
      Admitted(Some(token), q) == Timely(Ours(q))
  {
    if events != [] {
      var q, next := Arriving(events[0], wanted, token), StillWanted(events[0], wanted);
      var rest := Arrivals(events[1..], next, token);
      OnlyOursAdmitted(events[1..], next, token);
      OneAdmitted(events[0], wanted, token);
      OursAfter(q, rest);
      AdmittedAfter(Some(token), q, rest);
      TimelyAfter(Ours(q), Ours(rest));
    }
  }

  lemma OneAdmitted(e: Event, wanted: seq<Name>, token: seq<byte>)
    requires |token| == 32 && (e.Stranger? ==> !(token <= e.conn.bytes))
    ensures var q := Arriving(e, wanted, token);
      |Ours(q)| <= 1 && Admitted(Some(token), q) == Timely(Ours(q))
  {
    hide Gathers;
    var q := Arriving(e, wanted, token);
    if q != [] {
      var c := q[0].conn;
      assert q == [q[0]] && q[1..] == [];
      assert Ours(q) == if q[0].owner.Own? then q else [];
      assert First32(c.bytes) == token <==> token <= c.bytes;
      assert token <= c.bytes <==> q[0].owner.Own?;
    }
  }

  function Timely(q: seq<Arrival>): (r: seq<Arrival>)
    ensures |r| <= |q|
    ensures (forall i :: 0 <= i < |q| ==> InTime(q[i].conn)) ==> r == q
    ensures |r| == |q| ==> r == q && forall i :: 0 <= i < |q| ==> InTime(q[i].conn)
  {
    if q == [] then [] else (if InTime(q[0].conn) then [q[0]] else []) + Timely(q[1..])
  }

  // ---- Agreement

  /** Every channel the server has accepted so far is the client's channel of that name. */
  ghost predicate Agree(accepted: seq<Arrival>, wanted: seq<Name>)
  {
    forall i :: 0 <= i < |accepted| && i < |wanted| ==> accepted[i].owner == Own(wanted[i])
  }

  /** A token that arrives late is followed by no other channel whose token arrives in time. */
  ghost predicate LateOnlyAtEnd(q: seq<Arrival>)
  {
    forall i, j :: 0 <= i < j < |q| && InTime(q[j].conn) ==> InTime(q[i].conn)
  }

  lemma {:induction false} TimelyPrefix(q: seq<Arrival>)
    requires LateOnlyAtEnd(q)
    ensures Timely(q) <= q
  {
    if q != [] {
      TimelyPrefix(q[1..]);
      if !InTime(q[0].conn) {
        TimelyAreInTime(q[1..]);
        forall a | a in q[1..]
          ensures !InTime(a.conn)
        {
          var j :| 1 <= j < |q| && q[j] == a;
        }
        assert Timely(q[1..]) == [];
      }
    }
  }

  lemma {:induction false} TimelyAreInTime(q: seq<Arrival>)
    ensures forall a :: a in Timely(q) ==> a in q && InTime(a.conn)
  {
    if q != [] {
      TimelyAreInTime(q[1..]);
    }
  }

  lemma {:induction false} TimelyHas(q: seq<Arrival>, j: nat)
    requires j < |q| && InTime(q[j].conn)
    ensures q[j] in Timely(q)
  {
    if j > 0 {
      TimelyHas(q[1..], j - 1);
    }
  }

  /** A timely selection that is in step with the names it was taken from is a prefix. */
  lemma {:induction false} InStep(q: seq<Arrival>, wanted: seq<Name>)
    requires InOrder(q, wanted) && (forall i, j :: 0 <= i < j < |wanted| ==> wanted[i] != wanted[j])
    requires Agree(Timely(q), wanted)
    ensures LateOnlyAtEnd(q)
  {
    hide InTime, Timely;
    var t := Timely(q);
    TimelyAreInTime(q);
    forall i, j | 0 <= i < j < |q| && InTime(q[j].conn)
      ensures InTime(q[i].conn)
    {
      TimelyHas(q, j);
      var m :| 0 <= m < |t| && t[m] == q[j];
      assert Own(wanted[m]) == t[m].owner == q[j].owner == Own(wanted[j]);
      assert m == j;
      assert t[i] in t && t[i].owner == Own(wanted[i]);
      var k :| 0 <= k < |q| && q[k] == t[i];
      assert Own(wanted[k]) == q[k].owner == Own(wanted[i]);
      assert k == i;
    }
  }

  /**
   Channel agreement with a token: whatever strangers and abandoned attempts lie in between, the server's
   channels are the client's exactly when late tokens occur only at the end.
   */
  lemma AgreementIff(events: seq<Event>, audio: bool, control: bool, token: seq<byte>)
    requires |token| == 32 && Secret(events, token)
    ensures var w := Wanted(audio, control);
      var q := Arrivals(events, w, token);
      Agree(Admitted(Some(token), q), w) <==> LateOnlyAtEnd(Ours(q))
  {
    hide InTime, Admits, Admitted, Arrivals, Ours, Timely;
    var w := Wanted(audio, control);
    var o := Ours(Arrivals(events, w, token));
    OnlyOursAdmitted(events, w, token);
    OursInOrder(events, w, token);
    if LateOnlyAtEnd(o) {
      TimelyPrefix(o);
    }
    if Agree(Timely(o), w) {
      InStep(o, w);
    }
  }

  /**
   Once the server has all its channels they are the client's, token delays or not, and every
   token did arrive in time.
   */
  lemma CompleteMeansAgreed(events: seq<Event>, audio: bool, control: bool, token: seq<byte>)
    requires |token| == 32 && Secret(events, token)
    requires |Admitted(Some(token), Arrivals(events, Wanted(audio, control), token))| >= |Wanted(audio, control)|
    ensures var w := Wanted(audio, control);
      var q := Arrivals(events, w, token);
      Admitted(Some(token), q) == Ours(q) && |Ours(q)| == |w| && Agree(Ours(q), w)
  {
    var w := Wanted(audio, control);
    OnlyOursAdmitted(events, w, token);
    OursInOrder(events, w, token);
  }

  /** Tokens sent in time are all admitted: once the client has every channel open, so has the server. */
  lemma TimelyMeansComplete(events: seq<Event>, audio: bool, control: bool, token: seq<byte>)
    requires |token| == 32 && Secret(events, token)
    requires forall i :: 0 <= i < |events| && events[i].Connect? ==> Broken !in events[i].answers
    ensures var q := Arrivals(events, Wanted(audio, control), token);
      Admitted(Some(token), q) == Ours(q) && Agree(Ours(q), Wanted(audio, control))
  {
    var w := Wanted(audio, control);
    var q := Arrivals(events, w, token);
    OursUnbroken(events, w, token);
    OursInOrder(events, w, token);
    OursCarryToken(events, w, token);
    OnlyOursAdmitted(events, w, token);
    forall i | 0 <= i < |Ours(q)|
      ensures InTime(Ours(q)[i].conn) && Ours(q)[i].owner == Own(w[i])
    {
      var c := Ours(q)[i].conn;
      assert |c.bytes| >= 32;
      FragmentsGather(c.answers, |c.bytes|, 32);
    }
  }

  lemma {:induction false} OursUnbroken(events: seq<Event>, wanted: seq<Name>, token: seq<byte>)
    requires forall i :: 0 <= i < |events| && events[i].Connect? ==> Broken !in events[i].answers
    ensures forall a :: a in Ours(Arrivals(events, wanted, token)) ==> Broken !in a.conn.answers
  {
    if events != [] {
      var q, next := Arriving(events[0], wanted, token), StillWanted(events[0], wanted);
      OursUnbroken(events[1..], next, token);
      OursAfter(q, Arrivals(events[1..], next, token));
    }
  }

  lemma {:induction false} NoTokenAdmitsAll(q: seq<Arrival>)
    ensures Admitted(None, q) == q
  {
    if q != [] {
      NoTokenAdmitsAll(q[1..]);
    }
  }

  lemma {:induction false} OursAtFront(q: seq<Arrival>, n: nat)
    requires n <= |q| && forall i :: 0 <= i < n ==> q[i].owner.Own?
    ensures n <= |Ours(q)| && forall i :: 0 <= i < n ==> Ours(q)[i] == q[i]
  {
    if n > 0 {
      OursAtFront(q[1..], n - 1);
    }
  }

  /** Without a token, agreement holds exactly when nobody else's connection comes among the first ones. */
  lemma NoTokenAgreementIff(events: seq<Event>, audio: bool, control: bool)
    ensures var w := Wanted(audio, control);
      var q := Arrivals(events, w, []);
      Agree(Admitted(None, q), w) <==> forall i :: 0 <= i < |q| && i < |w| ==> q[i].owner.Own?
  {
    var w := Wanted(audio, control);
    var q := Arrivals(events, w, []);
    NoTokenAdmitsAll(q);
    var n := if |q| < |w| then |q| else |w|;
    if forall i :: 0 <= i < |q| && i < |w| ==> q[i].owner.Own? {
      OursAtFront(q, n);
      OursInOrder(events, w, []);
    }
  }

  /** One stranger ahead of the client takes the video channel of a server without a token. */
  lemma StrangerTakesVideo()
    ensures exists events :: !Agree(Admitted(None, Arrivals(events, Wanted(false, true), [])), Wanted(false, true))
  {
    var events := [Stranger(Conn([], [])), Connect([], [])];
    var q := Arrivals(events, Wanted(false, true), []);
    NoTokenAdmitsAll(q);
    assert q[0] == Arriving(events[0], Wanted(false, true), [])[0];
    assert q[0].owner == Foreign;
  }

  /** A video token that times out lets the next channel take the place of video, until the server runs short. */
  lemma LateVideoShifts(token: seq<byte>)
    requires |token| == 32
    ensures exists events :: (
      Secret(events, token)
      && !Agree(Admitted(Some(token), Arrivals(events, Wanted(false, true), token)), Wanted(false, true)))
  {
    var w := Wanted(false, true);
    var events := [Connect([], [Broken]), Connect([], [])];
    var v, c := Arrival(Own(Video), Conn(token + [], [Broken])), Arrival(Own(Control), Conn(token + [], []));
    var q := Arrivals(events, w, token);
    assert q == [v, c] by {
      assert events[1..] == [Connect([], [])] && events[1..][1..] == [] && w[1..] == [Control];
      assert Arrivals(events[1..], w[1..], token) == [c];
    }
    OursAtFront(q, 2);
    FragmentsGather([], |token + []|, 32);
    assert !InTime(Ours(q)[0].conn) && InTime(Ours(q)[1].conn);
    AgreementIff(events, false, true, token);
  }

  /** Client, network and server together. */
  method Meet(events: seq<Event>, audio: bool, control: bool, token: seq<byte>) returns (s: Server)
    requires |token| == 32 && Secret(events, token)
    ensures s.Positioned(s.video) && s.Positioned(s.audio) && s.Positioned(s.control) && s.token == Some(token)
    ensures s.Complete(audio, control) ==>
      && s.video.value.arrival.owner == Own(Video)
      && (audio ==> s.audio.value.arrival.owner == Own(Audio))
      && (control ==> s.control.value.arrival.owner == Own(Control))
    ensures (forall i :: 0 <= i < |events| && events[i].Connect? ==> Broken !in events[i].answers) ==>
      (s.Complete(audio, control) <==> |Ours(Arrivals(events, Wanted(audio, control), token))| == |Wanted(audio, control)|)
  {
    ghost var w := Wanted(audio, control);
    var q := Arrivals(events, Wanted(audio, control), token);
    s := new Server(Some(token), q);
    s.OpenTcp(audio, control);
    ghost var adm := Admitted(Some(token), q);
    OursInOrder(events, w, token);
    if |adm| >= |w| {
      CompleteMeansAgreed(events, audio, control, token);
    }
    if forall i :: 0 <= i < |events| && events[i].Connect? ==> Broken !in events[i].answers {
      TimelyMeansComplete(events, audio, control, token);
    }
  }
}
