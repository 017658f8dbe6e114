/** Sockets as byte sequences, and the loops that read or write a whole buffer over short system calls. */
module Sockets {
  import opened Bytes

  datatype Option<+T> = None | Some(value: T)

  datatype Status = Ok | ErrGeneric | ErrInvalidArg | ErrAdb | ErrConnect | ErrProtocol | ErrDecode

  /** How the kernel answers the next system call on a socket. */
  datatype Answer =
    | Chunk(n: nat)   // transfers about n bytes
    | Interrupted     // EINTR
    | Broken          // any other error

  /** What read(2) of up to len bytes returns with `avail` bytes to come: -1 for EINTR, -2 for an error. */
  function ReadCount(answers: seq<Answer>, avail: nat, len: nat): (n: int)
    ensures n <= len && n <= avail
  {
    var most := if avail < len then avail else len;
    if answers == [] then most else
    match answers[0]
    case Interrupted => -1
    case Broken => -2
    case Chunk(k) => if k >= most then most else if k == 0 && most > 0 then 1 else k
  }

  function Later(answers: seq<Answer>): seq<Answer>
  {
    if answers == [] then [] else answers[1..]
  }

  class Socket {
    // What the peer still delivers, followed by end of file.
    var incoming: seq<byte>
    // What the kernel has taken from us, in order.
    var outgoing: seq<byte>
    // How the next calls behave; once used up, every call transfers all it can.
    var answers: seq<Answer>

    constructor (incoming: seq<byte>, answers: seq<Answer>)
      ensures this.incoming == incoming && this.answers == answers && outgoing == []
    {
      this.incoming, this.answers, outgoing := incoming, answers, [];
    }

    /** No call ends in a hard error: data may only be fragmented or interrupted. */
    ghost predicate Reliable()
      reads this
    {
      Broken !in answers
    }

    method NextAnswer() returns (a: Answer)
      modifies this`answers
      ensures old(answers) != [] ==> a == old(answers)[0] && answers == old(answers)[1..]
      ensures old(answers) == [] ==> a.Chunk? && answers == [] && a.n >= |incoming|
    {
      if answers == [] {
        a := Chunk(|incoming|);
      } else {
        a := answers[0];
        answers := answers[1..];
      }
    }

    /** read(2): n > 0 bytes, 0 at end of file, -1 on EINTR, -2 on any other error. */
    method Read(buf: array<byte>, off: nat, len: nat) returns (n: int)
      requires off + len <= buf.Length && 0 < len
      modifies this`answers, this`incoming, buf
      ensures -2 <= n <= len && n <= |old(incoming)|
      ensures n > 0 ==> incoming == old(incoming)[n..]
      ensures n <= 0 ==> incoming == old(incoming)
      ensures n == 0 ==> incoming == []
      ensures forall j :: 0 <= j < n ==> buf[off + j] == old(incoming)[j]
      ensures forall j :: 0 <= j < buf.Length && !(off <= j < off + n) ==> buf[j] == old(buf[j])
      ensures n == -1 ==> |answers| < |old(answers)|
      ensures n == -2 ==> !old(Reliable())
      ensures old(Reliable()) ==> Reliable()
      ensures |answers| <= |old(answers)|
      ensures n == ReadCount(old(answers), |old(incoming)|, len) && answers == Later(old(answers))
    {
      var a := NextAnswer();
      match a {
        case Interrupted => n := -1;
        case Broken => n := -2;
        case Chunk(k) =>
          n := if k < len then k else len;
          if n > |incoming| { n := |incoming|; }
          if n == 0 && incoming != [] { n := 1; }
          for i := 0 to n
            modifies buf
            invariant forall j :: 0 <= j < i ==> buf[off + j] == incoming[j]
            invariant forall j :: 0 <= j < buf.Length && !(off <= j < off + i) ==> buf[j] == old(buf[j])
          {
            buf[off + i] := incoming[i];
          }
          incoming := incoming[n..];
      }
    }

    /** write(2): the number of bytes taken, -1 on EINTR, -2 on any other error. */
    method Write(data: seq<byte>) returns (n: int)
      requires data != []
      modifies this`answers, this`outgoing
      ensures -2 <= n <= |data|
      ensures outgoing == old(outgoing) + data[..if n < 0 then 0 else n]
      ensures n <= 0 ==> |answers| < |old(answers)|
      ensures n == -2 ==> !old(Reliable())
      ensures old(Reliable()) ==> Reliable()
      ensures |answers| <= |old(answers)|
    {
      if answers == [] {
        n := |data|;
        outgoing := outgoing + data;
        assert data[..n] == data;
      } else {
        var a := NextAnswer();
        match a {
          case Interrupted => n := -1;
          case Broken => n := -2;
          case Chunk(k) =>
            n := if k < |data| then k else |data|;
            outgoing := outgoing + data[..n];
        }
      }
    }
  }

  /** `rc_net_read_full`: fills buf[off..off+len], whatever the fragmentation. */
  method ReadFull(s: Socket, buf: array<byte>, off: nat, len: nat) returns (st: Status)
    requires off + len <= buf.Length
    modifies s`answers, s`incoming, buf
    ensures st in {Ok, ErrConnect}
    ensures st == Ok ==> len <= |old(s.incoming)|
    ensures st == Ok ==> buf[off..off + len] == old(s.incoming)[..len] && s.incoming == old(s.incoming)[len..]
    ensures st != Ok && old(s.Reliable()) ==> |old(s.incoming)| < len && s.incoming == []
    ensures buf[..off] == old(buf[..off])
    ensures old(s.Reliable()) ==> s.Reliable()
  {
    hide ReadCount, Later;
    ghost var all := s.incoming;
    var got := 0;
    while got < len
      invariant got <= len && got <= |all| && s.incoming == all[got..]
      invariant forall j :: off <= j < off + got ==> buf[j] == all[j - off]
      invariant forall j :: 0 <= j < off ==> buf[j] == old(buf[j])
      invariant old(s.Reliable()) ==> s.Reliable()
      decreases len - got, |s.answers|
    {
      var n := s.Read(buf, off + got, len - got);
      if n == 0 || n == -2 {
        return ErrConnect;
      }
      if n > 0 {
        assert forall j :: off + got <= j < off + got + n ==> buf[j] == all[j - off];
        got := got + n;
      }
    }
    return Ok;
  }

  /** `rc_net_write_full` and the agent's `write_full`: all the bytes in order, or a proper prefix and an error. */
  method WriteFull(s: Socket, data: seq<byte>) returns (st: Status, taken: nat)
    modifies s`answers, s`outgoing
    ensures st in {Ok, ErrConnect}
    ensures taken <= |data| && s.outgoing == old(s.outgoing) + data[..taken]
    ensures st == Ok <==> taken == |data|
    ensures old(s.Reliable()) ==> st == Ok && s.Reliable()
  {
    taken := 0;
    while taken < |data|
      invariant taken <= |data|
      invariant s.outgoing == old(s.outgoing) + data[..taken]
      invariant old(s.Reliable()) ==> s.Reliable()
      decreases |data| - taken, |s.answers|
    {
      var n := s.Write(data[taken..]);
      if n == -2 {
        return ErrConnect, taken;
      }
      if n > 0 {
        assert data[..taken] + data[taken..][..n] == data[..taken + n];
        taken := taken + n;
      }
    }
    return Ok, taken;
  }
}
