/**
 The framing shared by the video and audio sockets: the device prints packets, the desktop
 demuxes them. Round trip, truncation and rejection are stated over whole streams.
 */
module PacketStream {
  import opened Bytes
  import opened Sockets

  const HDR := 12
  const MAX_LEN := 32 * 0x10_0000

  datatype Packet = Packet(config: bool, key: bool, pts: nat, data: seq<byte>)

  /** What a packet must satisfy for both ends to agree on it. */
  predicate Sane(p: Packet)
  {
    1 <= |p.data| <= 33554432 && p.pts < 0x4000_0000_0000_0000
  }

  predicate AllSane(ps: seq<Packet>)
  {
    forall i :: 0 <= i < |ps| ==> Sane(ps[i])
  }

  /** `ptsUs & PKT_PTS_MASK` on a two's complement long: the low 62 bits. */
  function MaskPts(ptsUs: int): (m: nat)
    ensures m < 0x4000_0000_0000_0000
    ensures m == ptsUs <==> 0 <= ptsUs < 0x4000_0000_0000_0000
  {
    ptsUs % 0x4000_0000_0000_0000
  }

  /** The pts_flags word. */
  function Flags(config: bool, key: bool, pts: nat): (f: nat)
    requires pts < 0x4000_0000_0000_0000
    ensures f < 0x1_0000_0000_0000_0000
    ensures (f >= 0x8000_0000_0000_0000) == config && (f / 0x4000_0000_0000_0000 % 2 == 1) == key && f % 0x4000_0000_0000_0000 == pts
  {
    pts + (if key then 0x4000_0000_0000_0000 else 0) + (if config then 0x8000_0000_0000_0000 else 0)
  }

  /** The bytes of one packet on the wire. */
  function Encode(p: Packet): (s: seq<byte>)
    requires p.pts < 0x4000_0000_0000_0000
    ensures |s| == HDR + |p.data|
  {
    Put64(Flags(p.config, p.key, p.pts)) + Put32(|p.data|) + p.data
  }

  function EncodeAll(ps: seq<Packet>): (s: seq<byte>)
    requires forall i :: 0 <= i < |ps| ==> ps[i].pts < 0x4000_0000_0000_0000
  {
    if ps == [] then [] else Encode(ps[0]) + EncodeAll(ps[1..])
  }

  /** `writePacket`: fills the twelve header bytes in front of the payload and writes both at once. */
  method WritePacket(out: Socket, config: bool, key: bool, ptsUs: int, packet: array<byte>, len: nat)
    returns (st: Status, ghost taken: nat)
    requires HDR + len <= packet.Length
    modifies out`answers, out`outgoing, packet
    ensures packet[HDR..] == old(packet[HDR..])
    ensures var wire := Encode(Packet(config, key, MaskPts(ptsUs), old(packet[HDR..HDR + len])));
            && taken <= |wire| && out.outgoing == old(out.outgoing) + wire[..taken]
            && (st == Ok <==> taken == |wire|)
            && (old(out.Reliable()) ==> st == Ok && out.Reliable())
  {
    hide Put32, ByteOf, Flags;
    var flags := Flags(config, key, MaskPts(ptsUs));
    for i := 0 to 8
      modifies packet
      invariant packet[..i] == Put64(flags)[..i]
      invariant packet[HDR..] == old(packet[HDR..])
    {
      packet[i] := ByteOf(flags, 7 - i);
    }
    var n := Put32(len);
    packet[8], packet[9], packet[10], packet[11] := n[0], n[1], n[2], n[3];
    ghost var data := old(packet[HDR..HDR + len]);
    assert packet[HDR..HDR + len] == packet[HDR..][..len] == data;
    assert packet[..HDR + len] == packet[..8] + packet[8..HDR] + packet[HDR..HDR + len];
    assert packet[8..HDR] == n;
    assert packet[..HDR + len] == Encode(Packet(config, key, MaskPts(ptsUs), data));
    st, taken := WriteFull(out, packet[..HDR + len]);
  }

  /** One demuxing step over the bytes still to come. */
  datatype Demuxed = Got(p: Packet, rest: seq<byte>) | Malformed | Short

  function DemuxOne(s: seq<byte>): (d: Demuxed)
    ensures d.Got? ==> |d.rest| < |s| && Sane(d.p)
  {
    if |s| < HDR then Short else
    var flags := Be64(s);
    var len := Be32(s[8..]);
    if len == 0 || len > MAX_LEN then Malformed else
    if |s| < HDR + len then Short else
    Got(Packet(flags >= 0x8000_0000_0000_0000, flags / 0x4000_0000_0000_0000 % 2 == 1, flags % 0x4000_0000_0000_0000, s[HDR..HDR + len]), s[HDR + len..])
  }

  /** How a stream ended for its reader. */
  datatype End = EndShort | EndMalformed

  function DemuxAll(s: seq<byte>): (r: (seq<Packet>, End))
    decreases |s|
  {
    match DemuxOne(s)
    case Short => ([], EndShort)
    case Malformed => ([], EndMalformed)
    case Got(p, rest) =>
      var (ps, e) := DemuxAll(rest);
      ([p] + ps, e)
  }

  /** The header alone gives the words that the whole stream gives. */
  lemma HeaderRead(h: seq<byte>, all: seq<byte>)
    requires HDR <= |all| && h == all[..HDR]
    ensures Be64(h) == Be64(all) && Be32(h[8..]) == Be32(all[8..])
  {
    assert h[..4] == all[..4] && h[..8] == all[..8];
    BePrefix(h, all);
    assert h[8..][..4] == h[8..12] == all[8..12] == all[8..][..4];
    BePrefix(h[8..], all[8..]);
  }

  /**
   `rc_demux_read_packet`: reads one packet into a buffer that is regrown when too small.
   On a socket without hard errors its outcome is DemuxOne of the bytes to come, whatever the fragmentation.
   */
  method ReadPacket(s: Socket, buf: array<byte>) returns (st: Status, nbuf: array<byte>, len: nat, config: bool, key: bool, pts: nat)
    modifies s`answers, s`incoming, buf
    ensures nbuf == buf || fresh(nbuf)
    ensures st in {Ok, ErrConnect, ErrProtocol}
    ensures st == Ok ==> len <= nbuf.Length
    ensures st == Ok ==> DemuxOne(old(s.incoming)) == Got(Packet(config, key, pts, nbuf[..len]), s.incoming)
    ensures st == ErrProtocol ==> DemuxOne(old(s.incoming)) == Malformed
    ensures st == ErrConnect && old(s.Reliable()) ==> DemuxOne(old(s.incoming)) == Short
    ensures old(s.Reliable()) ==> s.Reliable()
  {
    hide Be64, Be32;
    nbuf, len, config, key, pts := buf, 0, false, false, 0;
    var hdr := new byte[HDR];
    st := ReadFull(s, hdr, 0, HDR);
    if st != Ok { return; }
    ghost var all := old(s.incoming);
    var h := hdr[..];
    assert h == hdr[0..HDR] == all[..HDR];
    var flags := Be64(h);
    var n := Be32(h[8..]);
    HeaderRead(h, all);
    config := flags >= 0x8000_0000_0000_0000;
    key := flags / 0x4000_0000_0000_0000 % 2 == 1;
    pts := flags % 0x4000_0000_0000_0000;
    if n == 0 || n > MAX_LEN {
      return ErrProtocol, nbuf, 0, config, key, pts;
    }
    if nbuf.Length < n {
      nbuf := new byte[n];
    }
    st := ReadFull(s, nbuf, 0, n);
    if st == Ok {
      len := n;
      assert nbuf[..n] == nbuf[0..n] == all[HDR..][..n] == all[HDR..HDR + n];
      assert all[HDR..][n..] == all[HDR + n..];
    }
  }

  // ---- Lemmas

  lemma DemuxEncode(p: Packet, rest: seq<byte>)
    requires Sane(p)
    ensures DemuxOne(Encode(p) + rest) == Got(p, rest)
  {
    hide Put64, Put32, Be64, Be32, Flags;
    var flags := Flags(p.config, p.key, p.pts);
    var s := Encode(p) + rest;
    assert s[..8] == Put64(flags) && s[8..12] == Put32(|p.data|);
    ReadBack(flags, |p.data|, s);
    assert s[HDR..HDR + |p.data|] == p.data;
    assert s[HDR + |p.data|..] == rest;
  }

  /** A length the demuxer refuses is refused before any payload byte is looked at. */
  lemma DemuxRefuses(p: Packet, rest: seq<byte>)
    requires p.pts < 0x4000_0000_0000_0000 && |p.data| < 0x1_0000_0000 && !(1 <= |p.data| <= MAX_LEN)
    ensures DemuxOne(Encode(p) + rest) == Malformed
  {
    hide Put64, Put32, Be64, Be32, Flags;
    var s := Encode(p) + rest;
    assert s[..8] == Put64(Flags(p.config, p.key, p.pts)) && s[8..12] == Put32(|p.data|);
    ReadBack(Flags(p.config, p.key, p.pts), |p.data|, s);
  }

  /** Round trip: any sequence of sane packets, followed by anything, is demuxed to the same packets. */
  lemma {:induction false} RoundTrip(ps: seq<Packet>, tail: seq<byte>)
    requires AllSane(ps)
    ensures DemuxAll(EncodeAll(ps) + tail) == (ps + DemuxAll(tail).0, DemuxAll(tail).1)
  {
    hide Encode, DemuxOne;
    if ps == [] {
      assert EncodeAll(ps) + tail == tail;
      assert ps + DemuxAll(tail).0 == DemuxAll(tail).0;
    } else {
      var rest := EncodeAll(ps[1..]) + tail;
      assert EncodeAll(ps) + tail == Encode(ps[0]) + rest;
      DemuxEncode(ps[0], rest);
      RoundTrip(ps[1..], tail);
      assert [ps[0]] + (ps[1..] + DemuxAll(tail).0) == ps + DemuxAll(tail).0;
    }
  }

  /** A stream round-trips exactly when every packet in it is sane. */
  lemma {:induction false} RoundTripIff(ps: seq<Packet>)
    requires forall i :: 0 <= i < |ps| ==> ps[i].pts < 0x4000_0000_0000_0000 && |ps[i].data| < 0x1_0000_0000
    ensures DemuxAll(EncodeAll(ps)).0 == ps <==> AllSane(ps)
  {
    if AllSane(ps) {
      RoundTrip(ps, []);
      assert EncodeAll(ps) + [] == EncodeAll(ps);
      assert ps + [] == ps;
    } else {
      DemuxSane(EncodeAll(ps));
    }
  }

  lemma {:induction false} DemuxSane(s: seq<byte>)
    ensures AllSane(DemuxAll(s).0)
    decreases |s|
  {
    match DemuxOne(s)
    case Got(p, rest) => DemuxSane(rest);
    case _ =>
  }

  /** The number of packets that lie entirely within the first n bytes. */
  function Complete(ps: seq<Packet>, n: nat): (c: nat)
    requires AllSane(ps)
    ensures c <= |ps|
  {
    if ps == [] || n < |Encode(ps[0])| then 0 else 1 + Complete(ps[1..], n - |Encode(ps[0])|)
  }

  /** Complete counts exactly: the first c packets fit in n bytes and one more would not. */
  lemma {:induction false} CompleteIsMaximal(ps: seq<Packet>, n: nat)
    requires AllSane(ps)
    ensures |EncodeAll(ps[..Complete(ps, n)])| <= n
    ensures Complete(ps, n) < |ps| ==> n < |EncodeAll(ps[..Complete(ps, n) + 1])|
  {
    hide Encode;
    var c := Complete(ps, n);
    if ps == [] {
      assert ps[..c] == [];
    } else if n < |Encode(ps[0])| {
      assert ps[..c] == [] && ps[..1] == [ps[0]];
      assert ps[..1][1..] == [];
    } else {
      CompleteIsMaximal(ps[1..], n - |Encode(ps[0])|);
      assert ps[..c][1..] == ps[1..][..c - 1];
      if c < |ps| {
        assert ps[..c + 1][1..] == ps[1..][..c];
      }
    }
  }

  /** Cutting the stream at any byte yields exactly the complete packets, then an error. */
  lemma {:induction false} Truncation(ps: seq<Packet>, n: nat)
    requires AllSane(ps) && n <= |EncodeAll(ps)|
    ensures DemuxAll(EncodeAll(ps)[..n]) == (ps[..Complete(ps, n)], EndShort)
  {
    hide Encode, DemuxOne;
    if ps == [] {
      assert EncodeAll(ps)[..n] == [];
      NothingLeft();
      assert ps[..0] == [];
    } else {
      var e, tail := Encode(ps[0]), EncodeAll(ps[1..]);
      if n < |e| {
        assert EncodeAll(ps)[..n] == e[..n];
        ShortHead(ps[0], n);
        assert ps[..0] == [];
      } else {
        assert EncodeAll(ps)[..n] == e + tail[..n - |e|];
        DemuxEncode(ps[0], tail[..n - |e|]);
        Truncation(ps[1..], n - |e|);
        var c := Complete(ps[1..], n - |e|);
        assert [ps[0]] + ps[1..][..c] == ps[..c + 1];
      }
    }
  }

  lemma NothingLeft()
    ensures DemuxOne([]) == Short
  {
  }

  lemma ShortHead(p: Packet, n: nat)
    requires Sane(p) && n < |Encode(p)|
    ensures DemuxOne(Encode(p)[..n]) == Short
  {
    hide Put64, Put32, Be64, Be32, Flags;
    var s := Encode(p)[..n];
    if n >= HDR {
      assert s[..8] == Put64(Flags(p.config, p.key, p.pts)) && s[8..12] == Put32(|p.data|);
      ReadBack(Flags(p.config, p.key, p.pts), |p.data|, s);
    }
  }

  /** The whole reading loop of a consumer, over any fragmentation of a stream without hard errors. */
  method ReadAll(s: Socket) returns (ps: seq<Packet>, st: Status)
    requires s.Reliable()
    modifies s`answers, s`incoming
    ensures (ps, if st == ErrProtocol then EndMalformed else EndShort) == DemuxAll(old(s.incoming))
    ensures st in {ErrConnect, ErrProtocol}
  {
    hide DemuxOne;
    ps := [];
    var buf := new byte[0];
    assert [] + DemuxAll(s.incoming).0 == DemuxAll(s.incoming).0;
    while true
      invariant s.Reliable() && fresh(buf)
      invariant DemuxAll(old(s.incoming)) == (ps + DemuxAll(s.incoming).0, DemuxAll(s.incoming).1)
      decreases |s.incoming|
    {
      var len, config, key, pts;
      ghost var before := s.incoming;
      st, buf, len, config, key, pts := ReadPacket(s, buf);
      if st != Ok {
        assert DemuxAll(before).0 == [];
        assert ps + [] == ps;
        return;
      }
      var p := Packet(config, key, pts, buf[..len]);
      assert DemuxAll(before) == ([p] + DemuxAll(s.incoming).0, DemuxAll(s.incoming).1);
      assert ps + ([p] + DemuxAll(s.incoming).0) == ps + [p] + DemuxAll(s.incoming).0;
      ps := ps + [p];
    }
  }
}
