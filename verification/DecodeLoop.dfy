/**
 The video loop of the desktop: codec configuration packets are cached and glued in front of the
 next picture, and a failing hardware decoder is replaced once by a software one.
 */
module DecodeLoop {
  import opened Bytes
  import opened Sockets
  import opened PacketStream

  /** One call of the decoder: which decoder, with what. Decoder 0 is the first, 1 its replacement. */
  datatype Feed = Feed(decoder: nat, data: seq<byte>, pts: nat)

  // ---- The specification, over the packets alone

  /** The configuration that arrived since the previous picture, if any: it can only be the packet just before. */
  function Prefix(ps: seq<Packet>, i: nat): seq<byte>
    requires i <= |ps|
  {
    if i > 0 && ps[i - 1].config then ps[i - 1].data else []
  }

  /** The newest configuration among the first i packets. */
  function Latest(ps: seq<Packet>, i: nat): (c: seq<byte>)
    requires i <= |ps|
  {
    if i == 0 then [] else if ps[i - 1].config then ps[i - 1].data else Latest(ps, i - 1)
  }

  /** What packet i makes the loop feed, when the hardware decoder fails at packet swapAt (-1: never). */
  function FeedsOf(ps: seq<Packet>, i: nat, swapAt: int): (f: seq<Feed>)
    requires i < |ps|
  {
    if ps[i].config then [] else
    [Feed(if 0 <= swapAt < i then 1 else 0, Prefix(ps, i) + ps[i].data, ps[i].pts)] +
    (if i == swapAt && Latest(ps, i) != [] then [Feed(1, Latest(ps, i) + ps[i].data, ps[i].pts)] else [])
  }

  function Expected(ps: seq<Packet>, n: nat, swapAt: int): (f: seq<Feed>)
    requires n <= |ps|
  {
    if n == 0 then [] else Expected(ps, n - 1, swapAt) + FeedsOf(ps, n - 1, swapAt)
  }

  // ---- The decoder, as an oracle

  /** How one feed ends: accepted or not, and whether the hardware path is still in use afterwards. */
  datatype Verdict = Verdict(ok: bool, hw: bool)

  class Decoder {
    const id: nat
    var hw: bool
    var verdicts: seq<Verdict>
    var fed: seq<Feed>
    // What it answered to each feed: accepted or not, and whether the hardware path was in use afterwards.
    var said: seq<Verdict>

    constructor (id: nat, hw: bool, verdicts: seq<Verdict>)
      ensures this.id == id && this.hw == hw && fed == [] && said == []
    {
      this.id, this.hw, this.verdicts, fed, said := id, hw, verdicts, [], [];
    }

    /** `rc_decoder_feed`: any outcome; the hardware path can be lost here but never gained. */
    method Take(data: seq<byte>, pts: nat) returns (ok: bool)
      modifies this
      ensures hw ==> old(hw)
      ensures fed == old(fed) + [Feed(id, data, pts)] && said == old(said) + [Verdict(ok, hw)]
    {
      fed := fed + [Feed(id, data, pts)];
      ok := true;
      if verdicts != [] {
        ok, hw := verdicts[0].ok, hw && verdicts[0].hw;
        verdicts := verdicts[1..];
      }
      said := said + [Verdict(ok, hw)];
    }
  }

  /** The feeds that went to one decoder, in order. */
  function FedTo(feeds: seq<Feed>, decoder: nat): seq<Feed>
  {
    if feeds == [] then []
    else
      var n := |feeds| - 1;
      FedTo(feeds[..n], decoder) + if feeds[n].decoder == decoder then [feeds[n]] else []
  }

  lemma FedSnoc(feeds: seq<Feed>, f: Feed, decoder: nat)
    ensures FedTo(feeds + [f], decoder) == FedTo(feeds, decoder) + if f.decoder == decoder then [f] else []
  {
    assert (feeds + [f])[..|feeds|] == feeds;
  }

  /** The outcomes of the pictures among the packets from a to b, in order. */
  function Replies(ps: seq<Packet>, outcomes: seq<Verdict>, a: nat, b: nat): seq<Verdict>
    requires b <= |ps| == |outcomes|
  {
    if b <= a then []
    else Replies(ps, outcomes, a, b - 1) + if ps[b - 1].config then [] else [outcomes[b - 1]]
  }

  lemma {:induction false} RepliesGrow(ps: seq<Packet>, p: Packet, outcomes: seq<Verdict>, v: Verdict, a: nat, b: nat)
    requires b <= |ps| == |outcomes|
    ensures Replies(ps + [p], outcomes + [v], a, b) == Replies(ps, outcomes, a, b)
  {
    if b > a {
      RepliesGrow(ps, p, outcomes, v, a, b - 1);
    }
  }

  /** One more packet adds its outcome if it is a picture. */
  lemma RepliesSnoc(ps: seq<Packet>, p: Packet, outcomes: seq<Verdict>, v: Verdict, a: nat)
    requires a <= |ps| == |outcomes|
    ensures Replies(ps + [p], outcomes + [v], a, |ps| + 1) == Replies(ps, outcomes, a, |ps|) + if p.config then [] else [v]
  {
    RepliesGrow(ps, p, outcomes, v, a, |ps|);
  }

  /** One more packet, taken by the decoder current at it. */
  lemma RepliesNext(ps: seq<Packet>, p: Packet, outcomes: seq<Verdict>, v: Verdict, swapAt: int)
    requires |ps| == |outcomes| && -1 <= swapAt < |ps|
    ensures swapAt < 0 ==>
      Replies(ps + [p], outcomes + [v], 0, |ps| + 1) == Replies(ps, outcomes, 0, |ps|) + if p.config then [] else [v]
    ensures swapAt >= 0 ==>
      Replies(ps + [p], outcomes + [v], swapAt + 1, |ps| + 1) == Replies(ps, outcomes, swapAt + 1, |ps|) + if p.config then [] else [v]
    ensures swapAt >= 0 ==>
      Replies(ps + [p], outcomes + [v], 0, swapAt + 1) == Replies(ps, outcomes, 0, swapAt + 1)
  {
    if swapAt < 0 {
      RepliesSnoc(ps, p, outcomes, v, 0);
    } else {
      RepliesSnoc(ps, p, outcomes, v, swapAt + 1);
      RepliesGrow(ps, p, outcomes, v, 0, swapAt + 1);
    }
  }

  lemma NoReplies(ps: seq<Packet>, outcomes: seq<Verdict>)
    requires |ps| == |outcomes|
    ensures Replies(ps, outcomes, |ps|, |ps|) == []
  {
  }

  datatype Why = Stopped | StreamEnded | NoDecoder

  /** `ensure_cap`: the same buffer if it is large enough, else a larger one. */
  method EnsureCap(buf: array<byte>, need: nat) returns (r: array<byte>)
    ensures r.Length >= need && (r == buf || fresh(r))
  {
    r := buf;
    if buf.Length < need {
      r := new byte[need];
    }
  }

  /** memcpy between distinct buffers. */
  method Copy(dst: array<byte>, off: nat, src: array<byte>, len: nat)
    requires dst != src && len <= src.Length && off + len <= dst.Length
    modifies dst
    ensures dst[off..off + len] == src[..len]
    ensures dst[..off] == old(dst[..off])
  {
    for i := 0 to len
      invariant dst[off..off + i] == src[..i]
      invariant dst[..off] == old(dst[..off])
    {
      dst[off + i] := src[i];
    }
  }

  /** Glues the cached configuration in front of the current packet. */
  method Merge(merged: array<byte>, cfg: array<byte>, cfgLen: nat, buf: array<byte>, len: nat) returns (r: array<byte>)
    requires merged != cfg && merged != buf && cfgLen <= cfg.Length && len <= buf.Length
    modifies merged
    ensures r == merged || fresh(r)
    ensures r.Length >= cfgLen + len && r[..cfgLen + len] == cfg[..cfgLen] + buf[..len]
  {
    r := EnsureCap(merged, cfgLen + len);
    Copy(r, 0, cfg, cfgLen);
    assert r[..cfgLen] == r[0..cfgLen];
    Copy(r, cfgLen, buf, len);
    assert r[..cfgLen + len] == r[..cfgLen] + r[cfgLen..cfgLen + len];
  }

  /** The swap happened at the picture the hardware decoder refused, and at no other. */
  ghost predicate SwapExact(ps: seq<Packet>, outcomes: seq<Verdict>, swapAt: int)
  {
    && |outcomes| == |ps| && -1 <= swapAt < |ps|
    && (swapAt >= 0 ==> !ps[swapAt].config)
    && (forall i :: 0 <= i < |ps| && !ps[i].config ==> (outcomes[i] == Verdict(false, true) <==> i == swapAt))
  }

  /** The variables of `net_thread_fn`. */
  class Loop {
    var buf: array<byte>       // the current packet
    var cfg: array<byte>       // copy of the newest configuration
    var cfgLen: nat
    var merged: array<byte>    // configuration and packet glued together
    var needCfg: bool
    const first: Decoder
    const replacement: Decoder?
    var decoder: Decoder
    var feeds: seq<Feed>
    // History: the packets handled, how the decoder took each, and the packet of the swap.
    ghost var ps: seq<Packet>
    ghost var outcomes: seq<Verdict>
    ghost var swapAt: int
    // What the decoders had been fed before.
    ghost const fed0: seq<Feed>
    ghost const fed1: seq<Feed>
    ghost const said0: seq<Verdict>
    ghost const said1: seq<Verdict>
    // The answer to the feed that primed the replacement, if there was one.
    ghost var primed: seq<Verdict>

    /** The outcomes are what the decoder current at each picture answered. */
    ghost predicate Answered()
      reads this, first, replacement
    {
      && |outcomes| == |ps| && swapAt < |ps| && |primed| <= 1
      && first.said == said0 + Replies(ps, outcomes, 0, if swapAt < 0 then |ps| else swapAt + 1)
      && (replacement != null ==> replacement.said == said1 + if swapAt < 0 then [] else primed + Replies(ps, outcomes, swapAt + 1, |ps|))
    }

    /** The log is what the decoders received: each decoder got exactly its own feeds, in order. */
    ghost predicate Delivered()
      reads this, first, replacement
    {
      && first.fed == fed0 + FedTo(feeds, 0)
      && (replacement != null ==> replacement.fed == fed1 + FedTo(feeds, 1))
    }

    ghost predicate Buffers()
      reads this
    {
      buf != cfg && buf != merged && cfg != merged && cfgLen <= cfg.Length
    }

    ghost predicate Decoders()
      reads this, first, replacement
    {
      && first.id == 0 && (replacement != null ==> replacement.id == 1 && !replacement.hw)
      && -1 <= swapAt
      && (swapAt < 0 ==> decoder == first)
      && (swapAt >= 0 ==> decoder == replacement)
    }

    /** The cache agrees with the packets seen so far. */
    ghost predicate Cached()
      reads this, cfg
    {
      && cfgLen <= cfg.Length && cfg[..cfgLen] == Latest(ps, |ps|)
      && (needCfg <==> (ps == [] || ps[|ps| - 1].config))
    }

    ghost predicate Valid()
      reads this, cfg, first, replacement
    {
      && Buffers() && Decoders() && Cached() && SwapExact(ps, outcomes, swapAt) && Delivered() && Answered()
      && feeds == Expected(ps, |ps|, swapAt)
    }

    constructor (first: Decoder, replacement: Decoder?)
      requires first.id == 0 && (replacement != null ==> replacement.id == 1 && !replacement.hw)
      ensures Valid() && ps == [] && fresh(buf) && fresh(cfg) && fresh(merged)
      ensures this.first == first && this.replacement == replacement && swapAt == -1
      ensures fed0 == first.fed && (replacement != null ==> fed1 == replacement.fed)
      ensures said0 == first.said && (replacement != null ==> said1 == replacement.said)
    {
      said0, said1, primed := first.said, if replacement == null then [] else replacement.said, [];
      fed0, fed1 := first.fed, if replacement == null then [] else replacement.fed;
      var b, c, m := new byte[0], new byte[0], new byte[0];
      buf, cfg, merged := b, c, m;
      cfgLen, needCfg := 0, true;
      this.first, this.replacement, decoder := first, replacement, first;
      feeds, ps, outcomes, swapAt := [], [], [], -1;
    }

    /** What the decoders received and answered, spelled out. */
    lemma Facts()
      requires Delivered() && Answered()
      ensures first.fed == fed0 + FedTo(feeds, 0) && (replacement != null ==> replacement.fed == fed1 + FedTo(feeds, 1))
      ensures |outcomes| == |ps| && swapAt < |ps| && |primed| <= 1
      ensures first.said == said0 + Replies(ps, outcomes, 0, if swapAt < 0 then |ps| else swapAt + 1)
      ensures replacement != null ==> replacement.said == said1 + if swapAt < 0 then [] else primed + Replies(ps, outcomes, swapAt + 1, |ps|)
    {
    }

    /** Handles the packet in buf; false when no decoder is left. */
    method OnPacket(len: nat, config: bool, key: bool, pts: nat) returns (alive: bool)
      requires Valid() && len <= buf.Length
      modifies this`cfg, this`cfgLen, this`merged, this`needCfg, this`decoder, this`feeds, this`ps, this`outcomes,
               this`swapAt, this`primed, cfg, merged, first, replacement
      ensures ps == old(ps) + [Packet(config, key, pts, old(buf[..len]))]
      ensures (cfg == old(cfg) || fresh(cfg)) && (merged == old(merged) || fresh(merged))
      ensures SwapExact(ps, outcomes, swapAt) && Delivered() && Answered()
      ensures first.hw ==> old(first.hw)
      ensures swapAt != old(swapAt) ==> old(swapAt) < 0 && old(first.hw)
      ensures alive ==> Valid()
      ensures !alive ==> replacement == null && swapAt == |ps| - 1 && !ps[|ps| - 1].config
      ensures !alive ==> feeds == Expected(ps, |ps| - 1, swapAt) + [FeedsOf(ps, |ps| - 1, swapAt)[0]]
    {
      hide Expected, FeedsOf, Latest, SwapExact, FedTo, Replies;
      alive := true;
      if config {
        OnConfig(len, key, pts);
      } else {
        alive := OnPicture(len, key, pts);
      }
    }

    /** The next packet of the stream, into the reused buffer. */
    method Fetch(s: Socket) returns (ok: bool, len: nat, config: bool, key: bool, pts: nat)
      requires Valid()
      modifies s`answers, s`incoming, this`buf, buf
      ensures Valid() && (buf == old(buf) || fresh(buf))
      ensures old(s.Reliable()) ==> s.Reliable()
      ensures ok ==> len <= buf.Length && |s.incoming| < |old(s.incoming)|
      ensures ok ==> DemuxAll(old(s.incoming)).0 == [Packet(config, key, pts, buf[..len])] + DemuxAll(s.incoming).0
      ensures !ok && old(s.Reliable()) ==> DemuxAll(old(s.incoming)).0 == []
    {
      hide DemuxOne, Expected, Latest, SwapExact, FedTo, Replies;
      var st;
      st, buf, len, config, key, pts := ReadPacket(s, buf);
      ok := st == Ok;
    }

    /** A configuration packet is copied aside. */
    method OnConfig(len: nat, key: bool, pts: nat)
      requires Valid() && len <= buf.Length
      modifies this`cfg, this`cfgLen, this`needCfg, this`ps, this`outcomes, cfg
      ensures Valid() && ps == old(ps) + [Packet(true, key, pts, old(buf[..len]))]
      ensures cfg == old(cfg) || fresh(cfg)
    {
      hide Expected, Latest, SwapExact, FedTo, Replies;
      ghost var p := Packet(true, key, pts, buf[..len]);
      Caches(ps, p, outcomes, swapAt);
      RepliesNext(ps, p, outcomes, Verdict(true, false), swapAt);
      Cache(len);
      ps, outcomes := ps + [p], outcomes + [Verdict(true, false)];
    }

    /** Copies the packet in buf aside as the configuration to glue next. */
    method Cache(len: nat)
      requires Buffers() && len <= buf.Length
      modifies this`cfg, this`cfgLen, this`needCfg, cfg
      ensures Buffers() && cfgLen == len && needCfg && cfg[..len] == buf[..len] && (cfg == old(cfg) || fresh(cfg))
    {
      cfg := EnsureCap(cfg, len);
      Copy(cfg, 0, buf, len);
      assert cfg[..len] == cfg[0..len];
      cfgLen, needCfg := len, true;
    }

    /** The bytes to feed for the picture in buf, glued to the configuration when one is due. */
    method Payload(len: nat) returns (data: seq<byte>)
      requires Buffers() && Cached() && len <= buf.Length
      modifies this`merged, merged
      ensures Buffers() && Cached() && (merged == old(merged) || fresh(merged))
      ensures data == Prefix(ps, |ps|) + buf[..len]
    {
      data := buf[..len];
      if needCfg && cfgLen > 0 {
        merged := Merge(merged, cfg, cfgLen, buf, len);
        data := merged[..cfgLen + len];
      }
    }

    /** Primes the replacement with the cached configuration and the failing packet. */
    method Prime(len: nat, pts: nat)
      requires Buffers() && Cached() && len <= buf.Length && replacement != null && decoder == replacement
      requires first.id == 0 && replacement.id == 1 && !replacement.hw && Delivered()
      modifies this`merged, this`feeds, merged, replacement
      ensures Delivered()
      ensures |replacement.said| >= |old(replacement.said)| && replacement.said[..|old(replacement.said)|] == old(replacement.said)
      ensures |replacement.said| == |old(replacement.said)| + if Latest(ps, |ps|) == [] then 0 else 1
      ensures Buffers() && Cached() && (merged == old(merged) || fresh(merged))
      ensures !replacement.hw
      ensures feeds == old(feeds) + if Latest(ps, |ps|) == [] then []
                                    else [Feed(1, Latest(ps, |ps|) + buf[..len], pts)]
    {
      hide Latest, FedTo, Replies;
      if cfgLen > 0 {
        merged := Merge(merged, cfg, cfgLen, buf, len);
        var _ := Give(merged[..cfgLen + len], pts);
      }
    }

    /** A picture goes to the current decoder; a hardware failure replaces that decoder. */
    method OnPicture(len: nat, key: bool, pts: nat) returns (alive: bool)
      requires Valid() && len <= buf.Length
      modifies this`merged, this`needCfg, this`decoder, this`feeds, this`ps, this`outcomes, this`swapAt, this`primed,
               merged, first, replacement
      ensures ps == old(ps) + [Packet(false, key, pts, old(buf[..len]))]
      ensures merged == old(merged) || fresh(merged)
      ensures SwapExact(ps, outcomes, swapAt) && Delivered() && Answered()
      ensures first.hw ==> old(first.hw)
      ensures swapAt != old(swapAt) ==> old(swapAt) < 0 && old(first.hw)
      ensures alive ==> Valid()
      ensures !alive ==> replacement == null && swapAt == |ps| - 1
      ensures !alive ==> feeds == Expected(ps, |ps| - 1, swapAt) + [FeedsOf(ps, |ps| - 1, swapAt)[0]]
    {
      hide Expected, FeedsOf, Prefix, Latest, SwapExact, FedTo, Replies;
      ghost var p := Packet(false, key, pts, buf[..len]);
      var ok := FeedCurrent(len, pts);
      if ok || !decoder.hw {
        ghost var v := Verdict(ok, decoder.hw);
        KeepsDecoder(ps, p, outcomes, v, swapAt);
        RepliesNext(ps, p, outcomes, v, swapAt);
        needCfg := false;
        ps, outcomes := ps + [p], outcomes + [v];
        alive := true;
      } else {
        alive := SwapDecoder(len, pts, p);
      }
    }

    /** Feeds the picture in buf to the current decoder. */
    method FeedCurrent(len: nat, pts: nat) returns (ok: bool)
      requires Buffers() && Decoders() && Cached() && Delivered() && len <= buf.Length
      modifies this`merged, this`feeds, merged, first, replacement
      ensures Delivered() && decoder.said == old(decoder.said) + [Verdict(ok, decoder.hw)]
      ensures decoder != first ==> first.said == old(first.said)
      ensures replacement != null && decoder != replacement ==> replacement.said == old(replacement.said)
      ensures Buffers() && Decoders() && Cached() && (merged == old(merged) || fresh(merged))
      ensures feeds == old(feeds) + [Feed(if swapAt < 0 then 0 else 1, Prefix(ps, |ps|) + buf[..len], pts)]
      ensures first.hw ==> old(first.hw)
      ensures decoder.hw ==> swapAt < 0
    {
      hide Prefix, Latest, FedTo, Replies;
      var data := Payload(len);
      ok := Give(data, pts);
    }

    /** One call of the current decoder, recorded. */
    method Give(data: seq<byte>, pts: nat) returns (ok: bool)
      requires Delivered() && first.id == 0 && (replacement != null ==> replacement.id == 1)
      requires decoder == first || decoder == replacement
      modifies this`feeds, decoder
      ensures Delivered() && feeds == old(feeds) + [Feed(decoder.id, data, pts)]
      ensures decoder.said == old(decoder.said) + [Verdict(ok, decoder.hw)]
      ensures decoder.hw ==> old(decoder.hw)
    {
      hide FedTo;
      FedSnoc(feeds, Feed(decoder.id, data, pts), 0);
      FedSnoc(feeds, Feed(decoder.id, data, pts), 1);
      ok := decoder.Take(data, pts);
      feeds := feeds + [Feed(decoder.id, data, pts)];
    }

    /** The hardware decoder has just refused the picture in buf. */
    method SwapDecoder(len: nat, pts: nat, ghost p: Packet) returns (alive: bool)
      requires Buffers() && Decoders() && Cached() && Delivered() && swapAt < 0 && SwapExact(ps, outcomes, swapAt)
      requires len <= buf.Length && !p.config && p.data == buf[..len] && p.pts == pts
      requires feeds == Expected(ps, |ps|, -1) + [Feed(0, Prefix(ps, |ps|) + p.data, p.pts)]
      requires |outcomes| == |ps| && first.said == said0 + Replies(ps, outcomes, 0, |ps|) + [Verdict(false, true)]
      requires |primed| <= 1 && (replacement != null ==> replacement.said == said1)
      modifies this`merged, this`needCfg, this`decoder, this`feeds, this`ps, this`outcomes, this`swapAt, this`primed,
               merged, replacement
      ensures ps == old(ps) + [p] && swapAt == |old(ps)|
      ensures merged == old(merged) || fresh(merged)
      ensures SwapExact(ps, outcomes, swapAt) && Delivered() && Answered()
      ensures alive <==> replacement != null
      ensures alive ==> Valid()
      ensures !alive ==> feeds == Expected(ps, |ps| - 1, swapAt) + [FeedsOf(ps, |ps| - 1, swapAt)[0]]
    {
      hide Expected, FeedsOf, Prefix, Latest, SwapExact, FedTo, Replies;
      ghost var n, v := |ps|, Verdict(false, true);
      Swaps(ps, p, outcomes, v);
      SwapFeeds(ps, p);
      RepliesSnoc(ps, p, outcomes, v, 0);
      NoReplies(ps + [p], outcomes + [v]);
      alive := replacement != null;
      if replacement != null {
        decoder := replacement;
        Prime(len, pts);
        primed := replacement.said[|said1|..];
      }
      swapAt, needCfg := n, false;
      ps, outcomes := ps + [p], outcomes + [v];
    }
  }

  /**
   `net_thread_fn`. Whatever the fragmentation of the stream and the behaviour of the decoders, the
   feeds are those the packets alone determine, given the one packet (if any) at which the
   hardware decoder failed.
   */
  method Run(s: Socket, first: Decoder, replacement: Decoder?, stopAfter: nat)
    returns (ghost ps: seq<Packet>, feeds: seq<Feed>, ghost swapAt: int, ghost outcomes: seq<Verdict>, ghost primed: seq<Verdict>,
             why: Why)
    requires first.id == 0 && (replacement != null ==> replacement.id == 1 && !replacement.hw)
    modifies s`answers, s`incoming, first, replacement
    // The packets handled are a prefix of the stream; all of it if the loop ended with the stream.
    ensures ps <= DemuxAll(old(s.incoming)).0
    ensures why == StreamEnded && old(s.Reliable()) ==> ps == DemuxAll(old(s.incoming)).0
    ensures why == Stopped ==> |ps| == stopAfter
    // They were fed as specified, and swapped once at most.
    ensures SwapExact(ps, outcomes, swapAt) && (swapAt >= 0 ==> old(first.hw))
    ensures why != NoDecoder ==> feeds == Expected(ps, |ps|, swapAt)
    // Each decoder itself received exactly its feeds.
    ensures first.fed == old(first.fed) + FedTo(feeds, 0)
    ensures replacement != null ==> replacement.fed == old(replacement.fed) + FedTo(feeds, 1)
    // The outcomes are their answers: the first decoder's up to the swap, the replacement's after its priming.
    ensures |outcomes| == |ps| && first.said == old(first.said) + Replies(ps, outcomes, 0, if swapAt < 0 then |ps| else swapAt + 1)
    ensures replacement != null && swapAt < 0 ==> replacement.said == old(replacement.said)
    ensures |primed| <= 1
    ensures replacement != null && swapAt >= 0 ==>
      replacement.said == old(replacement.said) + (primed + Replies(ps, outcomes, swapAt + 1, |ps|))
    // Without a replacement the loop ends at the failing picture, fed once.
    ensures why == NoDecoder ==> replacement == null && swapAt == |ps| - 1 >= 0
    ensures why == NoDecoder ==> feeds == Expected(ps, |ps| - 1, swapAt) + [FeedsOf(ps, |ps| - 1, swapAt)[0]]
  {
    hide DemuxAll, Expected, FeedsOf, Latest, SwapExact, FedTo, Replies, Loop.Buffers, Loop.Decoders, Loop.Cached, Loop.Delivered, Loop.Answered;
    var l := new Loop(first, replacement);
    var rounds := 0;
    assert l.ps + DemuxAll(s.incoming).0 == DemuxAll(s.incoming).0;
    while true
      invariant l.Valid() && l.first == first && l.replacement == replacement
      invariant l.fed0 == old(first.fed) && (replacement != null ==> l.fed1 == old(replacement.fed))
      invariant l.said0 == old(first.said) && (replacement != null ==> l.said1 == old(replacement.said))
      invariant fresh(l) && fresh(l.buf) && fresh(l.cfg) && fresh(l.merged)
      invariant old(s.Reliable()) ==> s.Reliable()
      invariant DemuxAll(old(s.incoming)).0 == l.ps + DemuxAll(s.incoming).0
      invariant rounds == |l.ps| && rounds <= stopAfter
      invariant l.swapAt >= 0 ==> old(first.hw)
      invariant first.hw ==> old(first.hw)
      decreases |s.incoming|
    {
      l.Facts();
      ps, feeds, swapAt, outcomes, primed := l.ps, l.feeds, l.swapAt, l.outcomes, l.primed;
      if rounds == stopAfter {
        why := Stopped;
        return;
      }
      var ok, len, config, key, pts := l.Fetch(s);
      if !ok {
        why := StreamEnded;
        return;
      }
      rounds := rounds + 1;
      ghost var p := Packet(config, key, pts, l.buf[..len]);
      assert ps + ([p] + DemuxAll(s.incoming).0) == ps + [p] + DemuxAll(s.incoming).0;
      var alive := l.OnPacket(len, config, key, pts);
      if !alive {
        l.Facts();
        ps, feeds, swapAt, outcomes, primed, why := l.ps, l.feeds, l.swapAt, l.outcomes, l.primed, NoDecoder;
        return;
      }
    }
  }

  // ---- Lemmas about the specification

  /** The specification of the first n packets does not depend on what follows. */
  lemma {:induction false} Grow(ps: seq<Packet>, p: Packet, n: nat, swapAt: int)
    requires n <= |ps|
    ensures Expected(ps + [p], n, swapAt) == Expected(ps, n, swapAt)
    ensures Latest(ps + [p], n) == Latest(ps, n) && Prefix(ps + [p], n) == Prefix(ps, n)
  {
    if n > 0 {
      Grow(ps, p, n - 1, swapAt);
    }
  }

  /** Before the swap, the specification does not depend on where the swap is. */
  lemma {:induction false} Before(ps: seq<Packet>, n: nat, a: int, b: int)
    requires n <= |ps| && !(0 <= a < n) && !(0 <= b < n)
    ensures Expected(ps, n, a) == Expected(ps, n, b)
  {
    if n > 0 {
      Before(ps, n - 1, a, b);
    }
  }

  /** A configuration adds no feed and becomes the newest one. */
  lemma Caches(ps: seq<Packet>, p: Packet, outcomes: seq<Verdict>, swapAt: int)
    requires SwapExact(ps, outcomes, swapAt) && p.config
    ensures SwapExact(ps + [p], outcomes + [Verdict(true, false)], swapAt)
    ensures Expected(ps + [p], |ps| + 1, swapAt) == Expected(ps, |ps|, swapAt)
    ensures Latest(ps + [p], |ps| + 1) == p.data
  {
    Grow(ps, p, |ps|, swapAt);
  }

  /** A picture taken without a swap adds one feed. */
  lemma KeepsDecoder(ps: seq<Packet>, p: Packet, outcomes: seq<Verdict>, v: Verdict, swapAt: int)
    requires SwapExact(ps, outcomes, swapAt) && !p.config && v != Verdict(false, true)
    ensures SwapExact(ps + [p], outcomes + [v], swapAt)
    ensures Expected(ps + [p], |ps| + 1, swapAt) ==
      Expected(ps, |ps|, swapAt) + [Feed(if swapAt < 0 then 0 else 1, Prefix(ps, |ps|) + p.data, p.pts)]
    ensures Latest(ps + [p], |ps| + 1) == Latest(ps, |ps|)
  {
    Grow(ps, p, |ps|, swapAt);
  }

  /** The feed of a refused picture, and the priming one, on top of what was fed before. */
  lemma SwapParts(ps: seq<Packet>, p: Packet)
    requires !p.config
    ensures Expected(ps + [p], |ps|, |ps|) == Expected(ps, |ps|, -1)
    ensures FeedsOf(ps + [p], |ps|, |ps|) == [Feed(0, Prefix(ps, |ps|) + p.data, p.pts)] +
      if Latest(ps, |ps|) == [] then [] else [Feed(1, Latest(ps, |ps|) + p.data, p.pts)]
    ensures Latest(ps + [p], |ps| + 1) == Latest(ps, |ps|)
  {
    Grow(ps, p, |ps|, -1);
    Before(ps + [p], |ps|, -1, |ps|);
  }

  /** A picture the hardware decoder refuses is the one of the swap. */
  lemma Swaps(ps: seq<Packet>, p: Packet, outcomes: seq<Verdict>, v: Verdict)
    requires SwapExact(ps, outcomes, -1) && !p.config && v == Verdict(false, true)
    ensures SwapExact(ps + [p], outcomes + [v], |ps|)
    ensures Latest(ps + [p], |ps| + 1) == Latest(ps, |ps|)
  {
    SwapParts(ps, p);
  }

  /** The feeds around a swap, with and without the priming one. */
  lemma SwapFeeds(ps: seq<Packet>, p: Packet)
    requires !p.config
    ensures var n := |ps|;
      var feeds := Expected(ps, n, -1) + [Feed(0, Prefix(ps, n) + p.data, p.pts)];
      && Expected(ps + [p], n, n) + [FeedsOf(ps + [p], n, n)[0]] == feeds
      && Expected(ps + [p], n + 1, n) ==
         feeds + if Latest(ps, n) == [] then [] else [Feed(1, Latest(ps, n) + p.data, p.pts)]
  {
    hide Expected, FeedsOf, Prefix, Latest;
    var n := |ps|;
    SwapParts(ps, p);
    ExpectedStep(ps + [p], n, n);
    Regroup(Expected(ps, n, -1), [Feed(0, Prefix(ps, n) + p.data, p.pts)],
            if Latest(ps, n) == [] then [] else [Feed(1, Latest(ps, n) + p.data, p.pts)]);
  }

  lemma ExpectedStep(ps: seq<Packet>, n: nat, swapAt: int)
    requires n < |ps|
    ensures Expected(ps, n + 1, swapAt) == Expected(ps, n, swapAt) + FeedsOf(ps, n, swapAt)
  {
  }

  /** The pictures among the first n packets, in order. */
  function Pictures(ps: seq<Packet>, n: nat): (r: seq<nat>)
    requires n <= |ps|
    ensures forall k :: 0 <= k < |r| ==> r[k] < n
  {
    if n == 0 then [] else if ps[n - 1].config then Pictures(ps, n - 1) else Pictures(ps, n - 1) + [n - 1]
  }

  /** Pictures lists exactly the pictures, in increasing order. */
  lemma {:induction false} PicturesExact(ps: seq<Packet>, n: nat)
    requires n <= |ps|
    ensures forall i :: 0 <= i < n ==> (i in Pictures(ps, n) <==> !ps[i].config)
    ensures forall j, k :: 0 <= j < k < |Pictures(ps, n)| ==> Pictures(ps, n)[j] < Pictures(ps, n)[k]
  {
    if n > 0 {
      PicturesExact(ps, n - 1);
      var r := Pictures(ps, n - 1);
      assert n - 1 !in r;
    }
  }

  /** Feeds other than the priming one. */
  function Arrivals(ps: seq<Packet>, n: nat, swapAt: int): (f: seq<Feed>)
    requires n <= |ps|
    ensures |f| == |Pictures(ps, n)|
  {
    seq(|Pictures(ps, n)|, k requires 0 <= k < |Pictures(ps, n)| =>
      var i := Pictures(ps, n)[k];
      Feed(if 0 <= swapAt < i then 1 else 0, Prefix(ps, i) + ps[i].data, ps[i].pts))
  }

  /** The feed that primes the replacement decoder, if there is a configuration to prime it with. */
  function Priming(ps: seq<Packet>, swapAt: int): (f: seq<Feed>)
    requires swapAt < |ps|
    ensures |f| <= 1
  {
    if swapAt < 0 || ps[swapAt].config || Latest(ps, swapAt) == [] then []
    else [Feed(1, Latest(ps, swapAt) + ps[swapAt].data, ps[swapAt].pts)]
  }

  lemma {:induction false} BeforeSwap(ps: seq<Packet>, n: nat, swapAt: int)
    requires n <= |ps| && !(0 <= swapAt < n)
    ensures Expected(ps, n, swapAt) == Arrivals(ps, n, swapAt)
  {
    hide Arrivals, Prefix, Latest;
    if n > 0 {
      BeforeSwap(ps, n - 1, swapAt);
      ArrivalsSnoc(ps, n, swapAt);
    }
  }

  /**
   Each picture is fed exactly once to the decoder current on its arrival, in order; the only other
   feed is the one that primes the replacement, directly after the feed that failed.
   */
  lemma {:induction false} OncePerPicture(ps: seq<Packet>, n: nat, swapAt: int)
    requires n <= |ps| && 0 <= swapAt < n && !ps[swapAt].config
    ensures var k := |Pictures(ps, swapAt)| + 1;
      && k <= |Arrivals(ps, n, swapAt)|
      && Expected(ps, n, swapAt) == Arrivals(ps, n, swapAt)[..k] + Priming(ps, swapAt) + Arrivals(ps, n, swapAt)[k..]
  {
    hide Arrivals, FeedsOf, Priming, Pictures;
    if swapAt == n - 1 {
      AtSwap(ps, swapAt);
    } else {
      OncePerPicture(ps, n - 1, swapAt);
      var k := |Pictures(ps, swapAt)| + 1;
      AfterSwap(ps, n, swapAt, k);
      Regroup(Arrivals(ps, n - 1, swapAt)[..k] + Priming(ps, swapAt), Arrivals(ps, n - 1, swapAt)[k..],
              FeedsOf(ps, n - 1, swapAt));
    }
  }

  lemma Regroup(a: seq<Feed>, b: seq<Feed>, c: seq<Feed>)
    ensures a + b + c == a + (b + c)
  {
  }

  lemma AtSwap(ps: seq<Packet>, i: nat)
    requires i < |ps| && !ps[i].config
    ensures var k := |Pictures(ps, i)| + 1;
      && k == |Arrivals(ps, i + 1, i)|
      && Expected(ps, i + 1, i) == Arrivals(ps, i + 1, i)[..k] + Priming(ps, i) + Arrivals(ps, i + 1, i)[k..]
  {
    hide Arrivals, Latest, Prefix, Expected;
    var k := |Pictures(ps, i)| + 1;
    ExpectedStep(ps, i, i);
    BeforeSwap(ps, i, i);
    ArrivalsSnoc(ps, i + 1, i);
    var a := Arrivals(ps, i + 1, i);
    assert a[..k] == a && a[k..] == [];
  }

  lemma AfterSwap(ps: seq<Packet>, n: nat, swapAt: int, k: nat)
    requires n <= |ps| && 0 <= swapAt < n - 1 && k <= |Arrivals(ps, n - 1, swapAt)|
    ensures k <= |Arrivals(ps, n, swapAt)|
    ensures Arrivals(ps, n, swapAt)[..k] == Arrivals(ps, n - 1, swapAt)[..k]
    ensures Arrivals(ps, n, swapAt)[k..] == Arrivals(ps, n - 1, swapAt)[k..] + FeedsOf(ps, n - 1, swapAt)
  {
    ArrivalsSnoc(ps, n, swapAt);
  }

  lemma ArrivalsSnoc(ps: seq<Packet>, n: nat, swapAt: int)
    requires 0 < n <= |ps|
    ensures Arrivals(ps, n, swapAt) == Arrivals(ps, n - 1, swapAt) +
      if ps[n - 1].config then []
      else [Feed(if 0 <= swapAt < n - 1 then 1 else 0, Prefix(ps, n - 1) + ps[n - 1].data, ps[n - 1].pts)]
  {
  }

  /** The prefix of a picture is the newest configuration exactly when one arrived since the previous picture. */
  lemma PrefixIsLatest(ps: seq<Packet>, i: nat)
    requires i < |ps| && AllSane(ps)
    ensures Prefix(ps, i) == (if i > 0 && ps[i - 1].config then Latest(ps, i) else [])
    ensures Prefix(ps, i) != [] <==> exists c :: 0 <= c < i && ps[c].config && forall j :: c < j < i ==> ps[j].config
  {
    if i > 0 && ps[i - 1].config {
      assert Sane(ps[i - 1]);
    }
  }
}
