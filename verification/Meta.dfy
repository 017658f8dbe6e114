/** The handshake records: device_meta on the video socket, audio_meta on the audio socket. */
module Meta {
  import opened Bytes
  import opened Sockets

  const META_MAGIC := 0x52434E31
  const AUDIO_MAGIC := 0x52434E41
  const VERSION := 1
  const NAME_LEN := 64
  const META_LEN := 4 + 2 + 4 + 2 + 2 + NAME_LEN
  const AUDIO_META_LEN := 4 + 4 + 4 + 1

  datatype DeviceMeta = DeviceMeta(version: nat, codecId: nat, width: nat, height: nat, name: seq<byte>)
  datatype AudioMeta = AudioMeta(codecId: nat, sampleRate: nat, channels: nat)

  function Zeros(n: nat): (z: seq<byte>)
    ensures |z| == n && forall i :: 0 <= i < n ==> z[i] == 0
  {
    seq(n, _ => 0)
  }

  /** The fixed-size name field: at most 63 bytes of the name, then NULs. */
  function NameField(name: seq<byte>): (f: seq<byte>)
    ensures |f| == NAME_LEN && f[NAME_LEN - 1] == 0
  {
    var kept := if |name| <= NAME_LEN - 1 then name else name[..NAME_LEN - 1];
    kept + Zeros(NAME_LEN - |kept|)
  }

  /** `writeDeviceMeta`. */
  function EncodeDeviceMeta(codecId: nat, width: nat, height: nat, name: seq<byte>): (s: seq<byte>)
    ensures |s| == META_LEN
  {
    Put32(META_MAGIC) + Put16(VERSION) + Put32(codecId) + Put16(width) + Put16(height) + NameField(name)
  }

  /** `writeAudioMeta`. */
  function EncodeAudioMeta(codecId: nat, sampleRate: nat, channels: nat): (s: seq<byte>)
    ensures |s| == AUDIO_META_LEN
  {
    Put32(AUDIO_MAGIC) + Put32(codecId) + Put32(sampleRate) + [channels % 256]
  }

  datatype MetaRead<+T> = Read(meta: T, rest: seq<byte>) | BadMagic(rest: seq<byte>) | TooShort

  function DecodeDeviceMeta(s: seq<byte>): (r: MetaRead<DeviceMeta>)
  {
    if |s| < META_LEN then TooShort else
    if Be32(s) != META_MAGIC then BadMagic(s[META_LEN..]) else
    Read(DeviceMeta(Be16(s[4..]), Be32(s[6..]), Be16(s[10..]), Be16(s[12..]),
                    s[14..META_LEN - 1] + [0]), s[META_LEN..])
  }

  function DecodeAudioMeta(s: seq<byte>): (r: MetaRead<AudioMeta>)
  {
    if |s| < AUDIO_META_LEN then TooShort else
    if Be32(s) != AUDIO_MAGIC then BadMagic(s[AUDIO_META_LEN..]) else
    Read(AudioMeta(Be32(s[4..]), Be32(s[8..]), s[12]), s[AUDIO_META_LEN..])
  }

  /** `rc_demux_read_meta`: 78 bytes, then the magic check. */
  method ReadDeviceMeta(s: Socket) returns (st: Status, m: DeviceMeta)
    modifies s`answers, s`incoming
    ensures st in {Ok, ErrConnect, ErrProtocol}
    ensures st == Ok ==> DecodeDeviceMeta(old(s.incoming)) == Read(m, s.incoming)
    ensures st == ErrProtocol ==> DecodeDeviceMeta(old(s.incoming)) == BadMagic(s.incoming)
    ensures st == ErrConnect && old(s.Reliable()) ==> DecodeDeviceMeta(old(s.incoming)) == TooShort
    ensures old(s.Reliable()) ==> s.Reliable()
  {
    m := DeviceMeta(0, 0, 0, 0, []);
    var hdr := new byte[META_LEN];
    st := ReadFull(s, hdr, 0, META_LEN);
    if st != Ok { return; }
    var h := hdr[..];
    ghost var all := old(s.incoming);
    assert h == hdr[0..META_LEN] == all[..META_LEN];
    assert forall i {:trigger h[i]} :: 0 <= i < META_LEN ==> h[i] == all[i];
    m := DeviceMeta(Be16(h[4..]), Be32(h[6..]), Be16(h[10..]), Be16(h[12..]), h[14..META_LEN - 1] + [0]);
    st := if Be32(h) != META_MAGIC then ErrProtocol else Ok;
    assert h[14..META_LEN - 1] == all[14..META_LEN - 1];
  }

  /** `rc_demux_read_audio_meta`. */
  method ReadAudioMeta(s: Socket) returns (st: Status, m: AudioMeta)
    modifies s`answers, s`incoming
    ensures st in {Ok, ErrConnect, ErrProtocol}
    ensures st == Ok ==> DecodeAudioMeta(old(s.incoming)) == Read(m, s.incoming)
    ensures st == ErrProtocol ==> DecodeAudioMeta(old(s.incoming)) == BadMagic(s.incoming)
    ensures st == ErrConnect && old(s.Reliable()) ==> DecodeAudioMeta(old(s.incoming)) == TooShort
    ensures old(s.Reliable()) ==> s.Reliable()
  {
    m := AudioMeta(0, 0, 0);
    var hdr := new byte[AUDIO_META_LEN];
    st := ReadFull(s, hdr, 0, AUDIO_META_LEN);
    if st != Ok { return; }
    var h := hdr[..];
    ghost var all := old(s.incoming);
    assert h == hdr[0..AUDIO_META_LEN] == all[..AUDIO_META_LEN];
    assert forall i {:trigger h[i]} :: 0 <= i < AUDIO_META_LEN ==> h[i] == all[i];
    m := AudioMeta(Be32(h[4..]), Be32(h[8..]), h[12]);
    st := if Be32(h) != AUDIO_MAGIC then ErrProtocol else Ok;
  }

  lemma At32(v: nat, s: seq<byte>, off: nat)
    requires off + 4 <= |s| && s[off..off + 4] == Put32(v)
    ensures Be32(s[off..]) == v % 0x1_0000_0000
  {
    Put32Be32(v);
    assert s[off..][..4] == s[off..off + 4];
    BePrefix(s[off..], Put32(v));
  }

  lemma At16(v: nat, s: seq<byte>, off: nat)
    requires off + 2 <= |s| && s[off..off + 2] == Put16(v)
    ensures Be16(s[off..]) == v % 0x1_0000
  {
    Put16Be16(v);
    assert s[off] == Put16(v)[0] && s[off + 1] == Put16(v)[1] by {
      assert s[off..off + 2][0] == s[off] && s[off..off + 2][1] == s[off + 1];
    }
  }

  /** The reader recovers every field the writer stored, truncated to the width of its field. */
  lemma DeviceMetaRoundTrip(codecId: nat, width: nat, height: nat, name: seq<byte>, rest: seq<byte>)
    ensures DecodeDeviceMeta(EncodeDeviceMeta(codecId, width, height, name) + rest)
         == Read(DeviceMeta(VERSION, codecId % 0x1_0000_0000, width % 0x1_0000, height % 0x1_0000, NameField(name)), rest)
  {
    var e := EncodeDeviceMeta(codecId, width, height, name);
    var s := e + rest;
    assert s[0..4] == Put32(META_MAGIC) && s[0..] == s;
    assert s[4..6] == Put16(VERSION) && s[6..10] == Put32(codecId);
    assert s[10..12] == Put16(width) && s[12..14] == Put16(height);
    assert s[14..META_LEN] == NameField(name);
    At32(META_MAGIC, s, 0);
    At16(VERSION, s, 4);
    At32(codecId, s, 6);
    At16(width, s, 10);
    At16(height, s, 12);
    assert s[14..META_LEN - 1] == s[14..META_LEN][..NAME_LEN - 1];
    assert NameField(name) == NameField(name)[..NAME_LEN - 1] + [0];
    assert s[META_LEN..] == rest;
  }

  lemma AudioMetaRoundTrip(codecId: nat, sampleRate: nat, channels: nat, rest: seq<byte>)
    ensures DecodeAudioMeta(EncodeAudioMeta(codecId, sampleRate, channels) + rest)
         == Read(AudioMeta(codecId % 0x1_0000_0000, sampleRate % 0x1_0000_0000, channels % 256), rest)
  {
    var s := EncodeAudioMeta(codecId, sampleRate, channels) + rest;
    assert s[0..4] == Put32(AUDIO_MAGIC) && s[0..] == s;
    assert s[4..8] == Put32(codecId) && s[8..12] == Put32(sampleRate);
    At32(AUDIO_MAGIC, s, 0);
    At32(codecId, s, 4);
    At32(sampleRate, s, 8);
    assert s[12] == channels % 256;
    assert s[AUDIO_META_LEN..] == rest;
  }

  /** The first 63 bytes of a name are kept, the rest of the field is NUL. */
  lemma NameKept(name: seq<byte>, i: nat)
    requires i < 64
    ensures NameField(name)[i] == if i < |name| && i < 63 then name[i] else 0
  {
  }

  /** The first bytes on the wire: "RCN1" and version 1 on video, "RCNA" on audio. */
  lemma Magics(codecId: nat, width: nat, height: nat, name: seq<byte>, rate: nat, channels: nat)
    ensures EncodeDeviceMeta(codecId, width, height, name)[..6] == [0x52, 0x43, 0x4E, 0x31, 0, 1]
    ensures EncodeAudioMeta(codecId, rate, channels)[..4] == [0x52, 0x43, 0x4E, 0x41]
  {
    var d, a := EncodeDeviceMeta(codecId, width, height, name), EncodeAudioMeta(codecId, rate, channels);
    assert d[..6] == Put32(META_MAGIC) + Put16(VERSION);
    assert a[..4] == Put32(AUDIO_MAGIC);
  }

  /** A name without NULs survives exactly when it leaves room for the final NUL. */
  lemma NameSurvives(name: seq<byte>)
    requires 0 !in name
    ensures (exists k :: 0 <= k <= NAME_LEN && NameField(name) == name + Zeros(k)) <==> |name| < NAME_LEN
  {
    if |name| < NAME_LEN {
      assert NameField(name) == name + Zeros(NAME_LEN - |name|);
    } else {
      forall k | 0 <= k <= NAME_LEN
        ensures NameField(name) != name + Zeros(k)
      {
        if |name| + k == NAME_LEN {
          assert (name + Zeros(k))[NAME_LEN - 1] == name[NAME_LEN - 1];
        }
      }
    }
  }
}
