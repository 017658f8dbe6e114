/** The discovery exchange: what rc-agent prints about its slots and what the desktop reads from it. */
module Discovery {
  import Text
  import opened AgentTables

  // ---- The agent's side

  function KindName(k: Kind): (s: string)
    ensures 3 <= |s| <= 8 && '\t' !in s && '\n' !in s
  {
    match k case Emulator => "emulator" case Usb => "USB" case Wireless => "wireless"
  }

  function ModelName(s: Slot): string
  {
    if s.model == "" then "-" else s.model
  }

  predicate Shown(s: Slot)
  {
    s.present && s.ready
  }

  /** One device, without the final newline. */
  function Line(s: Slot): string
  {
    Text.Print(s.adbPort) + "\t" + KindName(s.kind) + "\t" + s.serial + "\t" + ModelName(s) + "\t" + Text.Print(s.streamBase)
  }

  const BANNER := "RCAGENT 1\n"

  /** The lines of all slots that are present and ready. */
  function Lines(slots: seq<Slot>): seq<string>
  {
    if slots == [] then [] else (if Shown(slots[0]) then [Line(slots[0])] else []) + Lines(slots[1..])
  }

  function Joined(lines: seq<string>): string
  {
    if lines == [] then "" else lines[0] + "\n" + Joined(lines[1..])
  }

  function Response(slots: seq<Slot>): string
  {
    BANNER + Joined(Lines(slots))
  }

  /** What fits a buffer of n bytes with its final zero. */
  function Cut(s: string, n: nat): string
    requires n > 0
  {
    if |s| < n then s else s[..n - 1]
  }

  /** A slot whose numbers are C ints and whose texts fit their buffers. */
  predicate Printable(s: Slot)
  {
    DevOk(Dev(s.serial, s.model)) && -0x8000_0000 <= s.adbPort < 0x8000_0000 && 0 <= s.streamBase < 100000
  }

  lemma PrintedLength(n: int)
    requires -0x8000_0000 <= n < 0x8000_0000
    ensures |Text.Print(n)| <= 11
  {
    assert Text.Pow10(10) == 10_000_000_000;
    Text.PrintLength(if n < 0 then -n else n, 10);
  }

  lemma LineLength(s: Slot)
    requires Printable(s)
    ensures |Line(s)| <= 256
  {
    PrintedLength(s.adbPort);
    PrintedLength(s.streamBase);
  }

  lemma {:induction false} JoinedSnoc(lines: seq<string>, l: string)
    ensures Joined(lines + [l]) == Joined(lines) + l + "\n"
  {
    if lines == [] {
      assert lines + [l] == [l] && [l][1..] == [];
    } else {
      assert (lines + [l])[1..] == lines[1..] + [l];
      JoinedSnoc(lines[1..], l);
    }
  }

  lemma {:induction false} LinesSnoc(slots: seq<Slot>, s: Slot)
    ensures Lines(slots + [s]) == Lines(slots) + (if Shown(s) then [Line(s)] else [])
  {
    hide Line, Shown;
    if slots == [] {
      assert slots + [s] == [s] && [s][1..] == [];
    } else {
      assert (slots + [s])[1..] == slots[1..] + [s];
      LinesSnoc(slots[1..], s);
    }
  }

  lemma ResponseEmpty(slots: seq<Slot>)
    ensures Response(slots[..0]) == BANNER
  {
  }

  lemma ResponseSnoc(slots: seq<Slot>, s: Slot)
    ensures Response(slots + [s]) == Response(slots) + if Shown(s) then Line(s) + "\n" else ""
  {
    hide Line, Shown, Lines, Joined;
    LinesSnoc(slots, s);
    if Shown(s) {
      JoinedSnoc(Lines(slots), Line(s));
    } else {
      assert Lines(slots) + [] == Lines(slots);
    }
  }

  /**
   `discovery_write`: with the 4096-byte buffer and the running offset of the source, where each
   print is cut to the room left. What is written is the whole response, never cut.
   */
  method DiscoveryWrite(slots: seq<Slot>) returns (written: string)
    requires |slots| <= 8 && forall i :: 0 <= i < |slots| ==> Printable(slots[i])
    ensures written == Response(slots) && |written| < 4096
  {
    hide Line, Shown, Printable, Response;
    var buf := BANNER;
    var off := |buf|;
    var i := 0;
    ResponseEmpty(slots);
    while i < |slots| && off < 4096
      invariant i <= |slots| && off == |buf| && off <= 10 + 257 * i
      invariant buf == Response(slots[..i])
    {
      ResponseSnoc(slots[..i], slots[i]);
      assert slots[..i + 1] == slots[..i] + [slots[i]];
      if Shown(slots[i]) {
        LineLength(slots[i]);
        var line := Line(slots[i]) + "\n";
        var room := 4096 - off;
        buf := buf + Cut(line, room);
        off := off + |line|;
      }
      i := i + 1;
    }
    assert slots[..i] == slots;
    written := if off > 4096 then buf else buf[..off];
  }

  // ---- The desktop's side

  /** A device as the desktop knows it from an agent. */
  datatype AgentDev = AgentDev(host: string, serial: string, kind: string, model: string, adbPort: int, streamBase: int)

  datatype Scan = NoAnswer | NotAnAgent | WrongVersion(version: int) | Found(devs: seq<AgentDev>)

  /** `parse_dev_line`: one device or none. */
  function ParseDevLine(ip: string, line: string): (r: seq<AgentDev>)
    ensures |r| <= 1 && forall d :: d in r ==> d.adbPort > 0
  {
    var f := Text.Split(line, '\t');
    if |f| < 5 || Text.Atoi(f[0]) <= 0 then []
    else [AgentDev(Cut(ip, 64), Cut(ip + ":" + Text.Print(Text.Atoi(f[0])), 128), Cut(f[1], 16), Cut(f[3], 96),
                   Text.Atoi(f[0]), Text.Atoi(f[4]))]
  }

  /** The devices of some lines, each line on its own. */
  function ScanLines(ip: string, lines: seq<string>): seq<AgentDev>
  {
    if lines == [] then [] else ParseDevLine(ip, lines[0]) + ScanLines(ip, lines[1..])
  }

  lemma {:induction false} ScanAppend(ip: string, a: seq<string>, b: seq<string>)
    ensures ScanLines(ip, a + b) == ScanLines(ip, a) + ScanLines(ip, b)
  {
    hide ParseDevLine;
    if a == [] {
      assert a + b == b;
    } else {
      assert (a + b)[1..] == a[1..] + b;
      ScanAppend(ip, a[1..], b);
    }
  }

  lemma NoLine(ip: string)
    ensures ParseDevLine(ip, "") == []
  {
  }

  /** `agent_scan` once the answer is read. */
  method AgentScan(ip: string, buf: string) returns (r: Scan)
    ensures r == Understood(ip, buf)
  {
    hide ParseDevLine;
    if buf == "" { return NoAnswer; }
    var lines := Text.Split(buf, '\n');
    if !("RCAGENT " <= lines[0]) { return NotAnAgent; }
    var version := Text.Atoi(lines[0][8..]);
    if version != 1 { return WrongVersion(version); }
    var devs := [];
    for i := 1 to |lines|
      invariant devs == ScanLines(ip, lines[1..i])
    {
      assert lines[1..i + 1] == lines[1..i] + [lines[i]];
      ScanAppend(ip, lines[1..i], [lines[i]]);
      assert [lines[i]][1..] == [];
      if lines[i] != "" {
        devs := devs + ParseDevLine(ip, lines[i]);
      } else {
        NoLine(ip);
      }
    }
    assert lines[1..|lines|] == lines[1..];
    return Found(devs);
  }

  /** What an answer means. */
  function Understood(ip: string, buf: string): Scan
  {
    var lines := Text.Split(buf, '\n');
    if buf == "" then NoAnswer
    else if !("RCAGENT " <= lines[0]) then NotAnAgent
    else if Text.Atoi(lines[0][8..]) != 1 then WrongVersion(Text.Atoi(lines[0][8..]))
    else Found(ScanLines(ip, lines[1..]))
  }

  // ---- Both sides

  /** The device a slot should be known as: its own ports, the word for its kind, and its model or a dash. */
  function Known(ip: string, s: Slot): AgentDev
  {
    AgentDev(Cut(ip, 64), Cut(ip + ":" + Text.Print(s.adbPort), 128),
             if s.kind == Emulator then "emulator" else if s.kind == Usb then "USB" else "wireless",
             if |s.model| == 0 then "-" else s.model,
             s.adbPort, s.streamBase)
  }

  /** The slots that are present and ready and have a usable adb port, in order. */
  function Expected(ip: string, slots: seq<Slot>): seq<AgentDev>
  {
    if slots == [] then []
    else
      var s := slots[0];
      (if s.present && s.ready && s.adbPort > 0 then [Known(ip, s)] else []) + Expected(ip, slots[1..])
  }

  lemma PrintedPlain(n: int)
    ensures '\t' !in Text.Print(n) && '\n' !in Text.Print(n)
  {
    assert forall i :: 0 <= i < |Text.Print(n)| ==> Text.IsDigit(Text.Print(n)[i]) || Text.Print(n)[i] == '-';
  }

  /** The five fields of a printed line, followed by anything. */
  lemma FieldsOf(s: Slot, more: string)
    requires DevOk(Dev(s.serial, s.model)) && (more == "" || more[0] == '\t')
    ensures var f := [Text.Print(s.adbPort), KindName(s.kind), s.serial, ModelName(s), Text.Print(s.streamBase)];
      |Text.Split(Line(s) + more, '\t')| >= 5 && Text.Split(Line(s) + more, '\t')[..5] == f
  {
    hide Text.Split, Text.Print;
    PrintedPlain(s.adbPort);
    PrintedPlain(s.streamBase);
    WordPlain(s.serial);
    WordPlain(ModelName(s));
    FiveFields(Text.Print(s.adbPort), KindName(s.kind), s.serial, ModelName(s), Text.Print(s.streamBase), more);
    assert Line(s) + more ==
      Text.Print(s.adbPort) + "\t" + (KindName(s.kind) + "\t" + (s.serial + "\t" + (ModelName(s) + "\t" + (Text.Print(s.streamBase) + more))));
  }

  lemma FiveFields(a: string, b: string, c: string, d: string, e: string, more: string)
    requires '\t' !in a && '\t' !in b && '\t' !in c && '\t' !in d && '\t' !in e && (more == "" || more[0] == '\t')
    ensures var f := Text.Split(a + "\t" + (b + "\t" + (c + "\t" + (d + "\t" + (e + more)))), '\t');
      |f| >= 5 && f[..5] == [a, b, c, d, e]
  {
    hide Text.Split;
    var r4 := e + more;
    var r3 := d + "\t" + r4;
    var r2 := c + "\t" + r3;
    Text.SplitFirst(a, '\t', b + "\t" + r2);
    Text.SplitFirst(b, '\t', r2);
    Text.SplitFirst(c, '\t', r3);
    Text.SplitFirst(d, '\t', r4);
    LastField(e, more);
  }

  lemma LastField(e: string, more: string)
    requires '\t' !in e && (more == "" || more[0] == '\t')
    ensures Text.Split(e + more, '\t')[0] == e
  {
    hide Text.Split;
    if more == "" {
      assert e + more == e;
      Text.SplitLast(e, '\t');
    } else {
      assert e + more == e + "\t" + more[1..];
      Text.SplitFirst(e, '\t', more[1..]);
    }
  }

  lemma WordPlain(s: string)
    requires Text.Word(s)
    ensures '\t' !in s && '\n' !in s
  {
    assert Text.IsSpace('\t') && Text.IsSpace('\n');
  }

  /** A printed line, with or without extra fields after it, is read as its slot; not at all if its port is unusable. */
  lemma LineRoundTrip(ip: string, s: Slot, more: string)
    requires DevOk(Dev(s.serial, s.model)) && (more == "" || more[0] == '\t')
    ensures ParseDevLine(ip, Line(s) + more) == if s.adbPort > 0 then [Known(ip, s)] else []
  {
    hide Line;
    FieldsOf(s, more);
    var f := Text.Split(Line(s) + more, '\t');
    assert f[0] == f[..5][0] && f[1] == f[..5][1] && f[3] == f[..5][3] && f[4] == f[..5][4];
    Text.AtoiPrint(s.adbPort);
    Text.AtoiPrint(s.streamBase);
  }

  lemma LineHasNoBreak(s: Slot)
    requires DevOk(Dev(s.serial, s.model))
    ensures '\n' !in Line(s)
  {
    PrintedPlain(s.adbPort);
    PrintedPlain(s.streamBase);
    WordPlain(s.serial);
    WordPlain(ModelName(s));
  }

  lemma {:induction false} SplitJoined(lines: seq<string>)
    requires forall l :: l in lines ==> '\n' !in l
    ensures Text.Split(Joined(lines), '\n') == lines + [""]
  {
    if lines != [] {
      SplitJoined(lines[1..]);
      Text.SplitFirst(lines[0], '\n', Joined(lines[1..]));
    }
  }

  lemma BannerSplit(rest: string)
    ensures Text.Split(BANNER + rest, '\n') == ["RCAGENT 1"] + Text.Split(rest, '\n')
    ensures Text.Atoi("RCAGENT 1"[8..]) == 1
  {
    assert BANNER + rest == "RCAGENT 1" + "\n" + rest;
    Text.SplitFirst("RCAGENT 1", '\n', rest);
    assert "RCAGENT 1"[8..] == Text.Print(1);
    Text.AtoiPrint(1);
  }

  /** An answer with the right banner is read line by line: no line disturbs another. */
  lemma LineByLine(ip: string, lines: seq<string>)
    requires forall l :: l in lines ==> '\n' !in l
    ensures Understood(ip, BANNER + Joined(lines)) == Found(ScanLines(ip, lines))
  {
    hide Text.Split, Text.Atoi, ParseDevLine;
    BannerSplit(Joined(lines));
    SplitJoined(lines);
    ScanAppend(ip, lines, [""]);
    NoLine(ip);
    assert [""][1..] == [];
    assert (["RCAGENT 1"] + (lines + [""]))[1..] == lines + [""];
  }

  /** A line that cannot be read is as good as not there. */
  lemma BadLineIgnored(ip: string, before: seq<string>, bad: string, after: seq<string>)
    requires forall l :: l in before + [bad] + after ==> '\n' !in l
    requires ParseDevLine(ip, bad) == []
    ensures Understood(ip, BANNER + Joined(before + [bad] + after)) == Understood(ip, BANNER + Joined(before + after))
  {
    hide ParseDevLine, Understood;
    LineByLine(ip, before + [bad] + after);
    LineByLine(ip, before + after);
    ScanAppend(ip, before + [bad], after);
    ScanAppend(ip, before, [bad]);
    ScanAppend(ip, before, after);
    assert [bad][1..] == [];
  }

  lemma {:induction false} LinesRoundTrip(ip: string, slots: seq<Slot>)
    requires forall i :: 0 <= i < |slots| ==> DevOk(Dev(slots[i].serial, slots[i].model))
    ensures ScanLines(ip, Lines(slots)) == Expected(ip, slots)
    ensures forall l :: l in Lines(slots) ==> '\n' !in l
  {
    hide Line, ParseDevLine, DevOk;
    if slots != [] {
      LinesRoundTrip(ip, slots[1..]);
      if Shown(slots[0]) {
        LineRoundTrip(ip, slots[0], "");
        assert Line(slots[0]) + "" == Line(slots[0]);
        LineHasNoBreak(slots[0]);
        assert Lines(slots)[1..] == Lines(slots[1..]);
      } else {
        assert Lines(slots) == Lines(slots[1..]);
      }
    }
  }

  /** The desktop learns exactly the slots that are present and ready and have a usable adb port, in order. */
  lemma RoundTrip(ip: string, slots: seq<Slot>)
    requires forall i :: 0 <= i < |slots| ==> DevOk(Dev(slots[i].serial, slots[i].model))
    ensures Understood(ip, Response(slots)) == Found(Expected(ip, slots))
  {
    LinesRoundTrip(ip, slots);
    LineByLine(ip, Lines(slots));
  }

  /** A whole exchange over any reachable table. */
  method Exchange(p: Params, slots: seq<Slot>, ip: string) returns (r: Scan)
    requires SlotsOk(p, slots) && -0x8000_0000 <= p.adbBase < 0x7FFF_FFF0
    ensures r == Found(Expected(ip, slots))
  {
    forall i | 0 <= i < |slots|
      ensures Printable(slots[i])
    {
      assert SlotOk(p, slots[i], i);
    }
    var sent := DiscoveryWrite(slots);
    RoundTrip(ip, slots);
    r := AgentScan(ip, sent);
  }
}
