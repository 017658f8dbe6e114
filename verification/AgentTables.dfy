/**
 The tables of rc-agent: device slots, listeners and adb forwards. They only grow; the accept loop
 reads listener entries without a lock. Every external call may end any way it likes, and adb may
 lose forwards at any time. Every intermediate state is recorded, since discovery is answered and
 connections are relayed while a rescan is under way.
 */
module AgentTables {
  import Text

  // MAX_SLOTS 8, STREAM_COUNT 4, STREAM_BASE 27183, LOC_OFFSET 10000, MAX_LISTENERS 128; the adb table holds 128.

  datatype Kind = Emulator | Usb | Wireless
  datatype Dev = Dev(serial: string, model: string)
  datatype Group = NoGroup | StreamGroup(slot: nat, k: nat)
  datatype Target = Target(host: string, port: int)

  datatype Slot = Slot(
    serial: string, model: string, kind: Kind, idx: nat, adbPort: int,
    adbDst: Target, streamBase: int, present: bool, ready: bool, reappeared: bool)

  datatype Listener = Listener(fd: int, pub: int, dst: Target, group: Group, isDiscovery: bool)

  /** A forward as the agent's own table names it: which device, which local port. */
  datatype Fwd = Fwd(serial: string, loc: int)
  /** Where adb sends a local port: a port of a device. */
  datatype End = End(serial: string, port: int)

  /**
   How an external call ends, and which forwards adb loses meanwhile: an odd code is success, and a
   failed forward took effect all the same (its adb client was killed at the timeout) for codes 2, 6, ...
   */
  datatype Answer = Answer(code: nat, lost: set<int>)

  /** One call of `adb forward`: whether it reported success, and whether it took effect. */
  datatype Try = Try(f: Fwd, ok: bool, took: bool)

  datatype Params = Params(adbBase: int, tcpipPort: int, noStream: bool, discoveryPort: int, nbind: nat)

  /** `dev_kind`. */
  function DevKind(serial: string): Kind
  {
    if "emulator-" <= serial then Emulator else if ':' in serial then Wireless else Usb
  }

  // ---- `adb devices -l`

  /** What `list_devices` guarantees: words that fit their buffers. */
  predicate DevOk(d: Dev)
  {
    1 <= |d.serial| <= 127 && |d.model| <= 95 && Text.Word(d.serial) && Text.Word(d.model)
  }

  /** What follows the first "model:" in a line. */
  function AfterModel(line: string): string
  {
    if line == [] then "" else if "model:" <= line then line[6..] else AfterModel(line[1..])
  }

  /** The devices of some lines: those in state "device", at most `cap`. */
  function DevicesOf(lines: seq<string>, cap: nat): (devs: seq<Dev>)
    ensures |devs| <= cap && forall i :: 0 <= i < |devs| ==> DevOk(devs[i])
  {
    if lines == [] || cap == 0 then [] else
    var line := Text.SkipSpace(lines[0]);
    var serial := Text.LeadingWord(line, 127);
    var state := Text.LeadingWord(Text.SkipSpace(line[|serial|..]), 63);
    if serial != "" && state == "device"
      then [Dev(serial, Text.LeadingWord(Text.SkipSpace(AfterModel(lines[0])), 95))] + DevicesOf(lines[1..], cap - 1)
      else DevicesOf(lines[1..], cap)
  }

  /** "model:" does not begin before position n. */
  ghost predicate NoModelBefore(line: string, n: nat)
  {
    forall j :: 0 <= j < n && j <= |line| ==> !("model:" <= line[j..])
  }

  lemma {:induction false} ModelAt(line: string, n: nat)
    requires n <= |line| && NoModelBefore(line, n) && "model:" <= line[n..]
    ensures AfterModel(line) == line[n + 6..]
  {
    assert line[0..] == line;
    if n > 0 {
      assert forall j :: 0 <= j < |line| ==> line[1..][j..] == line[j + 1..];
      ModelAt(line[1..], n - 1);
    }
  }

  lemma {:induction false} NoModel(line: string)
    requires NoModelBefore(line, |line|)
    ensures AfterModel(line) == ""
  {
    if line != [] {
      assert line[0..] == line;
      assert forall j :: 0 <= j < |line| ==> line[1..][j..] == line[j + 1..];
      NoModel(line[1..]);
    }
  }

  /** Nothing, or white space and more. */
  predicate Apart(s: string)
  {
    s == [] || Text.IsSpace(s[0])
  }

  /** A line of `adb devices -l`: serial, white space, state, and more. */
  ghost predicate Lists(line: string, serial: string, gap: string, state: string, more: string)
  {
    && line == serial + gap + state + more
    && serial != "" && |serial| <= 127 && Text.Word(serial) && state != "" && |state| <= 63 && Text.Word(state) && Apart(more)
    && gap != "" && forall i :: 0 <= i < |gap| ==> Text.IsSpace(gap[i])
  }

  lemma SerialAndState(line: string, serial: string, gap: string, state: string, more: string)
    requires Lists(line, serial, gap, state, more)
    ensures Text.SkipSpace(line) == line && Text.LeadingWord(line, 127) == serial
    ensures Text.LeadingWord(Text.SkipSpace(line[|serial|..]), 63) == state
  {
    Text.SkipOver("", line);
    assert line == serial + (gap + state + more) && "" + line == line;
    Text.WordRead(serial, gap + state + more, 127);
    assert line[|serial|..] == gap + (state + more);
    Text.SkipOver(gap, state + more);
    Text.WordRead(state, more, 63);
  }

  /** A listed device with its model. */
  lemma ListsDevice(line: string, serial: string, gap: string, mid: string, model: string, tail: string, lines: seq<string>, cap: nat)
    requires Lists(line, serial, gap, "device", mid + "model:" + model + tail)
    requires model != "" && |model| <= 95 && Text.Word(model) && Apart(tail)
    requires NoModelBefore(line, |serial + gap + "device" + mid|)
    ensures DevicesOf([line] + lines, cap + 1) == [Dev(serial, model)] + DevicesOf(lines, cap)
  {
    var before := serial + gap + "device" + mid;
    assert line == before + ("model:" + model + tail);
    ModelRead(line, before, model, tail);
    hide AfterModel, NoModelBefore;
    SerialAndState(line, serial, gap, "device", mid + "model:" + model + tail);
    OneLine(line, lines, cap);
  }

  lemma ModelRead(line: string, before: string, model: string, tail: string)
    requires line == before + ("model:" + model + tail) && NoModelBefore(line, |before|)
    requires model != "" && |model| <= 95 && Text.Word(model) && Apart(tail)
    ensures Text.LeadingWord(Text.SkipSpace(AfterModel(line)), 95) == model
  {
    assert line[|before|..] == "model:" + model + tail;
    ModelAt(line, |before|);
    assert line[|before| + 6..] == model + tail;
    Text.SkipOver("", model + tail);
    assert "" + (model + tail) == model + tail;
    Text.WordRead(model, tail, 95);
  }

  /** What the first line adds. */
  lemma OneLine(line: string, lines: seq<string>, cap: nat)
    requires Text.SkipSpace(line) == line && Text.LeadingWord(line, 127) != ""
    requires Text.LeadingWord(Text.SkipSpace(line[|Text.LeadingWord(line, 127)|..]), 63) == "device"
    ensures DevicesOf([line] + lines, cap + 1) ==
      [Dev(Text.LeadingWord(line, 127), Text.LeadingWord(Text.SkipSpace(AfterModel(line)), 95))] + DevicesOf(lines, cap)
  {
    assert ([line] + lines)[1..] == lines;
  }

  /** Without "model:" in the line the model is empty. */
  lemma ListsNoModel(line: string, serial: string, gap: string, more: string, lines: seq<string>, cap: nat)
    requires Lists(line, serial, gap, "device", more) && NoModelBefore(line, |line|)
    ensures DevicesOf([line] + lines, cap + 1) == [Dev(serial, "")] + DevicesOf(lines, cap)
  {
    SerialAndState(line, serial, gap, "device", more);
    NoModel(line);
    OneLine(line, lines, cap);
  }

  /** A device in another state (offline, unauthorized) is passed over, and so is the heading. */
  lemma PassedOver(line: string, serial: string, gap: string, state: string, more: string, lines: seq<string>, cap: nat)
    requires Lists(line, serial, gap, state, more) && state != "device"
    ensures DevicesOf([line] + lines, cap) == DevicesOf(lines, cap)
  {
    SerialAndState(line, serial, gap, state, more);
    assert ([line] + lines)[1..] == lines;
    if cap == 0 {
      assert DevicesOf(lines, cap) == [];
    }
  }

  /** What `adb devices -l` gives at each round; nothing when it fails. */
  datatype Listing = NoListing | Output(text: string)

  /** A slot is present exactly when its device is in the listing; every listed device has a slot, or all are taken. */
  ghost predicate Reflects(slots: seq<Slot>, listing: Listing)
  {
    listing.Output? ==>
      var devs := DevicesOf(Text.Split(listing.text, '\n'), 64);
      PresenceOk(slots, devs) && (|slots| == 8 || Slotted(slots, devs, |devs|))
  }

  // ---- What each table may hold

  function StreamBaseOf(i: nat): int
  {
    27183 + 4 * i
  }

  /** Slot i is what its index and serial say. */
  predicate SlotOk(p: Params, s: Slot, i: nat)
  {
    && s.idx == i && s.adbPort == p.adbBase + i && DevOk(Dev(s.serial, s.model))
    && (s.kind == Emulator <==> "emulator-" <= s.serial)
    && (s.kind == Wireless <==> ':' in s.serial && !("emulator-" <= s.serial))
    && (s.streamBase == 0 || (!p.noStream && s.streamBase == StreamBaseOf(i)))
  }

  ghost predicate SlotsOk(p: Params, slots: seq<Slot>)
  {
    && |slots| <= 8
    && (forall i :: 0 <= i < |slots| ==> SlotOk(p, slots[i], i))
    && (forall i, j :: 0 <= i < j < |slots| ==> slots[i].serial != slots[j].serial)
  }

  /** What never changes in a slot, and what changes only one way. */
  predicate SameSlot(s: Slot, t: Slot)
  {
    && t.serial == s.serial && t.model == s.model && t.kind == s.kind && t.idx == s.idx && t.adbPort == s.adbPort
    && (t.streamBase == s.streamBase || t.streamBase == 0)
    && (s.ready ==> t.ready)
  }

  ghost predicate Grown(s: seq<Slot>, t: seq<Slot>)
  {
    |s| <= |t| && forall i :: 0 <= i < |s| ==> SameSlot(s[i], t[i])
  }

  lemma GrownTransitive(s: seq<Slot>, t: seq<Slot>, u: seq<Slot>)
    requires Grown(s, t) && Grown(t, u)
    ensures Grown(s, u)
  {
    forall i | 0 <= i < |s|
      ensures SameSlot(s[i], u[i])
    {
      assert SameSlot(s[i], t[i]) && SameSlot(t[i], u[i]);
    }
  }

  /** Updating one slot within its limits. */
  lemma SlotUpdated(p: Params, slots: seq<Slot>, i: nat, s: Slot)
    requires SlotsOk(p, slots) && i < |slots| && SameSlot(slots[i], s)
    ensures SlotsOk(p, slots[i := s]) && Grown(slots, slots[i := s])
  {
    forall j | 0 <= j < |slots|
      ensures SlotOk(p, slots[i := s][j], j) && SameSlot(slots[j], slots[i := s][j])
    {
      assert SlotOk(p, slots[j], j);
    }
  }

  /** A new device in the next slot. */
  lemma SlotAdded(p: Params, slots: seq<Slot>, s: Slot)
    requires SlotsOk(p, slots) && |slots| < 8 && SlotOk(p, s, |slots|)
    requires forall i :: 0 <= i < |slots| ==> slots[i].serial != s.serial
    ensures SlotsOk(p, slots + [s]) && Grown(slots, slots + [s])
  {
    var t := slots + [s];
    forall i | 0 <= i < |t|
      ensures SlotOk(p, t[i], i)
    {
      if i < |slots| {
        assert t[i] == slots[i];
      }
    }
  }

  /** Where slot i's adb port leads. */
  function AdbDst(s: Slot): Target
  {
    if s.kind != Wireless then Target("127.0.0.1", s.adbPort + 10000)
    else
      var c := Text.LastColon(s.serial, |s.serial|);
      if c < 0 then Target("", 0) else Target(s.serial[..c], Text.Atoi(s.serial[c + 1..]))
  }

  /** The agent can relay adb to this device: a wireless serial needs a host of 1 to 63 characters. */
  predicate Reachable(serial: string)
  {
    DevKind(serial) == Wireless ==> 0 < Text.LastColon(serial, |serial|) < 64
  }

  ghost predicate AllReachable(slots: seq<Slot>)
  {
    forall i :: 0 <= i < |slots| ==> Reachable(slots[i].serial)
  }

  /** A listener is the discovery port, the adb port of a slot, or stream port k of a slot. */
  predicate ListenerOk(p: Params, slots: seq<Slot>, l: Listener)
  {
    if l.isDiscovery then l.pub == p.discoveryPort && l.group == NoGroup
    else match l.group
      case NoGroup => p.adbBase <= l.pub < p.adbBase + |slots| && l.dst == AdbDst(slots[l.pub - p.adbBase])
      case StreamGroup(i, k) =>
        && i < |slots| && k < 4 && !p.noStream
        && l.pub == StreamBaseOf(i) + k && l.dst == Target("127.0.0.1", l.pub + 10000)
  }

  ghost predicate ListenersOk(p: Params, slots: seq<Slot>, ls: seq<Listener>)
  {
    forall i :: 0 <= i < |ls| ==> ListenerOk(p, slots, ls[i])
  }

  /** Some listener relays this public port there. */
  ghost predicate Listens(ls: seq<Listener>, pub: int, dst: Target, group: Group)
  {
    exists j :: 0 <= j < |ls| && ls[j].pub == pub && ls[j].dst == dst && ls[j].group == group && !ls[j].isDiscovery
  }

  /** The listener of stream port k of slot i. */
  ghost predicate StreamListens(ls: seq<Listener>, i: nat, k: nat)
  {
    Listens(ls, StreamBaseOf(i) + k, Target("127.0.0.1", StreamBaseOf(i) + k + 10000), StreamGroup(i, k))
  }

  /** A slot's adb port is relayed, and so are its stream ports, unless some binds may have failed. */
  ghost predicate Served(s: Slot, ls: seq<Listener>, some: bool)
  {
    && Listens(ls, s.adbPort, AdbDst(s), NoGroup)
    && (!some && s.streamBase != 0 ==> forall k: nat :: k < 4 ==> StreamListens(ls, s.idx, k))
  }

  /** Slot i is ready, offers its stream ports unless they are switched off, and all its ports are relayed. */
  ghost predicate Works(p: Params, s: Slot, i: nat, ls: seq<Listener>)
  {
    s.ready && s.streamBase == (if p.noStream then 0 else StreamBaseOf(i)) && s.idx == i && Served(s, ls, false)
  }

  lemma StillWorks(p: Params, s: Slot, i: nat, ls: seq<Listener>, more: seq<Listener>)
    requires ls <= more && Works(p, s, i, ls)
    ensures Works(p, s, i, more)
  {
    StillListens(ls, more, s.adbPort, AdbDst(s), NoGroup);
    StreamAdded(ls, more, i, 0);
  }

  /** Every slot from the given one on works, if its device can be relayed at all. */
  ghost predicate AllWork(p: Params, slots: seq<Slot>, ls: seq<Listener>, from: nat)
  {
    forall i: nat :: from <= i < |slots| && Reachable(slots[i].serial) ==> Works(p, slots[i], i, ls)
  }

  lemma AllStillWork(p: Params, s: seq<Slot>, t: seq<Slot>, ls: seq<Listener>, more: seq<Listener>, from: nat)
    requires AllWork(p, s, ls, from) && ls <= more && |s| <= |t| <= |s| + 1 && from <= |s|
    requires forall i :: 0 <= i < |s| ==> t[i] == s[i]
    requires |t| > |s| && Reachable(t[|s|].serial) ==> Works(p, t[|s|], |s|, more)
    ensures AllWork(p, t, more, from)
  {
    forall i: nat | from <= i < |t| && Reachable(t[i].serial)
      ensures Works(p, t[i], i, more)
    {
      if i < |s| {
        StillWorks(p, s[i], i, ls, more);
      }
    }
  }

  lemma StillListens(ls: seq<Listener>, more: seq<Listener>, pub: int, dst: Target, group: Group)
    requires ls <= more && Listens(ls, pub, dst, group)
    ensures Listens(more, pub, dst, group)
  {
    var j :| 0 <= j < |ls| && ls[j].pub == pub && ls[j].dst == dst && ls[j].group == group && !ls[j].isDiscovery;
    assert more[j] == ls[j];
  }

  lemma ListenersKept(p: Params, s: seq<Slot>, t: seq<Slot>, ls: seq<Listener>)
    requires ListenersOk(p, s, ls) && Grown(s, t)
    ensures ListenersOk(p, t, ls)
  {
    forall i | 0 <= i < |ls|
      ensures ListenerOk(p, t, ls[i])
    {
      var l := ls[i];
      assert ListenerOk(p, s, l);
      if !l.isDiscovery && l.group == NoGroup {
        assert SameSlot(s[l.pub - p.adbBase], t[l.pub - p.adbBase]);
      }
    }
  }

  /** Forward (serial, loc) belongs to slot i. */
  predicate FwdOf(p: Params, s: Slot, i: nat, f: Fwd)
  {
    f.serial == s.serial && (f.loc == p.adbBase + i + 10000 || StreamBaseOf(i) + 10000 <= f.loc < StreamBaseOf(i) + 10004)
  }

  function StreamFwd(s: Slot, k: nat): Fwd
  {
    Fwd(s.serial, s.streamBase + k + 10000)
  }

  /** The forwards of the first n stream ports have been created. */
  ghost predicate Forwarded(s: Slot, made: set<Fwd>, n: nat)
  {
    forall k :: 0 <= k < n ==> StreamFwd(s, k) in made
  }

  /** All the forwards a ready slot needs have been created, and its device can be relayed. */
  ghost predicate Furnished(s: Slot, made: set<Fwd>)
  {
    && Reachable(s.serial)
    && (s.kind != Wireless ==> AdbFwd(s) in made)
    && (s.streamBase != 0 ==> Forwarded(s, made, 4))
  }

  function AdbFwd(s: Slot): Fwd
  {
    Fwd(s.serial, s.adbPort + 10000)
  }

  /** adb has the forwards that the slot relays to. */
  ghost predicate Linked(s: Slot, adb: map<int, End>)
  {
    && (s.kind != Wireless ==> s.adbPort + 10000 in adb)
    && (s.streamBase != 0 ==> StreamsLinked(s, adb, 4))
  }

  ghost predicate StreamsLinked(s: Slot, adb: map<int, End>, n: nat)
  {
    forall k :: 0 <= k < n ==> StreamFwd(s, k).loc in adb
  }

  lemma LinkedKept(s: Slot, t: Slot, adb: map<int, End>, more: map<int, End>)
    requires Linked(s, adb) && adb.Keys <= more.Keys && t == s.(adbDst := t.adbDst, ready := t.ready, present := t.present, reappeared := t.reappeared)
    ensures Linked(t, more)
  {
    assert forall k :: StreamFwd(t, k) == StreamFwd(s, k);
  }

  /** Every ready slot from the given one on is linked. */
  ghost predicate LinkedFrom(slots: seq<Slot>, adb: map<int, End>, from: nat)
  {
    forall i :: from <= i < |slots| && slots[i].ready ==> Linked(slots[i], adb)
  }

  lemma NoneLinked(slots: seq<Slot>, adb: map<int, End>)
    ensures LinkedFrom(slots, adb, |slots|)
  {
  }

  lemma LinkedMore(s: seq<Slot>, t: seq<Slot>, adb: map<int, End>, more: map<int, End>, from: nat)
    requires LinkedFrom(s, adb, from) && adb.Keys <= more.Keys && |s| <= |t| <= |s| + 1 && from <= |s|
    requires forall i :: 0 <= i < |s| ==> t[i] == s[i]
    requires |t| > |s| && t[|s|].ready ==> Linked(t[|s|], more)
    ensures LinkedFrom(t, more, from)
  {
    forall i | from <= i < |t| && t[i].ready
      ensures Linked(t[i], more)
    {
      if i < |s| {
        LinkedKept(s[i], t[i], adb, more);
      }
    }
  }

  /** The slot relays to some forward. */
  predicate Needs(s: Slot)
  {
    s.kind != Wireless || s.streamBase != 0
  }

  /** Of the first n slots, those due at s0 are linked now. */
  ghost predicate Relinked(s0: seq<Slot>, slots: seq<Slot>, adb: map<int, End>, n: nat)
  {
    && n <= |s0| && n <= |slots|
    && forall i :: 0 <= i < n && s0[i].reappeared && s0[i].ready ==> Linked(slots[i], adb)
  }

  /** Of the first n slots, those due at s0 were tried for. */
  ghost predicate Retried(s0: seq<Slot>, tries: seq<Try>, from: nat, n: nat)
  {
    && n <= |s0|
    && forall i :: 0 <= i < n && s0[i].reappeared && s0[i].ready && Needs(s0[i]) ==> Attempted(tries, from, FirstFwd(s0[i]))
  }

  lemma NoneDue(slots: seq<Slot>, adb: map<int, End>, tries: seq<Try>)
    ensures Relinked(slots, slots, adb, 0) && Retried(slots, tries, |tries|, 0)
  {
  }

  /** Slots that are not due need nothing. */
  lemma NotDue(s0: seq<Slot>, slots: seq<Slot>, adb: map<int, End>, tries: seq<Try>, from: nat, n: nat, m: nat)
    requires n <= m + 1 && m <= |slots| == |s0| && n <= |slots|
    requires forall j :: n <= j < |slots| ==> slots[j] == s0[j]
    requires forall j :: 0 <= j < m ==> !slots[j].reappeared
    ensures n <= m && Relinked(s0, slots, adb, n) ==> Relinked(s0, slots, adb, m)
    ensures n <= m && Retried(s0, tries, from, n) ==> Retried(s0, tries, from, m)
  {
  }

  lemma RelinkedMore(s0: seq<Slot>, s: seq<Slot>, t: seq<Slot>, adb: map<int, End>, more: map<int, End>, i: nat)
    requires Relinked(s0, s, adb, i) && adb.Keys <= more.Keys && i < |s| == |t| == |s0|
    requires forall j :: 0 <= j < i ==> t[j] == s[j]
    requires s0[i].ready ==> Linked(t[i], more)
    ensures Relinked(s0, t, more, i + 1)
  {
    forall j | 0 <= j < i && s0[j].reappeared && s0[j].ready
      ensures Linked(t[j], more)
    {
      LinkedKept(s[j], t[j], adb, more);
    }
  }

  lemma RetriedMore(s0: seq<Slot>, tries: seq<Try>, more: seq<Try>, from: nat, i: nat)
    requires Retried(s0, tries, from, i) && tries <= more && i < |s0| && from <= |tries|
    requires s0[i].ready && Needs(s0[i]) ==> Attempted(more, |tries|, FirstFwd(s0[i]))
    ensures Retried(s0, more, from, i + 1)
  {
    forall j | 0 <= j < i && s0[j].reappeared && s0[j].ready && Needs(s0[j])
      ensures Attempted(more, from, FirstFwd(s0[j]))
    {
      StillAttempted(tries, more, from, FirstFwd(s0[j]));
    }
  }

  /** A ready slot whose device was away and is listed again. */
  ghost predicate CameBack(s: Slot, devs: seq<Dev>)
  {
    s.ready && !s.present && Listed(devs, s.serial)
  }

  /** The devices that came back have the forwards their slots relay to. */
  ghost predicate Restored(s0: seq<Slot>, slots: seq<Slot>, devs: seq<Dev>, adb: map<int, End>)
  {
    |s0| <= |slots| && forall i :: 0 <= i < |s0| && CameBack(s0[i], devs) ==> Linked(slots[i], adb)
  }

  /** For every device that came back and needs a forward, one was tried. */
  ghost predicate TriedFor(s0: seq<Slot>, devs: seq<Dev>, tries: seq<Try>, from: nat)
  {
    forall i :: 0 <= i < |s0| && CameBack(s0[i], devs) && Needs(s0[i]) ==> Attempted(tries, from, FirstFwd(s0[i]))
  }

  /** The devices that came back with this listing have the forwards their slots relay to. */
  ghost predicate Repaired(s0: seq<Slot>, slots: seq<Slot>, listing: Listing, adb: map<int, End>)
  {
    listing.Output? ==> Restored(s0, slots, DevicesOf(Text.Split(listing.text, '\n'), 64), adb)
  }

  lemma AllRestored(s0: seq<Slot>, s1: seq<Slot>, s2: seq<Slot>, s3: seq<Slot>, devs: seq<Dev>, adb: map<int, End>, more: map<int, End>)
    requires |s0| == |s1| == |s2| <= |s3| && forall i :: 0 <= i < |s1| ==> s1[i] == Marked(s0[i], devs)
    requires Relinked(s1, s2, adb, |s2|) && adb.Keys <= more.Keys && forall i :: 0 <= i < |s2| ==> s3[i] == s2[i]
    ensures Restored(s0, s3, devs, more)
  {
    forall i | 0 <= i < |s0| && CameBack(s0[i], devs)
      ensures Linked(s3[i], more)
    {
      LinkedKept(s2[i], s3[i], adb, more);
    }
  }

  lemma AllTriedFor(s0: seq<Slot>, s1: seq<Slot>, devs: seq<Dev>, tries: seq<Try>, more: seq<Try>, from: nat)
    requires |s0| == |s1| && forall i :: 0 <= i < |s1| ==> s1[i] == Marked(s0[i], devs)
    requires Retried(s1, tries, from, |s1|) && tries <= more
    ensures TriedFor(s0, devs, more, from)
  {
    forall i | 0 <= i < |s0| && CameBack(s0[i], devs) && Needs(s0[i])
      ensures Attempted(more, from, FirstFwd(s0[i]))
    {
      StillAttempted(tries, more, from, FirstFwd(s1[i]));
    }
  }

  /** The first forward that is made for a slot. */
  function FirstFwd(s: Slot): Fwd
  {
    if s.kind != Wireless then AdbFwd(s) else StreamFwd(s, 0)
  }

  /** Among the calls from the given one on is one for f. */
  ghost predicate Attempted(tries: seq<Try>, from: nat, f: Fwd)
  {
    exists n :: from <= n < |tries| && tries[n].f == f
  }

  lemma StillAttempted(tries: seq<Try>, more: seq<Try>, from: nat, f: Fwd)
    requires Attempted(tries, from, f) && tries <= more
    ensures Attempted(more, from, f)
  {
    var n :| from <= n < |tries| && tries[n].f == f;
    assert more[n] == tries[n];
  }

  lemma OneTry(tries: seq<Try>, more: seq<Try>, from: nat, f: Fwd, g: Fwd)
    requires |more| == |tries| + 1 && tries <= more && more[|tries|].f == g && from <= |tries|
    requires g == f || Attempted(tries, from, f)
    ensures Attempted(more, from, f)
  {
    if Attempted(tries, from, f) {
      StillAttempted(tries, more, from, f);
    } else {
      assert more[|tries|].f == f;
    }
  }

  /** A slot that discovery may list has had its forwards created. */
  ghost predicate Advertised(slots: seq<Slot>, made: set<Fwd>)
  {
    forall i :: 0 <= i < |slots| && slots[i].ready ==> Furnished(slots[i], made)
  }

  predicate SameFlagsOf(s: Slot, t: Slot)
  {
    s.ready == t.ready && s.present == t.present && s.reappeared == t.reappeared
  }

  ghost predicate SameFlags(s: seq<Slot>, t: seq<Slot>)
  {
    |s| == |t| && forall i :: 0 <= i < |s| ==> SameFlagsOf(s[i], t[i])
  }

  lemma FurnishedKept(s: Slot, t: Slot, made: set<Fwd>, more: set<Fwd>)
    requires SameSlot(s, t) && made <= more && Furnished(s, made)
    ensures Furnished(t, more)
  {
    if t.streamBase != 0 {
      assert forall k :: StreamFwd(t, k) == StreamFwd(s, k);
    }
  }

  lemma AdvertisedKept(s: seq<Slot>, t: seq<Slot>, made: set<Fwd>, more: set<Fwd>)
    requires Advertised(s, made) && Grown(s, t) && made <= more
    requires forall i :: 0 <= i < |t| && t[i].ready ==> (i < |s| && s[i].ready) || Furnished(t[i], more)
    ensures Advertised(t, more)
  {
    forall i | 0 <= i < |t| && t[i].ready
      ensures Furnished(t[i], more)
    {
      if i < |s| && s[i].ready {
        FurnishedKept(s[i], t[i], made, more);
      }
    }
  }

  ghost predicate FwdOk(p: Params, slots: seq<Slot>, f: Fwd)
  {
    exists i :: 0 <= i < |slots| && FwdOf(p, slots[i], i, f)
  }

  /** Forwards are only the slots' own; the table holds created ones, none twice. */
  ghost predicate FwdsOk(p: Params, slots: seq<Slot>, fwds: seq<Fwd>, made: set<Fwd>)
  {
    && (forall f :: f in made ==> FwdOk(p, slots, f))
    && (forall f :: f in fwds ==> f in made)
    && (forall i, j :: 0 <= i < j < |fwds| ==> fwds[i] != fwds[j])
  }

  lemma FwdsKept(p: Params, s: seq<Slot>, t: seq<Slot>, fwds: seq<Fwd>, made: set<Fwd>)
    requires FwdsOk(p, s, fwds, made) && Grown(s, t)
    ensures FwdsOk(p, t, fwds, made)
  {
    forall f | f in made
      ensures FwdOk(p, t, f)
    {
      var i :| 0 <= i < |s| && FwdOf(p, s[i], i, f);
      assert SameSlot(s[i], t[i]) && FwdOf(p, t[i], i, f);
    }
  }

  /** The five forwards of slot i. */
  function FiveOf(p: Params, s: Slot, i: nat): (r: set<Fwd>)
    ensures |r| <= 5
  {
    var b := StreamBaseOf(i) + 10000;
    {Fwd(s.serial, p.adbBase + i + 10000), Fwd(s.serial, b), Fwd(s.serial, b + 1), Fwd(s.serial, b + 2), Fwd(s.serial, b + 3)}
  }

  lemma FiveOfHas(p: Params, s: Slot, i: nat, f: Fwd)
    requires FwdOf(p, s, i, f)
    ensures f in FiveOf(p, s, i)
  {
  }

  function AllFwds(p: Params, slots: seq<Slot>, n: nat): set<Fwd>
    requires n <= |slots|
  {
    if n == 0 then {} else AllFwds(p, slots, n - 1) + FiveOf(p, slots[n - 1], n - 1)
  }

  lemma {:induction false} AllFwdsCount(p: Params, slots: seq<Slot>, n: nat)
    requires n <= |slots|
    ensures |AllFwds(p, slots, n)| <= 5 * n
  {
    hide FiveOf;
    if n > 0 {
      AllFwdsCount(p, slots, n - 1);
      UnionCount(AllFwds(p, slots, n - 1), FiveOf(p, slots[n - 1], n - 1));
    }
  }

  lemma {:induction false} AllFwdsHas(p: Params, slots: seq<Slot>, n: nat, i: nat, f: Fwd)
    requires i < n <= |slots| && FwdOf(p, slots[i], i, f)
    ensures f in AllFwds(p, slots, n)
  {
    hide FiveOf, FwdOf;
    if i == n - 1 {
      FiveOfHas(p, slots[i], i, f);
    } else {
      AllFwdsHas(p, slots, n - 1, i, f);
    }
  }

  lemma UnionCount<T>(a: set<T>, b: set<T>)
    ensures |a + b| <= |a| + |b|
  {
    assert |a + b| + |a * b| == |a| + |b|;
  }

  lemma {:induction false} DistinctCount(fwds: seq<Fwd>)
    requires forall i, j :: 0 <= i < j < |fwds| ==> fwds[i] != fwds[j]
    ensures |(set f | f in fwds)| == |fwds|
  {
    if fwds != [] {
      var init := fwds[..|fwds| - 1];
      DistinctCount(init);
      assert (set f | f in fwds) == (set f | f in init) + {fwds[|fwds| - 1]};
      assert fwds[|fwds| - 1] !in init;
    }
  }

  lemma SubsetCount<T>(a: set<T>, b: set<T>)
    requires a <= b
    ensures |a| <= |b|
  {
    assert b == a + (b - a);
  }

  /** At most forty distinct forwards are created in any run, so the table of 128 never fills up. */
  lemma AtMostForty(p: Params, slots: seq<Slot>, fwds: seq<Fwd>, made: set<Fwd>)
    requires SlotsOk(p, slots) && FwdsOk(p, slots, fwds, made)
    ensures |fwds| <= |made| <= 5 * |slots| <= 40
  {
    var all := AllFwds(p, slots, |slots|);
    DistinctCount(fwds);
    forall f | f in made
      ensures f in all
    {
      var i :| 0 <= i < |slots| && FwdOf(p, slots[i], i, f);
      AllFwdsHas(p, slots, |slots|, i, f);
    }
    AllFwdsCount(p, slots, |slots|);
    SubsetCount(made, all);
    SubsetCount((set f | f in fwds), made);
  }

  /** adb leads local port loc to a port of slot i's own device. */
  predicate EndOf(p: Params, s: Slot, i: nat, loc: int, e: End)
  {
    && e.serial == s.serial
    && (|| (loc == p.adbBase + i + 10000 && e.port == p.tcpipPort)
        || (!p.noStream && 27183 <= e.port < 27187 && loc == StreamBaseOf(i) + 10000 + (e.port - 27183)))
  }

  ghost predicate EndOk(p: Params, slots: seq<Slot>, loc: int, e: End)
  {
    exists i :: 0 <= i < |slots| && EndOf(p, slots[i], i, loc, e)
  }

  ghost predicate AdbOk(p: Params, slots: seq<Slot>, adb: map<int, End>)
  {
    forall loc :: loc in adb ==> EndOk(p, slots, loc, adb[loc])
  }

  lemma AdbKept(p: Params, s: seq<Slot>, t: seq<Slot>, adb: map<int, End>)
    requires AdbOk(p, s, adb) && Grown(s, t)
    ensures AdbOk(p, t, adb)
  {
    forall loc | loc in adb
      ensures EndOk(p, t, loc, adb[loc])
    {
      assert EndOk(p, s, loc, adb[loc]);
      var i :| 0 <= i < |s| && EndOf(p, s[i], i, loc, adb[loc]);
      assert SameSlot(s[i], t[i]) && EndOf(p, t[i], i, loc, adb[loc]);
    }
  }

  // ---- Which forwards the agent knows of

  /** Some call for f reported success. */
  ghost predicate Confirmed(tries: seq<Try>, f: Fwd)
  {
    exists n :: 0 <= n < |tries| && tries[n].f == f && tries[n].ok
  }

  /** Some call for f took effect. */
  ghost predicate Created(tries: seq<Try>, f: Fwd)
  {
    exists n :: 0 <= n < |tries| && tries[n].f == f && tries[n].took
  }

  /** No failing call took effect without some call for the same forward succeeding. */
  ghost predicate NoStray(tries: seq<Try>)
  {
    forall n :: 0 <= n < |tries| && tries[n].took && !tries[n].ok ==> Confirmed(tries, tries[n].f)
  }

  /** The table knows the confirmed forwards; those that exist are the ones that took effect. */
  ghost predicate Known(fwds: seq<Fwd>, made: set<Fwd>, tries: seq<Try>)
  {
    && (forall n :: 0 <= n < |tries| && tries[n].ok ==> tries[n].took)
    && (forall f :: f in fwds <==> Confirmed(tries, f))
    && (forall f :: f in made <==> Created(tries, f))
  }

  lemma TriesSnoc(tries: seq<Try>, t: Try, f: Fwd)
    ensures Confirmed(tries + [t], f) <==> Confirmed(tries, f) || (t.f == f && t.ok)
    ensures Created(tries + [t], f) <==> Created(tries, f) || (t.f == f && t.took)
  {
    var more := tries + [t];
    if Confirmed(tries, f) {
      var n :| 0 <= n < |tries| && tries[n].f == f && tries[n].ok;
      assert more[n] == tries[n];
    }
    if Created(tries, f) {
      var n :| 0 <= n < |tries| && tries[n].f == f && tries[n].took;
      assert more[n] == tries[n];
    }
    assert more[|tries|] == t;
  }

  lemma KnownSnoc(fwds: seq<Fwd>, made: set<Fwd>, tries: seq<Try>, t: Try)
    requires Known(fwds, made, tries) && (t.ok ==> t.took)
    ensures Known(if t.ok && t.f !in fwds then fwds + [t.f] else fwds, if t.took then made + {t.f} else made, tries + [t])
  {
    forall f
      ensures Confirmed(tries + [t], f) <==> Confirmed(tries, f) || (t.f == f && t.ok)
      ensures Created(tries + [t], f) <==> Created(tries, f) || (t.f == f && t.took)
    {
      TriesSnoc(tries, t, f);
    }
  }

  /** What the table knows is all there is exactly when there was no stray. */
  lemma KnownAllIff(fwds: seq<Fwd>, made: set<Fwd>, tries: seq<Try>)
    requires Known(fwds, made, tries)
    ensures made == (set f | f in fwds) <==> NoStray(tries)
  {
    if NoStray(tries) {
      forall f | f in made
        ensures f in fwds
      {
        var n :| 0 <= n < |tries| && tries[n].f == f && tries[n].took;
      }
      forall f | f in fwds
        ensures f in made
      {
        var n :| 0 <= n < |tries| && tries[n].f == f && tries[n].ok;
      }
    }
    if made == (set f | f in fwds) {
      forall n | 0 <= n < |tries| && tries[n].took && !tries[n].ok
        ensures Confirmed(tries, tries[n].f)
      {
        assert Created(tries, tries[n].f);
        assert tries[n].f in made;
      }
    }
  }

  // ---- Moments

  /** The tables at one moment: slots, listeners and forwards of the agent, adb's own forwards, and what was ever created. */
  datatype Snapshot = Snapshot(
    slots: seq<Slot>, ls: seq<Listener>, fwds: seq<Fwd>, adb: map<int, End>, made: set<Fwd>, tries: seq<Try>)

  /** Everything the tables promise, at every moment. */
  ghost predicate SnapshotOk(p: Params, t: Snapshot)
  {
    && SlotsOk(p, t.slots) && ListenersOk(p, t.slots, t.ls) && FwdsOk(p, t.slots, t.fwds, t.made)
    && AdbOk(p, t.slots, t.adb) && Advertised(t.slots, t.made) && Known(t.fwds, t.made, t.tries)
  }

  /** What may become of the tables from one moment to a later one. */
  ghost predicate Follows(s: Snapshot, t: Snapshot)
  {
    Grown(s.slots, t.slots) && s.ls <= t.ls && s.made <= t.made && s.tries <= t.tries
  }

  lemma FollowsTransitive(s: Snapshot, t: Snapshot, u: Snapshot)
    requires Follows(s, t) && Follows(t, u)
    ensures Follows(s, u)
  {
    GrownTransitive(s.slots, t.slots, u.slots);
  }

  lemma SelfFollows(s: Snapshot)
    ensures Follows(s, s)
  {
    SelfGrown(s.slots);
  }

  /** Moments in order, each as promised. */
  ghost predicate Chain(p: Params, ms: seq<Snapshot>)
  {
    && (forall i :: 0 <= i < |ms| ==> SnapshotOk(p, ms[i]))
    && (forall i, j :: 0 <= i <= j < |ms| ==> Follows(ms[i], ms[j]))
  }

  ghost predicate Recorded(p: Params, ms: seq<Snapshot>, now: Snapshot)
  {
    ms != [] && ms[|ms| - 1] == now && Chain(p, ms)
  }

  lemma ChainSnoc(p: Params, ms: seq<Snapshot>, was: Snapshot, now: Snapshot)
    requires Recorded(p, ms, was) && SnapshotOk(p, now) && Follows(was, now)
    ensures Recorded(p, ms + [now], now)
  {
    hide SnapshotOk, Follows;
    var more := ms + [now];
    forall i, j | 0 <= i <= j < |more|
      ensures Follows(more[i], more[j])
    {
      if j == |ms| {
        if i == j {
          SelfFollows(now);
        } else {
          FollowsTransitive(ms[i], was, now);
        }
      }
    }
  }

  /** Every ready slot has all its ports relayed. */
  ghost predicate ReadyServed(t: Snapshot)
  {
    forall i :: 0 <= i < |t.slots| && t.slots[i].ready ==> Served(t.slots[i], t.ls, false)
  }

  ghost predicate AllServe(ms: seq<Snapshot>)
  {
    forall i :: 0 <= i < |ms| ==> ReadyServed(ms[i])
  }

  /** adb has every forward that was ever created. */
  ghost predicate Held(t: Snapshot)
  {
    forall f :: f in t.made ==> f.loc in t.adb
  }

  ghost predicate AllHeld(ms: seq<Snapshot>)
  {
    forall i :: 0 <= i < |ms| ==> Held(ms[i])
  }

  // The steps the tables take.

  lemma SlotsStep(p: Params, t: Snapshot, slots: seq<Slot>)
    requires SnapshotOk(p, t) && SlotsOk(p, slots) && Grown(t.slots, slots)
    requires forall i :: 0 <= i < |slots| && slots[i].ready ==> (i < |t.slots| && t.slots[i].ready) || Furnished(slots[i], t.made)
    ensures SnapshotOk(p, t.(slots := slots)) && Follows(t, t.(slots := slots))
  {
    ListenersKept(p, t.slots, slots, t.ls);
    FwdsKept(p, t.slots, slots, t.fwds, t.made);
    AdbKept(p, t.slots, slots, t.adb);
    AdvertisedKept(t.slots, slots, t.made, t.made);
  }

  lemma ServedKept(s: Slot, t: Slot, ls: seq<Listener>, more: seq<Listener>)
    requires SameSlot(s, t) && ls <= more && Served(s, ls, false)
    ensures Served(t, more, false)
  {
    StillListens(ls, more, s.adbPort, AdbDst(s), NoGroup);
    StreamAdded(ls, more, s.idx, 0);
  }

  lemma ServeStep(t: Snapshot, slots: seq<Slot>, ls: seq<Listener>)
    requires ReadyServed(t) && Grown(t.slots, slots) && t.ls <= ls
    requires forall i :: 0 <= i < |slots| && slots[i].ready ==> (i < |t.slots| && t.slots[i].ready) || Served(slots[i], ls, false)
    ensures ReadyServed(t.(slots := slots, ls := ls))
  {
    forall i | 0 <= i < |slots| && slots[i].ready
      ensures Served(slots[i], ls, false)
    {
      if i < |t.slots| && t.slots[i].ready {
        ServedKept(t.slots[i], slots[i], t.ls, ls);
      }
    }
  }

  /** Listeners that lead where the slots say may be added. */
  lemma ListenStep(p: Params, t: Snapshot, l: Listener)
    requires SnapshotOk(p, t) && ListenerOk(p, t.slots, l)
    ensures SnapshotOk(p, t.(ls := t.ls + [l])) && Follows(t, t.(ls := t.ls + [l]))
  {
    SelfGrown(t.slots);
  }

  /** adb may lose forwards. */
  lemma LoseStep(p: Params, t: Snapshot, lost: set<int>)
    requires SnapshotOk(p, t)
    ensures SnapshotOk(p, t.(adb := t.adb - lost)) && Follows(t, t.(adb := t.adb - lost))
  {
    SelfGrown(t.slots);
  }

  /** The tables after a call of `adb forward` for slot i. */
  function AfterForward(t: Snapshot, i: nat, loc: int, port: int, ok: bool, took: bool): Snapshot
    requires i < |t.slots|
  {
    var f := Fwd(t.slots[i].serial, loc);
    Snapshot(t.slots, t.ls,
             if ok && f !in t.fwds then t.fwds + [f] else t.fwds,
             if took then t.adb[loc := End(f.serial, port)] else t.adb,
             if took then t.made + {f} else t.made,
             t.tries + [Try(f, ok, took)])
  }

  lemma ForwardStep(p: Params, t: Snapshot, i: nat, loc: int, port: int, ok: bool, took: bool)
    requires SnapshotOk(p, t) && i < |t.slots| && (ok ==> took)
    requires FwdOf(p, t.slots[i], i, Fwd(t.slots[i].serial, loc)) && EndOf(p, t.slots[i], i, loc, End(t.slots[i].serial, port))
    ensures var u := AfterForward(t, i, loc, port, ok, took); SnapshotOk(p, u) && Follows(t, u) && (Held(t) ==> Held(u))
  {
    var f := Fwd(t.slots[i].serial, loc);
    var u := AfterForward(t, i, loc, port, ok, took);
    SelfGrown(t.slots);
    KnownSnoc(t.fwds, t.made, t.tries, Try(f, ok, took));
    AdvertisedKept(t.slots, t.slots, t.made, u.made);
    assert FwdOk(p, t.slots, f);
    forall l | l in u.adb
      ensures EndOk(p, t.slots, l, u.adb[l])
    {
      if !(took && l == loc) {
        assert EndOk(p, t.slots, l, t.adb[l]);
      }
    }
  }

  /** How many entries a number of ports take on a number of addresses. */
  function Ports(nbind: nat, ports: nat): nat
  {
    nbind * ports
  }

  // ---- Scripts

  /** The next outside call goes well. */
  predicate Yes(script: seq<Answer>)
  {
    script == [] || script[0].code % 2 == 1
  }

  function Drop(script: seq<Answer>, n: nat): seq<Answer>
  {
    if |script| <= n then [] else script[n..]
  }

  /** A forward and the check through it go well. */
  predicate Reaches(script: seq<Answer>)
  {
    Yes(script) && Yes(Drop(script, 1))
  }

  predicate AllGood(script: seq<Answer>, n: nat)
  {
    forall i :: 0 <= i < n && i < |script| ==> script[i].code % 2 == 1
  }

  predicate AllBad(script: seq<Answer>, n: nat)
  {
    n <= |script| && forall i :: 0 <= i < n ==> script[i].code % 2 == 0
  }

  class Agent {
    const p: Params
    var script: seq<Answer>
    var slots: seq<Slot>
    var ls: seq<Listener>
    var fwds: seq<Fwd>
    // adb's own table, every forward ever created, and every call that tried to create one.
    var adb: map<int, End>
    var made: set<Fwd>
    var tries: seq<Try>
    // Forwards whose removal was issued.
    var removed: set<Fwd>
    // Every state of the tables so far, up to the present one: what the accept loop and discovery can see.
    var moments: seq<Snapshot>
    // How often a port was to be bound, and whether the listener table was ever too small.
    var calls: nat
    var dropped: bool
    // How many forwards, checks and binds that had to succeed failed, and how often adb lost forwards.
    var failures: nat
    var losses: nat

    constructor (p: Params, script: seq<Answer>)
      ensures this.p == p && this.script == script && Tables() && Room()
      ensures slots == [] && ls == [] && fwds == [] && made == {} && tries == [] && removed == {}
      ensures calls == 0 && !dropped && failures == 0 && losses == 0
    {
      this.p, this.script := p, script;
      slots, ls, fwds, adb, made, tries, removed := [], [], [], map[], {}, [], {};
      calls, dropped, failures, losses := 0, false, 0, 0;
      moments := [Snapshot([], [], [], map[], {}, [])];
      new;
      SelfFollows(Now());
    }

    function Now(): Snapshot
      reads this
    {
      Snapshot(slots, ls, fwds, adb, made, tries)
    }

    /** Every moment so far was as promised; without failures and losses all that was offered was there. */
    ghost predicate Tables()
      reads this
    {
      && Recorded(p, moments, Now())
      && (failures == 0 && !dropped ==> AllServe(moments))
      && (losses == 0 ==> AllHeld(moments))
    }

    /** Room in the listener table. */
    ghost predicate Room()
      reads this
    {
      && |ls| <= Ports(p.nbind, calls) && |ls| <= 128 && (dropped ==> Ports(p.nbind, calls) > 128)
      && (failures == 0 && !dropped ==> |ls| == Ports(p.nbind, calls))
    }

    /** Nothing failed so far, and every device is one the agent can relay in full. */
    ghost predicate Smooth()
      reads this
    {
      failures == 0 && p.nbind > 0 && !p.noStream && AllReachable(slots)
    }

    ghost predicate Valid()
      reads this
    {
      && Tables() && Room() && calls <= 1 + 5 * |slots|
      && (Smooth() && !dropped ==> calls == 1 + 5 * |slots|)
    }

    /** Without a failure the listener table was too small exactly when there are more ports to bind than entries. */
    lemma RoomAtLast()
      requires Valid()
      ensures Smooth() ==> (dropped <==> Ports(p.nbind, 1 + 5 * |slots|) > 128)
    {
      MoreCalls(p.nbind, calls, 1 + 5 * |slots|);
    }

    lemma NowOk()
      requires Tables()
      ensures SnapshotOk(p, Now()) && SlotsOk(p, slots) && |slots| <= 8
    {
    }

    lemma SlotAt(i: nat)
      requires Tables() && i < |slots|
      ensures SlotOk(p, slots[i], i)
    {
      NowOk();
    }

    lemma AdbFacts(i: nat)
      requires Tables() && i < |slots|
      ensures slots[i].adbPort == p.adbBase + i && slots[i].kind == DevKind(slots[i].serial)
    {
      SlotAt(i);
    }

    lemma ReadyReachable(i: nat)
      requires Tables() && i < |slots| && slots[i].ready
      ensures Reachable(slots[i].serial)
    {
      NowOk();
      assert Furnished(slots[i], made);
    }

    /** Records the present state. */
    method Note(ghost was: Snapshot)
      requires Recorded(p, moments, was) && SnapshotOk(p, Now()) && Follows(was, Now())
      requires failures == 0 && !dropped ==> AllServe(moments) && ReadyServed(Now())
      requires losses == 0 ==> AllHeld(moments) && Held(Now())
      modifies this`moments
      ensures Tables() && old(moments) <= moments
    {
      hide SnapshotOk, Follows, ReadyServed, Held, Chain;
      ChainSnoc(p, moments, was, Now());
      moments := moments + [Now()];
    }

    /** The last moment is the present one. */
    lemma LastServes()
      requires Tables()
      ensures failures == 0 && !dropped ==> ReadyServed(Now())
      ensures losses == 0 ==> Held(Now())
    {
      hide ReadyServed, Held, SnapshotOk, Follows;
      assert moments[|moments| - 1] == Now();
    }

    /** The outcome of an external call; once the script is used up every call goes well. */
    method Ask() returns (v: nat)
      requires Tables()
      modifies this`script, this`adb, this`losses, this`moments
      ensures Tables() && old(moments) <= moments && losses >= old(losses) && (losses == old(losses) ==> adb == old(adb))
      ensures script == Drop(old(script), 1) && v == (if old(script) == [] then 1 else old(script)[0].code)
    {
      hide SnapshotOk, Follows, ReadyServed, Held, Chain;
      v := 1;
      if script != [] {
        v := script[0].code;
        if adb - script[0].lost != adb {
          Lose(script[0].lost);
        }
        script := script[1..];
      }
    }

    method Lose(lost: set<int>)
      requires Tables()
      modifies this`adb, this`losses, this`moments
      ensures Tables() && old(moments) <= moments && losses == old(losses) + 1
    {
      hide Recorded, AllServe, AllHeld, SnapshotOk, SlotsOk, Follows, ReadyServed, Held;
      ghost var was := Now();
      NowOk();
      LastServes();
      LoseStep(p, was, lost);
      adb := adb - lost;
      losses := losses + 1;
      SameServing(was, Now());
      Note(was);
    }

    // ---- Forwards

    /**
     `adb_forward`: on success the forward exists and cleanup knows of it. A call that reports failure,
     for instance because its adb client was killed at the timeout, may have created the forward too.
     */
    method AdbForward(i: nat, loc: int, port: int) returns (ok: bool)
      requires Tables() && i < |slots|
      requires FwdOf(p, slots[i], i, Fwd(slots[i].serial, loc)) && EndOf(p, slots[i], i, loc, End(slots[i].serial, port))
      modifies this`script, this`adb, this`losses, this`fwds, this`made, this`tries, this`moments
      ensures Tables() && old(moments) <= moments && old(made) <= made && losses >= old(losses)
      ensures script == Drop(old(script), 1) && ok == Yes(old(script))
      ensures tries == old(tries) + [Try(Fwd(slots[i].serial, loc), ok, ok || old(script)[0].code % 4 == 2)]
      ensures ok ==> Fwd(slots[i].serial, loc) in fwds && Fwd(slots[i].serial, loc) in made
      ensures ok ==> loc in adb && adb[loc] == End(slots[i].serial, port)
      ensures losses == old(losses) ==>
        adb == if tries[|old(tries)|].took then old(adb)[loc := End(slots[i].serial, port)] else old(adb)
    {
      hide Recorded, AllServe, AllHeld, FwdOf, EndOf;
      var v := Ask();
      ok := v % 2 == 1;
      Tried(i, loc, port, ok, ok || v % 4 == 2);
    }

    /** What a call of `adb forward` leaves behind. */
    method Tried(i: nat, loc: int, port: int, ok: bool, took: bool)
      requires Tables() && i < |slots| && (ok ==> took)
      requires FwdOf(p, slots[i], i, Fwd(slots[i].serial, loc)) && EndOf(p, slots[i], i, loc, End(slots[i].serial, port))
      modifies this`adb, this`fwds, this`made, this`tries, this`moments
      ensures Tables() && old(moments) <= moments
      ensures Now() == AfterForward(old(Now()), i, loc, port, ok, took)
    {
      hide Recorded, AllServe, AllHeld, SnapshotOk, SlotsOk, Follows, ReadyServed, Held, FwdOf, EndOf;
      ghost var was := Now();
      NowOk();
      LastServes();
      ForwardStep(p, was, i, loc, port, ok, took);
      Forty();
      var f := Fwd(slots[i].serial, loc);
      var known := Knows(f);
      if took {
        adb := adb[loc := End(f.serial, port)];
        made := made + {f};
      }
      if ok && !known && |fwds| < 128 {
        fwds := fwds + [f];
      }
      tries := tries + [Try(f, ok, took)];
      SameServing(was, Now());
      Note(was);
    }

    /** The search of `adb_forward` for a forward already recorded. */
    method Knows(f: Fwd) returns (b: bool)
      ensures b == (f in fwds)
    {
      for n := 0 to |fwds|
        invariant f !in fwds[..n]
      {
        if fwds[n] == f { return true; }
      }
      assert fwds[..|fwds|] == fwds;
      return false;
    }

    lemma Forty()
      requires Tables()
      ensures |fwds| <= |made| <= 40
    {
      NowOk();
      AtMostForty(p, slots, fwds, made);
    }

    /**
     `cleanup_forwards`: removal is issued for every forward the table knows, which is every forward ever
     created exactly when no call took effect that reported failure and never succeeded. adb may or may not obey.
     */
    method CleanupForwards()
      requires Tables() && removed == {}
      modifies this`script, this`adb, this`fwds, this`removed
      ensures removed == (set f | f in old(fwds)) && fwds == []
      ensures forall f :: f in removed <==> Confirmed(tries, f)
      ensures forall f :: f in made <==> Created(tries, f)
      ensures removed == made <==> NoStray(tries)
      ensures forall loc :: loc in adb ==> loc in old(adb) && adb[loc] == old(adb)[loc]
    {
      hide Follows, Chain, ReadyServed, Held, NoStray, Confirmed, Created;
      NowOk();
      KnownAllIff(fwds, made, tries);
      for n := 0 to |fwds|
        invariant fwds == old(fwds) && removed == (set f | f in fwds[..n])
        invariant forall loc :: loc in adb ==> loc in old(adb) && adb[loc] == old(adb)[loc]
      {
        var f := fwds[n];
        assert fwds[..n + 1] == fwds[..n] + [f];
        removed := removed + {f};
        if Yes(script) {
          adb := adb - {f.loc};
        }
        script := Drop(script, 1);
      }
      assert fwds[..|fwds|] == fwds;
      fwds := [];
    }

    // ---- Slots

    /** Replaces slot i by an allowed successor; one that becomes ready has its forwards and its ports. */
    method SetSlot(i: nat, s: Slot)
      requires Tables() && i < |slots| && SameSlot(slots[i], s)
      requires s.ready && !slots[i].ready ==> Furnished(s, made) && (failures == 0 && !dropped ==> Served(s, ls, false))
      modifies this`slots, this`moments
      ensures Tables() && old(moments) <= moments && slots == old(slots)[i := s] && Grown(old(slots), slots)
    {
      hide Recorded, AllServe, AllHeld, SnapshotOk, SlotsOk, Follows, SameSlot, Served, Furnished, ReadyServed, Held;
      ghost var was := Now();
      NowOk();
      LastServes();
      SlotUpdated(p, slots, i, s);
      SlotsStep(p, was, slots[i := s]);
      if failures == 0 && !dropped {
        ServeStep(was, slots[i := s], ls);
      }
      SameHeld(was, was.(slots := slots[i := s]));
      slots := slots[i := s];
      Note(was);
    }

    /** A new device in the next slot. */
    method AddSlot(s: Slot)
      requires Tables() && |slots| < 8 && SlotOk(p, s, |slots|) && !s.ready
      requires forall i :: 0 <= i < |slots| ==> slots[i].serial != s.serial
      modifies this`slots, this`moments
      ensures Tables() && old(moments) <= moments && slots == old(slots) + [s] && Grown(old(slots), slots)
    {
      hide Recorded, AllServe, AllHeld, SnapshotOk, SlotsOk, Follows, SlotOk, Served, Furnished, ReadyServed, Held;
      ghost var was := Now();
      NowOk();
      LastServes();
      SlotAdded(p, slots, s);
      SlotsStep(p, was, slots + [s]);
      if failures == 0 && !dropped {
        ServeStep(was, slots + [s], ls);
      }
      SameHeld(was, was.(slots := slots + [s]));
      slots := slots + [s];
      Note(was);
    }

    /** The adb half of `establish_forwards`. */
    method AdbPath(i: nat) returns (ok: bool)
      requires Tables() && i < |slots|
      modifies this`script, this`adb, this`losses, this`fwds, this`made, this`tries, this`slots, this`failures, this`moments
      ensures Tables() && old(moments) <= moments && Grown(old(slots), slots) && |slots| == |old(slots)| && old(made) <= made
      ensures failures >= old(failures) && losses >= old(losses)
      ensures old(script) == [] ==> script == [] && failures == old(failures)
      ensures slots[i].kind == Wireless ==> script == old(script) && failures == old(failures) && tries == old(tries)
      ensures !ok ==> failures > old(failures) || !Reachable(slots[i].serial)
      ensures slots[i] == old(slots)[i].(adbDst := slots[i].adbDst)
      ensures forall j :: 0 <= j < |slots| && j != i ==> slots[j] == old(slots)[j]
      ensures ok ==> slots[i].adbDst == AdbDst(slots[i]) && (slots[i].kind != Wireless ==> AdbFwd(slots[i]) in made)
      // The listener of the adb port will relay to the very port that adb forwards to the device.
      ensures ok && slots[i].kind != Wireless && losses == old(losses) ==>
        && slots[i].adbDst == Target("127.0.0.1", p.adbBase + i + 10000)
        && p.adbBase + i + 10000 in adb && adb[p.adbBase + i + 10000] == End(slots[i].serial, p.tcpipPort)
      ensures ok ==> Reachable(slots[i].serial)
      ensures old(tries) <= tries && (losses == old(losses) ==> old(adb).Keys <= adb.Keys)
      ensures slots[i].kind != Wireless ==> Attempted(tries, |old(tries)|, AdbFwd(slots[i]))
    {
      hide Tables, SlotOk, DevKind, SameSlot, AdbDst, Reachable, Furnished, Served, Drop, Attempted;
      AdbFacts(i);
      ReachableWireless(slots[i]);
      var s := slots[i];
      SelfGrown(slots);
      var dst;
      if s.kind != Wireless {
        var loc := s.adbPort + 10000;
        ok := Dial(i, loc);
        if !ok { return; }
        dst := Target("127.0.0.1", loc);
      } else {
        var c := Text.LastColon(s.serial, |s.serial|);
        ok := 0 < c < 64;
        if !ok { return; }
        dst := Target(s.serial[..c], Text.Atoi(s.serial[c + 1..]));
      }
      SameAfterDst(s, dst);
      SetSlot(i, s.(adbDst := dst));
    }

    /** Two attempts to reach the guest's adbd, with `adb tcpip` in between. */
    method Dial(i: nat, loc: int) returns (ok: bool)
      requires Tables() && i < |slots| && loc == p.adbBase + i + 10000
      modifies this`script, this`adb, this`losses, this`fwds, this`made, this`tries, this`failures, this`moments
      ensures Tables() && old(moments) <= moments && old(made) <= made && losses >= old(losses)
      ensures old(script) == [] ==> script == []
      ensures failures == old(failures) + (if ok then 0 else 1) && (old(script) == [] ==> ok)
      ensures ok ==> Fwd(slots[i].serial, loc) in made
      ensures ok && losses == old(losses) ==> loc in adb && adb[loc] == End(slots[i].serial, p.tcpipPort)
      ensures old(tries) <= tries && (losses == old(losses) ==> old(adb).Keys <= adb.Keys)
      ensures Attempted(tries, |old(tries)|, Fwd(slots[i].serial, loc)) && (!ok ==> |tries| == |old(tries)| + 2)
      ensures Reaches(old(script)) ==> ok && |tries| == |old(tries)| + 1
    {
      hide Recorded, AllServe, AllHeld, Drop, Attempted, Reaches;
      NothingBad(1);
      ok := Reach(i, loc);
      ghost var once := tries;
      if !ok {
        var _ := Ask();  // adb tcpip
        ok := Reach(i, loc);
      }
      StillAttempted(once, tries, |old(tries)|, Fwd(slots[i].serial, loc));
      failures := failures + if ok then 0 else 1;
    }

    /** A forward to the guest's adbd, checked by connecting through it. */
    method Reach(i: nat, loc: int) returns (ok: bool)
      requires Tables() && i < |slots| && loc == p.adbBase + i + 10000
      modifies this`script, this`adb, this`losses, this`fwds, this`made, this`tries, this`moments
      ensures Tables() && old(moments) <= moments && old(made) <= made && losses >= old(losses)
      ensures old(script) == [] ==> script == [] && ok
      ensures ok ==> Fwd(slots[i].serial, loc) in made
      ensures ok && losses == old(losses) ==> loc in adb && adb[loc] == End(slots[i].serial, p.tcpipPort)
      ensures old(tries) <= tries && (losses == old(losses) ==> old(adb).Keys <= adb.Keys)
      ensures Attempted(tries, |old(tries)|, Fwd(slots[i].serial, loc)) && |tries| == |old(tries)| + 1
      ensures ok <==> Reaches(old(script))
    {
      hide Tables, Attempted;
      ok := AdbForward(i, loc, p.tcpipPort);
      OneTry(old(tries), tries, |old(tries)|, Fwd(slots[i].serial, loc), Fwd(slots[i].serial, loc));
      if ok {
        var v := Ask();  // verify_guest_adb
        ok := v % 2 == 1;
      }
    }

    /** The stream half of `establish_forwards`: all four forwards, or the slot stops relaying streams. */
    method StreamPath(i: nat)
      requires Tables() && i < |slots|
      modifies this`script, this`adb, this`losses, this`fwds, this`made, this`tries, this`slots, this`failures, this`moments
      ensures Tables() && old(moments) <= moments && Grown(old(slots), slots) && |slots| == |old(slots)| && old(made) <= made
      ensures failures >= old(failures) && losses >= old(losses)
      ensures old(script) == [] ==> script == [] && failures == old(failures)
      ensures slots[i].streamBase != old(slots)[i].streamBase ==> failures > old(failures)
      ensures slots[i] == old(slots)[i].(streamBase := slots[i].streamBase)
      ensures forall j :: 0 <= j < |slots| && j != i ==> slots[j] == old(slots)[j]
      ensures slots[i].streamBase != 0 ==> Forwarded(slots[i], made, 4)
      ensures slots[i].streamBase != 0 && losses == old(losses) ==> StreamsLinked(slots[i], adb, 4)
      ensures old(tries) <= tries && (losses == old(losses) ==> old(adb).Keys <= adb.Keys)
      ensures old(slots)[i].streamBase != 0 ==> Attempted(tries, |old(tries)|, StreamFwd(old(slots)[i], 0))
      // How it goes when the script says so.
      ensures old(slots)[i].streamBase != 0 && AllGood(old(script), 4) ==>
        script == Drop(old(script), 4) && failures == old(failures)
      ensures old(slots)[i].streamBase != 0 && Stumbles(old(script)) ==>
        tries == old(tries) + [Try(StreamFwd(old(slots)[i], 0), false, true)] && slots[i].streamBase == 0
    {
      hide Recorded, AllServe, AllHeld, SameSlot, Attempted, AllGood, Drop, Forwarded, StreamsLinked;
      SelfGrown(slots);
      NothingBad(4);
      if slots[i].streamBase != 0 {
        var ok := StreamForwards(i);
        if !ok {
          SameAfterLoss(slots[i]);
          SetSlot(i, slots[i].(streamBase := 0));
          failures := failures + 1;
        }
      }
    }

    /** The four forwards, up to the first that fails. */
    method StreamForwards(i: nat) returns (ok: bool)
      requires Tables() && i < |slots| && slots[i].streamBase != 0
      modifies this`script, this`adb, this`losses, this`fwds, this`made, this`tries, this`moments
      ensures Tables() && old(moments) <= moments && old(made) <= made && losses >= old(losses)
      ensures ok <==> AllGood(old(script), 4)
      ensures ok ==> script == Drop(old(script), 4) && Forwarded(slots[i], made, 4) && |tries| == |old(tries)| + 4
      ensures ok && losses == old(losses) ==> StreamsLinked(slots[i], adb, 4)
      ensures old(tries) <= tries && (losses == old(losses) ==> old(adb).Keys <= adb.Keys)
      ensures Attempted(tries, |old(tries)|, StreamFwd(slots[i], 0))
      ensures Stumbles(old(script)) ==> !ok && tries == old(tries) + [Try(StreamFwd(slots[i], 0), false, true)]
    {
      hide Tables, Attempted, AllGood, Drop;
      NoAnswers(script);
      for k := 0 to 4
        invariant Tables() && old(moments) <= moments && old(made) <= made && losses >= old(losses)
        invariant script == Drop(old(script), k) && AllGood(old(script), k) && |tries| == |old(tries)| + k
        invariant Forwarded(slots[i], made, k) && old(tries) <= tries && (k > 0 ==> !Stumbles(old(script)))
        invariant losses == old(losses) ==> StreamsLinked(slots[i], adb, k) && old(adb).Keys <= adb.Keys
        invariant k > 0 ==> Attempted(tries, |old(tries)|, StreamFwd(slots[i], 0))
      {
        ghost var t0 := tries;
        ok := StreamOne(i, k);
        OneMore(old(script), k);
        FewerGood(old(script), k + 1, 4);
        OneTry(t0, tries, |old(tries)|, StreamFwd(slots[i], 0), StreamFwd(slots[i], k));
        if !ok { return; }
      }
      ok := true;
    }

    /** The forward of stream port k. */
    method StreamOne(i: nat, k: nat) returns (ok: bool)
      requires Tables() && i < |slots| && k < 4 && slots[i].streamBase != 0
      modifies this`script, this`adb, this`losses, this`fwds, this`made, this`tries, this`moments
      ensures Tables() && old(moments) <= moments && old(made) <= made && losses >= old(losses)
      ensures script == Drop(old(script), 1) && ok == Yes(old(script))
      ensures tries == old(tries) + [Try(StreamFwd(slots[i], k), ok, ok || old(script)[0].code % 4 == 2)]
      ensures ok ==> StreamFwd(slots[i], k) in made && StreamFwd(slots[i], k).loc in adb
      ensures losses == old(losses) ==> old(adb).Keys <= adb.Keys
    {
      hide Tables, Drop, DevOk;
      SlotAt(i);
      ok := AdbForward(i, slots[i].streamBase + k + 10000, 27183 + k);
    }

    /** `establish_forwards`. */
    method EstablishForwards(i: nat) returns (ok: bool)
      requires Tables() && i < |slots|
      modifies this`script, this`adb, this`losses, this`fwds, this`made, this`tries, this`slots, this`failures, this`moments
      ensures Tables() && old(moments) <= moments && Grown(old(slots), slots) && |slots| == |old(slots)| && old(made) <= made
      ensures SameFlags(old(slots), slots)
      ensures forall j :: 0 <= j < |slots| && j != i ==> slots[j] == old(slots)[j]
      ensures failures >= old(failures) && losses >= old(losses)
      ensures old(script) == [] ==> script == [] && failures == old(failures)
      ensures !ok ==> failures > old(failures) || !Reachable(slots[i].serial)
      ensures slots[i].streamBase != old(slots)[i].streamBase ==> failures > old(failures)
      ensures ok ==> slots[i].adbDst == AdbDst(slots[i]) && Furnished(slots[i], made)
      ensures ok && losses == old(losses) ==> Linked(slots[i], adb)
      ensures old(tries) <= tries && (losses == old(losses) ==> old(adb).Keys <= adb.Keys)
      ensures Needs(old(slots)[i]) && Reachable(slots[i].serial) ==> Attempted(tries, |old(tries)|, FirstFwd(old(slots)[i]))
      ensures Plain(old(slots)[i]) && AllGood(old(script), 4) ==> ok && script == Drop(old(script), 4) && failures == old(failures)
      ensures Plain(old(slots)[i]) && Stumbles(old(script)) ==>
        tries == old(tries) + [Try(StreamFwd(old(slots)[i], 0), false, true)]
    {
      hide Recorded, AllServe, AllHeld, SameSlot, Grown, AllGood, Stumbles, Forwarded, Drop, Attempted, Reachable, StreamsLinked;
      ghost var s0 := slots;
      ok := AdbPath(i);
      if ok {
        ghost var s1, t1 := slots, tries;
        StreamPath(i);
        GrownTransitive(s0, s1, slots);
        if s0[i].kind != Wireless {
          StillAttempted(t1, tries, |old(tries)|, AdbFwd(s0[i]));
        }
      }
    }

    // ---- Listeners

    /** `add_listener`: one entry for each address it can bind; entries are only appended. */
    method AddListener(pub: int, dst: Target, group: Group, isDiscovery: bool) returns (ok: bool)
      requires Tables() && Room()
      requires ListenerOk(p, slots, Listener(0, pub, dst, group, isDiscovery))
      modifies this`script, this`adb, this`losses, this`ls, this`calls, this`dropped, this`failures, this`moments
      ensures Tables() && Room() && old(moments) <= moments && calls == old(calls) + 1 && losses >= old(losses)
      ensures old(ls) <= ls && ok == (|ls| > |old(ls)|) && (old(dropped) ==> dropped)
      ensures failures >= old(failures) && script == Drop(old(script), p.nbind)
      ensures AllGood(old(script), p.nbind) ==> failures == old(failures)
      ensures AllBad(old(script), p.nbind) ==> failures == old(failures) + p.nbind && ls == old(ls) && dropped == old(dropped)
      ensures failures == old(failures) && !dropped ==> |ls| == |old(ls)| + p.nbind
      ensures forall j :: |old(ls)| <= j < |ls| ==> ls[j] == Listener(ls[j].fd, pub, dst, group, isDiscovery)
      ensures losses == old(losses) ==> adb == old(adb)
    {
      hide Recorded, AllServe, AllHeld, ListenerOk, AllGood, AllBad, Drop, Ports;
      NoAnswers(script);
      var before := |ls|;
      calls := calls + 1;
      ghost var bound := Ports(p.nbind, old(calls));
      Distribute(p.nbind, old(calls));
      for n := 0 to p.nbind
        invariant calls == old(calls) + 1 && Tables() && old(moments) <= moments && losses >= old(losses)
        invariant |ls| <= bound + n && |ls| <= 128 && (dropped ==> bound + p.nbind > 128)
        invariant old(ls) <= ls && (old(dropped) ==> dropped)
        invariant failures >= old(failures) && script == Drop(old(script), n)
        invariant AllGood(old(script), n) ==> failures == old(failures)
        invariant AllBad(old(script), n) ==> failures == old(failures) + n && ls == old(ls) && dropped == old(dropped)
        invariant failures == old(failures) && !dropped ==> |ls| == |old(ls)| + n
        invariant forall j :: |old(ls)| <= j < |ls| ==> ls[j] == Listener(ls[j].fd, pub, dst, group, isDiscovery)
        invariant losses == old(losses) ==> adb == old(adb)
      {
        OneMore(old(script), n);
        var fd := Ask();
        if fd % 2 == 1 {
          AnyFd(p, slots, Listener(0, pub, dst, group, isDiscovery), fd);
          Bind(Listener(fd, pub, dst, group, isDiscovery));
        } else {
          failures := failures + 1;
        }
      }
      ok := |ls| > before;
    }

    /** One bound address, under the lock. */
    method Bind(l: Listener)
      requires Tables() && |ls| <= 128 && ListenerOk(p, slots, l)
      modifies this`ls, this`dropped, this`moments
      ensures Tables() && old(moments) <= moments && |ls| <= 128
      ensures if |old(ls)| < 128 then ls == old(ls) + [l] && dropped == old(dropped) else ls == old(ls) && dropped
    {
      hide Recorded, AllServe, AllHeld, SnapshotOk, SlotsOk, Follows, ListenerOk, ReadyServed, Held;
      if |ls| < 128 {
        ghost var was := Now();
        NowOk();
        LastServes();
        ListenStep(p, was, l);
        SelfGrown(slots);
        if failures == 0 && !dropped {
          ServeStep(was, slots, ls + [l]);
        }
        SameHeld(was, was.(ls := ls + [l]));
        ls := ls + [l];
        Note(was);
      } else {
        dropped := true;
      }
    }

    /** The discovery port, on every address. */
    method OpenDiscovery() returns (ok: bool)
      requires Tables() && Room() && slots == [] && ls == [] && calls == 0
      modifies this`script, this`adb, this`losses, this`ls, this`calls, this`dropped, this`failures, this`moments
      ensures Valid() && old(moments) <= moments && ok == (ls != []) && (forall l :: l in ls ==> l.isDiscovery)
      ensures failures >= old(failures) && script == Drop(old(script), p.nbind)
      ensures AllGood(old(script), p.nbind) ==> failures == old(failures)
    {
      hide Recorded, AllServe, AllHeld, AllGood, AllBad;
      ok := AddListener(p.discoveryPort, Target("127.0.0.1", 0), NoGroup, true);
    }

    /** `bind_listeners`: the adb port, then the four stream ports. */
    method BindListeners(i: nat) returns (ok: bool)
      requires Tables() && Room() && i < |slots| && slots[i].adbDst == AdbDst(slots[i])
      modifies this`script, this`adb, this`losses, this`ls, this`calls, this`dropped, this`failures, this`moments
      ensures Tables() && Room() && old(moments) <= moments && calls <= old(calls) + 5 && losses >= old(losses)
      ensures old(ls) <= ls && (old(dropped) ==> dropped)
      ensures failures >= old(failures) && (old(script) == [] ==> script == [] && failures == old(failures))
      ensures !ok ==> failures > old(failures) || dropped || p.nbind == 0
      ensures ok ==> Served(slots[i], ls, failures > old(failures) || dropped)
      ensures ok && slots[i].streamBase != 0 ==> calls == old(calls) + 5
      ensures losses == old(losses) ==> adb == old(adb)
      ensures slots[i].streamBase != 0 && Refused(p.nbind, old(script)) && p.nbind > 0 ==>
        (ok || dropped) && failures == old(failures) + (if ok then p.nbind else 0) && NoneFor(ls, |old(ls)|, i)
    {
      hide Recorded, AllServe, AllHeld, AdbDst, AllGood, AllBad, Drop;
      SlotAt(i);
      RefusedParts(p.nbind, script);
      NothingBad(p.nbind);
      ok := AddListener(slots[i].adbPort, slots[i].adbDst, NoGroup, false);
      if !ok { return; }
      assert Listens(ls, slots[i].adbPort, AdbDst(slots[i]), NoGroup) by {
        assert ls[|old(ls)|] == Listener(ls[|old(ls)|].fd, slots[i].adbPort, slots[i].adbDst, NoGroup, false);
      }
      if slots[i].streamBase != 0 {
        BindStreams(i);
      }
    }

    /** The stream half of `bind_listeners`, whose results are ignored. */
    method BindStreams(i: nat)
      requires Tables() && Room() && i < |slots| && slots[i].streamBase == StreamBaseOf(i)
      requires Listens(ls, slots[i].adbPort, AdbDst(slots[i]), NoGroup) && slots[i].idx == i && p.nbind > 0
      modifies this`script, this`adb, this`losses, this`ls, this`calls, this`dropped, this`failures, this`moments
      ensures Tables() && Room() && old(moments) <= moments && calls == old(calls) + 4 && losses >= old(losses)
      ensures old(ls) <= ls && (old(dropped) ==> dropped)
      ensures failures >= old(failures) && (old(script) == [] ==> script == [] && failures == old(failures))
      ensures Served(slots[i], ls, failures > old(failures) || dropped)
      ensures losses == old(losses) ==> adb == old(adb)
      ensures AllBad(old(script), p.nbind) && Drop(old(script), p.nbind) == [] ==>
        failures == old(failures) + p.nbind && NoneFor(ls, |old(ls)|, i)
    {
      hide Recorded, AllServe, AllHeld, Listens, AdbDst, AllGood, AllBad, Drop;
      SlotAt(i);
      for k := 0 to 4
        invariant Tables() && Room() && old(moments) <= moments && calls == old(calls) + k && losses >= old(losses)
        invariant losses == old(losses) ==> adb == old(adb)
        invariant old(ls) <= ls && (old(dropped) ==> dropped)
        invariant failures >= old(failures) && (old(script) == [] ==> script == [] && failures == old(failures))
        invariant failures == old(failures) && !dropped ==> forall j: nat :: j < k ==> StreamListens(ls, i, j)
        invariant AllBad(old(script), p.nbind) && Drop(old(script), p.nbind) == [] ==> NoneFor(ls, |old(ls)|, i)
        invariant AllBad(old(script), p.nbind) && Drop(old(script), p.nbind) == [] ==>
          if k == 0 then script == old(script) && failures == old(failures) else script == [] && failures == old(failures) + p.nbind
      {
        var pub := slots[i].streamBase + k;
        ghost var before := ls;
        NothingBad(p.nbind);
        var added := AddListener(pub, Target("127.0.0.1", pub + 10000), StreamGroup(i, k), false);
        StreamAdded(before, ls, i, k);
      }
      StillListens(old(ls), ls, slots[i].adbPort, AdbDst(slots[i]), NoGroup);
    }

    /** `slot_setup_new`. */
    method SlotSetupNew(i: nat)
      requires Tables() && Room() && i < |slots|
      modifies this`script, this`adb, this`losses, this`fwds, this`made, this`tries, this`slots, this`ls, this`calls,
               this`dropped, this`failures, this`moments
      ensures Tables() && Room() && old(moments) <= moments && calls <= old(calls) + 5 && losses >= old(losses)
      ensures Grown(old(slots), slots) && SamePresence(old(slots), slots)
      ensures forall j :: 0 <= j < |slots| && j != i ==> slots[j] == old(slots)[j]
      ensures old(ls) <= ls && old(made) <= made && (old(dropped) ==> dropped)
      ensures failures >= old(failures) && (old(script) == [] ==> script == [] && failures == old(failures))
      ensures failures > old(failures) || dropped || p.nbind == 0 || !Reachable(slots[i].serial) || slots[i].ready
      ensures failures > old(failures) || slots[i].streamBase == old(slots)[i].streamBase
      ensures slots[i].ready && !old(slots)[i].ready ==> Served(slots[i], ls, failures > old(failures) || dropped)
      ensures slots[i].ready && !old(slots)[i].ready && slots[i].streamBase != 0 ==> calls == old(calls) + 5
      ensures old(tries) <= tries && (losses == old(losses) ==> old(adb).Keys <= adb.Keys)
      ensures slots[i].ready && !old(slots)[i].ready && losses == old(losses) ==> Linked(slots[i], adb)
      ensures Plain(old(slots)[i]) && Clash(p.nbind, old(script)) && p.nbind > 0 && !dropped ==>
        && slots[i].ready && slots[i].streamBase == old(slots)[i].streamBase && failures == old(failures) + p.nbind
        && NoneFor(ls, |old(ls)|, i) && Listens(ls, slots[i].adbPort, AdbDst(slots[i]), NoGroup)
      ensures Plain(old(slots)[i]) && Stumbles(old(script)) ==>
        tries == old(tries) + [Try(StreamFwd(old(slots)[i], 0), false, true)]
    {
      hide Tables, SameSlot, Grown, Served, Furnished, Refused, AllGood, AllBad, Drop, Stumbles, NoneFor, Listens, AdbDst, Linked, Attempted, Reachable, Ports, Clash, StreamFwd;
      ghost var s0 := slots;
      ClashParts(p.nbind, script);
      var ok := EstablishForwards(i);
      assert SameFlagsOf(s0[i], slots[i]);
      if !ok { return; }
      ghost var f1 := failures;
      ok := BindListeners(i);
      if !ok { return; }
      ghost var s1 := slots;
      SameAfterReady(slots[i]);
      SameServed(s1[i], s1[i].(ready := true), ls);
      SameFurnished(s1[i], made);
      SetSlot(i, slots[i].(ready := true));
      if losses == old(losses) {
        LinkedKept(s1[i], slots[i], adb, adb);
      }
      GrownTransitive(s0, s1, slots);
      ServedAdb(slots[i], ls);
    }

    // ---- Rescans

    /** `find_slot`: the index of the slot with this serial, or the number of slots. */
    method FindSlot(serial: string) returns (i: nat)
      ensures i <= |slots| && (i < |slots| ==> slots[i].serial == serial)
      ensures i == |slots| ==> forall j :: 0 <= j < |slots| ==> slots[j].serial != serial
    {
      i := 0;
      while i < |slots|
        invariant i <= |slots| && forall j :: 0 <= j < i ==> slots[j].serial != serial
      {
        if slots[i].serial == serial { return; }
        i := i + 1;
      }
    }

    /** Phase A: which slots' devices are there, and which came back. */
    method MarkPresent(devs: seq<Dev>)
      requires Tables()
      modifies this`slots, this`moments
      ensures Tables() && old(moments) <= moments && Grown(old(slots), slots) && |slots| == |old(slots)|
      ensures forall i :: 0 <= i < |slots| ==> slots[i] == Marked(old(slots)[i], devs)
    {
      hide Recorded, AllServe, AllHeld, SameSlot, Grown;
      SelfGrown(slots);
      for i := 0 to |slots|
        invariant Tables() && old(moments) <= moments && Grown(old(slots), slots) && |slots| == |old(slots)|
        invariant forall j :: 0 <= j < i ==> slots[j] == Marked(old(slots)[j], devs)
        invariant forall j :: i <= j < |slots| ==> slots[j] == old(slots)[j]
      {
        ghost var s1 := slots;
        var s := slots[i];
        var there := Seen(devs, s.serial);
        SameAfterMark(s, devs);
        SetSlot(i, s.(present := there, reappeared := s.reappeared || (there && !s.present && s.ready)));
        GrownTransitive(old(slots), s1, slots);
      }
    }

    method FirstReappeared() returns (i: nat)
      ensures i <= |slots| && (i < |slots| ==> slots[i].reappeared)
      ensures forall j :: 0 <= j < i ==> !slots[j].reappeared
    {
      i := 0;
      while i < |slots|
        invariant i <= |slots| && forall j :: 0 <= j < i ==> !slots[j].reappeared
      {
        if slots[i].reappeared { return; }
        i := i + 1;
      }
    }

    /** Phase B1: refreshes the forwards of every slot whose device came back. */
    method Refresh()
      requires Tables()
      modifies this`script, this`adb, this`losses, this`fwds, this`made, this`tries, this`slots, this`failures, this`moments
      ensures Tables() && old(moments) <= moments && Grown(old(slots), slots) && SamePresence(old(slots), slots)
      ensures failures >= old(failures) && (old(script) == [] ==> script == [] && failures == old(failures)) && losses >= old(losses)
      ensures old(made) <= made && forall i :: 0 <= i < |slots| ==> !slots[i].reappeared
      ensures old(slots) == [] ==> script == old(script) && failures == old(failures) && tries == old(tries)
      ensures losses == old(losses) ==> old(adb).Keys <= adb.Keys
      // Every slot that is due has its forwards again, unless a call failed or adb lost some; each was tried for.
      ensures failures == old(failures) && losses == old(losses) ==> Relinked(old(slots), slots, adb, |slots|)
      ensures old(tries) <= tries && Retried(old(slots), tries, |old(tries)|, |slots|)
    {
      hide Recorded, AllServe, AllHeld, SameSlot, Grown, Relinked, Retried;
      SelfGrown(slots);
      NoneDue(slots, adb, tries);
      ghost var next := 0;
      while true
        invariant next <= |slots| && (forall j :: 0 <= j < next ==> !slots[j].reappeared)
        invariant Tables() && old(moments) <= moments && Grown(old(slots), slots) && SamePresence(old(slots), slots)
        invariant old(made) <= made && failures >= old(failures) && losses >= old(losses)
        invariant old(script) == [] ==> script == [] && failures == old(failures)
        invariant old(slots) == [] ==> script == old(script) && failures == old(failures) && tries == old(tries)
        invariant old(tries) <= tries && (losses == old(losses) ==> old(adb).Keys <= adb.Keys)
        invariant forall j :: next <= j < |slots| ==> slots[j] == old(slots)[j]
        invariant failures == old(failures) && losses == old(losses) ==> Relinked(old(slots), slots, adb, next)
        invariant Retried(old(slots), tries, |old(tries)|, next)
        decreases |slots| - next
      {
        ghost var s1, adb1, t1 := slots, adb, tries;
        var i := FirstReappeared();
        NotDue(old(slots), slots, adb, tries, |old(tries)|, next, i);
        if i == |slots| { return; }
        RefreshOne(i);
        if failures == old(failures) && losses == old(losses) {
          RelinkedMore(old(slots), s1, slots, adb1, adb, i);
        }
        RetriedMore(old(slots), t1, tries, |old(tries)|, i);
        next := i + 1;
      }
    }

    method RefreshOne(i: nat)
      requires Tables() && i < |slots|
      modifies this`script, this`adb, this`losses, this`fwds, this`made, this`tries, this`slots, this`failures, this`moments
      ensures Tables() && old(moments) <= moments && SamePresence(old(slots), slots)
      ensures failures >= old(failures) && (old(script) == [] ==> script == [] && failures == old(failures)) && losses >= old(losses)
      ensures forall s :: Grown(s, old(slots)) ==> Grown(s, slots)
      ensures old(made) <= made
      ensures forall j :: 0 <= j < |slots| ==> slots[j].reappeared == (j != i && old(slots)[j].reappeared)
      ensures forall j :: 0 <= j < |slots| && j != i ==> slots[j] == old(slots)[j]
      ensures old(tries) <= tries && (losses == old(losses) ==> old(adb).Keys <= adb.Keys)
      ensures old(slots)[i].ready && failures == old(failures) && losses == old(losses) ==> Linked(slots[i], adb)
      ensures old(slots)[i].ready && Needs(old(slots)[i]) ==> Attempted(tries, |old(tries)|, FirstFwd(old(slots)[i]))
    {
      hide Recorded, AllServe, AllHeld, SameSlot, Grown, Furnished, Reachable, Linked, Attempted;
      ghost var s0 := slots;
      SameAfterClear(slots[i]);
      if slots[i].ready {
        ReadyReachable(i);
      }
      SetSlot(i, slots[i].(reappeared := false));
      ghost var s1 := slots;
      var _ := EstablishForwards(i);
      GrownTransitive(s0, s1, slots);
      SerialKept(s0, slots, i);
      forall s | Grown(s, s0)
        ensures Grown(s, slots)
      {
        GrownTransitive(s, s0, slots);
      }
    }

    /** Phase B2 for one device: a slot for a new serial, while there is one left. */
    method AddDevice(d: Dev)
      requires Valid() && DevOk(d)
      modifies this`script, this`adb, this`losses, this`fwds, this`made, this`tries, this`slots, this`ls, this`calls,
               this`dropped, this`failures, this`moments
      ensures Valid() && old(moments) <= moments && Grown(old(slots), slots) && old(ls) <= ls && old(made) <= made && losses >= old(losses)
      ensures forall i :: 0 <= i < |old(slots)| ==> slots[i] == old(slots)[i]
      ensures forall i :: |old(slots)| <= i < |slots| ==> slots[i].serial == d.serial && slots[i].present
      ensures |slots| == 8 || HasSlot(slots, d.serial)
      ensures failures >= old(failures) && (old(script) == [] ==> script == [] && failures == old(failures))
      // A new device works, unless something failed meanwhile.
      ensures (|slots| == |old(slots)| || |slots| == |old(slots)| + 1) && (old(dropped) ==> dropped)
      ensures |slots| > |old(slots)| && failures == old(failures) && !dropped && p.nbind > 0 && Reachable(d.serial) ==>
        Works(p, slots[|slots| - 1], |slots| - 1, ls)
      ensures old(slots) == [] ==> First(p, d, old(script), old(failures), old(tries), |old(ls)|, slots, ls, tries, failures, dropped)
      ensures old(tries) <= tries && (losses == old(losses) ==> old(adb).Keys <= adb.Keys)
      ensures |slots| > |old(slots)| && slots[|slots| - 1].ready && losses == old(losses) ==> Linked(slots[|slots| - 1], adb)
    {
      hide Recorded, AllServe, AllHeld, SameSlot, Grown, SlotOk, DevOk, Served, Reachable, AllReachable, Clash, Stumbles, NoneFor, Linked;
      NowOk();
      SelfGrown(slots);
      var n := FindSlot(d.serial);
      if n < |slots| || |slots| >= 8 { return; }
      ghost var s0 := slots;
      var s := NewSlot(p, d, n);
      NewPlain(p, d, n);
      AddSlot(s);
      ghost var s1 := slots;
      SlotSetupNew(n);
      GrownTransitive(s0, s1, slots);
      SerialKept(s1, slots, n);
      ReachableKept(s0, slots);
    }

    /**
     `rescan_once`. Afterwards a slot is present exactly when its device is listed, and every listed
     device has a slot unless all eight are taken. A device that came back has its forwards again,
     unless a call failed or adb lost some meanwhile; whatever fails, they were tried for.
     */
    method RescanOnce(listed: bool, devs: seq<Dev>)
      requires Valid() && forall i :: 0 <= i < |devs| ==> DevOk(devs[i])
      modifies this`script, this`adb, this`losses, this`fwds, this`made, this`tries, this`slots, this`ls, this`calls,
               this`dropped, this`failures, this`moments
      ensures Valid() && old(moments) <= moments && Grown(old(slots), slots) && old(ls) <= ls && old(made) <= made && losses >= old(losses)
      ensures listed ==> PresenceOk(slots, devs) && (|slots| == 8 || Slotted(slots, devs, |devs|))
      ensures forall i :: |old(slots)| <= i < |slots| ==> Listed(devs, slots[i].serial)
      ensures failures == old(failures) && !dropped && p.nbind > 0 ==> AllWork(p, slots, ls, |old(slots)|)
      ensures failures >= old(failures) && (old(script) == [] ==> script == [] && failures == old(failures))
      ensures old(slots) == [] && listed && |devs| == 1 ==>
        First(p, devs[0], old(script), old(failures), old(tries), |old(ls)|, slots, ls, tries, failures, dropped)
      ensures !listed ==> unchanged(this)
      ensures listed && failures == old(failures) && losses == old(losses) ==> Restored(old(slots), slots, devs, adb)
      ensures listed ==> TriedFor(old(slots), devs, tries, |old(tries)|)
      ensures losses == old(losses) ==> old(adb).Keys <= adb.Keys && LinkedFrom(slots, adb, |old(slots)|)
      ensures old(tries) <= tries
    {
      hide Recorded, AllServe, AllHeld, SameSlot, Grown, PresenceOk, Slotted, DevOk, AllWork, First, Relinked, Retried, LinkedFrom, Restored, TriedFor;
      SelfGrown(slots);
      if !listed {
        NoneWork(p, slots, ls);
        NoneLinked(slots, adb);
        return;
      }
      ghost var s0 := slots;
      MarkPresent(devs);
      ghost var s1 := slots;
      Refresh();
      GrownTransitive(s0, s1, slots);
      ReachableKept(s0, slots);
      MarkedPresence(s0, s1, slots, devs);
      ghost var s2, adb2, t2 := slots, adb, tries;
      AddDevices(devs);
      GrownTransitive(s0, s2, slots);
      if failures == old(failures) && losses == old(losses) {
        AllRestored(s0, s1, s2, slots, devs, adb2, adb);
      }
      AllTriedFor(s0, s1, devs, t2, tries, |old(tries)|);
    }

    /** One round: `list_devices`, and `rescan_once` of what it found. */
    method Rescan(listing: Listing)
      requires Valid()
      modifies this`script, this`adb, this`losses, this`fwds, this`made, this`tries, this`slots, this`ls, this`calls,
               this`dropped, this`failures, this`moments
      ensures Valid() && old(moments) <= moments && Grown(old(slots), slots) && old(ls) <= ls
      ensures Reflects(slots, listing) && (listing == NoListing ==> unchanged(this))
      ensures failures == old(failures) && losses == old(losses) ==> Repaired(old(slots), slots, listing, adb)
    {
      hide Tables, Room, DevOk, PresenceOk, Slotted, Grown, AllWork, Restored, TriedFor, LinkedFrom, First, Text.Split, Valid;
      match listing {
        case NoListing => RescanOnce(false, []);
        case Output(text) =>
          var devs := DevicesOf(Text.Split(text, '\n'), 64);
          RescanOnce(true, devs);
      }
    }

    /** Phase B2. */
    method AddDevices(devs: seq<Dev>)
      requires Valid() && PresenceOk(slots, devs) && forall i :: 0 <= i < |devs| ==> DevOk(devs[i])
      modifies this`script, this`adb, this`losses, this`fwds, this`made, this`tries, this`slots, this`ls, this`calls,
               this`dropped, this`failures, this`moments
      ensures Valid() && old(moments) <= moments && Grown(old(slots), slots) && old(ls) <= ls && old(made) <= made && losses >= old(losses)
      ensures PresenceOk(slots, devs) && (|slots| == 8 || Slotted(slots, devs, |devs|))
      ensures forall i :: |old(slots)| <= i < |slots| ==> Listed(devs, slots[i].serial)
      ensures failures == old(failures) && !dropped && p.nbind > 0 ==> AllWork(p, slots, ls, |old(slots)|)
      ensures failures >= old(failures) && (old(script) == [] ==> script == [] && failures == old(failures))
      ensures old(slots) == [] && |devs| == 1 ==>
        First(p, devs[0], old(script), old(failures), old(tries), |old(ls)|, slots, ls, tries, failures, dropped)
      ensures forall i :: 0 <= i < |old(slots)| ==> slots[i] == old(slots)[i]
      ensures old(tries) <= tries
      ensures losses == old(losses) ==> old(adb).Keys <= adb.Keys && LinkedFrom(slots, adb, |old(slots)|)
    {
      hide Recorded, AllServe, AllHeld, SameSlot, Grown, PresenceOk, Slotted, HasSlot, DevOk, AllWork, Works, Reachable, AllReachable, First, Linked, LinkedFrom;
      SelfGrown(slots);
      NoneWork(p, slots, ls);
      NoneLinked(slots, adb);
      NoneSlotted(slots, devs);
      for j := 0 to |devs|
        invariant Valid() && old(moments) <= moments && Grown(old(slots), slots) && old(ls) <= ls && old(made) <= made && losses >= old(losses)
        invariant PresenceOk(slots, devs) && (|slots| == 8 || Slotted(slots, devs, j))
        invariant forall i :: |old(slots)| <= i < |slots| ==> Listed(devs, slots[i].serial)
        invariant |old(slots)| <= |slots| && (forall i :: 0 <= i < |old(slots)| ==> slots[i] == old(slots)[i]) && old(tries) <= tries
        invariant losses == old(losses) ==> old(adb).Keys <= adb.Keys && LinkedFrom(slots, adb, |old(slots)|)
        invariant failures == old(failures) && !dropped && p.nbind > 0 ==> AllWork(p, slots, ls, |old(slots)|)
        invariant failures >= old(failures) && (old(script) == [] ==> script == [] && failures == old(failures))
        invariant j == 0 ==> slots == old(slots) && script == old(script) && failures == old(failures) && tries == old(tries) && ls == old(ls)
        invariant j == 1 && old(slots) == [] && |devs| == 1 ==>
          First(p, devs[0], old(script), old(failures), old(tries), |old(ls)|, slots, ls, tries, failures, dropped)
      {
        ghost var s3, ls3, adb3 := slots, ls, adb;
        AddDevice(devs[j]);
        if losses == old(losses) {
          LinkedMore(s3, slots, adb3, adb, |old(slots)|);
        }
        if failures == old(failures) && !dropped && p.nbind > 0 {
          AllStillWork(p, s3, slots, ls3, ls, |old(slots)|);
        }
        GrownTransitive(old(slots), s3, slots);
        NowOk();
        StillSlotted(s3, slots, devs, j);
        PresenceKept(s3, slots, devs, j);
        ListedKept(s3, slots, devs, j, |old(slots)|);
      }
    }
  }

  /**
   A whole run of the agent: the discovery port, a first scan, any number of rescans, and the cleanup.
   The moments of the agent are all states of its tables before the cleanup.
   */
  method Run(p: Params, script: seq<Answer>, listings: seq<Listing>) returns (a: Agent)
    ensures a.p == p && Chain(p, a.moments) && SlotsOk(p, a.slots)
    ensures a.failures == 0 && !a.dropped ==> AllServe(a.moments)
    ensures a.losses == 0 ==> AllHeld(a.moments)
    // Cleanup: all that was ever created is removed, exactly when there was no stray.
    ensures (forall f :: f in a.made <==> Created(a.tries, f)) && (forall f :: f in a.removed <==> Confirmed(a.tries, f))
    ensures (a.removed == a.made <==> NoStray(a.tries)) && a.fwds == [] && |a.made| <= 40
    // The listener table was too small exactly when there are more ports to bind than entries.
    ensures a.Smooth() ==> (a.dropped <==> Ports(p.nbind, 1 + 5 * |a.slots|) > 128)
    // The slots are those of the last listing, unless discovery could not be opened.
    ensures a.ls == [] ==> a.slots == []
    ensures a.ls != [] && listings != [] ==> Reflects(a.slots, listings[|listings| - 1])
  {
    hide Chain, AllServe, AllHeld, SlotsOk, DevOk, AllReachable, NoStray, Confirmed, Created;
    hide Reflects;
    a := new Agent(p, script);
    var ok := a.OpenDiscovery();
    if ok {
      for n := 0 to |listings|
        modifies a
        invariant a.Valid() && a.p == p && a.removed == {} && fresh(a) && a.ls != []
        invariant n > 0 ==> Reflects(a.slots, listings[n - 1])
      {
        a.Rescan(listings[n]);
      }
    }
    a.NowOk();
    a.RoomAtLast();
    a.Forty();
    a.CleanupForwards();
  }

  // ---- Lemmas for the agent

  lemma ServedAdb(s: Slot, ls: seq<Listener>)
    ensures forall some :: Served(s, ls, some) ==> Listens(ls, s.adbPort, AdbDst(s), NoGroup)
  {
  }

  lemma SameServing(was: Snapshot, now: Snapshot)
    requires was.slots == now.slots && was.ls == now.ls
    ensures ReadyServed(was) ==> ReadyServed(now)
  {
  }

  lemma SameHeld(was: Snapshot, now: Snapshot)
    requires was.made == now.made && was.adb == now.adb
    ensures Held(was) ==> Held(now)
  {
  }

  lemma ReachableWireless(s: Slot)
    requires s.kind == DevKind(s.serial)
    ensures if s.kind == Wireless then Reachable(s.serial) <==> 0 < Text.LastColon(s.serial, |s.serial|) < 64 else Reachable(s.serial)
    ensures forall dst :: AdbDst(s.(adbDst := dst)) == AdbDst(s)
    ensures s.kind != Wireless ==> AdbDst(s) == Target("127.0.0.1", s.adbPort + 10000)
    ensures var c := Text.LastColon(s.serial, |s.serial|);
      s.kind == Wireless && c > 0 ==> AdbDst(s) == Target(s.serial[..c], Text.Atoi(s.serial[c + 1..]))
  {
  }

  lemma SameFurnished(s: Slot, made: set<Fwd>)
    requires Furnished(s, made)
    ensures Furnished(s.(ready := true), made)
  {
    assert forall k :: StreamFwd(s.(ready := true), k) == StreamFwd(s, k);
  }

  lemma MoreCalls(n: nat, a: nat, b: nat)
    requires a <= b
    ensures Ports(n, a) <= Ports(n, b)
  {
  }

  lemma Distribute(n: nat, a: nat)
    ensures Ports(n, a + 1) == Ports(n, a) + n
  {
  }

  // ---- Scripted runs

  /** The first outside call fails but takes effect. */
  predicate Stumbles(script: seq<Answer>)
  {
    script != [] && script[0].code % 4 == 2
  }

  /** A wireless slot whose streams are relayed. */
  predicate Plain(s: Slot)
  {
    s.kind == Wireless && Reachable(s.serial) && s.streamBase != 0
  }

  /** The binds of one port go well, those of the next all fail, and then everything goes well. */
  predicate Refused(nbind: nat, script: seq<Answer>)
  {
    AllGood(script, nbind) && AllBad(Drop(script, nbind), nbind) && Drop(Drop(script, nbind), nbind) == []
  }

  /** Four forwards and the binds of the adb port go well, and the binds of the first stream port all fail. */
  predicate Clash(nbind: nat, script: seq<Answer>)
  {
    AllGood(script, 4) && Refused(nbind, Drop(script, 4))
  }

  /** No listener from the given one on belongs to the first stream port of slot i. */
  ghost predicate NoneFor(ls: seq<Listener>, from: nat, i: nat)
  {
    forall j :: from <= j < |ls| ==> ls[j].group != StreamGroup(i, 0)
  }

  lemma RefusedParts(nbind: nat, script: seq<Answer>)
    ensures Refused(nbind, script) ==>
      AllGood(script, nbind) && AllBad(Drop(script, nbind), nbind) && Drop(Drop(script, nbind), nbind) == []
  {
  }

  lemma ClashParts(nbind: nat, script: seq<Answer>)
    ensures Clash(nbind, script) ==> AllGood(script, 4) && Refused(nbind, Drop(script, 4))
  {
  }

  lemma NoAnswers(script: seq<Answer>)
    ensures AllGood(script, 0) && AllBad(script, 0) && Drop(script, 0) == script
  {
  }

  lemma OneMore(script: seq<Answer>, n: nat)
    ensures Drop(Drop(script, n), 1) == Drop(script, n + 1)
    ensures AllGood(script, n + 1) <==> AllGood(script, n) && Yes(Drop(script, n))
    ensures AllBad(script, n + 1) <==> AllBad(script, n) && !Yes(Drop(script, n))
  {
  }

  lemma FewerGood(script: seq<Answer>, m: nat, n: nat)
    ensures m <= n && AllGood(script, n) ==> AllGood(script, m)
  {
  }

  lemma NothingBad(nbind: nat)
    ensures AllGood([], nbind) && Drop([], nbind) == []
  {
  }

  lemma NewPlain(p: Params, d: Dev, i: nat)
    requires DevOk(d)
    ensures DevKind(d.serial) == Wireless && Reachable(d.serial) && !p.noStream ==> Plain(NewSlot(p, d, i))
    ensures !p.noStream ==> StreamFwd(NewSlot(p, d, i), 0) == Fwd(d.serial, StreamBaseOf(i) + 10000)
  {
  }

  /** What becomes of the first device, if it is wireless, for two particular scripts. */
  ghost predicate First(p: Params, d: Dev, script: seq<Answer>, failures0: nat, tries0: seq<Try>, ls0: nat,
                        slots: seq<Slot>, ls: seq<Listener>, tries: seq<Try>, failures: nat, dropped: bool)
  {
    DevKind(d.serial) == Wireless && Reachable(d.serial) && !p.noStream ==>
      && (Stumbles(script) ==> tries == tries0 + [Try(Fwd(d.serial, StreamBaseOf(0) + 10000), false, true)])
      && (Clash(p.nbind, script) && p.nbind > 0 && !dropped ==>
            && |slots| == 1 && slots[0].ready && slots[0].streamBase == StreamBaseOf(0)
            && failures == failures0 + p.nbind && NoneFor(ls, ls0, 0)
            && Listens(ls, slots[0].adbPort, AdbDst(slots[0]), NoGroup))
  }

  /** A run that leaves a forward behind: the first stream forward of a wireless device times out after taking effect. */
  method LeavesBehind(p: Params, d: Dev) returns (a: Agent)
    requires DevOk(d) && DevKind(d.serial) == Wireless && Reachable(d.serial) && !p.noStream
    ensures a.removed != a.made && Fwd(d.serial, StreamBaseOf(0) + 10000) in a.made - a.removed
  {
    hide Chain, AllServe, AllHeld, DevOk, Reachable;
    var good := seq(p.nbind, i => Answer(1, {}));
    a := new Agent(p, good + [Answer(2, {})]);
    var ok := a.OpenDiscovery();
    assert a.script == [Answer(2, {})];
    a.RescanOnce(true, [d]);
    var f := Fwd(d.serial, StreamBaseOf(0) + 10000);
    ghost var tries := a.tries;
    assert tries == [Try(f, false, true)];
    assert tries[0].f == f && tries[0].took && Created(tries, f);
    assert !Confirmed(tries, f);
    a.CleanupForwards();
  }

  /** Eight devices, each with its own serial. */
  function Eight(): seq<Dev>
  {
    [Dev("a", ""), Dev("b", ""), Dev("c", ""), Dev("d", ""), Dev("e", ""), Dev("f", ""), Dev("g", ""), Dev("h", "")]
  }

  /** For every number of addresses beyond three there is a run without any failure in which the listener table is too small. */
  method TableFills(p: Params) returns (a: Agent)
    requires p.nbind > 3 && !p.noStream
    ensures a.p == p && a.failures == 0 && a.dropped && |a.slots| == 8
  {
    hide Chain, AllServe, AllHeld, First, DevOk, PresenceOk, Slotted, AllWork, Restored, TriedFor, LinkedFrom, AllReachable, Eight, SlotsOk, Grown;
    a := new Agent(p, []);
    var ok := a.OpenDiscovery();
    var devs := Eight();
    EightOk();
    a.RescanOnce(true, devs);
    a.NowOk();
    EightFill(p, a.slots);
    EightReachable(a.slots);
    a.RoomAtLast();
  }

  lemma EightOk()
    ensures |Eight()| == 8 && forall i :: 0 <= i < |Eight()| ==> DevOk(Eight()[i])
  {
  }

  /** Eight devices in slots of their own fill all eight. */
  lemma EightFill(p: Params, slots: seq<Slot>)
    requires SlotsOk(p, slots) && PresenceOk(slots, Eight()) && (|slots| == 8 || Slotted(slots, Eight(), 8))
    ensures |slots| == 8
  {
    if |slots| < 8 {
      var held := set i | 0 <= i < |slots| :: slots[i].serial;
      forall i | 0 <= i < 8
        ensures Eight()[i].serial in held
      {
        assert HasSlot(slots, Eight()[i].serial);
      }
      EightNames(held);
      SerialCount(slots, |slots|);
    }
  }

  lemma EightNames(held: set<string>)
    requires forall i :: 0 <= i < 8 ==> Eight()[i].serial in held
    ensures |held| >= 8
  {
    var e := Eight();
    assert e[0].serial == "a" && e[1].serial == "b" && e[2].serial == "c" && e[3].serial == "d";
    assert e[4].serial == "e" && e[5].serial == "f" && e[6].serial == "g" && e[7].serial == "h";
    hide Eight;
    var heads := set x | x in held && |x| == 1 :: x[0];
    assert {'a', 'b', 'c', 'd', 'e', 'f', 'g', 'h'} <= heads by {
      assert "a"[0] == 'a' && "b"[0] == 'b' && "c"[0] == 'c' && "d"[0] == 'd';
      assert "e"[0] == 'e' && "f"[0] == 'f' && "g"[0] == 'g' && "h"[0] == 'h';
    }
    SubsetCount({'a', 'b', 'c', 'd', 'e', 'f', 'g', 'h'}, heads);
    HeadCount(held);
  }

  lemma {:induction false} HeadCount(held: set<string>)
    ensures |set x | x in held && |x| == 1 :: x[0]| <= |held|
  {
    if held != {} {
      var y :| y in held;
      HeadCount(held - {y});
      var heads, rest := set x | x in held && |x| == 1 :: x[0], set x | x in held - {y} && |x| == 1 :: x[0];
      assert heads == rest + if |y| == 1 then {y[0]} else {};
    }
  }

  lemma EightReachable(slots: seq<Slot>)
    requires forall i :: 0 <= i < |slots| ==> Listed(Eight(), slots[i].serial)
    ensures AllReachable(slots)
  {
    forall i | 0 <= i < |slots|
      ensures Reachable(slots[i].serial)
    {
      var j :| 0 <= j < 8 && Eight()[j].serial == slots[i].serial;
      assert |slots[i].serial| == 1 && slots[i].serial[0] != ':';
    }
  }

  lemma {:induction false} SerialCount(slots: seq<Slot>, n: nat)
    requires n <= |slots|
    ensures |set i | 0 <= i < n :: slots[i].serial| <= n
  {
    if n > 0 {
      SerialCount(slots, n - 1);
      var rest := set i | 0 <= i < n - 1 :: slots[i].serial;
      assert (set i | 0 <= i < n :: slots[i].serial) == rest + {slots[n - 1].serial};
    }
  }

  /** The slot for a device seen for the first time. */
  function NewSlot(p: Params, d: Dev, i: nat): (s: Slot)
    requires DevOk(d)
    ensures SlotOk(p, s, i) && s.serial == d.serial && s.present && !s.ready
  {
    Slot(d.serial, d.model, DevKind(d.serial), i, p.adbBase + i, Target("", 0),
         if p.noStream then 0 else StreamBaseOf(i), true, false, false)
  }

  /** A slot after the listing: present or not, and flagged when its device came back. */
  ghost function Marked(s: Slot, devs: seq<Dev>): Slot
  {
    var there := Listed(devs, s.serial);
    s.(present := there, reappeared := s.reappeared || (there && !s.present && s.ready))
  }

  ghost predicate SamePresence(s: seq<Slot>, t: seq<Slot>)
  {
    |s| == |t| && forall i :: 0 <= i < |s| ==> s[i].present == t[i].present
  }

  /** A slot is present exactly when its device is listed. */
  ghost predicate PresenceOk(slots: seq<Slot>, devs: seq<Dev>)
  {
    forall i :: 0 <= i < |slots| ==> (slots[i].present <==> Listed(devs, slots[i].serial))
  }

  lemma PresenceKept(s: seq<Slot>, t: seq<Slot>, devs: seq<Dev>, n: nat)
    requires PresenceOk(s, devs) && Grown(s, t) && n < |devs|
    requires forall i :: 0 <= i < |s| ==> t[i].present == s[i].present
    requires forall i :: |s| <= i < |t| ==> t[i].serial == devs[n].serial && t[i].present
    ensures PresenceOk(t, devs)
  {
    forall i | 0 <= i < |t|
      ensures t[i].present <==> Listed(devs, t[i].serial)
    {
      if i < |s| {
        SerialKept(s, t, i);
      }
    }
  }

  lemma ListedKept(s: seq<Slot>, t: seq<Slot>, devs: seq<Dev>, n: nat, from: nat)
    requires Grown(s, t) && n < |devs|
    requires forall i :: from <= i < |s| ==> Listed(devs, s[i].serial)
    requires forall i :: |s| <= i < |t| ==> t[i].serial == devs[n].serial
    ensures forall i :: from <= i < |t| ==> Listed(devs, t[i].serial)
  {
    forall i | from <= i < |t|
      ensures Listed(devs, t[i].serial)
    {
      if i < |s| {
        SerialKept(s, t, i);
      }
    }
  }

  /** The first n listed devices have slots. */
  ghost predicate Slotted(slots: seq<Slot>, devs: seq<Dev>, n: nat)
  {
    forall j :: 0 <= j < n && j < |devs| ==> HasSlot(slots, devs[j].serial)
  }

  lemma NoneWork(p: Params, slots: seq<Slot>, ls: seq<Listener>)
    ensures AllWork(p, slots, ls, |slots|)
  {
  }

  lemma NoneSlotted(slots: seq<Slot>, devs: seq<Dev>)
    ensures Slotted(slots, devs, 0)
  {
  }

  ghost predicate HasSlot(slots: seq<Slot>, serial: string)
  {
    exists i :: 0 <= i < |slots| && slots[i].serial == serial
  }

  lemma StillSlotted(s: seq<Slot>, t: seq<Slot>, devs: seq<Dev>, n: nat)
    requires Grown(s, t) && n < |devs| && (|s| == 8 || Slotted(s, devs, n)) && |t| <= 8
    requires |t| == 8 || HasSlot(t, devs[n].serial)
    ensures |t| == 8 || Slotted(t, devs, n + 1)
  {
    if |t| < 8 {
      forall j | 0 <= j < n
        ensures HasSlot(t, devs[j].serial)
      {
        assert HasSlot(s, devs[j].serial);
        var i :| 0 <= i < |s| && s[i].serial == devs[j].serial;
        SerialKept(s, t, i);
      }
    }
  }

  lemma SerialKept(s: seq<Slot>, t: seq<Slot>, i: nat)
    requires Grown(s, t) && i < |s|
    ensures t[i].serial == s[i].serial && t[i].idx == s[i].idx
  {
    assert SameSlot(s[i], t[i]);
  }

  lemma ReachableKept(s: seq<Slot>, t: seq<Slot>)
    requires Grown(s, t)
    ensures AllReachable(t) ==> AllReachable(s)
    ensures forall i :: 0 <= i < |t| && AllReachable(t) ==> Reachable(t[i].serial)
  {
    if AllReachable(t) {
      forall i | 0 <= i < |s|
        ensures Reachable(s[i].serial)
      {
        SerialKept(s, t, i);
      }
    }
  }

  lemma MarkedPresence(s: seq<Slot>, t: seq<Slot>, u: seq<Slot>, devs: seq<Dev>)
    requires |s| == |t| && (forall i :: 0 <= i < |t| ==> t[i] == Marked(s[i], devs))
    requires Grown(t, u) && SamePresence(t, u)
    ensures PresenceOk(u, devs)
  {
    forall i | 0 <= i < |u|
      ensures u[i].present <==> Listed(devs, u[i].serial)
    {
      SerialKept(t, u, i);
    }
  }

  lemma SameServed(s: Slot, t: Slot, ls: seq<Listener>)
    requires t == s.(ready := t.ready)
    ensures forall some, more :: Served(s, ls, some) && (some ==> more) ==> Served(t, ls, more)
  {
  }

  lemma SameAfterMark(s: Slot, devs: seq<Dev>)
    ensures SameSlot(s, Marked(s, devs))
  {
  }

  lemma SameAfterClear(s: Slot)
    ensures SameSlot(s, s.(reappeared := false))
  {
  }

  /** Some listed device has this serial. */
  ghost predicate Listed(devs: seq<Dev>, serial: string)
  {
    exists j :: 0 <= j < |devs| && devs[j].serial == serial
  }

  method Seen(devs: seq<Dev>, serial: string) returns (b: bool)
    ensures b <==> Listed(devs, serial)
  {
    for j := 0 to |devs|
      invariant forall i :: 0 <= i < j ==> devs[i].serial != serial
    {
      if devs[j].serial == serial { return true; }
    }
    return false;
  }

  lemma SelfGrown(s: seq<Slot>)
    ensures Grown(s, s)
  {
  }

  lemma AnyFd(p: Params, slots: seq<Slot>, l: Listener, fd: int)
    requires ListenerOk(p, slots, l)
    ensures ListenerOk(p, slots, l.(fd := fd))
  {
  }

  function StreamEntry(fd: int, i: nat, k: nat): Listener
  {
    Listener(fd, StreamBaseOf(i) + k, Target("127.0.0.1", StreamBaseOf(i) + k + 10000), StreamGroup(i, k), false)
  }

  /** A new listener for stream port k joins those for the ports before it. */
  lemma StreamAdded(ls: seq<Listener>, more: seq<Listener>, i: nat, k: nat)
    requires ls <= more
    ensures forall j: nat :: StreamListens(ls, i, j) ==> StreamListens(more, i, j)
    ensures |more| > |ls| && more[|ls|] == StreamEntry(more[|ls|].fd, i, k) ==> StreamListens(more, i, k)
  {
    forall j: nat | StreamListens(ls, i, j)
      ensures StreamListens(more, i, j)
    {
      StillListens(ls, more, StreamBaseOf(i) + j, Target("127.0.0.1", StreamBaseOf(i) + j + 10000), StreamGroup(i, j));
    }
  }

  lemma SameAfterDst(s: Slot, dst: Target)
    ensures SameSlot(s, s.(adbDst := dst))
  {
  }

  lemma SameAfterLoss(s: Slot)
    ensures SameSlot(s, s.(streamBase := 0))
  {
  }

  lemma SameAfterReady(s: Slot)
    ensures SameSlot(s, s.(ready := true))
  {
  }
}
