/** Schedules that break an upload: once an ack is left unread, the client runs one wait ahead, and the read of the name
    takes what is written behind it. */
module HandshakeBreaks {
  import opened Wire
  import opened Handshake
  import opened HandshakeOrder

  // ---------- building schedules ----------

  lemma {:induction false} RunMore(us: seq<Upload>, s: State, a: seq<bool>, b: seq<bool>)
    ensures Run(us, s, a + b) == Run(us, Run(us, s, a), b)
  {
    hide Step;
    if b == [] {
      assert a + b == a;
    } else {
      RunMore(us, s, a, b[..|b| - 1]);
      assert (a + b)[..|a + b| - 1] == a + b[..|b| - 1];
    }
  }

  lemma RunOnce(us: seq<Upload>, s: State, client: bool)
    ensures Run(us, s, [client]) == Step(us, s, client)
  {
    hide Step;
    assert [client][..0] == [];
    assert Run(us, s, []) == s;
  }

  lemma StepThen(us: seq<Upload>, s: State, client: bool, rest: seq<bool>)
    ensures Run(us, s, [client] + rest) == Run(us, Step(us, s, client), rest)
  {
    hide Step;
    RunOnce(us, s, client);
    RunMore(us, s, [client], rest);
  }

  lemma NoSteps(us: seq<Upload>, s: State)
    ensures Run(us, s, []) == s
  {}

  lemma Writes(us: seq<Upload>, s: State)
    requires s.client.g < Total(us) && s.client.sent < |WritesAt(us, s.client.g)|
    ensures
      var c := s.client;
      Step(us, s, true) == s.(client := Client(c.g, c.sent + 1), up := s.up + WritesAt(us, c.g)[c.sent])
  {
    hide WritesAt, Total;
  }

  lemma Waits(us: seq<Upload>, s: State)
    requires s.client.g < Total(us) && s.client.sent == |WritesAt(us, s.client.g)| && s.client.g % 5 != 4 && s.down != ""
    ensures Step(us, s, true) == s.(client := Client(s.client.g + 1, 0), down := Drop(s.down, 8))
  {
    hide WritesAt, Total;
  }

  lemma Passes(us: seq<Upload>, s: State)
    requires s.client.g < Total(us) && s.client.sent == |WritesAt(us, s.client.g)| && s.client.g % 5 == 4
    ensures Step(us, s, true) == s.(client := Client(s.client.g + 1, 0))
  {
    hide WritesAt, Total;
  }

  /** The client alone writes the rest of its segment. */
  lemma {:induction false} ClientWrites(us: seq<Upload>, s: State) returns (es: seq<bool>)
    requires s.client.g < Total(us) && s.client.sent <= |WritesAt(us, s.client.g)|
    ensures
      var ws, c := WritesAt(us, s.client.g), s.client;
      Run(us, s, es) == s.(client := Client(c.g, |ws|), up := s.up + Flat(ws[c.sent..]))
    decreases |WritesAt(us, s.client.g)| - s.client.sent
  {
    hide WritesAt, Total, Run;
    var ws, c := WritesAt(us, s.client.g), s.client;
    if c.sent == |ws| {
      es := [];
      NoSteps(us, s);
      assert ws[c.sent..] == [] && s.up + "" == s.up;
    } else {
      var s1 := s.(client := Client(c.g, c.sent + 1), up := s.up + ws[c.sent]);
      Writes(us, s);
      var rest := ClientWrites(us, s1);
      StepThen(us, s, true, rest);
      es := [true] + rest;
      assert ws[c.sent..] == [ws[c.sent]] + ws[c.sent + 1..];
      Associative(s.up, ws[c.sent], Flat(ws[c.sent + 1..]));
    }
  }

  /** The server alone reads a segment of an upload from a stream that begins with it, and acks it. */
  lemma {:induction false} ServerReads(us: seq<Upload>, s: State, u: Upload, seg: nat, k: nat, tail: string) returns (es: seq<bool>)
    requires UploadOk(u) && seg <= 4 && (seg == 4 ==> u.payload != "") && k < |WritesOf(u, seg)|
    requires s.server == Reading(seg, Flat(WritesOf(u, seg)[..k]), k) && s.current == Contents(u, seg)
    requires s.up == Flat(WritesOf(u, seg)[k..]) + tail && (seg == 3 ==> tail == "")
    ensures Run(us, s, es) == AckStep(s.(server := Acking(seg), current := Contents(u, seg + 1), up := tail), seg)
    decreases |WritesOf(u, seg)| - k
  {
    var ws := WritesOf(u, seg);
    var rest := Flat(ws[k + 1..]) + tail;
    OneRead(s, u, seg, k, tail);
    hide Run, UploadOk, WritesOf, Flat, Contents, ServerStep, AckStep;
    assert Step(us, s, false) == ServerStep(s);
    if k + 1 < |ws| {
      var s1 := s.(server := Reading(seg, Flat(ws[..k + 1]), k + 1), up := rest);
      var more := ServerReads(us, s1, u, seg, k + 1, tail);
      StepThen(us, s, false, more);
      es := [false] + more;
    } else {
      var s1 := s.(server := Acking(seg), current := Contents(u, seg + 1), up := tail);
      AckIs(us, s1, seg);
      RunOnce(us, s1, false);
      StepThen(us, s, false, [false]);
      es := [false] + [false];
    }
  }

  lemma AckIs(us: seq<Upload>, s: State, seg: nat)
    requires s.server == Acking(seg)
    ensures Step(us, s, false) == AckStep(s, seg)
  {}

  lemma OneRead(s: State, u: Upload, seg: nat, k: nat, tail: string)
    requires UploadOk(u) && seg <= LAST && (seg == LAST ==> u.payload != "") && k < |WritesOf(u, seg)|
    requires s.server == Reading(seg, Flat(WritesOf(u, seg)[..k]), k) && s.current == Contents(u, seg)
    requires s.up == Flat(WritesOf(u, seg)[k..]) + tail && (seg == 3 ==> tail == "")
    ensures
      var ws := WritesOf(u, seg);
      ServerStep(s) ==
        if k + 1 < |ws| then s.(up := Flat(ws[k + 1..]) + tail, server := Reading(seg, Flat(ws[..k + 1]), k + 1))
        else s.(up := tail, server := Acking(seg), current := Contents(u, seg + 1))
  {
    var ws := WritesOf(u, seg);
    if seg == 3 { NameIsOne(u); }
    hide WritesOf, UploadOk, Contents, ServerStep;
    assert ws[k..] == [ws[k]] + ws[k + 1..];
    Associative(ws[k], Flat(ws[k + 1..]), tail);
    FlatNothing();
    assert k + 1 == |ws| ==> ws[k + 1..] == [] && "" + tail == tail;
    assert seg == 3 ==> ws[k + 1..] == [] && Flat(ws[k + 1..]) + tail == "";
    ReadTakesWrite(u, s, seg, k, Flat(ws[k + 1..]) + tail);
  }

  // ---------- one upload in lockstep ----------

  /** Both processes are before segment seg of upload i, with nothing on its way but these acks. */
  function Before(us: seq<Upload>, i: nat, seg: nat, done: seq<seq<string>>, down: string): State
    requires i < |us|
  {
    State(Client(5 * i + seg, 0), Reading(seg, "", 0), Contents(us[i], seg), done, "", down)
  }

  /** The client writes a segment, and the server reads and acks it. */
  lemma OneSegment(us: seq<Upload>, i: nat, seg: nat, done: seq<seq<string>>) returns (es: seq<bool>)
    requires AllOk(us) && i < |us| && seg <= 4
    ensures
      var s, n := Before(us, i, seg, done, ""), |WritesOf(us[i], seg)|;
      Run(us, s, es) == AckStep(State(Client(5 * i + seg, n), Acking(seg), Contents(us[i], seg + 1), done, "", ""), seg)
  {
    hide *;
    OkAt(us, i);
    var s, u := Before(us, i, seg, done, ""), us[i];
    var s1 := s.(client := Client(5 * i + seg, |WritesOf(u, seg)|), up := Flat(WritesOf(u, seg)[0..]) + "");
    BeforeIs(us, i, seg, done);
    SegmentOf(us, i, seg);
    StartOfSegment(u, seg);
    var write := ClientWrites(us, s);
    if seg == 4 && u.payload == "" {
      EmptyPayloadRead(us, s1, u);
      es := write + [false, false];
      RunMore(us, s, write, [false, false]);
    } else {
      var read := ServerReads(us, s1, u, seg, 0, "");
      es := write + read;
      RunMore(us, s, write, read);
    }
  }

  lemma BeforeIs(us: seq<Upload>, i: nat, seg: nat, done: seq<seq<string>>)
    requires i < |us|
    ensures Before(us, i, seg, done, "") ==
            State(Client(5 * i + seg, 0), Reading(seg, "", 0), Contents(us[i], seg), done, "", "")
  {}

  lemma SegmentOf(us: seq<Upload>, i: nat, seg: nat)
    requires i < |us| && seg <= 4
    ensures 5 * i + seg < Total(us) && WritesAt(us, 5 * i + seg) == WritesOf(us[i], seg)
    ensures (5 * i + seg) % 5 == seg
  {
    assert (5 * i + seg) / 5 == i && (5 * i + seg) % 5 == seg;
    hide WritesOf;
  }

  lemma StartOfSegment(u: Upload, seg: nat)
    ensures |WritesOf(u, seg)| > 0 && Flat(WritesOf(u, seg)[..0]) == ""
    ensures "" + Flat(WritesOf(u, seg)[0..]) == Flat(WritesOf(u, seg)[0..]) + ""
  {
    FlatNothing();
    assert WritesOf(u, seg)[..0] == [];
    var b := Flat(WritesOf(u, seg)[0..]);
    assert "" + b == b && b + "" == b;
  }

  lemma EmptyPayloadRead(us: seq<Upload>, s: State, u: Upload)
    requires UploadOk(u) && u.payload == "" && s.server == Reading(4, "", 0) && s.current == Contents(u, 4)
    requires s.up == Flat(WritesOf(u, 4)[0..]) + ""
    ensures Run(us, s, [false, false]) == AckStep(s.(server := Acking(4), current := Contents(u, 4 + 1), up := ""), 4)
  {
    assert WritesOf(u, 4)[0..] == [""] && Flat([""]) == "";
    ReadTakesNothing(u, s);
    var s1 := s.(server := Acking(4), current := Contents(u, 4 + 1));
    hide Contents, ServerStep, AckStep, UploadOk;
    assert Step(us, s, false) == s1;
    AckIs(us, s1, 4);
    RunOnce(us, s1, false);
    StepThen(us, s, false, [false]);
    assert [false] + [false] == [false, false];
  }

  /** The rest of an upload, with the client waiting for every ack, leaves one ack unread. */
  lemma {:induction false} Lockstep(us: seq<Upload>, i: nat, seg: nat, done: seq<seq<string>>) returns (es: seq<bool>)
    requires AllOk(us) && i < |us| && seg <= 4
    ensures Run(us, Before(us, i, seg, done, ""), es) ==
            State(Client(5 * i + 5, 0), Reading(0, "", 0), [], done + [Contents(us[i], 5)], "", ACK)
    decreases 4 - seg
  {
    var s, n := Before(us, i, seg, done, ""), |WritesOf(us[i], seg)|;
    var one := OneSegment(us, i, seg, done);
    var s1 := Run(us, s, one);
    AfterSegment(us, i, seg, done);
    hide Run, AllOk, AckStep, WritesOf, Contents;
    RunOnce(us, s1, true);
    RunMore(us, s, one, [true]);
    if seg == 4 {
      es := one + [true];
    } else {
      var rest := Lockstep(us, i, seg + 1, done);
      RunMore(us, s, one + [true], rest);
      es := one + [true] + rest;
    }
  }

  /** After the ack the client goes on. */
  lemma AfterSegment(us: seq<Upload>, i: nat, seg: nat, done: seq<seq<string>>)
    requires AllOk(us) && i < |us| && seg <= 4
    ensures
      var n := |WritesOf(us[i], seg)|;
      var s := AckStep(State(Client(5 * i + seg, n), Acking(seg), Contents(us[i], seg + 1), done, "", ""), seg);
      Step(us, s, true) ==
        if seg == 4 then State(Client(5 * i + 5, 0), Reading(0, "", 0), [], done + [Contents(us[i], 5)], "", ACK)
        else Before(us, i, seg + 1, done, "")
  {
    var n := |WritesOf(us[i], seg)|;
    var s := State(Client(5 * i + seg, n), Acking(seg), Contents(us[i], seg + 1), done, "", "");
    Acked(us[i], s, seg);
    SegmentOf(us, i, seg);
    assert Drop(ACK, 8) == "" && Contents(us[i], 0) == [];
    hide WritesAt, WritesOf, Contents, AllOk, Total, AckStep, Step, ClientStep;
    if seg == 4 { Passes(us, AckStep(s, seg)); } else { Waits(us, AckStep(s, seg)); }
  }

  lemma Acked(u: Upload, s: State, seg: nat)
    requires UploadOk(u) && s.current == Contents(u, seg + 1) && s.down == "" && seg <= LAST
    ensures AckStep(s, seg) ==
      if seg == LAST then s.(server := Reading(0, "", 0), current := [], done := s.done + [s.current], down := ACK)
      else s.(server := Reading(seg + 1, "", 0), down := ACK)
  {
    assert s.current[0] == u.header && "" + ACK == ACK;
    hide Contents;
  }

  // ---------- one upload with an ack left unread ----------

  /** The client is one wait ahead: its segment is written, and its ack is answered by an earlier one. */
  function Ahead(us: seq<Upload>, i: nat, seg: nat, done: seq<seq<string>>, up: string, down: string): State
    requires i < |us|
  {
    State(Client(5 * i + seg, 1), Reading(seg, "", 0), Contents(us[i], seg), done, up, down)
  }

  /** The client waits and writes the next small segment. */
  lemma WaitsAndWrites(us: seq<Upload>, s: State, i: nat, seg: nat)
    requires AllOk(us) && i < |us| && seg <= 2 && s.down != ""
    requires s.client == Client(5 * i + seg, |WritesOf(us[i], seg)|)
    ensures Run(us, s, [true, true]) ==
      s.(client := Client(5 * i + seg + 1, 1), up := s.up + Content(us[i], seg + 1), down := Drop(s.down, 8))
  {
    hide *;
    var s1 := s.(client := Client(5 * i + seg + 1, 0), down := Drop(s.down, 8));
    SmallSegment(us[i], seg + 1);
    SegmentOf(us, i, seg);
    SegmentOf(us, i, seg + 1);
    Waits(us, s);
    Writes(us, s1);
    RunOnce(us, s1, true);
    StepThen(us, s, true, [true]);
    assert [true] + [true] == [true, true];
  }

  lemma SmallSegment(u: Upload, seg: nat)
    requires 1 <= seg <= 3
    ensures WritesOf(u, seg) == [Content(u, seg)]
  {}

  /** The server reads and acks the small segment before. */
  lemma ReadsSmall(us: seq<Upload>, s: State, i: nat, seg: nat, tail: string) returns (es: seq<bool>)
    requires AllOk(us) && i < |us| && 1 <= seg <= 2 && s.server == Reading(seg, "", 0) && s.current == Contents(us[i], seg)
    requires s.up == Content(us[i], seg) + tail
    ensures Run(us, s, es) ==
      s.(server := Reading(seg + 1, "", 0), current := Contents(us[i], seg + 1), up := tail, down := s.down + ACK)
  {
    var u := us[i];
    assert UploadOk(u) && WritesOf(u, seg) == [Content(u, seg)];
    FlatNothing();
    assert WritesOf(u, seg)[..0] == [] && WritesOf(u, seg)[0..] == [Content(u, seg)];
    assert Flat([Content(u, seg)]) == Content(u, seg);
    hide WritesOf, Content, Contents, AllOk, Run, UploadOk, Flat;
    es := ServerReads(us, s, u, seg, 0, tail);
  }

  lemma ReadsHeader(us: seq<Upload>, s: State, i: nat, tail: string) returns (es: seq<bool>)
    requires AllOk(us) && i < |us| && s.server == Reading(0, "", 0) && s.current == []
    requires s.up == us[i].header + tail
    ensures Run(us, s, es) == s.(server := Reading(1, "", 0), current := Contents(us[i], 1), up := tail, down := s.down + ACK)
  {
    var u := us[i];
    assert UploadOk(u);
    StartOfSegment(u, 0);
    ChunksFlat(u.header);
    assert WritesOf(u, 0)[0..] == Chunks(u.header) && Contents(u, 0) == [] && Contents(u, 1) == [u.header];
    hide WritesOf, Chunks, Run, Flat;
    es := ServerReads(us, s, u, 0, 0, tail);
  }

  /** Up to the packet type, with the client one wait ahead. */
  lemma UpToType(us: seq<Upload>, i: nat, done: seq<seq<string>>, unread: string) returns (es: seq<bool>)
    requires AllOk(us) && i < |us| && unread != ""
    ensures Run(us, Before(us, i, 0, done, unread), es) == Ahead(us, i, 1, done, Content(us[i], 1), Drop(unread, 8) + ACK)
  {
    hide *;
    var s0, u := Before(us, i, 0, done, unread), us[i];
    var n := |WritesOf(u, 0)|;
    var s1 := State(Client(5 * i, n), Reading(0, "", 0), [], done, u.header, unread);
    var s2 := State(Client(5 * i + 1, 1), Reading(0, "", 0), [], done, u.header + Content(u, 1), Drop(unread, 8));
    BothEnds(us, i, done, unread);
    HeaderWrites(u);
    SegmentOf(us, i, 0);
    var write := ClientWrites(us, s0);
    WaitsAndWrites(us, s1, i, 0);
    var header := ReadsHeader(us, s2, i, Content(u, 1));
    RunMore(us, s0, write, [true, true]);
    RunMore(us, s0, write + [true, true], header);
    es := write + [true, true] + header;
  }

  lemma BothEnds(us: seq<Upload>, i: nat, done: seq<seq<string>>, unread: string)
    requires i < |us|
    ensures Before(us, i, 0, done, unread) == State(Client(5 * i, 0), Reading(0, "", 0), [], done, "", unread)
    ensures
      var type1, down := Content(us[i], 1), Drop(unread, 8) + ACK;
      Ahead(us, i, 1, done, type1, down) == State(Client(5 * i + 1, 1), Reading(1, "", 0), Contents(us[i], 1), done, type1, down)
  {
    assert Contents(us[i], 0) == [];
    hide Content;
  }

  lemma HeaderWrites(u: Upload)
    ensures |WritesOf(u, 0)| > 0 && "" + Flat(WritesOf(u, 0)[0..]) == u.header
  {
    ChunksFlat(u.header);
    assert WritesOf(u, 0)[0..] == Chunks(u.header);
    hide Chunks;
  }

  /** Up to the name. */
  lemma UpToName(us: seq<Upload>, i: nat, done: seq<seq<string>>, unread: string) returns (es: seq<bool>, down: string)
    requires AllOk(us) && i < |us| && unread != ""
    ensures down != ""
    ensures Run(us, Before(us, i, 0, done, unread), es) == Ahead(us, i, 3, done, us[i].name, down)
  {
    var s0 := Before(us, i, 0, done, unread);
    var d1 := Drop(unread, 8) + ACK;
    var d2 := Drop(d1, 8) + ACK;
    down := Drop(d2, 8) + ACK;
    assert Content(us[i], 3) == us[i].name && d1 != "" && d2 != "" && down != "";
    hide *;
    var toType := UpToType(us, i, done, unread);
    var toSize := SmallRound(us, i, 1, done, d1);
    var toName := SmallRound(us, i, 2, done, d2);
    RunMore(us, s0, toType, toSize);
    RunMore(us, s0, toType + toSize, toName);
    es := toType + toSize + toName;
  }

  /** The client waits for an ack it already has and writes on; the server reads and acks the segment before. */
  lemma SmallRound(us: seq<Upload>, i: nat, seg: nat, done: seq<seq<string>>, down: string) returns (es: seq<bool>)
    requires AllOk(us) && i < |us| && 1 <= seg <= 2 && down != ""
    ensures Run(us, Ahead(us, i, seg, done, Content(us[i], seg), down), es) ==
            Ahead(us, i, seg + 1, done, Content(us[i], seg + 1), Drop(down, 8) + ACK)
  {
    var s := Ahead(us, i, seg, done, Content(us[i], seg), down);
    assert |WritesOf(us[i], seg)| == 1;
    hide AllOk, Run, WritesOf, Content, Contents;
    WaitsAndWrites(us, s, i, seg);
    var s1 := s.(client := Client(5 * i + seg + 1, 1), up := s.up + Content(us[i], seg + 1), down := Drop(down, 8));
    var read := ReadsSmall(us, s1, i, seg, Content(us[i], seg + 1));
    RunMore(us, s, [true, true], read);
    es := [true, true] + read;
  }

  lemma EmptyWrite(u: Upload, up: string)
    requires u.payload == ""
    ensures |WritesOf(u, 4)| == 1 && WritesOf(u, 4)[0] == "" && up + WritesOf(u, 4)[0] == up
  {
    assert WritesOf(u, 4) == [""];
  }

  // ---------- what comes behind the name ----------

  /** What is written next behind the name: the payload, or behind an empty one the next upload's command. */
  function BehindName(us: seq<Upload>, i: nat): string
    requires i < |us| && (us[i].payload != "" || i + 1 < |us|)
  {
    if us[i].payload != "" then WritesOf(us[i], LAST)[0] else WritesOf(us[i + 1], 0)[0]
  }

  lemma SomethingBehind(us: seq<Upload>, i: nat)
    requires AllOk(us) && i < |us| && (us[i].payload != "" || i + 1 < |us|)
    ensures BehindName(us, i) != ""
    ensures BehindName(us, i)[0] == if us[i].payload != "" then us[i].payload[0] else CMD as char
  {
    var b := if us[i].payload != "" then us[i].payload else us[i + 1].header;
    assert us[i].payload == "" ==> UploadOk(us[i + 1]);
    FirstOfChunks(b);
    assert BehindName(us, i) == Chunks(b)[0];
    hide Chunks;
  }

  /** The client, one wait ahead, writes it before the server reads the name. */
  lemma WritesBehind(us: seq<Upload>, i: nat, done: seq<seq<string>>, down: string) returns (es: seq<bool>, s: State)
    requires AllOk(us) && i < |us| && (us[i].payload != "" || i + 1 < |us|) && down != ""
    ensures s == Run(us, Ahead(us, i, 3, done, us[i].name, down), es)
    ensures s.server == Reading(3, "", 0) && s.current == Contents(us[i], 3) && s.done == done
    ensures s.up == us[i].name + BehindName(us, i)
  {
    var s0 := Ahead(us, i, 3, done, us[i].name, down);
    var s1 := State(Client(5 * i + 4, 0), Reading(3, "", 0), Contents(us[i], 3), done, us[i].name, Drop(down, 8));
    PassesName(us, i, done, down);
    SegmentOf(us, i, 4);
    StepThen(us, s0, true, [true]);
    RunOnce(us, s1, true);
    if us[i].payload != "" {
      es := [true] + [true];
      s := Step(us, s1, true);
      hide Contents, AllOk, WritesOf, Run;
    } else {
      PassesEmpty(us, i, s1);
      es := [true] + [true, true, true];
      StepThen(us, s0, true, [true, true, true]);
      s := Run(us, s1, [true, true, true]);
      hide Contents, AllOk, WritesOf, Run;
    }
  }

  lemma PassesName(us: seq<Upload>, i: nat, done: seq<seq<string>>, down: string)
    requires AllOk(us) && i < |us| && down != ""
    ensures Step(us, Ahead(us, i, 3, done, us[i].name, down), true) ==
            State(Client(5 * i + 4, 0), Reading(3, "", 0), Contents(us[i], 3), done, us[i].name, Drop(down, 8))
  {
    hide *;
    AheadIs(us, i, done, down);
    SegmentOf(us, i, 3);
    NameIsOne(us[i]);
    Waits(us, Ahead(us, i, 3, done, us[i].name, down));
  }

  lemma AheadIs(us: seq<Upload>, i: nat, done: seq<seq<string>>, down: string)
    requires i < |us|
    ensures Ahead(us, i, 3, done, us[i].name, down) ==
            State(Client(5 * i + 3, 1), Reading(3, "", 0), Contents(us[i], 3), done, us[i].name, down)
  {}

  /** An empty payload is written and left behind without a wait, and the next command begun. */
  lemma PassesEmpty(us: seq<Upload>, i: nat, s: State)
    requires AllOk(us) && i + 1 < |us| && us[i].payload == "" && s.client == Client(5 * i + 4, 0)
    ensures Run(us, s, [true, true, true]) == s.(client := Client(5 * i + 5, 1), up := s.up + WritesOf(us[i + 1], 0)[0])
  {
    hide *;
    var s1, s2 := s.(client := Client(5 * i + 4, 1)), s.(client := Client(5 * i + 5, 0));
    EmptyWrite(us[i], s.up);
    StartOfSegment(us[i + 1], 0);
    SegmentOf(us, i, 4);
    SegmentOf(us, i + 1, 0);
    Writes(us, s);
    Passes(us, s1);
    Writes(us, s2);
    RunOnce(us, s2, true);
    StepThen(us, s1, true, [true]);
    StepThen(us, s, true, [true] + [true]);
    assert [true] + ([true] + [true]) == [true, true, true];
  }

  /** With anything of earlier acks unread, and anything to be written behind its name, an upload has a schedule in which
      the read of the name takes bytes that come behind it. */
  lemma UnreadAckCorrupts(us: seq<Upload>, i: nat, done: seq<seq<string>>, unread: string) returns (es: seq<bool>)
    requires AllOk(us) && i < |us| && unread != "" && (us[i].payload != "" || i + 1 < |us|)
    ensures
      var s := Run(us, Before(us, i, 0, done, unread), es);
      && s.server == Acking(3) && s.done == done
      && s.current == Contents(us[i], 3) + [Take(us[i].name + BehindName(us, i), INFO)]
      && |s.current[3]| > |us[i].name|
  {
    var s0 := Before(us, i, 0, done, unread);
    var toName, down := UpToName(us, i, done, unread);
    var behind, s := WritesBehind(us, i, done, down);
    SomethingBehind(us, i);
    assert UploadOk(us[i]);
    hide Run, AllOk, Contents, BehindName, WritesOf;
    RunMore(us, s0, toName, behind);
    RunOnce(us, s, false);
    RunMore(us, s0, toName + behind, [false]);
    es := toName + behind + [false];
    NameRead(us, s);
  }

  lemma NameRead(us: seq<Upload>, s: State)
    requires s.server == Reading(3, "", 0) && s.up != ""
    ensures
      var s' := Step(us, s, false);
      s'.server == Acking(3) && s'.done == s.done && s'.current == s.current + [Take(s.up, INFO)]
  {
    assert "" + Take(s.up, INFO) == Take(s.up, INFO);
  }
}
