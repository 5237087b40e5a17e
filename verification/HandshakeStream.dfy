/** What the server makes of the bytes on a connection, whatever acks were unread: the first upload's command, type and
    size as they were sent, and then its name and payload cut from the stream at the wrong place, or at the right one. */
module HandshakeStream {
  import opened Wire
  import opened Handshake
  import opened HandshakeOrder

  // ---------- nothing is lost or made up ----------

  function Segments(cs: seq<seq<string>>): string { if cs == [] then "" else Flat(cs[0]) + Segments(cs[1..]) }

  /** All that the server has read in whole segments, in order. */
  function AllRead(s: State): string { Segments(s.done) + Flat(s.current) }

  function InHand(server: Server): string { if server.Reading? then server.got else "" }

  ghost predicate Begins(a: string, b: string) { |a| <= |b| && a == b[..|a|] }

  /** Everything the client has written is read, being read or on its way; of a thread that has ended, nothing was read
      that was not written. */
  ghost predicate Conserved(us: seq<Upload>, s: State) {
    && ClientOk(us, s.client)
    && if s.server.Ended? || s.server.Elsewhere? then Begins(AllRead(s), Since(us, 0, 0, s.client))
       else AllRead(s) + InHand(s.server) + s.up == Since(us, 0, 0, s.client)
  }

  lemma {:induction false} SegmentsAppend(cs: seq<seq<string>>, c: seq<string>)
    ensures Segments(cs + [c]) == Segments(cs) + Flat(c)
  {
    hide Flat;
    if cs == [] {
      assert cs + [c] == [c] && Segments([c]) == Flat(c) + Segments([]) && Flat(c) + "" == Flat(c);
    } else {
      SegmentsAppend(cs[1..], c);
      assert (cs + [c])[0] == cs[0] && (cs + [c])[1..] == cs[1..] + [c];
      Associative(Flat(cs[0]), Segments(cs[1..]), Flat(c));
    }
  }

  /** A step of the client adds the same to what is written and to what is on its way. */
  lemma ClientAdds(us: seq<Upload>, s: State) returns (more: string)
    requires AllOk(us) && ClientOk(us, s.client)
    ensures
      var s' := ClientStep(us, s);
      && ClientOk(us, s'.client) && s'.up == s.up + more
      && Since(us, 0, 0, s'.client) == Since(us, 0, 0, s.client) + more
  {
    var c := s.client;
    hide Since, AllOk, WritesAt, Total;
    if c.g < Total(us) && c.sent < |WritesAt(us, c.g)| {
      SinceGrows(us, 0, 0, c);
      more := WritesAt(us, c.g)[c.sent];
    } else {
      if c.g < Total(us) { SinceTurns(us, 0, 0, c); }
      more := "";
      assert s.up + "" == s.up && Since(us, 0, 0, c) + "" == Since(us, 0, 0, c);
    }
  }

  lemma ClientConserves(us: seq<Upload>, s: State)
    requires AllOk(us) && Conserved(us, s)
    ensures Conserved(us, ClientStep(us, s))
  {
    hide AllOk, ClientOk, Since, ClientStep, Flat, Segments;
    var more := ClientAdds(us, s);
    ClientKeeps(us, s);
    var before := Since(us, 0, 0, s.client);
    Associative(AllRead(s) + InHand(s.server), s.up, more);
    assert |AllRead(s)| <= |before| ==> (before + more)[..|AllRead(s)|] == before[..|AllRead(s)|];
  }

  lemma TakeDrop(b: string, n: nat)
    ensures Take(b, n) + Drop(b, n) == b
  {}

  lemma ReadConserves(us: seq<Upload>, s: State, seg: nat, got: string, k: nat)
    requires Conserved(us, s) && s.server == Reading(seg, got, k)
    ensures Conserved(us, ServerStep(s))
  {
    hide ClientOk, Since, AllRead, Asked, Expected, Take, Drop;
    var asked, read := Asked(s.current, seg, got), AllRead(s);
    PrefixOf(read, got, s.up);
    if asked >= 0 {
      TakeDrop(s.up, asked);
      MovesPart(s, s.current, got + Take(s.up, asked));
      Shift(read, got, Take(s.up, asked), Drop(s.up, asked));
    }
    SameRead(s, ServerStep(s));
  }

  lemma SameRead(s: State, s': State)
    ensures s'.done == s.done && s'.current == s.current ==> AllRead(s') == AllRead(s)
  {}

  lemma MovesPart(s: State, current: seq<string>, got: string)
    requires current == s.current
    ensures forall s': State | s'.done == s.done && s'.current == current + [got] :: AllRead(s') == AllRead(s) + got
  {
    FlatAppend(current, got);
    Associative(Segments(s.done), Flat(current), got);
    hide Segments, Flat;
  }

  lemma PrefixOf(read: string, got: string, up: string)
    ensures Begins(read, read + got + up)
  {}

  /** A part of the stream is taken in hand. */
  lemma Shift(read: string, got: string, part: string, up: string)
    ensures read + got + (part + up) == read + (got + part) + up == read + (got + part) + "" + up
  {
    Associative(read, got, part);
    Associative(read + got, part, up);
    assert read + (got + part) + "" == read + (got + part);
  }

  lemma FlatAppend(ws: seq<string>, w: string)
    ensures Flat(ws + [w]) == Flat(ws) + w
  {
    FlatConcat(ws, [w]);
    assert Flat([w]) == w + Flat([]) && w + "" == w;
  }

  lemma AckConserves(us: seq<Upload>, s: State, seg: nat)
    requires Conserved(us, s) && s.server == Acking(seg)
    ensures Conserved(us, ServerStep(s))
  {
    var read, all := AllRead(s), Since(us, 0, 0, s.client);
    SegmentsAppend(s.done, s.current);
    assert Segments(s.done) + Flat(s.current) + "" == read && Flat([]) == "" && read + "" == read;
    Associative(read, "", s.up);
    assert Begins(read, all);
    hide Since, ClientOk, Flat, Segments, CommandIn;
  }

  lemma {:induction false} RunConserves(us: seq<Upload>, unread: string, es: seq<bool>)
    requires AllOk(us)
    ensures Conserved(us, Run(us, Start(unread), es))
  {
    hide AllOk, Conserved, ClientStep, ServerStep;
    if es == [] {
      StartConserves(us, unread);
    } else {
      var s := Run(us, Start(unread), es[..|es| - 1]);
      RunConserves(us, unread, es[..|es| - 1]);
      if es[|es| - 1] { ClientConserves(us, s); } else { ServerConserves(us, s); }
    }
  }

  lemma StartConserves(us: seq<Upload>, unread: string)
    ensures Conserved(us, Start(unread))
  {
    FlatNothing();
    if us != [] { assert WritesAt(us, 0)[0..0] == []; }
    hide WritesAt;
  }

  lemma ServerConserves(us: seq<Upload>, s: State)
    requires Conserved(us, s)
    ensures Conserved(us, ServerStep(s))
  {
    match s.server
    case Reading(seg, got, k) => ReadConserves(us, s, seg, got, k);
    case Acking(seg) => AckConserves(us, s, seg);
    case _ =>
    hide Conserved, ReadStep, AckStep;
  }

  // ---------- the first command ----------

  /** The bytes of all segments from g on. */
  function From(us: seq<Upload>, g: nat): string
    decreases Total(us) - g
  {
    if g >= Total(us) then "" else ContentAt(us, g) + From(us, g + 1)
  }

  lemma WritesContent(u: Upload, seg: nat)
    ensures Flat(WritesOf(u, seg)) == Content(u, seg)
  {
    if Chunked(seg) { ChunksFlat(Content(u, seg)); } else { assert Flat([Content(u, seg)]) == Content(u, seg) + Flat([]); }
    hide Content;
  }

  /** What has been written is a beginning of what there is to write. */
  lemma {:induction false} SinceBegins(us: seq<Upload>, g: nat, c: Client)
    requires ClientOk(us, c)
    ensures Begins(Since(us, g, 0, c), From(us, g))
    decreases Total(us) - g
  {
    hide *;
    if g < Total(us) && c.g >= g {
      FromIs(us, g);
      if c.g == g {
        SinceInside(us, g, c);
        WrittenBegins(WritesAt(us, g), c.sent);
        BeginsMore(Flat(WritesAt(us, g)[..c.sent]), Flat(WritesAt(us, g)), From(us, g + 1));
      } else {
        SinceBegins(us, g + 1, c);
        SincePast(us, g, c);
        BeginsSameEnd(Flat(WritesAt(us, g)), Since(us, g + 1, 0, c), From(us, g + 1));
      }
    } else {
      SinceNone(us, g, c);
    }
  }

  lemma FromIs(us: seq<Upload>, g: nat)
    requires g < Total(us)
    ensures From(us, g) == Flat(WritesAt(us, g)) + From(us, g + 1)
  {
    WritesContent(us[g / 5], g % 5);
  }

  lemma SinceInside(us: seq<Upload>, g: nat, c: Client)
    requires g < Total(us) && c.g == g && ClientOk(us, c)
    ensures c.sent <= |WritesAt(us, g)| && Since(us, g, 0, c) == Flat(WritesAt(us, g)[..c.sent])
  {
    assert WritesAt(us, g)[0..c.sent] == WritesAt(us, g)[..c.sent];
    hide WritesAt;
  }

  lemma SincePast(us: seq<Upload>, g: nat, c: Client)
    requires g < Total(us) && c.g > g
    ensures Since(us, g, 0, c) == Flat(WritesAt(us, g)) + Since(us, g + 1, 0, c)
  {
    assert WritesAt(us, g)[0..] == WritesAt(us, g);
    hide WritesAt;
  }

  lemma SinceNone(us: seq<Upload>, g: nat, c: Client)
    requires g >= Total(us) || c.g < g
    ensures Begins(Since(us, g, 0, c), From(us, g))
  {
    hide From;
  }

  lemma BeginsMore(a: string, b: string, c: string)
    requires Begins(a, b)
    ensures Begins(a, b + c)
  {
    assert (b + c)[..|a|] == b[..|a|];
  }

  lemma BeginsSameEnd(a: string, b: string, c: string)
    requires Begins(b, c)
    ensures Begins(a + b, a + c)
  {
    assert (a + c)[..|a + b|] == a + c[..|b|];
  }

  lemma WrittenBegins(ws: seq<string>, n: nat)
    requires n <= |ws|
    ensures ws[0..n] == ws[..n] && Begins(Flat(ws[..n]), Flat(ws))
  {
    FlatConcat(ws[..n], ws[n..]);
    assert ws == ws[..n] + ws[n..];
    hide Flat;
  }

  /** What the server has read of its first command. */
  function FirstCommand(s: State): seq<string> { if s.done != [] then s.done[0] else s.current }

  /** Command, type and size are those of the first upload, and a name at least as long was read. */
  ghost predicate NameBegun(us: seq<Upload>, cs: seq<string>) {
    us != [] && |cs| > 3 && cs[..3] == Contents(us[0], 3) && |cs[3]| >= |us[0].name|
  }

  /** Up to the first name all is in order; and a payload is read that is as long as the one sent. */
  ghost predicate FirstBegins(us: seq<Upload>, s: State) {
    if s.done != [] then |s.done[0]| == 5 && NameBegun(us, s.done[0]) && |s.done[0][4]| == |us[0].payload|
    else
      match s.server
      case Reading(seg, got, _) =>
        if seg <= 3 then InOrder(us, s)
        else seg == LAST && |s.current| == 4 && NameBegun(us, s.current) && |got| <= |us[0].payload|
      case Acking(seg) =>
        if seg < 3 then InOrder(us, s)
        else
          && seg <= LAST && |s.current| == seg + 1 && NameBegun(us, s.current)
          && (seg == LAST ==> |s.current[4]| == |us[0].payload|)
      case Ended => |s.current| == 4 && NameBegun(us, s.current)
      case Elsewhere => false
  }

  lemma ClientKeepsFirst(us: seq<Upload>, s: State)
    requires AllOk(us) && FirstBegins(us, s)
    ensures FirstBegins(us, ClientStep(us, s))
  {
    hide AllOk, InOrder, ClientStep, NameBegun;
    ClientKeeps(us, s);
    if s.done == [] && ((s.server.Reading? && s.server.seg <= 3) || (s.server.Acking? && s.server.seg < 3)) {
      ClientInOrder(us, s);
    }
  }

  lemma ServerKeepsFirst(us: seq<Upload>, s: State)
    requires AllOk(us) && FirstBegins(us, s)
    ensures FirstBegins(us, ServerStep(s))
  {
    hide AllOk, InOrder, ServerStep, NameBegun;
    if s.done != [] {
      DoneStays(s);
    } else {
      match s.server
      case Reading(seg, got, k) =>
        if seg < 3 { EarlyFirst(us, s); } else if seg == 3 { NameFirst(us, s); } else { PayloadFirst(us, s, got, k); }
      case Acking(seg) =>
        if seg < 3 { EarlyFirst(us, s); } else { AckFirst(us, s, seg); }
      case _ => EndStays(s);
    }
  }

  lemma DoneStays(s: State)
    requires s.done != []
    ensures ServerStep(s).done != [] && ServerStep(s).done[0] == s.done[0]
  {
    hide Asked, Expected, Take, Drop, CommandIn;
  }

  lemma EndStays(s: State)
    requires s.server.Ended? || s.server.Elsewhere?
    ensures ServerStep(s) == s
  {}

  /** Up to the size, in order. */
  lemma EarlyFirst(us: seq<Upload>, s: State)
    requires AllOk(us) && s.done == [] && InOrder(us, s)
    requires (s.server.Reading? || s.server.Acking?) && s.server.seg < 3
    ensures FirstBegins(us, ServerStep(s))
  {
    NotName(us, s);
    ServerInOrder(us, s);
    StaysEarly(us, s);
    hide AllOk, InOrder, ServerStep, NameBegun, NameAlone;
  }

  lemma NotName(us: seq<Upload>, s: State)
    requires s.server.Reading? ==> s.server.seg < 3
    ensures NameAlone(us, s)
  {}

  lemma StaysEarly(us: seq<Upload>, s: State)
    requires AllOk(us) && s.done == [] && InOrder(us, s)
    requires (s.server.Reading? || s.server.Acking?) && s.server.seg < 3
    ensures
      var s' := ServerStep(s);
      s'.done == [] && ((s'.server.Reading? && s'.server.seg <= 3) || (s'.server.Acking? && s'.server.seg < 3))
  {
    hide AllOk, AtEnd, ReadingAt, AckingAt, ClientOk, ServerStep, NameAlone;
    match s.server
    case Reading(seg, got, k) =>
      if us == [] {
        EndWaits(us, s);
      } else {
        NotName(us, s);
        ReadInOrder(us, s, us[0], seg, got, k);
      }
    case Acking(seg) =>
      OkAt(us, 0);
      AckNext(us, s, us[0], seg);
  }

  /** The read of the name takes at least the name. */
  lemma NameFirst(us: seq<Upload>, s: State)
    requires AllOk(us) && s.done == [] && InOrder(us, s) && s.server.Reading? && s.server.seg == 3
    ensures FirstBegins(us, ServerStep(s))
  {
    if s.up == "" {
      NameWaits(s);
    } else {
      NameTaken(us, s);
    }
    hide AllOk, InOrder, ServerStep;
  }

  lemma NameWaits(s: State)
    requires s.server.Reading? && s.server.seg == 3 && s.up == ""
    ensures ServerStep(s) == s
  {}

  lemma NameTaken(us: seq<Upload>, s: State)
    requires AllOk(us) && s.done == [] && InOrder(us, s) && s.server.Reading? && s.server.seg == 3 && s.up != ""
    ensures
      var s' := ServerStep(s);
      s'.done == [] && s'.server == Acking(3) && |s'.current| == 4 && NameBegun(us, s'.current)
  {
    var u := NameStarts(us, s);
    var part := Take(s.up, INFO);
    hide AllOk, InOrder;
    assert "" + part == part && (s.current + [part])[..3] == s.current;
  }

  lemma NameStarts(us: seq<Upload>, s: State) returns (u: Upload)
    requires AllOk(us) && s.done == [] && InOrder(us, s) && s.server.Reading? && s.server.seg == 3 && s.up != ""
    ensures us != [] && u == us[0] && UploadOk(u) && s.current == Contents(u, 3) && |s.current| == 3 && s.server.got == ""
    ensures |u.name| <= |s.up|
  {
    u := us[0];
    var got, k := s.server.got, s.server.calls;
    OkAt(us, 0);
    PositionIs(us, s, 3);
    FromReading(us, s, u, 3, got, k);
    SinceHead(us, Position(s), k, s.client);
    NameWrite(u, k);
    hide AllOk, UploadOk, WritesAt, WritesOf, Since, NotBehind, Position, Total, ReadingAt, ClientOk, DoneRight;
  }

  lemma NameWrite(u: Upload, k: nat)
    requires k < |WritesOf(u, 3)|
    ensures k == 0 && WritesOf(u, 3)[k] == u.name && Flat(WritesOf(u, 3)[..k]) == ""
  {
    FlatNothing();
    assert WritesOf(u, 3)[..0] == [];
  }

  lemma SizeIsRead(us: seq<Upload>, current: seq<string>)
    requires AllOk(us) && NameBegun(us, current)
    ensures Expected(current, LAST) == |us[0].payload| <= INT_MAX
  {
    OkAt(us, 0);
    assert current[2] == current[..3][2] == Content(us[0], 2);
    SizeSurvives(|us[0].payload|);
    hide DecodeSize;
  }

  /** A payload is read to the length that was sent, and no further. */
  lemma PayloadFirst(us: seq<Upload>, s: State, got: string, k: nat)
    requires AllOk(us) && FirstBegins(us, s) && s.done == [] && s.server == Reading(LAST, got, k)
    ensures FirstBegins(us, ServerStep(s))
  {
    hide *;
    PayloadBegun(us, s, got, k);
    SizeIsRead(us, s.current);
    AskedForPayload(s, got, |us[0].payload|);
    PayloadStep(us, s, got, k, |us[0].payload|);
  }

  lemma PayloadBegun(us: seq<Upload>, s: State, got: string, k: nat)
    requires FirstBegins(us, s) && s.done == [] && s.server == Reading(LAST, got, k)
    ensures us != [] && |s.current| == 4 && NameBegun(us, s.current) && |got| <= |us[0].payload|
  {
    hide InOrder, NameBegun;
    NotEmpty(us, s.current);
  }

  lemma NotEmpty(us: seq<Upload>, cs: seq<string>)
    requires NameBegun(us, cs)
    ensures us != []
  {}

  lemma AskedForPayload(s: State, got: string, n: nat)
    requires Expected(s.current, LAST) == n <= INT_MAX && |got| <= n
    ensures 0 <= Asked(s.current, LAST, got) <= n - |got|
  {
    hide Expected;
  }

  lemma PayloadStep(us: seq<Upload>, s: State, got: string, k: nat, n: nat)
    requires us != [] && |s.current| == 4 && NameBegun(us, s.current) && |got| <= n == |us[0].payload|
    requires s.done == [] && s.server == Reading(LAST, got, k) && Expected(s.current, LAST) == n
    requires 0 <= Asked(s.current, LAST, got) <= n - |got|
    ensures FirstBegins(us, ServerStep(s))
  {
    hide InOrder, Expected, Asked, Drop, NameBegun;
    var part := Take(s.up, Asked(s.current, LAST, got));
    assert |part| <= n - |got|;
    MoreBegun(us, s.current, got + part);
  }

  lemma MoreBegun(us: seq<Upload>, cs: seq<string>, more: string)
    requires NameBegun(us, cs)
    ensures NameBegun(us, cs + [more])
  {
    assert (cs + [more])[..3] == cs[..3];
    hide Contents;
  }

  lemma AckFirst(us: seq<Upload>, s: State, seg: nat)
    requires FirstBegins(us, s) && s.done == [] && s.server == Acking(seg) && seg >= 3
    ensures FirstBegins(us, ServerStep(s))
  {
    assert s.done + [s.current] == [s.current];
    hide InOrder, NameBegun, CommandIn;
  }

  lemma {:induction false} RunBegins(us: seq<Upload>, unread: string, es: seq<bool>)
    requires AllOk(us)
    ensures FirstBegins(us, Run(us, Start(unread), es))
  {
    hide AllOk, FirstBegins, ClientStep, ServerStep;
    if es == [] {
      FirstAtStart(us, unread);
    } else {
      var s := Run(us, Start(unread), es[..|es| - 1]);
      RunBegins(us, unread, es[..|es| - 1]);
      if es[|es| - 1] { ClientKeepsFirst(us, s); } else { ServerKeepsFirst(us, s); }
    }
  }

  lemma FirstAtStart(us: seq<Upload>, unread: string)
    ensures FirstBegins(us, Start(unread))
  {
    StartInOrder(us, unread);
    hide InOrder;
  }

  // ---------- what it reads for the name and the payload ----------

  lemma SegmentAt(us: seq<Upload>, seg: nat)
    requires us != [] && seg <= 4
    ensures seg < Total(us) && ContentAt(us, seg) == Content(us[0], seg)
    ensures From(us, seg) == Content(us[0], seg) + From(us, seg + 1)
  {
    hide Content;
  }

  lemma FlatFive(cs: seq<string>)
    ensures |cs| == 4 ==> Flat(cs) == cs[0] + (cs[1] + (cs[2] + cs[3]))
    ensures |cs| == 5 ==> Flat(cs) == cs[0] + (cs[1] + (cs[2] + (cs[3] + cs[4])))
  {
    if |cs| >= 4 {
      assert Flat(cs) == cs[0] + Flat(cs[1..]);
      assert Flat(cs[1..]) == cs[1] + Flat(cs[1..][1..]) && cs[1..][1..] == cs[2..];
      assert Flat(cs[2..]) == cs[2] + Flat(cs[2..][1..]) && cs[2..][1..] == cs[3..];
      assert Flat(cs[3..]) == cs[3] + Flat(cs[3..][1..]) && cs[3..][1..] == cs[4..];
      if |cs| == 4 {
        assert cs[4..] == [] && Flat([]) == "" && cs[3] + "" == cs[3];
      } else if |cs| == 5 {
        assert Flat(cs[4..]) == cs[4] + Flat(cs[4..][1..]) && cs[4..][1..] == [] && Flat([]) == "" && cs[4] + "" == cs[4];
      }
    }
  }

  lemma BeginsTrans(a: string, b: string, c: string)
    requires Begins(a, b) && Begins(b, c)
    ensures Begins(a, c)
  {
    assert c[..|a|] == c[..|b|][..|a|];
  }

  lemma BeginsSame(a: string, b: string, c: string)
    requires Begins(a + b, a + c)
    ensures Begins(b, c)
  {
    SplitAt(a, b);
    SplitAt(a, c);
    assert b == (a + b)[|a|..] == (a + c)[..|a + b|][|a|..] == (a + c)[|a|..][..|b|];
  }

  /** The first command's bytes are the beginning of all there is to write. */
  lemma FirstBytes(us: seq<Upload>, s: State)
    requires Conserved(us, s)
    ensures Begins(Flat(FirstCommand(s)), From(us, 0))
  {
    var all := Since(us, 0, 0, s.client);
    SinceBegins(us, 0, s.client);
    assert Begins(AllRead(s), all) by { ReadBegins(us, s); }
    assert Begins(Flat(FirstCommand(s)), AllRead(s)) by { FirstIsRead(s); }
    hide *;
    BeginsTrans(Flat(FirstCommand(s)), AllRead(s), all);
    BeginsTrans(Flat(FirstCommand(s)), all, From(us, 0));
  }

  lemma ReadBegins(us: seq<Upload>, s: State)
    requires Conserved(us, s)
    ensures Begins(AllRead(s), Since(us, 0, 0, s.client))
  {
    Associative(AllRead(s), InHand(s.server), s.up);
    SplitAt(AllRead(s), InHand(s.server) + s.up);
    hide AllRead, Since, ClientOk, InHand;
  }

  lemma FirstIsRead(s: State)
    ensures Begins(Flat(FirstCommand(s)), AllRead(s))
  {
    if s.done != [] {
      Associative(Flat(s.done[0]), Segments(s.done[1..]), Flat(s.current));
      SplitAt(Flat(s.done[0]), Segments(s.done[1..]) + Flat(s.current));
    } else {
      assert "" + Flat(s.current) == Flat(s.current);
    }
    hide Flat;
  }

  /** Name and payload of the first command, wherever they were cut. */
  lemma CutFromStream(us: seq<Upload>, cs: seq<string>)
    requires NameBegun(us, cs) && 4 <= |cs| <= 5 && Begins(Flat(cs), From(us, 0))
    ensures Begins(if |cs| == 4 then cs[3] else cs[3] + cs[4], From(us, 3))
  {
    SegmentAt(us, 0);
    SegmentAt(us, 1);
    SegmentAt(us, 2);
    FlatFive(cs);
    assert cs[0] == cs[..3][0] && cs[1] == cs[..3][1] && cs[2] == cs[..3][2];
    var tail := if |cs| == 4 then cs[3] else cs[3] + cs[4];
    hide From, Flat, Content, Begins, NameBegun;
    BeginsSame(cs[0], cs[1] + (cs[2] + tail), From(us, 1));
    BeginsSame(cs[1], cs[2] + tail, From(us, 2));
    BeginsSame(cs[2], tail, From(us, 3));
  }
}
