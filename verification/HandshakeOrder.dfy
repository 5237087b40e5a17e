/** The server reads each segment as it was written, as long as nothing is behind a name when it is read. */
module HandshakeOrder {
  import opened Wire
  import opened Handshake

  // ---------- what the client has written ----------

  /** The bytes the client has written from write k of segment g on. */
  function Since(us: seq<Upload>, g: nat, k: nat, c: Client): string
    decreases c.g + 1 - g
  {
    if g >= Total(us) || c.g < g then ""
    else
      var ws := WritesAt(us, g);
      if c.g == g then if k <= c.sent <= |ws| then Flat(ws[k..c.sent]) else ""
      else (if k <= |ws| then Flat(ws[k..]) else "") + Since(us, g + 1, 0, c)
  }

  predicate ClientOk(us: seq<Upload>, c: Client) {
    c.g <= Total(us) && (c.g < Total(us) ==> c.sent <= |WritesAt(us, c.g)|) && (c.g == Total(us) ==> c.sent == 0)
  }

  predicate AllSent(us: seq<Upload>, g: nat, c: Client) { c.g == g < Total(us) && c.sent == |WritesAt(us, g)| }

  /** The client is at write k of segment g or past it, or nothing but empty writes is between. */
  predicate NotBehind(us: seq<Upload>, g: nat, k: nat, c: Client) {
    || c.g > g
    || (c.g == g && k <= c.sent)
    || (k == 0 && c.g + 1 == g && c.g < Total(us) && (AllSent(us, c.g, c) || ContentAt(us, c.g) == ""))
    || (k == 0 && c.g + 2 == g && c.g + 1 < Total(us) && AllSent(us, c.g, c) && ContentAt(us, c.g + 1) == "")
  }

  /** Only a payload can be empty, and then it is one empty write. */
  lemma EmptyIsPayload(us: seq<Upload>, g: nat)
    requires AllOk(us) && g < Total(us) && ContentAt(us, g) == ""
    ensures g % 5 == LAST && us[g / 5].payload == "" && WritesAt(us, g) == [""]
  {
    assert UploadOk(us[g / 5]);
  }

  lemma {:induction false} SinceGrows(us: seq<Upload>, g: nat, k: nat, c: Client)
    requires AllOk(us) && g <= Total(us) && c.g < Total(us) && c.sent < |WritesAt(us, c.g)|
    requires NotBehind(us, g, k, c) && (g < Total(us) ==> k <= |WritesAt(us, g)|)
    ensures Since(us, g, k, Client(c.g, c.sent + 1)) == Since(us, g, k, c) + WritesAt(us, c.g)[c.sent]
    ensures NotBehind(us, g, k, Client(c.g, c.sent + 1))
    decreases c.g + 1 - g
  {
    hide AllOk, WritesAt, ContentAt, Total;
    var ws := WritesAt(us, c.g);
    if c.g == g {
      assert ws[k..c.sent + 1] == ws[k..c.sent] + [ws[c.sent]];
      FlatConcat(ws[k..c.sent], [ws[c.sent]]);
      assert Flat([ws[c.sent]]) == ws[c.sent] + Flat([]);
    } else if c.g > g {
      SinceGrows(us, g + 1, 0, c);
      Associative(Flat(WritesAt(us, g)[k..]), Since(us, g + 1, 0, c), ws[c.sent]);
    } else {
      EmptyIsPayload(us, c.g);
    }
  }

  lemma {:induction false} SinceTurns(us: seq<Upload>, g: nat, k: nat, c: Client)
    requires g <= Total(us) && c.g < Total(us) && AllSent(us, c.g, c)
    requires NotBehind(us, g, k, c) && (g < Total(us) ==> k <= |WritesAt(us, g)|)
    ensures Since(us, g, k, Client(c.g + 1, 0)) == Since(us, g, k, c) && NotBehind(us, g, k, Client(c.g + 1, 0))
    decreases c.g + 1 - g
  {
    hide WritesAt, ContentAt, Total;
    FlatNothing();
    assert c.g + 1 < Total(us) ==> WritesAt(us, c.g + 1)[0..0] == [];
    if c.g > g {
      SinceTurns(us, g + 1, 0, c);
    } else if c.g == g {
      var ws := WritesAt(us, g);
      assert ws[k..|ws|] == ws[k..] && Since(us, g + 1, 0, Client(g + 1, 0)) == "";
    }
  }

  /** If anything is there from write k on, all of write k is. */
  lemma SinceHead(us: seq<Upload>, g: nat, k: nat, c: Client)
    requires g < Total(us) && ClientOk(us, c) && NotBehind(us, g, k, c) && k < |WritesAt(us, g)|
    requires Since(us, g, k, c) != ""
    ensures
      var ws := WritesAt(us, g);
      && Since(us, g, k, c) == ws[k] + Since(us, g, k + 1, c)
      && NotBehind(us, g, k + 1, c)
      && (k + 1 == |ws| ==> Since(us, g, k + 1, c) == Since(us, g + 1, 0, c) && NotBehind(us, g + 1, 0, c))
  {
    var ws := WritesAt(us, g);
    FlatNothing();
    hide WritesAt, ContentAt, Total;
    if c.g == g {
      assert ws[k..k] == [];
      assert ws[k..c.sent] == [ws[k]] + ws[k + 1..c.sent];
      assert ws[|ws|..|ws|] == [];
    } else {
      assert ws[k..] == [ws[k]] + ws[k + 1..];
      assert ws[|ws|..] == [] && "" + Since(us, g + 1, 0, c) == Since(us, g + 1, 0, c);
      Associative(ws[k], Flat(ws[k + 1..]), Since(us, g + 1, 0, c));
    }
  }

  /** An empty payload adds nothing. */
  lemma SinceEmpty(us: seq<Upload>, g: nat, c: Client)
    requires AllOk(us) && g < Total(us) && ContentAt(us, g) == "" && NotBehind(us, g, 0, c)
    requires ClientOk(us, c)
    ensures Since(us, g, 0, c) == Since(us, g + 1, 0, c) && NotBehind(us, g + 1, 0, c)
  {
    hide WritesAt, AllOk, ContentAt, Total;
    EmptyIsPayload(us, g);
    FlatNothing();
    if c.g + 1 == g && ContentAt(us, c.g) == "" { EmptyIsPayload(us, c.g); }
    if c.g + 2 == g && ContentAt(us, c.g + 1) == "" { EmptyIsPayload(us, c.g + 1); }
    var ws := WritesAt(us, g);
    assert ws[0..] == [""] && Flat([""]) == "";
    if c.g == g && c.sent <= 1 { assert ws[0..c.sent] == if c.sent == 0 then [] else [""]; }
  }

  // ---------- the two processes in order ----------

  function Sent(us: seq<Upload>): seq<seq<string>> { seq(|us|, i requires 0 <= i < |us| => Contents(us[i], 5)) }

  /** Which segment the server is at. */
  function Position(s: State): nat {
    5 * |s.done| + match s.server case Reading(seg, _, _) => seg case Acking(seg) => seg case _ => 0
  }

  ghost predicate DoneRight(us: seq<Upload>, s: State) { |s.done| <= |us| && s.done == Sent(us)[..|s.done|] }

  /** The server has read everything up to its position as it was written, and all else is on its way. */
  ghost predicate InOrder(us: seq<Upload>, s: State) {
    && ClientOk(us, s.client) && DoneRight(us, s)
    && match s.server
       case Reading(seg, got, k) =>
         if |s.done| == |us| then AtEnd(us, s) else seg <= LAST && ReadingAt(us, s, us[|s.done|], seg, got, k)
       case Acking(seg) => |s.done| < |us| && seg <= LAST && AckingAt(us, s, us[|s.done|], seg)
       case _ => false
  }

  ghost predicate AtEnd(us: seq<Upload>, s: State) {
    s.server == Reading(0, "", 0) && s.current == [] && s.up == "" && NotBehind(us, Total(us), 0, s.client)
  }

  ghost predicate ReadingAt(us: seq<Upload>, s: State, u: Upload, seg: nat, got: string, k: nat) {
    && k < |WritesOf(u, seg)| && got == Flat(WritesOf(u, seg)[..k]) && s.current == Contents(u, seg)
    && NotBehind(us, Position(s), k, s.client) && s.up == Since(us, Position(s), k, s.client)
  }

  ghost predicate AckingAt(us: seq<Upload>, s: State, u: Upload, seg: nat) {
    && s.current == Contents(u, seg + 1)
    && NotBehind(us, Position(s) + 1, 0, s.client) && s.up == Since(us, Position(s) + 1, 0, s.client)
  }

  lemma FromReading(us: seq<Upload>, s: State, u: Upload, seg: nat, got: string, k: nat)
    requires ReadingAt(us, s, u, seg, got, k)
    ensures k < |WritesOf(u, seg)| && got == Flat(WritesOf(u, seg)[..k]) && s.current == Contents(u, seg)
    ensures NotBehind(us, Position(s), k, s.client) && s.up == Since(us, Position(s), k, s.client)
  {}

  lemma ToReading(us: seq<Upload>, s: State, u: Upload, seg: nat, got: string, k: nat)
    requires k < |WritesOf(u, seg)| && got == Flat(WritesOf(u, seg)[..k]) && s.current == Contents(u, seg)
    requires NotBehind(us, Position(s), k, s.client) && s.up == Since(us, Position(s), k, s.client)
    ensures ReadingAt(us, s, u, seg, got, k)
  {}

  lemma FromAcking(us: seq<Upload>, s: State, u: Upload, seg: nat)
    requires AckingAt(us, s, u, seg)
    ensures s.current == Contents(u, seg + 1)
    ensures NotBehind(us, Position(s) + 1, 0, s.client) && s.up == Since(us, Position(s) + 1, 0, s.client)
  {}

  lemma ToAcking(us: seq<Upload>, s: State, u: Upload, seg: nat)
    requires s.current == Contents(u, seg + 1)
    requires NotBehind(us, Position(s) + 1, 0, s.client) && s.up == Since(us, Position(s) + 1, 0, s.client)
    ensures AckingAt(us, s, u, seg)
  {}

  lemma OkAt(us: seq<Upload>, i: nat)
    requires AllOk(us) && i < |us|
    ensures UploadOk(us[i])
  {}

  lemma StartInOrder(us: seq<Upload>, unread: string)
    ensures InOrder(us, Start(unread))
  {
    FlatNothing();
    assert Sent(us)[..0] == [];
    if us != [] { assert WritesOf(us[0], 0)[..0] == [] && WritesAt(us, 0)[0..0] == []; }
  }

  /** The position belongs to the upload after those that are done. */
  lemma PositionIs(us: seq<Upload>, s: State, seg: nat)
    requires |s.done| < |us| && seg <= LAST && (s.server == Acking(seg) || (s.server.Reading? && s.server.seg == seg))
    ensures Position(s) < Total(us) && WritesAt(us, Position(s)) == WritesOf(us[|s.done|], seg)
    ensures ContentAt(us, Position(s)) == Content(us[|s.done|], seg)
  {
    assert Position(s) / 5 == |s.done| && Position(s) % 5 == seg;
    hide WritesOf, Content;
  }

  lemma ClientStepSince(us: seq<Upload>, s: State, g: nat, k: nat)
    requires AllOk(us) && ClientOk(us, s.client) && g <= Total(us) && (g < Total(us) ==> k <= |WritesAt(us, g)|)
    requires NotBehind(us, g, k, s.client) && s.up == Since(us, g, k, s.client)
    ensures
      var s' := ClientStep(us, s);
      && ClientOk(us, s'.client) && NotBehind(us, g, k, s'.client) && s'.up == Since(us, g, k, s'.client)
  {
    var c := s.client;
    hide Since, NotBehind, AllOk, WritesAt, Total;
    if c.g < Total(us) {
      if c.sent < |WritesAt(us, c.g)| { SinceGrows(us, g, k, c); } else { SinceTurns(us, g, k, c); }
    }
  }

  lemma ClientInOrder(us: seq<Upload>, s: State)
    requires AllOk(us) && InOrder(us, s)
    ensures InOrder(us, ClientStep(us, s))
  {
    ClientKeeps(us, s);
    SameDone(us, s, ClientStep(us, s));
    match s.server
    case Reading(seg, got, k) =>
      if |s.done| == |us| { ClientAtEnd(us, s); } else { ClientReading(us, s, us[|s.done|], seg, got, k); }
    case Acking(seg) => ClientAcking(us, s, us[|s.done|], seg);
    case _ =>
    hide ClientStep, DoneRight, AtEnd, ReadingAt, AckingAt, ClientOk, AllOk;
  }

  lemma SameDone(us: seq<Upload>, s: State, s': State)
    requires DoneRight(us, s) && s'.done == s.done
    ensures DoneRight(us, s')
  {}

  lemma ClientAtEnd(us: seq<Upload>, s: State)
    requires AllOk(us) && ClientOk(us, s.client) && AtEnd(us, s)
    ensures ClientOk(us, ClientStep(us, s).client) && AtEnd(us, ClientStep(us, s))
  {
    EndSince(us, s.client);
    EndSince(us, ClientStep(us, s).client);
    ClientKeeps(us, s);
    hide ClientStep, Position, Total, WritesAt, ContentAt, NotBehind, Since, AllOk, WritesOf, Contents, ClientOk,
      AllSent, Content;
    ClientStepSince(us, s, Total(us), 0);
  }

  lemma ClientReading(us: seq<Upload>, s: State, u: Upload, seg: nat, got: string, k: nat)
    requires AllOk(us) && ClientOk(us, s.client) && |s.done| < |us| && u == us[|s.done|] && seg <= LAST
    requires s.server == Reading(seg, got, k) && ReadingAt(us, s, u, seg, got, k)
    ensures ClientOk(us, ClientStep(us, s).client) && ReadingAt(us, ClientStep(us, s), u, seg, got, k)
  {
    hide *;
    ClientKeeps(us, s);
    SamePosition(s, ClientStep(us, s));
    PositionIs(us, s, seg);
    FromReading(us, s, u, seg, got, k);
    ClientStepSince(us, s, Position(s), k);
    ToReading(us, ClientStep(us, s), u, seg, got, k);
  }

  lemma ClientAcking(us: seq<Upload>, s: State, u: Upload, seg: nat)
    requires AllOk(us) && ClientOk(us, s.client) && |s.done| < |us| && u == us[|s.done|] && seg <= LAST
    requires s.server == Acking(seg) && AckingAt(us, s, u, seg)
    ensures ClientOk(us, ClientStep(us, s).client) && AckingAt(us, ClientStep(us, s), u, seg)
  {
    hide *;
    ClientKeeps(us, s);
    SamePosition(s, ClientStep(us, s));
    PositionIs(us, s, seg);
    FromAcking(us, s, u, seg);
    ClientStepSince(us, s, Position(s) + 1, 0);
    ToAcking(us, ClientStep(us, s), u, seg);
  }

  lemma SamePosition(s: State, s': State)
    requires s'.server == s.server && s'.done == s.done
    ensures Position(s') == Position(s)
  {}

  lemma ClientKeeps(us: seq<Upload>, s: State)
    ensures ClientStep(us, s).server == s.server && ClientStep(us, s).done == s.done && ClientStep(us, s).current == s.current
  {}

  lemma EndSince(us: seq<Upload>, c: Client)
    ensures Since(us, Total(us), 0, c) == ""
  {}

  /** Nothing is behind the name that the server reads next. */
  ghost predicate NameAlone(us: seq<Upload>, s: State) {
    s.server.Reading? && s.server.seg == 3 && |s.done| < |us| ==> Since(us, Position(s) + 1, 0, s.client) == ""
  }

  lemma ServerInOrder(us: seq<Upload>, s: State)
    requires AllOk(us) && InOrder(us, s) && NameAlone(us, s)
    ensures InOrder(us, ServerStep(s))
  {
    match s.server
    case Reading(seg, got, k) =>
      if |s.done| == |us| {
        EndWaits(us, s);
      } else {
        ReadInOrder(us, s, us[|s.done|], seg, got, k);
        SameDone(us, s, ServerStep(s));
      }
    case Acking(seg) =>
      if seg < LAST {
        AckNext(us, s, us[|s.done|], seg);
        SameDone(us, s, ServerStep(s));
      } else {
        AckLast(us, s, us[|s.done|]);
      }
    case _ =>
    hide ServerStep, DoneRight, AtEnd, ReadingAt, AckingAt, ClientOk, AllOk;
  }

  lemma EndWaits(us: seq<Upload>, s: State)
    requires AtEnd(us, s)
    ensures ServerStep(s) == s
  {
    FirstChunk(HEADER);
    hide NotBehind;
  }

  lemma AckNext(us: seq<Upload>, s: State, u: Upload, seg: nat)
    requires UploadOk(u) && s.server == Acking(seg) && seg < LAST && AckingAt(us, s, u, seg)
    ensures
      var s' := ServerStep(s);
      && s'.client == s.client && s'.done == s.done && s'.server == Reading(seg + 1, "", 0)
      && ReadingAt(us, s', u, seg + 1, "", 0)
  {
    hide *;
    FromAcking(us, s, u, seg);
    AckTo(s, u, seg);
    NoneYet(u, seg + 1);
    ToReading(us, ServerStep(s), u, seg + 1, "", 0);
  }

  lemma AckTo(s: State, u: Upload, seg: nat)
    requires UploadOk(u) && s.server == Acking(seg) && seg < LAST && s.current == Contents(u, seg + 1)
    ensures ServerStep(s) == s.(down := s.down + ACK, server := Reading(seg + 1, "", 0))
    ensures Position(ServerStep(s)) == Position(s) + 1
  {
    assert s.current[0] == u.header;
    hide Contents;
  }

  lemma NoneYet(u: Upload, seg: nat)
    ensures |WritesOf(u, seg)| > 0 && Flat(WritesOf(u, seg)[..0]) == ""
  {
    FlatNothing();
    assert WritesOf(u, seg)[..0] == [];
  }

  lemma AckLast(us: seq<Upload>, s: State, u: Upload)
    requires DoneRight(us, s) && |s.done| < |us| && u == us[|s.done|] && s.server == Acking(4) && AckingAt(us, s, u, 4)
    ensures
      var s' := ServerStep(s);
      && s'.client == s.client && s'.server == Reading(0, "", 0) && |s'.done| <= |us| && DoneRight(us, s')
      && if |s'.done| == |us| then AtEnd(us, s') else ReadingAt(us, s', us[|s'.done|], 0, "", 0)
  {
    hide *;
    FromAcking(us, s, u, 4);
    MoreDone(us, s, u);
    LastTo(s);
    if |ServerStep(s).done| < |us| { NextUpload(us, s, us[|ServerStep(s).done|]); } else { NoUpload(us, s); }
  }

  lemma LastTo(s: State)
    requires s.server == Acking(4)
    ensures ServerStep(s) == s.(down := s.down + ACK, server := Reading(0, "", 0), current := [], done := s.done + [s.current])
    ensures Position(ServerStep(s)) == Position(s) + 1
  {}

  lemma NextUpload(us: seq<Upload>, s: State, u: Upload)
    requires s.server == Acking(4) && ServerStep(s).current == []
    requires NotBehind(us, Position(ServerStep(s)), 0, ServerStep(s).client)
    requires ServerStep(s).up == Since(us, Position(ServerStep(s)), 0, ServerStep(s).client)
    ensures ReadingAt(us, ServerStep(s), u, 0, "", 0)
  {
    assert Contents(u, 0) == [];
    hide NotBehind, Since, WritesOf, Flat, Position, ServerStep, ReadingAt;
    NoneYet(u, 0);
    ToReading(us, ServerStep(s), u, 0, "", 0);
  }

  lemma NoUpload(us: seq<Upload>, s: State)
    requires s.server == Acking(4) && |ServerStep(s).done| == |us|
    requires ServerStep(s) == s.(down := s.down + ACK, server := Reading(0, "", 0), current := [], done := s.done + [s.current])
    requires NotBehind(us, Position(ServerStep(s)), 0, ServerStep(s).client)
    requires ServerStep(s).up == Since(us, Position(ServerStep(s)), 0, ServerStep(s).client)
    ensures AtEnd(us, ServerStep(s))
  {
    hide NotBehind, Since, ServerStep;
    assert Position(ServerStep(s)) == Total(us);
    EndSince(us, s.client);
  }

  lemma MoreDone(us: seq<Upload>, s: State, u: Upload)
    requires DoneRight(us, s) && |s.done| < |us| && u == us[|s.done|] && s.server == Acking(4) && s.current == Contents(u, 5)
    ensures ServerStep(s).done == s.done + [s.current] && DoneRight(us, ServerStep(s))
  {
    var n := |s.done|;
    assert Sent(us)[n] == Contents(u, 5);
    assert Sent(us)[..n + 1] == Sent(us)[..n] + [Sent(us)[n]];
    hide Sent, Contents;
  }

  /** The server at the end of a read, in order. */
  ghost predicate ReadsOn(us: seq<Upload>, s: State, s': State, u: Upload, seg: nat) {
    && s'.client == s.client && s'.done == s.done
    && ((s'.server == Acking(seg) && AckingAt(us, s', u, seg))
        || (s'.server.Reading? && s'.server.seg == seg && ReadingAt(us, s', u, seg, s'.server.got, s'.server.calls)))
  }

  lemma ReadInOrder(us: seq<Upload>, s: State, u: Upload, seg: nat, got: string, k: nat)
    requires AllOk(us) && ClientOk(us, s.client) && NameAlone(us, s) && |s.done| < |us| && u == us[|s.done|] && seg <= LAST
    requires s.server == Reading(seg, got, k) && ReadingAt(us, s, u, seg, got, k)
    ensures ReadsOn(us, s, ServerStep(s), u, seg)
  {
    assert UploadOk(u);
    if seg == LAST && u.payload == "" {
      EmptyRead(us, s, u, got, k);
    } else if s.up == "" {
      AsksSome(us, s, u, seg, got, k);
      ReadWaits(s);
    } else {
      SomeRead(us, s, u, seg, got, k);
    }
    hide AllOk, ServerStep, ReadingAt, AckingAt, NameAlone;
  }

  lemma AsksSome(us: seq<Upload>, s: State, u: Upload, seg: nat, got: string, k: nat)
    requires UploadOk(u) && seg <= LAST && (seg == LAST ==> u.payload != "") && ReadingAt(us, s, u, seg, got, k)
    ensures Asked(s.current, seg, got) > 0
  {
    AskedIs(u, seg, k);
    hide Asked, NotBehind, Since, Contents, WritesOf, Position;
  }

  /** A read that is not the last one of its segment. */
  lemma ReadsMore(us: seq<Upload>, s: State, s': State, u: Upload, seg: nat, k: nat)
    requires s.server.Reading? && s.server.seg == seg && s.current == Contents(u, seg) && k < |WritesOf(u, seg)|
    requires s' == s.(up := s'.up, server := Reading(seg, Flat(WritesOf(u, seg)[..k]), k))
    requires NotBehind(us, Position(s), k, s.client) && s'.up == Since(us, Position(s), k, s.client)
    ensures ReadsOn(us, s, s', u, seg)
  {
    hide NotBehind, Since, Contents, WritesOf, Flat, Position, AckingAt, ReadingAt;
    PositionMoves(s, s');
    ToReading(us, s', u, seg, Flat(WritesOf(u, seg)[..k]), k);
  }

  /** A read that is the last one of its segment. */
  lemma ReadsAll(us: seq<Upload>, s: State, s': State, u: Upload, seg: nat)
    requires s.server.Reading? && s.server.seg == seg
    requires s' == s.(up := s'.up, server := Acking(seg), current := Contents(u, seg + 1))
    requires NotBehind(us, Position(s) + 1, 0, s.client) && s'.up == Since(us, Position(s) + 1, 0, s.client)
    ensures ReadsOn(us, s, s', u, seg)
  {
    hide NotBehind, Since, Contents, Position, ReadingAt, AckingAt;
    PositionMoves(s, s');
    ToAcking(us, s', u, seg);
  }

  lemma SomeRead(us: seq<Upload>, s: State, u: Upload, seg: nat, got: string, k: nat)
    requires UploadOk(u) && ClientOk(us, s.client) && NameAlone(us, s) && s.up != "" && (seg == LAST ==> u.payload != "")
    requires |s.done| < |us| && u == us[|s.done|] && seg <= LAST
    requires s.server == Reading(seg, got, k) && ReadingAt(us, s, u, seg, got, k)
    ensures ReadsOn(us, s, ServerStep(s), u, seg)
  {
    var g, ws, s' := Position(s), WritesOf(u, seg), ServerStep(s);
    PositionIs(us, s, seg);
    if seg == 3 {
      NothingBehind(us, s, g);
      NameIsOne(u);
    }
    SinceHead(us, g, k, s.client);
    ReadTakesWrite(u, s, seg, k, Since(us, g, k + 1, s.client));
    hide *;
    if k + 1 < |ws| { ReadsMore(us, s, s', u, seg, k + 1); } else { ReadsAll(us, s, s', u, seg); }
  }

  lemma NameIsOne(u: Upload)
    ensures |WritesOf(u, 3)| == 1
  {}

  lemma NothingBehind(us: seq<Upload>, s: State, g: nat)
    requires NameAlone(us, s) && s.server.Reading? && s.server.seg == 3 && |s.done| < |us| && g == Position(s)
    ensures Since(us, g + 1, 0, s.client) == ""
  {
    hide Since, Position;
  }

  /** Reading on, or from a read to its ack. */
  lemma PositionMoves(s: State, s': State)
    requires s'.done == s.done && s.server.Reading?
    requires s'.server == Acking(s.server.seg) || (s'.server.Reading? && s'.server.seg == s.server.seg)
    ensures Position(s') == Position(s)
  {}

  lemma EmptyRead(us: seq<Upload>, s: State, u: Upload, got: string, k: nat)
    requires AllOk(us) && ClientOk(us, s.client) && UploadOk(u) && |s.done| < |us| && u == us[|s.done|] && u.payload == ""
    requires s.server == Reading(LAST, got, k) && ReadingAt(us, s, u, LAST, got, k)
    ensures ReadsOn(us, s, ServerStep(s), u, LAST)
  {
    hide *;
    EmptyPosition(us, s, u);
    FromReading(us, s, u, LAST, got, k);
    NoneRead(u, got, k);
    EmptySegment(us, Position(s), k, s.client);
    EmptyEnds(us, s, u);
  }

  lemma EmptyPosition(us: seq<Upload>, s: State, u: Upload)
    requires |s.done| < |us| && u == us[|s.done|] && u.payload == "" && s.server.Reading? && s.server.seg == LAST
    ensures Position(s) < Total(us) && ContentAt(us, Position(s)) == ""
  {
    PositionIs(us, s, LAST);
    EmptyContent(u);
    hide *;
  }

  lemma EmptyEnds(us: seq<Upload>, s: State, u: Upload)
    requires UploadOk(u) && u.payload == "" && s.server == Reading(LAST, "", 0) && s.current == Contents(u, LAST)
    requires NotBehind(us, Position(s) + 1, 0, s.client) && s.up == Since(us, Position(s) + 1, 0, s.client)
    ensures ReadsOn(us, s, ServerStep(s), u, LAST)
  {
    ReadTakesNothing(u, s);
    hide *;
    ReadsAll(us, s, ServerStep(s), u, LAST);
  }

  lemma NoneRead(u: Upload, got: string, k: nat)
    requires u.payload == "" && k < |WritesOf(u, LAST)| && got == Flat(WritesOf(u, LAST)[..k])
    ensures got == "" && k == 0
  {
    FlatNothing();
    assert WritesOf(u, LAST) == [""];
    assert WritesOf(u, LAST)[..0] == [];
  }

  lemma EmptySegment(us: seq<Upload>, g: nat, k: nat, c: Client)
    requires AllOk(us) && g < Total(us) && ContentAt(us, g) == "" && k == 0 && NotBehind(us, g, k, c) && ClientOk(us, c)
    ensures Since(us, g, k, c) == Since(us, g + 1, 0, c) && NotBehind(us, g + 1, 0, c)
  {
    hide *;
    SinceEmpty(us, g, c);
  }

  lemma EmptyContent(u: Upload)
    requires u.payload == ""
    ensures Content(u, LAST) == ""
  {}
}
