/** Where the acks are: none is missing that the client waits for, and before any was left unread the client is never
    ahead of the server. */
module HandshakeAcks {
  import opened Wire
  import opened Handshake
  import opened HandshakeOrder

  /** The server is at most where the client waits to go, or one further over an empty payload. */
  ghost predicate Leads(us: seq<Upload>, s: State) {
    var p, g := Position(s), s.client.g;
    && (p <= g + 1 || (p == g + 2 && (g + 1) % 5 == LAST))
    && (s.server.Acking? ==> p <= g || (p == g + 1 && p % 5 == LAST))
  }

  lemma InOrderLeads(us: seq<Upload>, s: State)
    requires AllOk(us) && InOrder(us, s)
    ensures Leads(us, s) && Position(s) <= Total(us)
  {
    hide AllOk, Leads, Position, Total, ClientOk, AtEnd, ReadingAt, AckingAt;
    match s.server
    case Reading(seg, got, k) =>
      if |s.done| == |us| { EndLeads(us, s); } else { ReadingLeads(us, s, us[|s.done|], seg, got, k); }
    case Acking(seg) => AckingLeads(us, s, us[|s.done|], seg);
    case _ =>
  }

  lemma EndLeads(us: seq<Upload>, s: State)
    requires AllOk(us) && |s.done| == |us| && AtEnd(us, s)
    ensures Leads(us, s) && Position(s) <= Total(us)
  {
    assert Position(s) == Total(us);
    hide AllOk, Position, Total, NotBehind;
    BehindLeads(us, Total(us), 0, s.client);
  }

  lemma ReadingLeads(us: seq<Upload>, s: State, u: Upload, seg: nat, got: string, k: nat)
    requires AllOk(us) && |s.done| < |us| && u == us[|s.done|] && seg <= LAST
    requires s.server == Reading(seg, got, k) && ReadingAt(us, s, u, seg, got, k)
    ensures Leads(us, s) && Position(s) <= Total(us)
  {
    hide *;
    PositionIs(us, s, seg);
    FromReading(us, s, u, seg, got, k);
    BehindLeads(us, Position(s), k, s.client);
    LeadsIs(us, s);
  }

  lemma LeadsIs(us: seq<Upload>, s: State)
    requires
      var p, g := Position(s), s.client.g;
      if s.server.Acking? then p + 1 <= g + 1 || (p + 1 == g + 2 && (g + 1) % 5 == LAST)
      else p <= g + 1 || (p == g + 2 && (g + 1) % 5 == LAST)
    ensures Leads(us, s)
  {
    hide Position;
  }

  lemma AckingLeads(us: seq<Upload>, s: State, u: Upload, seg: nat)
    requires AllOk(us) && |s.done| < |us| && u == us[|s.done|] && seg <= LAST
    requires s.server == Acking(seg) && AckingAt(us, s, u, seg)
    ensures Leads(us, s) && Position(s) <= Total(us)
  {
    hide *;
    PositionIs(us, s, seg);
    FromAcking(us, s, u, seg);
    BehindLeads(us, Position(s) + 1, 0, s.client);
    LeadsIs(us, s);
  }

  lemma BehindLeads(us: seq<Upload>, p: nat, k: nat, c: Client)
    requires AllOk(us) && NotBehind(us, p, k, c)
    ensures p <= c.g + 1 || (p == c.g + 2 && (c.g + 1) % 5 == LAST)
    ensures p == c.g + 2 ==> (c.g + 1) % 5 == LAST
  {
    hide AllOk, ContentAt, WritesAt, Total;
    if p == c.g + 2 { EmptyIsPayload(us, c.g + 1); }
  }

  /** An ack that the client waits for, or will wait for in this segment, is there once the server is past it. */
  ghost predicate AckThere(us: seq<Upload>, s: State) {
    s.client.g < Position(s) && s.client.g < Total(us) && s.client.g % 5 != LAST ==> s.down != ""
  }

  function Acks(n: nat): string { if n == 0 then "" else Acks(n - 1) + ACK }

  /** While the client is in its first upload, with nothing unread before it, the acks on their way are those it has
      not waited for, and it is not ahead of the server. */
  ghost predicate FirstAcks(s: State) {
    && (s.client.g <= 3 ==> s.client.g <= Position(s) && s.down == Acks(Position(s) - s.client.g))
    && (s.client.g >= 4 ==> Position(s) >= 4)
  }

  /** After the waits of an upload alone on its connection, one ack is left, or none after an empty payload. */
  ghost predicate LastAcks(us: seq<Upload>, s: State) {
    |us| == 1 && s.client.g >= 4 ==>
      && 4 <= Position(s) <= 5
      && (s.down == Acks(Position(s) - 4) || (us[0].payload == "" && Position(s) == 5 && s.down == ""))
  }

  // ---------- steps ----------

  /** What a step of the client does to where it is and to the acks. */
  lemma ClientMoves(us: seq<Upload>, s: State)
    ensures
      var s', c := ClientStep(us, s), s.client;
      && Position(s') == Position(s)
      && (s'.client.g == c.g || (s'.client.g == c.g + 1 && c.g < Total(us)))
      && if s'.client.g == c.g || c.g % 5 == LAST then s'.down == s.down else s.down != "" && s'.down == Drop(s.down, 8)
  {
    ClientKeeps(us, s);
    SamePosition(s, ClientStep(us, s));
    hide WritesAt, Position, Drop;
  }

  /** What a step of the server does to its position and to the acks. */
  lemma ServerMoves(us: seq<Upload>, s: State)
    requires AllOk(us) && InOrder(us, s) && InOrder(us, ServerStep(s))
    ensures
      var s' := ServerStep(s);
      && s'.client == s.client
      && ((Position(s') == Position(s) && s'.down == s.down) || (Position(s') == Position(s) + 1 && s'.down == s.down + ACK))
  {
    hide AllOk, AtEnd, ReadingAt, AckingAt, ClientOk, Position, ReadStep, AckStep;
    match s.server
    case Reading(seg, got, k) => ReadMoves(s, seg, got, k);
    case Acking(seg) =>
      if seg < LAST {
        OkAt(us, |s.done|);
        AckNext(us, s, us[|s.done|], seg);
        AckMovesTo(s, ServerStep(s), seg);
      } else {
        AckLast(us, s, us[|s.done|]);
        LastMovesTo(s);
      }
    case _ =>
  }

  lemma ReadMoves(s: State, seg: nat, got: string, k: nat)
    requires s.server == Reading(seg, got, k)
    ensures
      var s' := ServerStep(s);
      s'.client == s.client && s'.down == s.down && (s'.server.Ended? || Position(s') == Position(s))
  {
    hide Asked, Expected, Take, Drop;
  }

  lemma AckMovesTo(s: State, s': State, seg: nat)
    requires s.server == Acking(seg) && s' == ServerStep(s) && s'.done == s.done && s'.server == Reading(seg + 1, "", 0)
    ensures s'.client == s.client && s'.down == s.down + ACK && Position(s') == Position(s) + 1
  {
    hide CommandIn;
  }

  lemma LastMovesTo(s: State)
    requires s.server == Acking(LAST)
    ensures
      var s' := ServerStep(s);
      s'.client == s.client && s'.down == s.down + ACK && Position(s') == Position(s) + 1
  {}

  lemma AcksKept(us: seq<Upload>, s: State, s': State)
    requires AckThere(us, s) && s'.client == s.client
    requires (Position(s') == Position(s) && s'.down == s.down) || s'.down == s.down + ACK
    ensures AckThere(us, s')
  {
    hide Position;
  }

  lemma ClientAcks(us: seq<Upload>, s: State)
    requires AllOk(us) && InOrder(us, s) && AckThere(us, s)
    ensures AckThere(us, ClientStep(us, s))
  {
    hide AllOk, InOrder, ClientStep, Position, Total, Drop;
    InOrderLeads(us, s);
    ClientMoves(us, s);
  }

  lemma ClientFirstAcks(us: seq<Upload>, s: State)
    requires AllOk(us) && InOrder(us, s) && FirstAcks(s)
    ensures FirstAcks(ClientStep(us, s))
  {
    hide AllOk, InOrder, ClientStep, Position, Total, Acks, Drop;
    InOrderLeads(us, s);
    ClientMoves(us, s);
    FewAcks();
  }

  lemma FewAcks()
    ensures Acks(0) == "" && Acks(1) == ACK && Acks(2) == ACK + ACK
    ensures Drop(Acks(1), 8) == "" && Drop(Acks(2), 8) == ""
  {
    assert Acks(1) == Acks(0) + ACK && "" + ACK == ACK;
  }

  lemma ServerFirstAcks(s: State, s': State)
    requires FirstAcks(s) && s'.client == s.client
    requires (Position(s') == Position(s) && s'.down == s.down) || (Position(s') == Position(s) + 1 && s'.down == s.down + ACK)
    ensures FirstAcks(s')
  {
    hide Position;
  }

  lemma ClientLastAcks(us: seq<Upload>, s: State)
    requires AllOk(us) && InOrder(us, s) && FirstAcks(s) && LastAcks(us, s)
    ensures LastAcks(us, ClientStep(us, s))
  {
    hide AllOk, InOrder, ClientStep, Position, Acks, Drop;
    InOrderLeads(us, s);
    ClientMoves(us, s);
    FewAcks();
    if |us| == 1 && s.client.g == 3 && Position(s) == 5 { EmptyFirst(us, s); }
  }

  /** Only over an empty payload does the server get to its end before the client is there. */
  lemma EmptyFirst(us: seq<Upload>, s: State)
    requires AllOk(us) && InOrder(us, s) && |us| == 1 && s.client.g == 3 && Position(s) == 5
    ensures us[0].payload == ""
  {
    hide AllOk, ClientOk, DoneRight, WritesOf, Contents, Since;
    assert NotBehind(us, 5, 0, s.client);
    assert ContentAt(us, 4) == Content(us[0], LAST);
  }

  lemma ServerLastAcks(us: seq<Upload>, s: State, s': State)
    requires LastAcks(us, s) && s'.client == s.client && Position(s') <= Total(us)
    requires (Position(s') == Position(s) && s'.down == s.down) || (Position(s') == Position(s) + 1 && s'.down == s.down + ACK)
    ensures LastAcks(us, s')
  {
    FewAcks();
    hide Position, Acks;
  }

  // ---------- runs in which the server never takes more than a name ----------

  /** The connections on which everything arrives: at most one upload, or two if the second is empty, with nothing unread
      before; or one empty upload, whatever was unread. */
  predicate Safe(us: seq<Upload>, unread: string) {
    || us == []
    || (unread == "" && (|us| == 1 || (|us| == 2 && us[1].payload == "")))
    || (|us| == 1 && us[0].payload == "")
  }

  lemma FirstNameAlone(us: seq<Upload>, s: State)
    requires FirstAcks(s) && |s.done| == 0
    ensures NameAlone(us, s)
  {
    if s.server.Reading? && s.server.seg == 3 { assert Position(s) == 3; }
    hide WritesAt;
  }

  lemma LastNameAlone(us: seq<Upload>, s: State)
    requires AllOk(us) && ClientOk(us, s.client) && |s.done| + 1 == |us| && us[|us| - 1].payload == ""
    ensures NameAlone(us, s)
  {
    if s.server.Reading? && s.server.seg == 3 {
      var g, c := Position(s) + 1, s.client;
      LastIsEmpty(us, g);
      EndSince(us, c);
      hide AllOk, WritesAt, ContentAt;
      if c.g >= g {
        assert WritesAt(us, g)[0..] == [""] && Flat([""]) == "" + Flat([]);
        FlatNothing();
        assert c.g == g ==> WritesAt(us, g)[0..c.sent] == if c.sent == 0 then [] else [""];
      }
    }
  }

  lemma LastIsEmpty(us: seq<Upload>, g: nat)
    requires |us| > 0 && g == 5 * (|us| - 1) + 4 && us[|us| - 1].payload == ""
    ensures g + 1 == Total(us) && WritesAt(us, g) == [""]
  {
    assert g / 5 == |us| - 1 && g % 5 == 4;
  }

  ghost predicate Good(us: seq<Upload>, unread: string, s: State) {
    InOrder(us, s) && AckThere(us, s) && (unread == "" ==> FirstAcks(s) && LastAcks(us, s))
  }

  lemma StartGood(us: seq<Upload>, unread: string)
    ensures Good(us, unread, Start(unread))
  {
    StartInOrder(us, unread);
    hide InOrder;
  }

  lemma SafeNameAlone(us: seq<Upload>, unread: string, s: State)
    requires AllOk(us) && Safe(us, unread) && Good(us, unread, s)
    ensures NameAlone(us, s)
  {
    if |s.done| == 0 && unread == "" {
      FirstNameAlone(us, s);
    } else if |s.done| + 1 == |us| && us[|us| - 1].payload == "" {
      LastNameAlone(us, s);
    } else {
      assert |s.done| >= |us|;
    }
    hide FirstAcks, AckThere, LastAcks, AllOk, NameAlone;
  }

  lemma StepGood(us: seq<Upload>, unread: string, s: State, client: bool)
    requires AllOk(us) && Safe(us, unread) && Good(us, unread, s)
    ensures Good(us, unread, Step(us, s, client))
  {
    hide AllOk, InOrder, AckThere, FirstAcks, LastAcks, ClientStep, ServerStep, Safe, Position, Total;
    if client {
      ClientInOrder(us, s);
      ClientAcks(us, s);
      if unread == "" {
        ClientFirstAcks(us, s);
        ClientLastAcks(us, s);
      }
    } else {
      SafeNameAlone(us, unread, s);
      ServerInOrder(us, s);
      ServerMoves(us, s);
      AcksKept(us, s, ServerStep(s));
      InOrderLeads(us, ServerStep(s));
      if unread == "" {
        ServerFirstAcks(s, ServerStep(s));
        ServerLastAcks(us, s, ServerStep(s));
      }
    }
  }

  lemma {:induction false} RunGood(us: seq<Upload>, unread: string, schedule: seq<bool>)
    requires AllOk(us) && Safe(us, unread)
    ensures Good(us, unread, Run(us, Start(unread), schedule))
  {
    hide Good, Step, Safe, AllOk;
    if schedule == [] {
      StartGood(us, unread);
    } else {
      RunGood(us, unread, schedule[..|schedule| - 1]);
      StepGood(us, unread, Run(us, Start(unread), schedule[..|schedule| - 1]), schedule[|schedule| - 1]);
    }
  }

  // ---------- at rest ----------

  /** When both processes have come to rest in order, everything has arrived. */
  lemma RestIsDone(us: seq<Upload>, s: State)
    requires AllOk(us) && InOrder(us, s) && AckThere(us, s) && Halted(us, s)
    ensures s.server == Reading(0, "", 0) && s.done == Sent(us) && s.current == [] && s.up == "" && s.client.g == Total(us)
  {
    ClientAtRest(us, s);
    match s.server
    case Reading(seg, got, k) =>
      if |s.done| == |us| {
        AllDone(us, s);
        ClientAtEndRest(us, s);
      } else {
        NotResting(us, s, us[|s.done|], seg, got, k);
      }
    case Acking(seg) => AckMoves(s);
    case _ =>
    hide AllOk, ClientOk, DoneRight, AckThere, ReadingAt, AckingAt, ClientStep, ServerStep, Sent;
  }

  lemma AllDone(us: seq<Upload>, s: State)
    requires DoneRight(us, s) && |s.done| == |us|
    ensures s.done == Sent(us)
  {
    assert Sent(us)[..|us|] == Sent(us);
    hide Contents;
  }

  lemma AckMoves(s: State)
    requires s.server.Acking?
    ensures ServerStep(s) != s
  {
    assert |s.down + ACK| > |s.down|;
  }

  lemma ClientAtRest(us: seq<Upload>, s: State)
    requires ClientStep(us, s) == s
    ensures s.client.g < Total(us) ==>
      s.client.sent >= |WritesAt(us, s.client.g)| && s.client.g % 5 != LAST && s.down == ""
  {
    hide WritesAt, Total;
  }

  lemma ClientAtEndRest(us: seq<Upload>, s: State)
    requires ClientOk(us, s.client) && AckThere(us, s) && |s.done| == |us| && s.server == Reading(0, "", 0)
    requires s.client.g < Total(us) ==> s.client.g % 5 != LAST && s.down == ""
    ensures s.client.g == Total(us)
  {
    assert Position(s) == Total(us);
    hide WritesAt;
  }

  /** With something left to be read, one of the two goes on. */
  lemma NotResting(us: seq<Upload>, s: State, u: Upload, seg: nat, got: string, k: nat)
    requires AllOk(us) && ClientOk(us, s.client) && AckThere(us, s) && |s.done| < |us| && u == us[|s.done|] && seg <= LAST
    requires s.server == Reading(seg, got, k) && ReadingAt(us, s, u, seg, got, k)
    requires s.client.g < Total(us) ==>
      s.client.sent >= |WritesAt(us, s.client.g)| && s.client.g % 5 != LAST && s.down == ""
    ensures ServerStep(s) != s
  {
    assert UploadOk(u);
    if seg == LAST && u.payload == "" {
      EmptyMoves(us, s, u, got, k);
    } else {
      Waiting(us, s, u, seg, got, k);
      SomeMoves(s, seg, got, k);
    }
    hide *;
  }

  lemma EmptyMoves(us: seq<Upload>, s: State, u: Upload, got: string, k: nat)
    requires UploadOk(u) && u.payload == "" && s.server == Reading(LAST, got, k) && ReadingAt(us, s, u, LAST, got, k)
    ensures ServerStep(s) != s
  {
    hide *;
    FromReading(us, s, u, LAST, got, k);
    NoneRead(u, got, k);
    ReadTakesNothing(u, s);
  }

  lemma SomeMoves(s: State, seg: nat, got: string, k: nat)
    requires s.server == Reading(seg, got, k) && s.up != "" && Asked(s.current, seg, got) > 0
    ensures ServerStep(s) != s
  {
    hide Asked, Expected;
    var part := Take(s.up, Asked(s.current, seg, got));
    assert |part| > 0 && |got + part| > |got|;
  }

  /** A server that waits is waited for, or something is there. */
  lemma Waiting(us: seq<Upload>, s: State, u: Upload, seg: nat, got: string, k: nat)
    requires AllOk(us) && UploadOk(u) && ClientOk(us, s.client) && AckThere(us, s)
    requires |s.done| < |us| && u == us[|s.done|] && seg <= LAST && (seg == LAST ==> u.payload != "")
    requires s.server == Reading(seg, got, k) && ReadingAt(us, s, u, seg, got, k)
    requires s.client.g < Total(us) ==>
      s.client.sent >= |WritesAt(us, s.client.g)| && s.client.g % 5 != LAST && s.down == ""
    ensures s.up != "" && Asked(s.current, seg, got) > 0
  {
    AsksSome(us, s, u, seg, got, k);
    PositionIs(us, s, seg);
    AskedIs(u, seg, k);
    FromReading(us, s, u, seg, got, k);
    hide AllOk, UploadOk, WritesOf, WritesAt, ContentAt, Content, Contents, Position, Asked, ReadingAt, Flat, Total;
    SomeSince(us, Position(s), k, s.client);
  }

  /** A client that is not behind and has nothing left to write in its segment has written write k of segment g. */
  lemma SomeSince(us: seq<Upload>, g: nat, k: nat, c: Client)
    requires g < Total(us) && ClientOk(us, c) && k < |WritesAt(us, g)| && WritesAt(us, g)[k] != "" && c.g >= g
    requires c.g < Total(us) ==> c.sent >= |WritesAt(us, c.g)|
    ensures Since(us, g, k, c) != ""
  {
    var ws := WritesAt(us, g);
    hide WritesAt, Total;
    assert ws[k..] == [ws[k]] + ws[k + 1..] && ws[k..|ws|] == ws[k..];
    assert Flat(ws[k..]) == ws[k] + Flat(ws[k..][1..]);
    hide Flat;
  }
}
