/** When uploads on one connection arrive, and what the server stores when they do not. */
module HandshakeDelivery {
  import opened Wire
  import opened Handshake
  import opened HandshakeOrder
  import opened HandshakeAcks
  import opened HandshakeBreaks

  // ---------- delivery ----------

  /** What the server has read so far is what was sent; at rest it has all of it and waits for a command. */
  ghost predicate Delivered(us: seq<Upload>, s: State) {
    && |s.done| <= |us| && s.done == Sent(us)[..|s.done|]
    && (s.current == [] || (|s.done| < |us| && s.current == Contents(us[|s.done|], |s.current|)))
    && (Halted(us, s) ==> s.done == Sent(us) && s.current == [] && s.server == Reading(0, "", 0))
  }

  lemma GoodDelivers(us: seq<Upload>, unread: string, s: State)
    requires AllOk(us) && Good(us, unread, s)
    ensures Delivered(us, s)
  {
    if Halted(us, s) { RestIsDone(us, s); }
    InOrderIsRight(us, s);
    hide AllOk, InOrder, AckThere, FirstAcks, LastAcks, Halted, Contents, Sent;
  }

  lemma InOrderIsRight(us: seq<Upload>, s: State)
    requires InOrder(us, s)
    ensures |s.done| <= |us| && s.done == Sent(us)[..|s.done|]
    ensures s.current == [] || (|s.done| < |us| && s.current == Contents(us[|s.done|], |s.current|))
  {
    hide ClientOk, NotBehind, Since, WritesOf, Content, Sent;
  }

  lemma SwallowedIsWrong(us: seq<Upload>, s: State, i: nat)
    requires |s.done| == i < |us| && |s.current| > 3 && |s.current[3]| > |us[i].name|
    ensures !Delivered(us, s)
  {
    hide Halted, Sent;
    assert Contents(us[i], |s.current|)[3] == us[i].name;
  }

  /** All uploads of a connection arrive in every schedule, if and only if there is at most one, or two of which the
      second is empty; and if anything was unread before, only none or an empty one. */
  lemma DeliveredExactly(us: seq<Upload>, unread: string)
    requires AllOk(us)
    ensures (forall es :: Delivered(us, Run(us, Start(unread), es))) <==> Safe(us, unread)
  {
    if Safe(us, unread) {
      forall es ensures Delivered(us, Run(us, Start(unread), es)) {
        RunGood(us, unread, es);
        GoodDelivers(us, unread, Run(us, Start(unread), es));
      }
    } else {
      var es := Undelivered(us, unread);
      assert !Delivered(us, Run(us, Start(unread), es));
    }
    hide *;
  }

  lemma Undelivered(us: seq<Upload>, unread: string) returns (es: seq<bool>)
    requires AllOk(us) && !Safe(us, unread)
    ensures !Delivered(us, Run(us, Start(unread), es))
  {
    if unread != "" {
      es := FirstSwallowed(us, unread);
    } else {
      es := SecondSwallowed(us);
    }
    hide AllOk, Run, Delivered;
  }

  lemma StartIs(us: seq<Upload>, unread: string)
    requires us != []
    ensures Start(unread) == Before(us, 0, 0, [], unread)
  {
    assert Contents(us[0], 0) == [];
  }

  lemma FirstSwallowed(us: seq<Upload>, unread: string) returns (es: seq<bool>)
    requires AllOk(us) && us != [] && unread != "" && (us[0].payload != "" || |us| > 1)
    ensures !Delivered(us, Run(us, Start(unread), es))
  {
    hide *;
    StartIs(us, unread);
    es := UnreadAckCorrupts(us, 0, [], unread);
    TakenIsWrong(us, Run(us, Start(unread), es), 0);
  }

  lemma TakenIsWrong(us: seq<Upload>, s: State, i: nat)
    requires i < |us| && |s.done| == i && (us[i].payload != "" || i + 1 < |us|)
    requires s.current == Contents(us[i], 3) + [Take(us[i].name + BehindName(us, i), INFO)] && |s.current[3]| > |us[i].name|
    ensures !Delivered(us, s)
  {
    SwallowedIsWrong(us, s, i);
    hide Contents, BehindName, Delivered, Take;
  }

  /** The first upload's payload is acked only when the client has begun the second: that ack is left unread. */
  lemma SecondSwallowed(us: seq<Upload>) returns (es: seq<bool>)
    requires AllOk(us) && |us| >= 2 && (us[1].payload != "" || |us| > 2)
    ensures !Delivered(us, Run(us, Start(""), es))
  {
    hide *;
    StartIs(us, "");
    var first := Lockstep(us, 0, 0, []);
    AfterFirst(us);
    var second := UnreadAckCorrupts(us, 1, [Contents(us[0], 5)], "ack");
    RunMore(us, Start(""), first, second);
    es := first + second;
    TakenIsWrong(us, Run(us, Start(""), es), 1);
  }

  lemma AfterFirst(us: seq<Upload>)
    requires |us| >= 2
    ensures State(Client(5 * 0 + 5, 0), Reading(0, "", 0), [], [] + [Contents(us[0], 5)], "", ACK) ==
            Before(us, 1, 0, [Contents(us[0], 5)], "ack")
  {
    assert Contents(us[1], 0) == [] && [] + [Contents(us[0], 5)] == [Contents(us[0], 5)];
    hide Content;
  }

  /** An upload alone on its connection arrives in every schedule; at rest nothing is left on its way to the server, and
      exactly one ack on its way back, or possibly none after an empty payload. */
  lemma HandshakeDelivers(u: Upload, es: seq<bool>)
    requires UploadOk(u)
    ensures
      var s := Run([u], Start(""), es);
      && Delivered([u], s)
      && (Halted([u], s) ==>
            && s.done == [[u.header, Encode64(FILE), Encode64(|u.payload|), u.name, u.payload]]
            && s.up == "" && (s.down == ACK || (u.payload == "" && s.down == "")))
  {
    var us := [u];
    RunGood(us, "", es);
    GoodDelivers(us, "", Run(us, Start(""), es));
    if Halted(us, Run(us, Start(""), es)) { AloneAtRest(u, Run(us, Start(""), es)); }
    hide Run, Delivered, Good, Halted, Encode64;
  }

  lemma AloneAtRest(u: Upload, s: State)
    requires AllOk([u]) && Good([u], "", s) && Halted([u], s)
    ensures s.done == [[u.header, Encode64(FILE), Encode64(|u.payload|), u.name, u.payload]]
    ensures s.up == "" && (s.down == ACK || (u.payload == "" && s.down == ""))
  {
    RestIsDone([u], s);
    FewAcks();
    assert Sent([u]) == [Contents(u, 5)];
    assert Contents(u, 5) == [u.header, Encode64(FILE), Encode64(|u.payload|), u.name, u.payload];
    hide AllOk, InOrder, AckThere, Halted, Encode64, Acks;
  }

  // ---------- coming to rest ----------

  function Remaining(us: seq<Upload>, g: nat): nat
    decreases Total(us) - g
  {
    if g >= Total(us) then 0 else |WritesAt(us, g)| + 1 + Remaining(us, g + 1)
  }

  /** Writes and waits that the client has left. */
  function ClientLeft(us: seq<Upload>, c: Client): int { Remaining(us, c.g) - c.sent }

  /** How far a command is from its end; its reads count by the bytes they take. */
  function Phase(server: Server): nat {
    match server
    case Reading(seg, got, _) => if seg == 0 then if |got| >= HEADER then 11 else 1 else if seg <= LAST then 11 - 2 * seg else 3
    case Acking(seg) => if seg <= LAST then 10 - 2 * seg else 2
    case _ => 0
  }

  function ServerLeft(s: State): nat { 20 * |s.up| + Phase(s.server) }

  /** Every step that does anything brings rest nearer, in every state: a step of the client leaves it less to do, and
      one of the server leaves it fewer bytes or is further on in its command. */
  lemma StepsRunOut(us: seq<Upload>, s: State, client: bool)
    requires ClientOk(us, s.client) && Step(us, s, client) != s
    ensures ClientOk(us, Step(us, s, client).client)
    ensures
      var s' := Step(us, s, client);
      if client then 0 <= ClientLeft(us, s'.client) < ClientLeft(us, s.client)
      else s'.client == s.client && ServerLeft(s') < ServerLeft(s)
  {
    if client {
      ClientRunsOut(us, s);
    } else {
      match s.server
      case Reading(seg, got, k) => ReadRunsOut(s, seg, got, k);
      case Acking(seg) => AckRunsOut(s, seg);
      case _ =>
    }
    hide ClientStep, ServerStep, ClientOk, ClientLeft, ServerLeft;
  }

  lemma ClientRunsOut(us: seq<Upload>, s: State)
    requires ClientOk(us, s.client) && ClientStep(us, s) != s
    ensures ClientOk(us, ClientStep(us, s).client)
    ensures 0 <= ClientLeft(us, ClientStep(us, s).client) < ClientLeft(us, s.client)
  {
    hide WritesAt;
    var c := s.client;
    assert c.g < Total(us);
    assert Remaining(us, c.g) == |WritesAt(us, c.g)| + 1 + Remaining(us, c.g + 1);
    hide Remaining;
  }

  lemma ReadRunsOut(s: State, seg: nat, got: string, k: nat)
    requires s.server == Reading(seg, got, k) && ServerStep(s) != s
    ensures ServerStep(s).client == s.client && ServerLeft(ServerStep(s)) < ServerLeft(s)
  {
    var asked := Asked(s.current, seg, got);
    if asked == 0 {
      NothingAsked(s.current, seg, got);
      assert Take(s.up, 0) == "" && Drop(s.up, 0) == s.up;
    } else if asked > 0 && s.up != "" {
      assert |Drop(s.up, asked)| < |s.up|;
    }
    hide Asked, Take, Drop;
  }

  /** A read of nothing is the last one of its segment, whatever was taken for the size. */
  lemma NothingAsked(current: seq<string>, seg: nat, got: string)
    requires Asked(current, seg, got) == 0
    ensures Chunked(seg) && |got| >= Expected(current, seg) && (seg == 0 ==> |got| >= HEADER)
  {
    var total := Expected(current, seg);
    assert total < TWO_64 && (total <= INT_MAX || total >= TWO_64 - INT_MAX - 1) by { ExpectedFits(current, seg); }
    assert total >= TWO_64 - INT_MAX - 1 ==> ToInt32(total) < 0;
    hide Expected;
  }

  lemma ExpectedFits(current: seq<string>, seg: nat)
    ensures Expected(current, seg) < TWO_64
    ensures Expected(current, seg) <= INT_MAX || Expected(current, seg) >= TWO_64 - INT_MAX - 1
  {
    hide Decode32;
  }

  lemma AckRunsOut(s: State, seg: nat)
    requires s.server == Acking(seg)
    ensures ServerStep(s).client == s.client && ServerLeft(ServerStep(s)) < ServerLeft(s)
  {
    hide CommandIn;
  }

  /** From every state the two processes can be brought to rest. */
  lemma {:induction false} ComesToRest(us: seq<Upload>, s: State) returns (es: seq<bool>)
    requires ClientOk(us, s.client) && ClientLeft(us, s.client) >= 0
    ensures Halted(us, Run(us, s, es))
    decreases ClientLeft(us, s.client), ServerLeft(s)
  {
    hide ClientStep, ServerStep, ClientOk, ClientLeft, ServerLeft, Run;
    if Step(us, s, true) != s {
      StepsRunOut(us, s, true);
      var rest := ComesToRest(us, Step(us, s, true));
      StepThen(us, s, true, rest);
      es := [true] + rest;
    } else if Step(us, s, false) != s {
      StepsRunOut(us, s, false);
      var rest := ComesToRest(us, Step(us, s, false));
      StepThen(us, s, false, rest);
      es := [false] + rest;
    } else {
      NoSteps(us, s);
      es := [];
    }
  }
}
