/** The name and the payload that the server takes for the first upload on a connection, whatever was unread and whatever
    is written behind it. */
module HandshakeNames {
  import opened Wire
  import opened Handshake
  import opened HandshakeOrder
  import opened HandshakeAcks
  import opened HandshakeBreaks
  import opened HandshakeStream

  /** The bytes from the first name on. */
  lemma FromName(us: seq<Upload>)
    requires us != []
    ensures From(us, 3) == us[0].name + (us[0].payload + From(us, 5))
    ensures |us| == 1 ==> From(us, 5) == ""
  {
    SegmentAt(us, 3);
    SegmentAt(us, 4);
  }

  /** What is known of the first command in every state that a schedule reaches. */
  lemma FirstIs(us: seq<Upload>, s: State)
    requires AllOk(us) && us != [] && FirstBegins(us, s)
    ensures
      var cs, u := FirstCommand(s), us[0];
      && |cs| <= 5 && (|s.done| > 0 ==> |cs| == 5)
      && (forall i :: 0 <= i < |cs| && i < 3 ==> cs[i] == Content(u, i))
      && (|cs| > 3 ==> NameBegun(us, cs)) && (|cs| > 4 ==> |cs[4]| == |u.payload|)
  {
    if s.done == [] && !InFirstName(s) { EarlyContents(us, s); }
    var cs := FirstCommand(s);
    if |cs| > 3 {
      assert forall i :: 0 <= i < 3 ==> cs[i] == cs[..3][i];
    }
    hide AllOk, InOrder, Content;
  }

  predicate InFirstName(s: State) {
    match s.server
    case Reading(seg, _, _) => seg > 3
    case Acking(seg) => seg >= 3
    case _ => true
  }

  lemma EarlyContents(us: seq<Upload>, s: State)
    requires AllOk(us) && us != [] && FirstBegins(us, s) && s.done == [] && !InFirstName(s)
    ensures |s.current| <= 3 && s.current == Contents(us[0], |s.current|)
  {
    assert InOrder(us, s);
    hide AllOk, ClientOk, NotBehind, Since, WritesOf, Content, NameBegun;
  }

  /** Whatever was unread, and whatever uploads follow, in every schedule the server gets command, packet type and size of
      the first upload right, and takes for its name the name itself, perhaps with the beginning of what is behind it. */
  lemma ReadsInOrder(us: seq<Upload>, unread: string, es: seq<bool>)
    requires AllOk(us) && us != []
    ensures
      var cs, u := FirstCommand(Run(us, Start(unread), es)), us[0];
      && (forall i :: 0 <= i < |cs| && i < 3 ==> cs[i] == Content(u, i))
      && (|cs| > 3 ==> |u.name| <= |cs[3]| && Begins(cs[3], u.name + (u.payload + From(us, 5))))
  {
    hide AllOk, Content, From, Run, FirstBegins, Conserved, FirstCommand;
    Reads(us, unread, es);
    var cs := FirstCommand(Run(us, Start(unread), es));
    if |cs| > 4 {
      SplitAt(cs[3], cs[4]);
      BeginsTrans(cs[3], cs[3] + cs[4], us[0].name + (us[0].payload + From(us, 5)));
    }
  }

  lemma Reads(us: seq<Upload>, unread: string, es: seq<bool>)
    requires AllOk(us) && us != []
    ensures
      var s := Run(us, Start(unread), es);
      var cs, u := FirstCommand(s), us[0];
      && FirstBegins(us, s) && |cs| <= 5 && (|s.done| > 0 ==> |cs| == 5)
      && (forall i :: 0 <= i < |cs| && i < 3 ==> cs[i] == Content(u, i))
      && (|cs| > 3 ==> |u.name| <= |cs[3]|)
      && (|cs| == 4 ==> Begins(cs[3], u.name + (u.payload + From(us, 5))))
      && (|cs| == 5 ==> |cs[4]| == |u.payload| && Begins(cs[3] + cs[4], u.name + (u.payload + From(us, 5))))
  {
    hide AllOk, Content, From, Run, FirstBegins, Conserved, FirstCommand;
    RunBegins(us, unread, es);
    RunConserves(us, unread, es);
    var s := Run(us, Start(unread), es);
    var cs := FirstCommand(s);
    FirstIs(us, s);
    FirstBytes(us, s);
    FromName(us);
    if |cs| > 3 { CutFromStream(us, cs); }
  }

  /** What the server stores for the first upload: with t bytes too many taken for the name, the payload is as long as the
      one sent, but begins t bytes into it and ends with the first t bytes of whatever is written behind it. */
  lemma StoresShifted(us: seq<Upload>, unread: string, es: seq<bool>)
    requires AllOk(us) && us != []
    ensures
      var cs, u := FirstCommand(Run(us, Start(unread), es)), us[0];
      |cs| > 4 ==>
        && |cs[3]| >= |u.name|
        && var t, behind := |cs[3]| - |u.name|, u.payload + From(us, 5);
        && t + |u.payload| <= |behind|
        && cs[3] == u.name + behind[..t] && cs[4] == behind[t..t + |u.payload|]
  {
    hide AllOk, Content, From, Run, FirstBegins, FirstCommand;
    Reads(us, unread, es);
    var cs, u := FirstCommand(Run(us, Start(unread), es)), us[0];
    if |cs| > 4 { CutShifted(cs[3], cs[4], u.name, u.payload + From(us, 5), |u.payload|); }
  }

  lemma CutShifted(got: string, more: string, name: string, behind: string, n: nat)
    requires |got| >= |name| && |more| == n && Begins(got + more, name + behind)
    ensures
      var t := |got| - |name|;
      t + n <= |behind| && got == name + behind[..t] && more == behind[t..t + n]
  {
    var t, all := |got| - |name|, name + behind;
    SplitAt(got, more);
    assert got == all[..|got|] == name + behind[..t];
    assert more == all[|got|..|got| + n] == behind[t..t + n];
  }

  /** If the read of the last upload's name takes bytes of its payload, the server never gets that payload: it ends its
      thread at a short read, or waits for bytes that do not come. */
  lemma LastSwallowNeverEnds(u: Upload, unread: string, es: seq<bool>)
    requires UploadOk(u)
    ensures
      var s := Run([u], Start(unread), es);
      var cs := FirstCommand(s);
      |cs| > 3 && cs[3] != u.name ==>
        && s.done == [] && |s.current| == 4
        && (Halted([u], s) ==> s.server.Ended? || (s.server.Reading? && s.server.seg == LAST))
  {
    var us := [u];
    var s := Run(us, Start(unread), es);
    Reads(us, unread, es);
    FromName(us);
    var cs := FirstCommand(s);
    if |cs| > 3 && cs[3] != u.name {
      if |cs| == 5 { WholeFits(cs[3], cs[4], u.name, u.payload); }
      if Halted(us, s) { RestOfFirst(us, s); }
    }
    hide UploadOk, Content, From, Run, FirstBegins, Halted;
  }

  lemma WholeFits(got: string, more: string, name: string, payload: string)
    requires |got| >= |name| && |more| == |payload| && Begins(got + more, name + (payload + ""))
    ensures got == name
  {
    assert payload + "" == payload;
    SplitAt(name, payload);
    SplitAt(got, more);
  }

  lemma RestOfFirst(us: seq<Upload>, s: State)
    requires AllOk(us) && us != [] && FirstBegins(us, s) && s.done == [] && |s.current| > 3 && Halted(us, s)
    ensures |s.current| == 4 ==> s.server.Ended? || (s.server.Reading? && s.server.seg == LAST)
  {
    if !InFirstName(s) { EarlyContents(us, s); }
    if s.server.Acking? { AckMoves(s); }
    hide AllOk, InOrder, NameBegun, ClientStep, ServerStep;
  }

  // ---------- the name as a C string ----------

  /** fileNameBuffer after the read: zeroed except for its last byte, which is whatever was in memory. */
  function FileNameBuffer(got: string, last: char): string {
    if |got| >= INFO then got else got + seq(INFO - 1 - |got|, i => '\0') + [last]
  }

  /** What the server uses as the name of its first upload is that upload's name. */
  ghost predicate NameRight(us: seq<Upload>, s: State) {
    |FirstCommand(s)| > 3 && us != [] ==> forall last :: CString(FileNameBuffer(FirstCommand(s)[3], last)) == us[0].name
  }

  /** Behind the name there is NUL, or what was written behind it. */
  lemma NameInBuffer(u: Upload, got: string, behind: string, last: char)
    requires UploadOk(u) && |u.name| <= |got| && Begins(got, u.name + behind)
    ensures CString(FileNameBuffer(got, last)) == u.name <==> |got| == |u.name| || got[|u.name|] == '\0'
  {
    var n := |u.name|;
    assert u.name == got[..n] && got == u.name + got[n..];
    if |got| >= INFO {
      CStringPrefix(u.name, got[n..]);
    } else {
      var zeros := seq(INFO - 1 - |got|, i => '\0');
      var tail := got[n..] + zeros + [last];
      Associative(u.name, got[n..], zeros);
      Associative(u.name, got[n..] + zeros, [last]);
      CStringPrefix(u.name, tail);
    }
    hide Decode64, CString;
  }

  /** The connections on which the first name comes out right in every schedule: nothing was unread; or NUL is written
      behind the name; or nothing is. */
  predicate NameSafe(us: seq<Upload>, unread: string)
    requires us != []
  {
    || unread == ""
    || (us[0].payload != "" && us[0].payload[0] == '\0')
    || (us[0].payload == "" && |us| == 1)
  }

  /** The server uses the right name for the first upload of a connection in every schedule, if and only if nothing was
      unread, or its payload begins with NUL, or it is empty and no other upload follows. */
  lemma NameRightExactly(us: seq<Upload>, unread: string)
    requires AllOk(us) && us != []
    ensures (forall es :: NameRight(us, Run(us, Start(unread), es))) <==> NameSafe(us, unread)
  {
    if NameSafe(us, unread) {
      forall es ensures NameRight(us, Run(us, Start(unread), es)) { SafeName(us, unread, es); }
    } else {
      var es := WrongName(us, unread);
      assert !NameRight(us, Run(us, Start(unread), es));
    }
    hide *;
  }

  lemma SafeName(us: seq<Upload>, unread: string, es: seq<bool>)
    requires AllOk(us) && us != [] && NameSafe(us, unread)
    ensures NameRight(us, Run(us, Start(unread), es))
  {
    var s := Run(us, Start(unread), es);
    var cs, u := FirstCommand(s), us[0];
    OkAt(us, 0);
    ReadsInOrder(us, unread, es);
    FromName(us);
    if unread == "" { FirstNameExact(us, es); }
    hide AllOk, UploadOk, Run, From, FirstCommand, FileNameBuffer, Content;
    if |cs| > 3 {
      RightByte(u, cs[3], From(us, 5), unread == "");
      forall last ensures CString(FileNameBuffer(cs[3], last)) == u.name {
        NameInBuffer(u, cs[3], u.payload + From(us, 5), last);
      }
    }
  }

  lemma RightByte(u: Upload, got: string, next: string, exact: bool)
    requires |u.name| <= |got| && Begins(got, u.name + (u.payload + next)) && (exact ==> got == u.name)
    requires exact || (u.payload != "" && u.payload[0] == '\0') || (u.payload == "" && next == "")
    ensures |got| == |u.name| || got[|u.name|] == '\0'
  {
    if |got| > |u.name| {
      assert got[|u.name|] == (u.name + (u.payload + next))[|u.name|] == (u.payload + next)[0];
    }
  }

  lemma WrongName(us: seq<Upload>, unread: string) returns (es: seq<bool>)
    requires AllOk(us) && us != [] && !NameSafe(us, unread)
    ensures !NameRight(us, Run(us, Start(unread), es))
  {
    FirstIsBefore(us, unread);
    es := UnreadAckCorrupts(us, 0, [], unread);
    SomethingBehind(us, 0);
    TakenIsWrong(us, Run(us, Start(unread), es));
    hide AllOk, Run, Contents, BehindName, Take, NameRight;
  }

  lemma FirstIsBefore(us: seq<Upload>, unread: string)
    requires us != []
    ensures Start(unread) == Before(us, 0, 0, [], unread)
  {
    assert Contents(us[0], 0) == [];
  }

  lemma TakenIsWrong(us: seq<Upload>, s: State)
    requires AllOk(us) && us != [] && (us[0].payload != "" || |us| > 1) && s.done == []
    requires s.current == Contents(us[0], 3) + [Take(us[0].name + BehindName(us, 0), 100)] && |s.current| == 4
    requires |s.current[3]| > |us[0].name|
    requires BehindName(us, 0) != "" && BehindName(us, 0)[0] != '\0'
    ensures !NameRight(us, s)
  {
    hide *;
    var u, got, behind := us[0], s.current[3], BehindName(us, 0);
    OkAt(us, 0);
    ThirdIs(u, s.current, Take(u.name + behind, 100));
    TakeBegins(u.name + behind, 100);
    ByteBehind(u.name, behind, got);
    NameInBuffer(u, got, behind, '\0');
    NotRight(us, s);
  }

  lemma ThirdIs(u: Upload, current: seq<string>, got: string)
    requires current == Contents(u, 3) + [got]
    ensures |current| == 4 && current[3] == got
  {
    hide Content;
  }

  lemma TakeBegins(b: string, n: nat)
    ensures Begins(Take(b, n), b)
  {}

  lemma ByteBehind(name: string, behind: string, got: string)
    requires |got| > |name| && Begins(got, name + behind)
    ensures behind != "" && got[|name|] == behind[0]
  {}

  lemma NotRight(us: seq<Upload>, s: State)
    requires us != [] && s.done == [] && |s.current| > 3
    requires CString(FileNameBuffer(s.current[3], '\0')) != us[0].name
    ensures !NameRight(us, s)
  {
    hide CString, FileNameBuffer;
  }

  // ---------- with nothing unread ----------

  /** The first upload is read exactly as it was sent. */
  ghost predicate FirstExact(us: seq<Upload>, s: State) {
    if s.done != [] then us != [] && s.done[0] == Contents(us[0], 5) else InOrder(us, s) && FirstAcks(s)
  }

  lemma StepExact(us: seq<Upload>, s: State, client: bool)
    requires AllOk(us) && FirstExact(us, s)
    ensures FirstExact(us, Step(us, s, client))
  {
    hide AllOk, InOrder, FirstAcks, ClientStep, ServerStep, NameAlone, Contents;
    if client {
      ClientKeeps(us, s);
      if s.done == [] {
        ClientInOrder(us, s);
        ClientFirstAcks(us, s);
      }
    } else if s.done != [] {
      DoneStays(s);
    } else {
      FirstNameAlone(us, s);
      ServerInOrder(us, s);
      ServerMoves(us, s);
      ServerFirstAcks(s, ServerStep(s));
      DoneIsFirst(us, ServerStep(s));
    }
  }

  lemma DoneIsFirst(us: seq<Upload>, s: State)
    requires InOrder(us, s)
    ensures s.done != [] ==> us != [] && s.done[0] == Contents(us[0], 5)
  {
    if s.done != [] { assert s.done[0] == Sent(us)[..|s.done|][0]; }
    hide ClientOk, AtEnd, ReadingAt, AckingAt, Contents;
  }

  lemma {:induction false} RunExact(us: seq<Upload>, es: seq<bool>)
    requires AllOk(us)
    ensures FirstExact(us, Run(us, Start(""), es))
  {
    hide AllOk, FirstExact, Step;
    if es == [] {
      ExactAtStart(us);
    } else {
      RunExact(us, es[..|es| - 1]);
      StepExact(us, Run(us, Start(""), es[..|es| - 1]), es[|es| - 1]);
    }
  }

  lemma ExactAtStart(us: seq<Upload>)
    ensures FirstExact(us, Start(""))
  {
    StartInOrder(us, "");
    hide InOrder;
  }

  lemma FirstNameExact(us: seq<Upload>, es: seq<bool>)
    requires AllOk(us) && us != []
    ensures
      var cs := FirstCommand(Run(us, Start(""), es));
      |cs| > 3 ==> cs[3] == us[0].name
  {
    RunExact(us, es);
    var s := Run(us, Start(""), es);
    if |FirstCommand(s)| > 3 { ExactName(us, s); }
    hide AllOk, Run, FirstExact, FirstCommand;
  }

  lemma ExactName(us: seq<Upload>, s: State)
    requires us != [] && FirstExact(us, s) && |FirstCommand(s)| > 3
    ensures FirstCommand(s)[3] == us[0].name
  {
    assert Contents(us[0], 5)[3] == us[0].name;
    hide ClientOk, DoneRight, NotBehind, Since, WritesOf, FirstAcks;
    if s.done == [] {
      match s.server
      case Reading(seg, _, _) => assert s.current == Contents(us[0], seg);
      case Acking(seg) => assert s.current == Contents(us[0], seg + 1);
      case _ =>
    }
  }
}
