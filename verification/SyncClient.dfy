/** The client's two background threads: one applies the server's commands to the synchronised
    directory, the other propagates the user's changes and must not send the server's back. */
module SyncClient {
  import opened Limits
  import opened Wire
  import opened Channel

  // ---------- events of the directory ----------

  datatype Kind = Deleted | Written | MovedFrom | MovedTo

  /** An inotify event. Whether the server caused it is known to the proof, not to the client. */
  datatype FsEvent = FsEvent(kind: Kind, name: string, byServer: bool)

  const TEMPORARY := ".goutputstream-"

  function Contains(s: string, sub: string): bool {
    if |s| < |sub| then false else s[..|sub|] == sub || Contains(s[1..], sub)
  }

  datatype Request = SendUpload(name: string) | SendDelete(name: string)

  /** What the inotify thread sends for an event, if anything. */
  function Reaction(e: FsEvent): Option<Request> {
    match e.kind
    case Deleted => Some(SendDelete(e.name))
    case Written => Some(SendUpload(e.name))
    case MovedFrom => if Contains(e.name, TEMPORARY) then None else Some(SendDelete(e.name))
    case MovedTo => Some(SendUpload(e.name))
  }

  /** The events of a batch that are propagated, when the flag is down. */
  function Propagated(es: seq<FsEvent>): seq<FsEvent> {
    if es == [] then [] else (if Reaction(es[0]).Some? then [es[0]] else []) + Propagated(es[1..])
  }

  function Requests(es: seq<FsEvent>): seq<Request> {
    if es == [] then []
    else (if Reaction(es[0]).Some? then [Reaction(es[0]).value] else []) + Requests(es[1..])
  }

  lemma {:induction false} RequestsConcat(a: seq<FsEvent>, b: seq<FsEvent>)
    ensures Requests(a + b) == Requests(a) + Requests(b)
  {
    hide Reaction;
    if a == [] {
      assert a + b == b;
    } else {
      RequestsConcat(a[1..], b);
      var head := if Reaction(a[0]).Some? then [Reaction(a[0]).value] else [];
      assert (a + b)[0] == a[0] && (a + b)[1..] == a[1..] + b;
      assert head + (Requests(a[1..]) + Requests(b)) == head + Requests(a[1..]) + Requests(b);
    }
  }

  /** The requests are those of the propagated events, in their order. */
  lemma {:induction false} RequestsOfPropagated(es: seq<FsEvent>)
    ensures |Requests(es)| == |Propagated(es)|
    ensures forall i :: 0 <= i < |Requests(es)| ==> Reaction(Propagated(es)[i]) == Some(Requests(es)[i])
  {
    if es != [] { RequestsOfPropagated(es[1..]); }
  }

  // ---------- the directory ----------

  type Directory = map<string, string>

  function ApplyTo(dir: Directory, c: Command): Directory {
    match c
    case Put(name, payload) => dir[name := payload]
    case Remove(name) => dir - {name}
    case Unknown => dir
  }

  /** What the user does to the directory, with the file's new content. */
  function Changed(dir: Directory, kind: Kind, name: string, content: string): Directory {
    if kind.Written? || kind.MovedTo? then dir[name := content] else dir - {name}
  }

  /** The events that applying a command causes: a write, or the removal of a file that is there. */
  function CausedBy(dir: Directory, c: Command): seq<FsEvent> {
    match c
    case Put(name, _) => [FsEvent(Written, name, true)]
    case Remove(name) => if name in dir then [FsEvent(Deleted, name, true)] else []
    case Unknown => []
  }

  /** Commands received one after another. */
  function ApplyAll(dir: Directory, cs: seq<Command>): Directory {
    if cs == [] then dir else ApplyTo(ApplyAll(dir, cs[..|cs| - 1]), cs[|cs| - 1])
  }

  predicate Holds(dir: Directory, name: string, content: string) { name in dir && dir[name] == content }

  predicate LastAbout(fs: seq<Frame>, name: string, k: nat) {
    k < |fs| && fs[k].name == name && forall j :: k < j < |fs| ==> fs[j].name != name
  }

  /** The last frame about the name is an upload of this content, or there is none and the directory had it. */
  ghost predicate Says(fs: seq<Frame>, dir: Directory, name: string, content: string) {
    || (exists k: nat :: LastAbout(fs, name, k) && fs[k].command == UPLOAD && fs[k].payload == content)
    || ((forall k :: 0 <= k < |fs| ==> fs[k].name != name) && Holds(dir, name, content))
  }

  /** After any sequence of frames the directory holds exactly what the last frame about each name says. */
  lemma {:induction false} DirectorySays(dir: Directory, fs: seq<Frame>, name: string, content: string)
    requires forall i :: 0 <= i < |fs| ==> FrameOk(fs[i])
    ensures Holds(ApplyAll(dir, CommandsOf(fs)), name, content) <==> Says(fs, dir, name, content)
  {
    if fs != [] {
      var init, n := fs[..|fs| - 1], |fs| - 1;
      assert forall i :: 0 <= i < n ==> init[i] == fs[i];
      DirectorySays(dir, init, name, content);
      ApplyNext(dir, fs);
      SaysNext(fs, dir, name, content);
      assert FrameOk(fs[n]);
      hide Says, ApplyAll;
    }
  }

  /** One frame more. */
  lemma SaysNext(fs: seq<Frame>, dir: Directory, name: string, content: string)
    requires fs != []
    ensures
      var n := |fs| - 1;
      Says(fs, dir, name, content) <==>
        if fs[n].name == name then fs[n].command == UPLOAD && fs[n].payload == content else Says(fs[..n], dir, name, content)
  {
    var n := |fs| - 1;
    var init := fs[..n];
    assert forall i :: 0 <= i < n ==> init[i] == fs[i];
    if fs[n].name == name {
      assert LastAbout(fs, name, n);
    } else {
      forall k: nat ensures LastAbout(fs, name, k) <==> LastAbout(init, name, k) {}
    }
  }

  lemma ApplyNext(dir: Directory, fs: seq<Frame>)
    requires fs != []
    ensures
      var n := |fs| - 1;
      ApplyAll(dir, CommandsOf(fs)) == ApplyTo(ApplyAll(dir, CommandsOf(fs[..n])), CommandOf(fs[n]))
  {
    assert CommandsOf(fs)[..|fs| - 1] == CommandsOf(fs[..|fs| - 1]);
  }

  class Box {
    const socket: Endpoint
    var directory: Directory
    var fromServer: bool
    var events: seq<FsEvent>
    var sent: seq<Request>

    constructor (socket: Endpoint)
      ensures this.socket == socket && directory == map[] && !fromServer && events == [] && sent == []
    {
      this.socket := socket;
      directory := map[];
      fromServer := false;
      events := [];
      sent := [];
    }

    /** One round of th_func_server_comm with full reads, on a stream that begins with a frame: it takes
        exactly that frame off the stream, raises the flag and applies what the frame says. */
    method ReceiveCommand(ghost f: Frame, ghost tail: string) returns (c: Command)
      requires socket.grants == [] && FrameOk(f) && socket.incoming == Encode(f) + tail
      modifies this`directory, this`fromServer, this`events, socket`incoming, socket`grants, socket`calls
      ensures socket.grants == [] && socket.incoming == tail
      ensures c == CommandOf(f) && DecodeOne(old(socket.incoming)) == Some((c, tail))
      ensures fromServer && directory == ApplyTo(old(directory), c)
      ensures events == old(events) + CausedBy(old(directory), c)
    {
      DecodeWhole(f, tail);
      ghost var body := if f.command == UPLOAD then Encode64(|f.payload|) + f.payload else "";
      Associative(Header(f), body, tail);
      hide DecodeOne, ApplyTo, CausedBy, Header, Encode64;
      var command, name := ReceiveHeader(f, body + tail);
      fromServer := true;
      if command == DELETE {
        c := Remove(name);
        assert body + tail == tail;
      } else if command == UPLOAD {
        Associative(Encode64(|f.payload|), f.payload, tail);
        var payload := ReceivePayload(f.payload, tail);
        c := Put(name, payload);
      } else {
        c := Unknown;
      }
      events := events + CausedBy(directory, c);
      directory := ApplyTo(directory, c);
    }

    /** Rounds of th_func_server_comm, on a stream that begins with as many frames. */
    method ReceiveCommands(rounds: nat, ghost fs: seq<Frame>, ghost tail: string)
      requires socket.grants == [] && rounds == |fs| && socket.incoming == EncodeAll(fs) + tail
      requires forall i :: 0 <= i < |fs| ==> FrameOk(fs[i])
      modifies this`directory, this`fromServer, this`events, socket`incoming, socket`grants, socket`calls
      ensures socket.grants == [] && socket.incoming == tail && (fromServer <==> old(fromServer) || rounds > 0)
      ensures forall name, content :: Holds(directory, name, content) <==> Says(fs, old(directory), name, content)
    {
      assert fs[0..] == fs && CommandsOf(fs[..0]) == [];
      for i := 0 to rounds
        invariant socket.grants == [] && socket.incoming == EncodeAll(fs[i..]) + tail
        invariant fromServer <==> old(fromServer) || i > 0
        invariant directory == ApplyAll(old(directory), CommandsOf(fs[..i]))
      {
        FirstFrame(fs, i, tail);
        ApplyNext(old(directory), fs[..i + 1]);
        assert fs[..i + 1][..i] == fs[..i];
        hide EncodeAll, Encode, ApplyAll, ApplyTo, CommandsOf, CommandOf, CausedBy, FrameOk, DecodeOne;
        var c := ReceiveCommand(fs[i], EncodeAll(fs[i + 1..]) + tail);
      }
      assert fs[..rounds] == fs && fs[rounds..] == [] && EncodeAll([]) + tail == tail;
      forall name, content ensures Holds(directory, name, content) <==> Says(fs, old(directory), name, content) {
        DirectorySays(old(directory), fs, name, content);
      }
    }

    /** A command packet, with full reads. */
    method ReceiveHeader(ghost f: Frame, ghost behind: string) returns (command: nat, name: string)
      requires socket.grants == [] && FrameOk(f) && socket.incoming == Header(f) + behind
      modifies socket`incoming, socket`grants, socket`calls
      ensures socket.grants == [] && socket.incoming == behind && command == f.command && name == f.name
    {
      HeaderFields(f, behind);
      HeaderFields(f, "");
      SplitAt(Header(f), behind);
      assert Header(f) + "" == Header(f);
      hide Header, CString, Decode64;
      var header := new char[HEADER];
      var count;
      ghost var lost;
      count, lost := socket.ReadLargePayload(header, HEADER);
      assert header[..] == header[..HEADER] == Header(f);
      assert header[8..16] == header[..][8..16] && header[16..16 + INFO] == header[..][16..16 + INFO];
      command := Decode64(header[8..16]);
      name := CString(header[16..16 + INFO]);
    }

    /** The size field of an upload and its payload, with full reads. */
    method ReceivePayload(ghost payload: string, ghost tail: string) returns (received: string)
      requires socket.grants == [] && |payload| <= INT_MAX
      requires socket.incoming == Encode64(|payload|) + (payload + tail)
      modifies socket`incoming, socket`grants, socket`calls
      ensures socket.grants == [] && socket.incoming == tail && received == payload
    {
      SizeSurvives(|payload|);
      SplitAt(Encode64(|payload|), payload + tail);
      SplitAt(payload, tail);
      hide DecodeSize;
      var sizeBuffer := socket.Read(8);
      SplitAt(sizeBuffer, socket.incoming);
      assert sizeBuffer == Encode64(|payload|);
      var size := DecodeSize(sizeBuffer);
      var buffer := new char[size];
      var count;
      ghost var lost;
      count, lost := socket.ReadLargePayload(buffer, size);
      assert buffer[..] == buffer[..size];
      received := buffer[..];
    }

    /** One pass of th_func_inotify over everything queued: nothing happens on an empty queue; otherwise each
        event is propagated unless the flag is up, and then the flag is lowered. */
    method ProcessBatch()
      modifies this`events, this`sent, this`fromServer
      ensures events == []
      ensures old(events) == [] ==> fromServer == old(fromServer) && sent == old(sent)
      ensures old(events) != [] ==> !fromServer && sent == old(sent) + if old(fromServer) then [] else Requests(old(events))
    {
      if events != [] {
        var i := 0;
        while i < |events|
          invariant 0 <= i <= |events|
          invariant events == old(events) && fromServer == old(fromServer)
          invariant sent == old(sent) + if fromServer then [] else Requests(events[..i])
        {
          var reaction := Reaction(events[i]);
          if reaction.Some? && !fromServer { sent := sent + [reaction.value]; }
          RequestsConcat(events[..i], [events[i]]);
          assert events[..i + 1] == events[..i] + [events[i]];
          assert Requests([events[i]]) == if reaction.Some? then [reaction.value] else [];
          i := i + 1;
        }
        assert events[..i] == events;
        events := [];
        fromServer := false;
      }
    }
  }

  lemma FirstFrame(fs: seq<Frame>, i: nat, tail: string)
    requires i < |fs|
    ensures EncodeAll(fs[i..]) + tail == Encode(fs[i]) + (EncodeAll(fs[i + 1..]) + tail)
  {
    EncodeAllCons(fs[i..]);
    assert fs[i..][1..] == fs[i + 1..];
    Associative(Encode(fs[i]), EncodeAll(fs[i + 1..]), tail);
  }

  // ---------- the two threads as steps ----------

  /** The server-command thread is between raising the flag and applying the command, or not. */
  datatype State =
    State(flag: bool, queue: seq<FsEvent>, pending: Option<Command>, directory: Directory, propagated: seq<FsEvent>)

  datatype Step = RaiseFlag(command: Command) | ApplyCommand | UserChange(kind: Kind, name: string, content: string) | Batch

  function Next(s: State, e: Step): State {
    match e
    case RaiseFlag(c) => if s.pending.None? then s.(flag := true, pending := Some(c)) else s
    case ApplyCommand =>
      if s.pending.None? then s
      else
        var c := s.pending.value;
        s.(pending := None, directory := ApplyTo(s.directory, c), queue := s.queue + CausedBy(s.directory, c))
    case UserChange(kind, name, content) =>
      s.(queue := s.queue + [FsEvent(kind, name, false)], directory := Changed(s.directory, kind, name, content))
    case Batch =>
      if s.queue == [] then s
      else s.(flag := false, queue := [], propagated := s.propagated + if s.flag then [] else Propagated(s.queue))
  }

  function Run(s: State, es: seq<Step>): State {
    if es == [] then s else Next(Run(s, es[..|es| - 1]), es[|es| - 1])
  }

  function Start(directory: Directory): State { State(false, [], None, directory, []) }

  ghost predicate ByUser(es: seq<FsEvent>) { forall i :: 0 <= i < |es| ==> !es[i].byServer }

  /** Each command is received as one step: no batch that finds events comes between its flag and its changes. */
  ghost predicate Atomic(s: State, es: seq<Step>) {
    forall k :: 0 <= k < |es| && es[k].Batch? ==> var s' := Run(s, es[..k]); s'.pending.None? || s'.queue == []
  }

  /** The flag is up while a command is being received and while a server-caused event is queued. */
  ghost predicate NoEchoInv(s: State) {
    && (s.pending.Some? ==> s.flag)
    && (!ByUser(s.queue) ==> s.flag)
    && ByUser(s.propagated)
  }

  lemma {:induction false} PropagatedByUser(es: seq<FsEvent>)
    requires ByUser(es)
    ensures ByUser(Propagated(es))
  {
    if es != [] { PropagatedByUser(es[1..]); }
  }

  lemma NextKeepsNoEcho(s: State, e: Step)
    requires NoEchoInv(s) && (e.Batch? ==> s.pending.None? || s.queue == [])
    ensures NoEchoInv(Next(s, e))
  {
    if e.Batch? && !s.flag { PropagatedByUser(s.queue); }
  }

  /** If commands are received atomically, no run ever sends the server one of its own changes. */
  lemma {:induction false} NoEcho(directory: Directory, es: seq<Step>)
    requires Atomic(Start(directory), es)
    ensures NoEchoInv(Run(Start(directory), es))
  {
    if es != [] {
      var start, init := Start(directory), es[..|es| - 1];
      forall k | 0 <= k < |init| && init[k].Batch?
        ensures Run(start, init[..k]).pending.None? || Run(start, init[..k]).queue == []
      {
        assert init[..k] == es[..k];
        assert es[k].Batch?;
      }
      NoEcho(directory, init);
      assert es[|init|].Batch? ==> Run(start, es[..|init|]).pending.None? || Run(start, es[..|init|]).queue == [];
      NextKeepsNoEcho(Run(start, init), es[|es| - 1]);
    }
  }

  /** The condition is needed in every state: a batch that finds an event between the flag and the change of any
      upload sends the upload back, and loses the event it found. */
  lemma BatchInBetweenEchoes(s: State, name: string, payload: string)
    requires s.pending.None? && s.queue != []
    ensures
      var s' := Run(s, [RaiseFlag(Put(name, payload)), Batch, ApplyCommand, Batch]);
      s'.propagated == s.propagated + [FsEvent(Written, name, true)]
  {
    var e := [RaiseFlag(Put(name, payload))];
    var s1 := Next(s, e[0]);
    var s2 := Next(s1, Batch);
    var s3 := Next(s2, ApplyCommand);
    assert s3.queue == [FsEvent(Written, name, true)] && !s3.flag && s3.propagated == s.propagated;
    WrittenIsPropagated(name);
    assert Next(s3, Batch).propagated == s.propagated + [FsEvent(Written, name, true)];
    hide Next;
    RunAppend(s, [], e[0]);
    RunAppend(s, e, Batch);
    RunAppend(s, e + [Batch], ApplyCommand);
    RunAppend(s, e + [Batch, ApplyCommand], Batch);
    assert e + [Batch] + [ApplyCommand] == e + [Batch, ApplyCommand];
    assert e + [Batch, ApplyCommand] + [Batch] == [RaiseFlag(Put(name, payload)), Batch, ApplyCommand, Batch];
  }

  lemma WrittenIsPropagated(name: string)
    ensures Propagated([FsEvent(Written, name, true)]) == [FsEvent(Written, name, true)]
  {
    assert [FsEvent(Written, name, true)][1..] == [];
  }

  lemma RunAppend(s: State, es: seq<Step>, e: Step)
    ensures Run(s, es + [e]) == Next(Run(s, es), e) && Run(s, []) == s && [] + [e] == [e]
  {
    assert (es + [e])[..|es|] == es;
  }

  ghost predicate UserChanges(es: seq<Step>) { forall i :: 0 <= i < |es| ==> es[i].UserChange? }

  lemma {:induction false} ChangesPileUp(s: State, es: seq<Step>)
    requires UserChanges(es)
    ensures
      var s' := Run(s, es);
      && s' == s.(queue := s'.queue, directory := s'.directory) && |s'.queue| == |s.queue| + |es|
      && s'.queue[..|s.queue|] == s.queue && ByUser(s'.queue[|s.queue|..])
  {
    if es != [] { ChangesPileUp(s, es[..|es| - 1]); }
  }

  /** The price of the flag: whatever the user changes before the next batch is sent, all of it, if the flag is down,
      and all of it is lost if a server command has raised the flag since the last batch. */
  lemma ChangesLost(s: State, es: seq<Step>)
    requires UserChanges(es)
    ensures
      var s1, s2 := Run(s, es), Run(s, es + [Batch]);
      && s2.queue == [] && |s.queue| <= |s1.queue|
      && s2.propagated == s.propagated + if s.flag then [] else Propagated(s.queue) + Propagated(s1.queue[|s.queue|..])
  {
    hide Propagated, ByUser, UserChanges;
    ChangesPileUp(s, es);
    var s1 := Run(s, es);
    assert (es + [Batch])[..|es|] == es;
    PropagatedConcat(s.queue, s1.queue[|s.queue|..]);
    assert s1.queue == s.queue + s1.queue[|s.queue|..];
    NoneToPropagate();
  }

  lemma NoneToPropagate()
    ensures Propagated([]) == []
  {}

  lemma {:induction false} PropagatedConcat(a: seq<FsEvent>, b: seq<FsEvent>)
    ensures Propagated(a + b) == Propagated(a) + Propagated(b)
  {
    hide Reaction;
    if a == [] {
      assert a + b == b;
    } else {
      PropagatedConcat(a[1..], b);
      var head := if Reaction(a[0]).Some? then [a[0]] else [];
      assert (a + b)[0] == a[0] && (a + b)[1..] == a[1..] + b;
      assert head + (Propagated(a[1..]) + Propagated(b)) == head + Propagated(a[1..]) + Propagated(b);
    }
  }
}
