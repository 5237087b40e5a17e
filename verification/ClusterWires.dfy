/** The bytes on each notification descriptor, under every interleaving of single writes. */
module ClusterWires {
  import opened Limits
  import opened SessionTable
  import opened SessionMap
  import opened Fanout
  import opened Wire
  import opened Disk
  import opened Cluster
  import opened ClusterLocks

  /** What the writes still to be done put on descriptor n. */
  function Rest(todo: seq<(int, string)>, n: int): string {
    if todo == [] then "" else (if todo[0].0 == n then todo[0].1 else "") + Rest(todo[1..], n)
  }

  /** What the holder of the user lock has still to write on descriptor n. */
  function Left(s: State, n: int): string {
    if s.userLock.Some? && s.userLock.value in s.threads then LeftOf(s.threads[s.userLock.value], n) else ""
  }

  function LeftOf(t: Thread, n: int): string { if t.Notify? then Rest(t.todo, n) else "" }

  function BytesOn(s: State, n: int): string { Get(s.wires, n, "") }
  function FramesOn(s: State, n: int): seq<Frame> { Get(s.frames, n, []) }

  /** The bytes on a descriptor, with what the lock holder has left, are the frames committed for it. */
  ghost predicate WireInv(s: State, n: int) {
    && BytesOn(s, n) + Left(s, n) == EncodeAll(FramesOn(s, n))
    && (forall i :: 0 <= i < |FramesOn(s, n)| ==> FrameOk(FramesOn(s, n)[i]))
  }

  lemma {:induction false} RestConcat(a: seq<(int, string)>, b: seq<(int, string)>, n: int)
    ensures Rest(a + b, n) == Rest(a, n) + Rest(b, n)
  {
    if a == [] {
      assert a + b == b;
    } else {
      RestConcat(a[1..], b, n);
      assert (a + b)[1..] == a[1..] + b;
    }
  }

  lemma {:induction false} RestWritesTo(socket: int, ws: seq<string>, n: int)
    ensures Rest(WritesTo(socket, ws), n) == if n == socket then Flat(ws) else ""
  {
    if ws != [] {
      RestWritesTo(socket, ws[1..], n);
      assert WritesTo(socket, ws)[1..] == WritesTo(socket, ws[1..]);
    }
  }

  lemma EncodeAllSnoc(fs: seq<Frame>, f: Frame)
    ensures EncodeAll(fs + [f]) == EncodeAll(fs) + Encode(f)
  {
    EncodeAllConcat(fs, [f]);
    EncodeAllCons([f]);
  }

  /** Committing a notification adds to a descriptor's frames exactly what its writes will put there. */
  lemma {:induction false} AddFramesRest(frames: map<int, seq<Frame>>, ts: seq<Device>, f: Frame, n: int)
    ensures EncodeAll(Get(AddFrames(frames, ts, f), n, [])) == EncodeAll(Get(frames, n, [])) + Rest(Todo(ts, f), n)
    decreases |ts|
  {
    if ts != [] {
      AddFramesRest(WithFrame(frames, ts[0].socket3, f), ts[1..], f, n);
      OneFrameRest(frames, ts, f, n);
    }
    hide EncodeAll, Todo, Rest;
  }

  function WithFrame(frames: map<int, seq<Frame>>, socket: int, f: Frame): map<int, seq<Frame>> {
    if socket == -1 then frames else frames[socket := Get(frames, socket, []) + [f]]
  }

  lemma OneFrameRest(frames: map<int, seq<Frame>>, ts: seq<Device>, f: Frame, n: int)
    requires ts != []
    ensures EncodeAll(Get(WithFrame(frames, ts[0].socket3, f), n, [])) + Rest(Todo(ts[1..], f), n) ==
            EncodeAll(Get(frames, n, [])) + Rest(Todo(ts, f), n)
  {
    var socket, before, tail := ts[0].socket3, Get(frames, n, []), Rest(Todo(ts[1..], f), n);
    TodoHead(ts, f);
    hide EncodeAll, Encode, Writes, Flat, Todo;
    if socket != -1 {
      RestConcat(WritesTo(socket, Writes(f)), Todo(ts[1..], f), n);
      RestWritesTo(socket, Writes(f), n);
      WritesFlat(f);
      EncodeAllSnoc(before, f);
      Associative(EncodeAll(before), Encode(f), tail);
      assert "" + tail == tail;
    }
    hide Rest, WritesTo;
  }

  lemma TodoHead(ts: seq<Device>, f: Frame)
    requires ts != []
    ensures Todo(ts, f) == if ts[0].socket3 == -1 then Todo(ts[1..], f) else WritesTo(ts[0].socket3, Writes(f)) + Todo(ts[1..], f)
  {
    hide Writes, WritesTo;
  }

  lemma {:induction false} AddFramesOk(frames: map<int, seq<Frame>>, ts: seq<Device>, f: Frame, n: int)
    requires FrameOk(f) && forall i :: 0 <= i < |Get(frames, n, [])| ==> FrameOk(Get(frames, n, [])[i])
    ensures forall i :: 0 <= i < |Get(AddFrames(frames, ts, f), n, [])| ==> FrameOk(Get(AddFrames(frames, ts, f), n, [])[i])
    decreases |ts|
  {
    hide FrameOk;
    if ts != [] {
      var socket := ts[0].socket3;
      var frames1 := if socket == -1 then frames else frames[socket := Get(frames, socket, []) + [f]];
      assert Get(frames1, n, []) == Get(frames, n, []) + if n == socket && socket != -1 then [f] else [];
      AddFramesOk(frames1, ts[1..], f, n);
    }
  }

  ghost predicate OneEach(ts: seq<Device>) {
    forall i, j :: 0 <= i < j < |ts| && ts[i].socket3 != -1 ==> ts[i].socket3 != ts[j].socket3
  }

  ghost predicate IsSentTo(ts: seq<Device>, n: int) { n != -1 && exists i :: 0 <= i < |ts| && ts[i].socket3 == n }

  /** With distinct descriptors each target gets the frame once, and every other descriptor nothing. */
  lemma {:induction false} AddFramesOnce(frames: map<int, seq<Frame>>, ts: seq<Device>, f: Frame, n: int)
    requires OneEach(ts)
    ensures Get(AddFrames(frames, ts, f), n, []) == Get(frames, n, []) + if IsSentTo(ts, n) then [f] else []
    decreases |ts|
  {
    if ts != [] {
      var socket := ts[0].socket3;
      AddFramesOnce(if socket == -1 then frames else frames[socket := Get(frames, socket, []) + [f]], ts[1..], f, n);
      forall i | 0 <= i < |ts[1..]| ensures ts[1..][i] == ts[i + 1] {}
      assert (exists i :: 0 <= i < |ts| && ts[i].socket3 == n) <==>
        socket == n || exists i :: 0 <= i < |ts[1..]| && ts[1..][i].socket3 == n;
    }
  }

  // ---------- steps ----------

  lemma SameWire(s: State, s': State, n: int)
    requires WireInv(s, n) && BytesOn(s', n) == BytesOn(s, n) && FramesOn(s', n) == FramesOn(s, n) && Left(s', n) == Left(s, n)
    ensures WireInv(s', n)
  {}

  lemma LoginWire(s: State, tid: nat, c: Connection, socket: int, table: Table, outcome: Outcome, n: int)
    requires WireInv(s, n) && tid in s.threads && s.threads[tid] == LoginWait(c, socket) && s.userLock.None?
    ensures WireInv(AfterLogin(s, tid, c, socket, table, outcome), n)
  {
    if outcome.Accepted? && n == socket {
      hide FrameOk;
      assert Encodings([]) == [];
    } else {
      hide *;
      LoginLeavesWires(s, tid, c, socket, table, outcome, n);
      SameWire(s, AfterLogin(s, tid, c, socket, table, outcome), n);
    }
  }

  lemma LoginLeavesWires(s: State, tid: nat, c: Connection, socket: int, table: Table, outcome: Outcome, n: int)
    requires tid in s.threads && s.threads[tid] == LoginWait(c, socket) && s.userLock.None? && !(outcome.Accepted? && n == socket)
    ensures
      var s' := AfterLogin(s, tid, c, socket, table, outcome);
      BytesOn(s', n) == BytesOn(s, n) && FramesOn(s', n) == FramesOn(s, n) && Left(s', n) == Left(s, n)
  {
    hide Rest;
  }

  lemma NotifyWaitWire(s: State, tid: nat, sess: Session, f: Frame, n: int)
    requires WireInv(s, n) && tid in s.threads && s.threads[tid] == NotifyWait(sess, f) && s.userLock.None? && FrameOk(f)
    ensures WireInv(StepNotifyWait(s, tid, sess, f), n)
  {
    hide FrameOk, EncodeAll, AddFrames, Todo, Targets, Rest;
    var u := UserAt(s.table, sess.user);
    if u < |s.table| {
      var ts := Targets(s.table[u].devices, sess.device, sess.socket);
      AddFramesRest(s.frames, ts, f, n);
      AddFramesOk(s.frames, ts, f, n);
    }
  }

  lemma NotifyWire(s: State, tid: nat, sess: Session, f: Frame, todo: seq<(int, string)>, n: int)
    requires ControlInv(s) && WireInv(s, n) && tid in s.threads && s.threads[tid] == Notify(sess, f, todo)
    ensures WireInv(StepNotify(s, tid, sess, f, todo), n)
  {
    hide FrameOk, EncodeAll, ThreadsOk, Rest;
    var s' := StepNotify(s, tid, sess, f, todo);
    assert HasUserLock(s.threads[tid]);
    assert Left(s, n) == Rest(todo, n);
    RestHead(todo, n);
    if todo != [] {
      Associative(BytesOn(s, n), if todo[0].0 == n then todo[0].1 else "", Rest(todo[1..], n));
    }
  }

  lemma RestHead(todo: seq<(int, string)>, n: int)
    ensures todo == [] ==> Rest(todo, n) == ""
    ensures todo != [] ==> Rest(todo, n) == (if todo[0].0 == n then todo[0].1 else "") + Rest(todo[1..], n)
  {}

  lemma OtherWire(s: State, tid: nat, n: int)
    requires ControlInv(s) && WireInv(s, n) && tid in s.threads
    requires var t := s.threads[tid]; t.LoginDir? || t.FileWrite? || t.BackupWait? || t.Broadcast?
    ensures WireInv(StepThread(s, tid), n)
  {
    hide *;
    WiresStay(s, tid, n);
    SameWire(s, StepThread(s, tid), n);
  }

  lemma WiresStay(s: State, tid: nat, n: int)
    requires ControlInv(s) && tid in s.threads
    requires var t := s.threads[tid]; t.LoginDir? || t.FileWrite? || t.BackupWait? || t.Broadcast?
    ensures var s' := StepThread(s, tid); BytesOn(s', n) == BytesOn(s, n) && FramesOn(s', n) == FramesOn(s, n)
    ensures Left(StepThread(s, tid), n) == Left(s, n)
  {
    hide *;
    if s.threads[tid].Broadcast? { BroadcastLeavesWires(s, tid, n); } else { OwnLeavesWires(s, tid, n); }
  }

  lemma BroadcastLeavesWires(s: State, tid: nat, n: int)
    requires ControlInv(s) && tid in s.threads && s.threads[tid].Broadcast?
    ensures var s' := StepThread(s, tid); BytesOn(s', n) == BytesOn(s, n) && FramesOn(s', n) == FramesOn(s, n)
    ensures Left(StepThread(s, tid), n) == Left(s, n)
  {
    hide ControlInv, ThreadOk, StepThread, Rest;
    var t := s.threads[tid];
    ThreadControl(s, tid);
    NextIsNotNotify(t);
    BroadcastIs(s, tid);
  }

  lemma BroadcastIs(s: State, tid: nat)
    requires tid in s.threads && s.threads[tid].Broadcast?
    ensures var t := s.threads[tid]; StepThread(s, tid) == StepBroadcast(s, tid, t.message, t.slot, t.next)
  {}

  lemma OwnLeavesWires(s: State, tid: nat, n: int)
    requires ControlInv(s) && tid in s.threads
    requires var t := s.threads[tid]; t.LoginDir? || t.FileWrite? || t.BackupWait?
    ensures var s' := StepThread(s, tid); BytesOn(s', n) == BytesOn(s, n) && FramesOn(s', n) == FramesOn(s, n)
    ensures Left(StepThread(s, tid), n) == Left(s, n)
  {
    hide ControlInv, ThreadOk, MakeDir, ApplyFile, MessageOf, Rest, StepLoginWait, StepExitWait, StepNotifyWait, StepNotify,
      StepBroadcast;
    ThreadControl(s, tid);
  }

  lemma NextIsNotNotify(t: Thread)
    requires t.Broadcast? && ThreadOk(t)
    ensures !t.next.Notify?
  {}

  lemma ExitWire(s: State, tid: nat, sess: Session, result: Option<Table>, n: int)
    requires WireInv(s, n) && tid in s.threads && s.threads[tid] == ExitWait(sess) && s.userLock.None?
    ensures WireInv(AfterExit(s, tid, sess, result), n)
  {
    hide WireInv;
    SameWire(s, AfterExit(s, tid, sess, result), n);
  }

  lemma ClientWire(s: State, e: Event, n: int)
    requires ControlInv(s) && WireInv(s, n) && !e.Go?
    ensures WireInv(Step(s, e), n)
  {
    hide WireInv, FrameOk, ThreadsOk, Apply, Rest;
    var s' := Step(s, e);
    assert (e.Command? || e.Quit?) && IsIdle(s, e.tid) ==> !HasUserLock(s.threads[e.tid]);
    assert Left(s', n) == Left(s, n);
    SameWire(s, s', n);
  }

  lemma StepWire(s: State, e: Event, n: int)
    requires ControlInv(s) && WireInv(s, n)
    ensures WireInv(Step(s, e), n)
  {
    if !e.Go? {
      ClientWire(s, e, n);
    } else if s.alive && e.tid in s.threads {
      hide LocksInv, WireInv, Login, Exit, AfterLogin, AfterExit,
        StepLoginDir, StepNotifyWait, StepNotify, StepFileWrite, StepBackupWait, StepBroadcast, FrameOk;
      var tid := e.tid;
      assert ThreadOk(s.threads[tid]);
      match s.threads[tid]
      case LoginWait(c, socket) =>
        var r := Login(s.table, c, socket);
        if s.userLock.None? { LoginWire(s, tid, c, socket, r.0, r.1, n); }
      case ExitWait(sess) => if s.userLock.None? { ExitWire(s, tid, sess, Exit(s.table, sess.user, sess.device), n); }
      case NotifyWait(sess, f) => if s.userLock.None? { NotifyWaitWire(s, tid, sess, f, n); }
      case Notify(sess, f, todo) => NotifyWire(s, tid, sess, f, todo, n);
      case Stuck =>
      case Idle(_) =>
      case Done =>
      case _ => OtherWire(s, tid, n);
    }
  }
}
