/** Whose descriptors the primary's threads and its table have open, and whom a notification reaches, in every run
    over fresh descriptors. */
module ClusterSockets {
  import opened Limits
  import opened SessionTable
  import opened SessionMap
  import opened Fanout
  import opened Wire
  import opened Disk
  import opened Cluster
  import opened ClusterLocks
  import opened ClusterTables
  import opened ClusterFiles
  import opened ClusterWires
  import opened ClusterTheorems

  /** The descriptor of the connection a thread serves, if it is still running. */
  function SocketOf(t: Thread): Option<int> {
    match t
    case LoginWait(_, n) => Some(n)
    case LoginDir(_, n) => Some(n)
    case Broadcast(_, _, next) => SocketOf(next)
    case Stuck => None
    case Done => None
    case _ => Some(t.sess.socket)
  }

  /** Wherever the descriptor is in the table, it is this device's. */
  ghost predicate BelongsTo(t: Table, n: int, user: string, device: int) {
    forall u, d, k :: At(t, u, d, k) && SocketAt(t, u, d, k) == n ==> t[u].name == user && t[u].devices[d].id == device
  }

  ghost predicate Placed(t: Table, thread: Thread) {
    match thread
    case LoginWait(_, n) => FreshSocket(t, n)
    case LoginDir(c, n) => n != -1 && BelongsTo(t, n, c.user, c.device)
    case Broadcast(_, _, next) => SocketOf(next).Some? ==> Placed(t, next)
    case Stuck => true
    case Done => true
    case _ => thread.sess.socket != -1 && BelongsTo(t, thread.sess.socket, thread.sess.user, thread.sess.device)
  }

  ghost predicate SocketsInv(s: State) {
    && DistinctSockets(s.table)
    && (forall x :: x in s.threads ==> Placed(s.table, s.threads[x]))
    && (forall x, y | x in s.threads && y in s.threads && x != y ::
          SocketOf(s.threads[x]).Some? ==> SocketOf(s.threads[x]) != SocketOf(s.threads[y]))
  }

  /** accept returns a descriptor that neither the table nor a running thread has. */
  ghost predicate Fresh(s: State, e: Event) {
    e.Connect? ==>
      && FreshSocket(s.table, e.socket)
      && forall x :: x in s.threads ==> SocketOf(s.threads[x]) != Some(e.socket)
  }

  ghost predicate AllFresh(s: State, es: seq<Event>) {
    es == [] || (AllFresh(s, es[..|es| - 1]) && Fresh(Run(s, es[..|es| - 1]), es[|es| - 1]))
  }

  // ---------- steps ----------

  lemma SeatedBelongs(t: Table, c: Connection, socket: int, n: int, user: string, device: int)
    requires TableInv(t) && CanLogin(t, c.user, c.device) && n != -1 && n != socket && BelongsTo(t, n, user, device)
    ensures BelongsTo(Seated(t, c, socket), n, user, device)
  {
    var t', u0 := Seated(t, c, socket), Seat(t, c.user);
    var d0 := Slot(t[u0].devices, c.device);
    forall u, d, k | At(t', u, d, k) && SocketAt(t', u, d, k) == n
      ensures t'[u].name == user && t'[u].devices[d].id == device
    {
      assert At(t, u, d, k) && SocketAt(t, u, d, k) == n;
      assert t[u].devices[d].id != -1;
      assert Live(t[u].devices);
    }
  }

  lemma SeatedIsOwn(t: Table, c: Connection, socket: int)
    requires TableInv(t) && CanLogin(t, c.user, c.device) && FreshSocket(t, socket)
    ensures BelongsTo(Seated(t, c, socket), socket, c.user, c.device)
  {
    var t' := Seated(t, c, socket);
    forall u, d, k | At(t', u, d, k) && SocketAt(t', u, d, k) == socket
      ensures t'[u].name == c.user && t'[u].devices[d].id == c.device
    {
      assert At(t, u, d, k) && SocketAt(t, u, d, k) != socket;
    }
  }

  lemma SeatedFresh(t: Table, c: Connection, socket: int, n: int)
    requires CanLogin(t, c.user, c.device) && FreshSocket(t, n) && n != socket
    ensures FreshSocket(Seated(t, c, socket), n)
  {
    var t' := Seated(t, c, socket);
    forall u, d, k | At(t', u, d, k) ensures SocketAt(t', u, d, k) != n {
      assert At(t, u, d, k) && SocketAt(t, u, d, k) != n;
    }
  }

  lemma VacatedBelongs(t: Table, name: string, id: int, n: int, user: string, device: int)
    requires TableInv(t) && Present(t, name, id) && n != -1 && BelongsTo(t, n, user, device)
    ensures BelongsTo(Vacated(t, name, id), n, user, device)
  {
    var t' := Vacated(t, name, id);
    forall u, d, k | At(t', u, d, k) && SocketAt(t', u, d, k) == n
      ensures t'[u].name == user && t'[u].devices[d].id == device
    {
      assert At(t, u, d, k) && SocketAt(t, u, d, k) == n;
      assert t[u].devices[d].id != -1 && t'[u].devices[d] == t[u].devices[d];
      assert Live(t'[u].devices);
    }
  }

  lemma VacatedFresh(t: Table, name: string, id: int, n: int)
    requires Present(t, name, id) && FreshSocket(t, n)
    ensures FreshSocket(Vacated(t, name, id), n)
  {
    var t' := Vacated(t, name, id);
    forall u, d, k | At(t', u, d, k) ensures SocketAt(t', u, d, k) != n {
      assert At(t, u, d, k) && SocketAt(t, u, d, k) != n;
    }
  }

  lemma {:induction false} SeatedPlaces(t: Table, c: Connection, socket: int, thread: Thread)
    requires TableInv(t) && CanLogin(t, c.user, c.device) && Placed(t, thread) && SocketOf(thread) != Some(socket)
    ensures Placed(Seated(t, c, socket), thread)
    decreases thread
  {
    hide Seated, TableInv, CanLogin, FreshSocket, BelongsTo;
    match thread
    case LoginWait(_, n) => SeatedFresh(t, c, socket, n);
    case LoginDir(c', n) => SeatedBelongs(t, c, socket, n, c'.user, c'.device);
    case Broadcast(_, _, next) => if SocketOf(next).Some? { SeatedPlaces(t, c, socket, next); }
    case Stuck =>
    case Done =>
    case _ => SeatedBelongs(t, c, socket, thread.sess.socket, thread.sess.user, thread.sess.device);
  }

  lemma {:induction false} VacatedPlaces(t: Table, name: string, id: int, thread: Thread)
    requires TableInv(t) && Present(t, name, id) && Placed(t, thread)
    ensures Placed(Vacated(t, name, id), thread)
    decreases thread
  {
    hide Vacated, TableInv, Present, FreshSocket, BelongsTo;
    match thread
    case LoginWait(_, n) => VacatedFresh(t, name, id, n);
    case LoginDir(c, n) => VacatedBelongs(t, name, id, n, c.user, c.device);
    case Broadcast(_, _, next) => if SocketOf(next).Some? { VacatedPlaces(t, name, id, next); }
    case Stuck =>
    case Done =>
    case _ => VacatedBelongs(t, name, id, thread.sess.socket, thread.sess.user, thread.sess.device);
  }

  /** One thread moves, keeping its descriptor or ending. */
  lemma MoveSockets(s: State, s': State, tid: nat, t: Thread)
    requires SocketsInv(s) && s'.threads == s.threads[tid := t] && DistinctSockets(s'.table) && Placed(s'.table, t)
    requires forall x :: x in s.threads && x != tid ==> Placed(s'.table, s.threads[x])
    requires SocketOf(t).None? || (tid in s.threads && SocketOf(t) == SocketOf(s.threads[tid]))
    ensures SocketsInv(s')
  {
    hide Placed, DistinctSockets, SocketOf;
  }

  lemma SameSockets(s: State, s': State)
    requires SocketsInv(s) && s'.threads == s.threads && s'.table == s.table
    ensures SocketsInv(s')
  {}

  /** A thread that keeps its descriptor and its device, or ends, under the same table. */
  lemma QuietSockets(s: State, s': State, tid: nat)
    requires SocketsInv(s) && tid in s.threads && tid in s'.threads
    requires s'.threads == s.threads[tid := s'.threads[tid]] && s'.table == s.table
    requires SocketOf(s'.threads[tid]).None? || SocketOf(s'.threads[tid]) == SocketOf(s.threads[tid])
    requires Placed(s.table, s.threads[tid]) ==> Placed(s.table, s'.threads[tid])
    ensures SocketsInv(s')
  {
    hide SocketOf, DistinctSockets, Placed;
    MoveSockets(s, s', tid, s'.threads[tid]);
  }

  lemma LoginSockets(s: State, tid: nat, c: Connection, socket: int)
    requires ControlInv(s) && TablesInv(s) && SocketsInv(s)
    requires tid in s.threads && s.threads[tid] == LoginWait(c, socket) && s.userLock.None?
    ensures SocketsInv(StepLoginWait(s, tid, c, socket))
  {
    ThreadControl(s, tid);
    LoginDecision(s.table, c, socket);
    assert Placed(s.table, s.threads[tid]);
    var s' := StepLoginWait(s, tid, c, socket);
    if CanLogin(s.table, c.user, c.device) { LoginPlaces(s, tid, c, socket); }
    hide Login, ControlInv, TablesInv, Seated, CanLogin, ConnectionOk, DistinctSockets, BelongsTo, FreshSocket;
    LoginMovesTo(s, tid, c, socket, Login(s.table, c, socket).0, Login(s.table, c, socket).1);
    MoveSockets(s, s', tid, s'.threads[tid]);
  }

  lemma LoginMovesTo(s: State, tid: nat, c: Connection, socket: int, table: Table, outcome: Outcome)
    requires tid in s.threads && (outcome.Accepted? || outcome.Refused?)
    requires outcome.Accepted? ==> Placed(table, LoginDir(c, socket))
    ensures
      var s' := AfterLogin(s, tid, c, socket, table, outcome);
      && tid in s'.threads && s'.threads == s.threads[tid := s'.threads[tid]] && s'.table == table
      && (SocketOf(s'.threads[tid]) == None || SocketOf(s'.threads[tid]) == Some(socket)) && Placed(table, s'.threads[tid])
  {
    hide BelongsTo;
  }

  lemma LoginPlaces(s: State, tid: nat, c: Connection, socket: int)
    requires SocketsInv(s) && TableInv(s.table) && tid in s.threads && s.threads[tid] == LoginWait(c, socket)
    requires CanLogin(s.table, c.user, c.device)
    ensures DistinctSockets(Seated(s.table, c, socket)) && Placed(Seated(s.table, c, socket), LoginDir(c, socket))
    ensures forall x :: x in s.threads && x != tid ==> Placed(Seated(s.table, c, socket), s.threads[x])
  {
    assert Placed(s.table, s.threads[tid]);
    SeatedKeepsDistinct(s.table, c, socket);
    SeatedIsOwn(s.table, c, socket);
    FreshIsReal(s.table, socket);
    hide Seated, CanLogin, TableInv, DistinctSockets, FreshSocket, BelongsTo;
    forall x | x in s.threads && x != tid ensures Placed(Seated(s.table, c, socket), s.threads[x]) {
      assert SocketOf(s.threads[tid]) == Some(socket);
      assert Placed(s.table, s.threads[x]);
      hide Placed;
      SeatedPlaces(s.table, c, socket, s.threads[x]);
    }
  }

  lemma FreshIsReal(t: Table, n: int)
    requires FreshSocket(t, n)
    ensures n != -1
  {}

  lemma ExitSockets(s: State, tid: nat, sess: Session)
    requires ControlInv(s) && TablesInv(s) && SocketsInv(s)
    requires tid in s.threads && s.threads[tid] == ExitWait(sess) && s.userLock.None?
    ensures SocketsInv(StepExitWait(s, tid, sess))
  {
    ThreadControl(s, tid);
    ExitEffect(s.table, sess.user, sess.device);
    var s' := StepExitWait(s, tid, sess);
    ExitMovesTo(s, tid, sess, Exit(s.table, sess.user, sess.device));
    var present := Present(s.table, sess.user, sess.device);
    if present { ExitPlaces(s, tid, sess); }
    hide *;
    if present {
      MoveSockets(s, s', tid, Broadcast(ExitMsg(sess.user, sess.device), 0, Done));
    } else {
      SameSockets(s, s');
    }
  }

  lemma ExitMovesTo(s: State, tid: nat, sess: Session, result: Option<Table>)
    ensures
      var s', t := AfterExit(s, tid, sess, result), Broadcast(ExitMsg(sess.user, sess.device), 0, Done);
      && (result.None? ==> s'.threads == s.threads && s'.table == s.table)
      && (result.Some? ==> s'.threads == s.threads[tid := t] && s'.table == result.value)
      && SocketOf(t) == None && Placed(s'.table, t)
  {}

  lemma ExitPlaces(s: State, tid: nat, sess: Session)
    requires SocketsInv(s) && TableInv(s.table) && Present(s.table, sess.user, sess.device)
    ensures DistinctSockets(Vacated(s.table, sess.user, sess.device))
    ensures forall x :: x in s.threads ==> Placed(Vacated(s.table, sess.user, sess.device), s.threads[x])
  {
    VacatedKeepsDistinct(s.table, sess.user, sess.device);
    hide Vacated, Present, TableInv, DistinctSockets;
    forall x | x in s.threads ensures Placed(Vacated(s.table, sess.user, sess.device), s.threads[x]) {
      assert Placed(s.table, s.threads[x]);
      hide Placed;
      VacatedPlaces(s.table, sess.user, sess.device, s.threads[x]);
    }
  }

  /** The other steps of a thread keep its descriptor, or end it. */
  lemma KeepsSocket(s: State, tid: nat)
    requires tid in s.threads && !s.threads[tid].LoginWait? && !s.threads[tid].ExitWait? && ThreadOk(s.threads[tid])
    ensures tid in StepThread(s, tid).threads
    ensures
      var t, t' := s.threads[tid], StepThread(s, tid).threads[tid];
      && (SocketOf(t').None? || SocketOf(t') == SocketOf(t))
      && (Placed(s.table, t) ==> Placed(s.table, t'))
  {
    var t := s.threads[tid];
    if t.NotifyWait? || t.Notify? || t.Broadcast? {
      hide *;
      LoopKeepsSocket(s, tid);
    } else {
      hide MessageOf, ApplyFile, MakeDir, FrameOk, MessageOk, BelongsTo, FreshSocket, ConnectionOk, SessionOk, StepLoginWait,
        StepExitWait, StepNotifyWait, StepNotify, StepBroadcast;
    }
  }

  lemma LoopKeepsSocket(s: State, tid: nat)
    requires tid in s.threads && ThreadOk(s.threads[tid])
    requires var t := s.threads[tid]; t.NotifyWait? || t.Notify? || t.Broadcast?
    ensures tid in StepThread(s, tid).threads
    ensures
      var t, t' := s.threads[tid], StepThread(s, tid).threads[tid];
      && (SocketOf(t').None? || SocketOf(t') == SocketOf(t))
      && (Placed(s.table, t) ==> Placed(s.table, t'))
  {
    var t := s.threads[tid];
    if t.Broadcast? {
      hide *;
      BroadcastKeepsSocket(s, tid);
    } else {
      hide UserAt, Targets, Todo, AddFrames, Get, FrameOk, BelongsTo, FreshSocket, SessionOk, StepLoginWait, StepLoginDir,
        StepExitWait, StepFileWrite, StepBackupWait, StepBroadcast, ThreadOk;
    }
  }

  lemma BroadcastKeepsSocket(s: State, tid: nat)
    requires tid in s.threads && s.threads[tid].Broadcast? && ThreadOk(s.threads[tid])
    ensures tid in StepThread(s, tid).threads
    ensures
      var t, t' := s.threads[tid], StepThread(s, tid).threads[tid];
      && (SocketOf(t').None? || SocketOf(t') == SocketOf(t))
      && (Placed(s.table, t) ==> Placed(s.table, t'))
  {
    var t := s.threads[tid];
    assert StepThread(s, tid) == StepBroadcast(s, tid, t.message, t.slot, t.next);
    hide IsFile, MessageOk, BelongsTo, FreshSocket, ConnectionOk, SessionOk, StepThread;
  }

  lemma ThreadSockets(s: State, tid: nat)
    requires ControlInv(s) && SocketsInv(s) && tid in s.threads && !s.threads[tid].LoginWait? && !s.threads[tid].ExitWait?
    ensures SocketsInv(StepThread(s, tid))
  {
    OneThreadMoves(s, tid);
    OtherThreads(s, tid);
    ThreadControl(s, tid);
    KeepsSocket(s, tid);
    hide ControlInv, StepThread, SocketsInv;
    QuietSockets(s, StepThread(s, tid), tid);
  }

  lemma ClientSockets(s: State, e: Event)
    requires SocketsInv(s) && Fresh(s, e) && !e.Go?
    ensures SocketsInv(Step(s, e))
  {
    var s' := Step(s, e);
    hide Apply, DistinctSockets, FreshSocket, BelongsTo;
    if s'.threads == s.threads {
      SameSockets(s, s');
    } else if e.Connect? {
      assert Placed(s.table, s'.threads[e.tid]);
    } else {
      assert Placed(s.table, s.threads[e.tid]);
      MoveSockets(s, s', e.tid, s'.threads[e.tid]);
    }
  }

  lemma StepSockets(s: State, e: Event)
    requires ClusterInv(s) && SocketsInv(s) && Fresh(s, e)
    ensures SocketsInv(Step(s, e))
  {
    if !e.Go? {
      ClientSockets(s, e);
    } else if s.alive && e.tid in s.threads {
      hide SocketsInv, ControlInv, TablesInv, Fresh, StepLoginWait, StepExitWait, StepLoginDir, StepFileWrite, StepNotifyWait,
        StepNotify, StepBackupWait, StepBroadcast;
      match s.threads[e.tid]
      case LoginWait(c, socket) => if s.userLock.None? { LoginSockets(s, e.tid, c, socket); }
      case ExitWait(sess) => if s.userLock.None? { ExitSockets(s, e.tid, sess); }
      case _ => ThreadSockets(s, e.tid);
    }
  }

  lemma {:induction false} RunSockets(s: State, es: seq<Event>)
    requires ClusterInv(s) && SocketsInv(s) && AllLegal(s, es) && AllFresh(s, es)
    ensures SocketsInv(Run(s, es))
  {
    hide ClusterInv, SocketsInv, Step, Legal, Fresh;
    if es != [] {
      RunSockets(s, es[..|es| - 1]);
      RunInv(s, es[..|es| - 1]);
      StepSockets(Run(s, es[..|es| - 1]), es[|es| - 1]);
    }
  }

  // ---------- whom a notification reaches ----------

  /** The descriptor is the notification socket of another live device of the user. */
  ghost predicate IsTarget(ds: seq<Device>, device: int, n: int) {
    n != -1 && exists d :: d in ds && d.id != -1 && d.id != device && d.socket3 == n
  }

  /** With the sender's descriptor its own device's, the targets are all its user's other live devices. */
  lemma TargetSockets(t: Table, u: nat, device: int, socket: int, user: string, n: int)
    requires TableInv(t) && DistinctSockets(t) && u < |t| && t[u].name == user
    requires socket != -1 && BelongsTo(t, socket, user, device)
    ensures
      var ts := Targets(t[u].devices, device, socket);
      OneEach(ts) && (IsSentTo(ts, n) <==> IsTarget(t[u].devices, device, n))
  {
    var ds := t[u].devices;
    var ts := Targets(ds, device, socket);
    TargetsAre(ds, device, socket);
    hide Targets;
    forall d | d in ds && d.id != -1 && d.id != device ensures d.socket2 != socket && d in ts {
      var i :| 0 <= i < |ds| && ds[i] == d;
      assert At(t, u, i, T2) && SocketAt(t, u, i, T2) == d.socket2;
    }
    forall i, j | 0 <= i < j < |ts| && ts[i].socket3 != -1 ensures ts[i].socket3 != ts[j].socket3 {
      assert ts[i] in ts && ts[j] in ts;
      var a :| 0 <= a < |ds| && ds[a] == ts[i];
      var b :| 0 <= b < |ds| && ds[b] == ts[j];
      assert At(t, u, a, T3) && SocketAt(t, u, a, T3) == ts[i].socket3;
      assert At(t, u, b, T3) && SocketAt(t, u, b, T3) == ts[j].socket3;
    }
    if d :| d in ds && d.id != -1 && d.id != device && d.socket3 == n {
      var i :| 0 <= i < |ts| && ts[i] == d;
    }
    if i :| 0 <= i < |ts| && ts[i].socket3 == n { assert ts[i] in ts; }
  }

  /** Committing a notification, at any moment of any run over fresh descriptors, adds its frame once to what each other
      live device of the user is sent, and nothing to any other descriptor. */
  lemma NotifiedOnce(ids: seq<int>, refusalReleases: bool, es: seq<Event>, tid: nat, n: int)
    requires AllLegal(Start(ids, refusalReleases), es) && AllFresh(Start(ids, refusalReleases), es)
    requires
      var s := Reached(ids, refusalReleases, es);
      && s.alive && s.userLock.None? && tid in s.threads && s.threads[tid].NotifyWait?
      && UserAt(s.table, s.threads[tid].sess.user) < |s.table|
    ensures
      var s := Reached(ids, refusalReleases, es);
      var sess, f := s.threads[tid].sess, s.threads[tid].frame;
      var ds := s.table[UserAt(s.table, sess.user)].devices;
      FramesOn(Step(s, Go(tid)), n) == FramesOn(s, n) + if IsTarget(ds, sess.device, n) then [f] else []
  {
    StartInv(ids, refusalReleases);
    StartSockets(ids, refusalReleases);
    ReachedInv(ids, refusalReleases, es);
    hide Start, ClusterInv, SocketsInv, AllLegal, AllFresh;
    RunSockets(Start(ids, refusalReleases), es);
    hide Run;
    NotifiedOnceIn(Reached(ids, refusalReleases, es), tid, n);
  }

  lemma StartSockets(ids: seq<int>, refusalReleases: bool)
    ensures SocketsInv(Start(ids, refusalReleases))
  {}

  lemma NotifiedOnceIn(s: State, tid: nat, n: int)
    requires ClusterInv(s) && SocketsInv(s)
    requires s.alive && s.userLock.None? && tid in s.threads && s.threads[tid].NotifyWait?
    requires UserAt(s.table, s.threads[tid].sess.user) < |s.table|
    ensures
      var sess, f := s.threads[tid].sess, s.threads[tid].frame;
      var ds := s.table[UserAt(s.table, sess.user)].devices;
      FramesOn(Step(s, Go(tid)), n) == FramesOn(s, n) + if IsTarget(ds, sess.device, n) then [f] else []
  {
    var sess, f, u := s.threads[tid].sess, s.threads[tid].frame, UserAt(s.table, s.threads[tid].sess.user);
    var ts := Targets(s.table[u].devices, sess.device, sess.socket);
    assert Placed(s.table, s.threads[tid]);
    assert TableInv(s.table) && s.table[u].name == sess.user;
    NotifyFrames(s, tid);
    hide *;
    TargetSockets(s.table, u, sess.device, sess.socket, sess.user, n);
    AddFramesOnce(s.frames, ts, f, n);
    FramesIs(s, n);
    FramesIs(Step(s, Go(tid)), n);
  }

  lemma FramesIs(s: State, n: int)
    ensures FramesOn(s, n) == Get(s.frames, n, [])
  {}

  lemma NotifyFrames(s: State, tid: nat)
    requires s.alive && s.userLock.None? && tid in s.threads && s.threads[tid].NotifyWait?
    requires UserAt(s.table, s.threads[tid].sess.user) < |s.table|
    ensures
      var sess, f := s.threads[tid].sess, s.threads[tid].frame;
      var ds := s.table[UserAt(s.table, sess.user)].devices;
      Step(s, Go(tid)).frames == AddFrames(s.frames, Targets(ds, sess.device, sess.socket), f)
  {
    hide Targets, Todo, AddFrames, UserAt;
  }
}
