/** When the primary stays alive: the runs in which no thread looks up somebody who has left. */
module ClusterSurvival {
  import opened SessionTable
  import opened SessionMap
  import opened SessionRuns
  import opened Fanout
  import opened Wire
  import opened Disk
  import opened Cluster
  import opened ClusterLocks
  import opened ClusterTables
  import opened ClusterFiles
  import opened ClusterTheorems
  import opened ClusterFailures

  /** The thread will look up this user to notify the other devices. */
  predicate WillNotify(t: Thread, user: string) {
    match t
    case FileWrite(sess, _) => sess.user == user
    case NotifyWait(sess, _) => sess.user == user
    case _ => false
  }

  /** The user has no other device in the table. */
  predicate LastDevice(t: Table, user: string, device: int) {
    var u := UserAt(t, user);
    u < |t| && forall d :: d in t[u].devices && d.id != -1 ==> d.id == device
  }

  /** Nobody exits a device that is gone, or a user's last device while one of the user's operations has not notified
      yet; nobody starts an operation for a user who is gone; and nobody kills the primary. */
  ghost predicate Careful(s: State, e: Event) {
    match e
    case Crash => false
    case Command(tid, _) => IsIdle(s, tid) ==> UserAt(s.table, s.threads[tid].sess.user) < |s.table|
    case Go(tid) =>
      tid in s.threads && s.threads[tid].ExitWait? && s.userLock.None? ==>
        var user, device := s.threads[tid].sess.user, s.threads[tid].sess.device;
        && Present(s.table, user, device)
        && (LastDevice(s.table, user, device) ==> forall x :: x in s.threads ==> !WillNotify(s.threads[x], user))
    case _ => true
  }

  ghost predicate AllCareful(s: State, es: seq<Event>) {
    es == [] || (AllCareful(s, es[..|es| - 1]) && Careful(Run(s, es[..|es| - 1]), es[|es| - 1]))
  }

  /** Whoever is still to be notified about is there. */
  ghost predicate NobodyMissing(s: State) {
    forall x, user :: x in s.threads && WillNotify(s.threads[x], user) ==> UserAt(s.table, user) < |s.table|
  }

  lemma FoundAt(t: Table, name: string, u: nat)
    requires u < |t| && t[u].name == name
    ensures UserAt(t, name) < |t|
  {}

  lemma SeatedKeepsUsers(t: Table, c: Connection, socket: int, name: string)
    requires CanLogin(t, c.user, c.device) && name != "" && UserAt(t, name) < |t|
    ensures UserAt(Seated(t, c, socket), name) < |t|
  {
    FoundAt(Seated(t, c, socket), name, UserAt(t, name));
  }

  lemma VacatedKeepsUsers(t: Table, user: string, device: int, name: string)
    requires TableInv(t) && Present(t, user, device) && user != "" && UserAt(t, name) < |t|
    requires name != user || !LastDevice(t, user, device)
    ensures UserAt(Vacated(t, user, device), name) < |t|
  {
    var t', u := Vacated(t, user, device), UserAt(t, user);
    if name == user {
      var ds, at := t[u].devices, DeviceAt(t[u].devices, device);
      var d :| d in ds && d.id != -1 && d.id != device;
      var i :| 0 <= i < |ds| && ds[i] == d;
      assert ds[at := FREE][i] == d;
      assert Live(ds[at := FREE]);
      FoundAt(t', name, u);
    } else {
      FoundAt(t', name, UserAt(t, name));
    }
  }

  /** One thread moves, and no user that somebody waits to notify about leaves. */
  lemma MoveMissesNobody(s: State, s': State, tid: nat, t: Thread)
    requires NobodyMissing(s) && s'.threads == s.threads[tid := t]
    requires forall x, user | x in s.threads && x != tid && WillNotify(s.threads[x], user) ::
      UserAt(s.table, user) < |s.table| ==> UserAt(s'.table, user) < |s'.table|
    requires forall user :: WillNotify(t, user) ==> UserAt(s'.table, user) < |s'.table|
    ensures NobodyMissing(s')
  {
    hide UserAt, WillNotify;
  }

  lemma LoginMissesNobody(s: State, tid: nat, c: Connection, socket: int)
    requires ControlInv(s) && TablesInv(s) && NobodyMissing(s)
    requires tid in s.threads && s.threads[tid] == LoginWait(c, socket) && s.userLock.None?
    ensures NobodyMissing(StepLoginWait(s, tid, c, socket))
  {
    ThreadControl(s, tid);
    UserIsNamed(c);
    var s', r := StepLoginWait(s, tid, c, socket), Login(s.table, c, socket);
    LoginWaitsNot(s, tid, c, socket, r.0, r.1);
    hide Login, AfterLogin, ControlInv, ConnectionOk, UserAt, TableInv, SameShape, Replay, WillNotify, NobodyMissing;
    forall x, user | x in s.threads && WillNotify(s.threads[x], user) && UserAt(s.table, user) < |s.table|
      ensures UserAt(s'.table, user) < |s'.table|
    {
      UserIsReal(s, x, user);
      LoginKeepsUsers(s.table, c, socket, user);
    }
    if r.1.Fault? { SameMissesNobody(s, s'); } else { MoveMissesNobody(s, s', tid, s'.threads[tid]); }
  }

  lemma SameMissesNobody(s: State, s': State)
    requires NobodyMissing(s) && s'.threads == s.threads && s'.table == s.table
    ensures NobodyMissing(s')
  {}

  lemma LoginWaitsNot(s: State, tid: nat, c: Connection, socket: int, table: Table, outcome: Outcome)
    requires tid in s.threads
    ensures
      var s' := AfterLogin(s, tid, c, socket, table, outcome);
      if outcome.Fault? then s' == s.(alive := false)
      else
        && tid in s'.threads && s'.threads == s.threads[tid := s'.threads[tid]] && s'.table == table
        && forall user :: !WillNotify(s'.threads[tid], user)
  {}

  lemma LoginKeepsUsers(t: Table, c: Connection, socket: int, name: string)
    requires TableInv(t) && c.user != "" && c.device != -1 && name != "" && UserAt(t, name) < |t|
    ensures UserAt(Login(t, c, socket).0, name) < |Login(t, c, socket).0|
  {
    LoginDecision(t, c, socket);
    hide Login;
    if CanLogin(t, c.user, c.device) { SeatedKeepsUsers(t, c, socket, name); }
  }

  lemma UserIsReal(s: State, x: nat, user: string)
    requires ControlInv(s) && x in s.threads && WillNotify(s.threads[x], user)
    ensures user != ""
  {
    ThreadControl(s, x);
    hide ControlInv;
  }

  lemma ExitMissesNobody(s: State, tid: nat, sess: Session)
    requires ControlInv(s) && TablesInv(s) && NobodyMissing(s) && Careful(s, Go(tid))
    requires tid in s.threads && s.threads[tid] == ExitWait(sess) && s.userLock.None?
    ensures NobodyMissing(StepExitWait(s, tid, sess))
  {
    ThreadControl(s, tid);
    ExitEffect(s.table, sess.user, sess.device);
    var s' := StepExitWait(s, tid, sess);
    forall x, user | x in s.threads && WillNotify(s.threads[x], user) && UserAt(s.table, user) < |s.table|
      ensures UserAt(s'.table, user) < |s'.table|
    {
      VacatedKeepsUsers(s.table, sess.user, sess.device, user);
    }
    hide Exit, ControlInv, TablesInv, Vacated, Present, UserAt;
    MoveMissesNobody(s, s', tid, Broadcast(ExitMsg(sess.user, sess.device), 0, Done));
  }

  lemma ThreadMissesNobody(s: State, tid: nat)
    requires ControlInv(s) && NobodyMissing(s) && tid in s.threads && !s.threads[tid].LoginWait? && !s.threads[tid].ExitWait?
    ensures NobodyMissing(StepThread(s, tid))
  {
    var s' := StepThread(s, tid);
    OneThreadMoves(s, tid);
    OtherThreads(s, tid);
    ThreadControl(s, tid);
    NotifiesNoMore(s, tid);
    hide ControlInv, UserAt, StepThread, NobodyMissing;
    MoveMissesNobody(s, s', tid, s'.threads[tid]);
  }

  lemma NotifiesNoMore(s: State, tid: nat)
    requires tid in s.threads && NobodyMissing(s) && ThreadOk(s.threads[tid])
    requires !s.threads[tid].LoginWait? && !s.threads[tid].ExitWait?
    ensures tid in StepThread(s, tid).threads
    ensures forall user :: WillNotify(StepThread(s, tid).threads[tid], user) ==> WillNotify(s.threads[tid], user)
  {
    hide NobodyMissing, UserAt, Targets, Todo, AddFrames, MessageOf, ApplyFile, MakeDir, Get, IsFile, FrameOk, MessageOk;
    match s.threads[tid]
    case NotifyWait(_, _) => hide StepLoginDir, StepNotify, StepBroadcast, StepBackupWait, StepFileWrite;
    case Notify(_, _, _) => hide StepLoginDir, StepNotifyWait, StepBroadcast, StepBackupWait, StepFileWrite;
    case Broadcast(_, _, _) => hide StepLoginDir, StepNotifyWait, StepNotify, StepBackupWait, StepFileWrite;
    case _ => hide StepNotifyWait, StepNotify, StepBroadcast;
  }

  lemma ClientMissesNobody(s: State, e: Event)
    requires NobodyMissing(s) && Careful(s, e) && !e.Go?
    ensures NobodyMissing(Step(s, e))
  {
    hide Apply, UserAt;
    var s' := Step(s, e);
    if s'.threads != s.threads { MoveMissesNobody(s, s', e.tid, s'.threads[e.tid]); }
  }

  lemma StepMissesNobody(s: State, e: Event)
    requires ClusterInv(s) && NobodyMissing(s) && Careful(s, e)
    ensures NobodyMissing(Step(s, e))
  {
    if !e.Go? {
      ClientMissesNobody(s, e);
    } else if s.alive && e.tid in s.threads {
      hide NobodyMissing, ControlInv, TablesInv, Careful, StepLoginWait, StepExitWait, StepLoginDir, StepFileWrite,
        StepNotifyWait,
        StepNotify, StepBackupWait, StepBroadcast;
      match s.threads[e.tid]
      case LoginWait(c, socket) => if s.userLock.None? { LoginMissesNobody(s, e.tid, c, socket); }
      case ExitWait(sess) => if s.userLock.None? { ExitMissesNobody(s, e.tid, sess); }
      case _ => ThreadMissesNobody(s, e.tid);
    }
  }

  /** If everybody is careful, no thread dereferences null and the primary never dies. */
  lemma {:induction false} StaysAlive(s: State, es: seq<Event>)
    requires ClusterInv(s) && s.alive && NobodyMissing(s) && AllLegal(s, es) && AllCareful(s, es)
    ensures Run(s, es).alive && NobodyMissing(Run(s, es))
  {
    hide ClusterInv, NobodyMissing, Step, Legal, Careful;
    if es != [] {
      var s1, e := Run(s, es[..|es| - 1]), es[|es| - 1];
      StaysAlive(s, es[..|es| - 1]);
      RunInv(s, es[..|es| - 1]);
      StepMissesNobody(s1, e);
      CarefulLives(s1, e);
    }
  }

  lemma CarefulLives(s: State, e: Event)
    requires ClusterInv(s) && s.alive && NobodyMissing(s) && Careful(s, e)
    ensures Step(s, e).alive
  {
    DeathCauses(s, e);
    hide ControlInv, TablesInv, Step, StoresInv, UserAt, Present;
    if e.Go? && e.tid in s.threads && s.threads[e.tid].NotifyWait? {
      assert WillNotify(s.threads[e.tid], s.threads[e.tid].sess.user);
    }
  }

  /** Nobody is missing at the start. */
  lemma AliveFromStart(ids: seq<int>, refusalReleases: bool, es: seq<Event>)
    requires AllLegal(Start(ids, refusalReleases), es) && AllCareful(Start(ids, refusalReleases), es)
    ensures Reached(ids, refusalReleases, es).alive
  {
    StartInv(ids, refusalReleases);
    NobodyAtStart(ids, refusalReleases);
    hide ClusterInv, Start, NobodyMissing;
    StaysAlive(Start(ids, refusalReleases), es);
  }

  lemma NobodyAtStart(ids: seq<int>, refusalReleases: bool)
    ensures NobodyMissing(Start(ids, refusalReleases)) && Start(ids, refusalReleases).alive
  {}
}
