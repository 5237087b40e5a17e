/** Where the guarantees end: what kills the primary, what blocks it, and what makes a backup differ. */
module ClusterFailures {
  import opened Limits
  import opened SessionTable
  import opened SessionMap
  import opened SessionRuns
  import opened Fanout
  import opened Wire
  import opened Disk
  import opened Cluster
  import opened ClusterLocks
  import opened ClusterTables
  import opened ClusterCausal
  import opened ClusterFiles
  import opened ClusterTheorems
  import opened ClusterRuns

  // ---------- null dereferences ----------

  /** The thread is about to look up a device or user that is not in the table any more. */
  predicate Dereferences(s: State, t: Thread) {
    match t
    case ExitWait(sess) => s.userLock.None? && !Present(s.table, sess.user, sess.device)
    case NotifyWait(sess, _) => s.userLock.None? && UserAt(s.table, sess.user) == |s.table|
    case _ => false
  }

  /** Apart from an outside crash, the primary dies exactly at the exit of a device that is gone and at the
      notification for a user that is gone; no login kills it. */
  lemma DeathCauses(s: State, e: Event)
    requires ControlInv(s) && TablesInv(s) && s.alive
    ensures !Step(s, e).alive <==> e.Crash? || (e.Go? && e.tid in s.threads && Dereferences(s, s.threads[e.tid]))
  {
    if e.Go? && e.tid in s.threads {
      ThreadControl(s, e.tid);
      hide ControlInv, TablesInv, StepLoginWait, StepExitWait, Present, StepNotifyWait, StepNotify, StepBroadcast,
        StepBackupWait, StepFileWrite, StepLoginDir;
      match s.threads[e.tid]
      case LoginWait(c, socket) => LoginTables(s, e.tid, c, socket);
      case ExitWait(sess) => ExitTables(s, e.tid, sess);
      case _ => OtherDeaths(s, e.tid);
    } else {
      hide Apply;
    }
  }

  lemma OtherDeaths(s: State, tid: nat)
    requires s.alive && tid in s.threads && !s.threads[tid].LoginWait? && !s.threads[tid].ExitWait?
    ensures !StepThread(s, tid).alive <==> Dereferences(s, s.threads[tid])
  {
    hide Targets, Todo, AddFrames, UserAt, MessageOf, ApplyFile, MakeDir, Get, IsFile, Present;
    match s.threads[tid]
    case NotifyWait(_, _) => hide StepLoginDir, StepNotify, StepBroadcast, StepBackupWait, StepFileWrite;
    case Notify(_, _, _) => hide StepLoginDir, StepNotifyWait, StepBroadcast, StepBackupWait, StepFileWrite;
    case Broadcast(_, _, _) => hide StepLoginDir, StepNotifyWait, StepNotify, StepBackupWait, StepFileWrite;
    case _ => hide StepNotifyWait, StepNotify, StepBroadcast;
  }

  // ---------- a refused login that keeps the lock ----------

  ghost predicate StuckOn(s: State, tid: nat) {
    tid in s.threads && s.threads[tid].Stuck? && s.userLock == Some(tid)
  }

  /** A refused login ends its thread between wait and post, so unless the lock is released it is held for ever. */
  lemma RefusalSticks(s: State, tid: nat, c: Connection, socket: int)
    requires TableInv(s.table) && c.user != "" && c.device != -1 && !s.refusalReleases
    requires !CanLogin(s.table, c.user, c.device)
    ensures StuckOn(StepLoginWait(s, tid, c, socket), tid)
    ensures StepLoginWait(s, tid, c, socket).table == s.table
  {
    LoginDecision(s.table, c, socket);
    hide Login;
  }

  ghost predicate SameSessions(s: State, s': State) {
    && s'.table == s.table && s'.sessionLog == s.sessionLog && s'.frames == s.frames && s'.wires == s.wires
    && |s'.backups| == |s.backups|
    && forall i :: 0 <= i < |s.backups| ==> SessionPart(s'.backups[i].log) == SessionPart(s.backups[i].log)
  }

  lemma StuckThread(s: State, x: nat, tid: nat)
    requires LocksInv(s) && StuckOn(s, tid) && x in s.threads
    ensures StuckOn(StepThread(s, x), tid) && SameSessions(s, StepThread(s, x))
  {
    hide LocksInv, Login, Exit, SessionPart, StepLoginWait, StepExitWait, StepNotifyWait, StepNotify, ApplyFile, MakeDir,
      MessageOf;
    if x != tid {
      NotHolder(s, x, tid);
      match s.threads[x]
      case Broadcast(m, k, next) =>
        StuckBroadcast(s, x, tid, m, k, next);
        hide SameSessions, StepBroadcast, StepLoginDir, StepFileWrite, StepBackupWait;
      case _ => hide StepBroadcast;
    }
  }

  lemma StuckBroadcast(s: State, x: nat, tid: nat, m: Message, k: nat, next: Thread)
    requires StuckOn(s, tid) && x in s.threads && x != tid && s.threads[x] == Broadcast(m, k, next) && IsFile(m)
    ensures StuckOn(StepBroadcast(s, x, m, k, next), tid) && SameSessions(s, StepBroadcast(s, x, m, k, next))
  {
    if k < |s.backups| { PartsAppend(s.backups[k].log, m); }
    hide SessionPart;
  }

  lemma NotHolder(s: State, x: nat, tid: nat)
    requires LocksInv(s) && s.userLock == Some(tid) && x != tid && x in s.threads
    ensures !HasUserLock(s.threads[x])
  {}

  lemma StuckStep(s: State, e: Event, tid: nat)
    requires LocksInv(s) && StuckOn(s, tid)
    ensures StuckOn(Step(s, e), tid) && SameSessions(s, Step(s, e))
  {
    hide LocksInv, StepThread, SessionPart, Apply;
    if e.Go? && s.alive && e.tid in s.threads { StuckThread(s, e.tid, tid); }
  }

  /** After a refusal that keeps the lock no login, exit or notification ever happens again. */
  lemma {:induction false} RefusalFreezes(s: State, es: seq<Event>, tid: nat)
    requires ClusterInv(s) && AllLegal(s, es) && StuckOn(s, tid)
    ensures StuckOn(Run(s, es), tid) && SameSessions(s, Run(s, es))
  {
    hide ClusterInv, Step, Legal, StuckOn;
    if es != [] {
      var init := es[..|es| - 1];
      RefusalFreezes(s, init, tid);
      RunInv(s, init);
      InvThreadsOk(Run(s, init));
      StuckStep(Run(s, init), es[|es| - 1], tid);
    }
  }

  // ---------- overlapping operations on one path ----------

  /** Thread a writes, then b writes and finishes, then a finishes. */
  lemma OverlapRun(s: State, a: nat, b: nat, sess: Session, f: Frame, sess': Session, f': Frame)
    returns (es: seq<Event>)
    requires Calm(s) && a in s.threads && b in s.threads && a != b
    requires s.threads[a] == FileWrite(sess, f) && s.threads[b] == FileWrite(sess', f')
    requires UserAt(s.table, sess.user) < |s.table| && UserAt(s.table, sess'.user) < |s.table|
    ensures Possible(s, es)
    ensures
      var s' := Run(s, es);
      && s'.threads == s.threads[a := Idle(sess)][b := Idle(sess')] && |s'.backups| == |s.backups|
      && s'.disk == StepFileWrite(StepFileWrite(s, a, sess, f), b, sess', f').disk
      && forall i :: 0 <= i < |s.backups| ==>
           s'.backups[i].log == s.backups[i].log + [MessageOf(sess', f')] + [MessageOf(sess, f)]
  {
    hide UserAt, MessageOf, ApplyFile;
    var s1 := StepFileWrite(s, a, sess, f);
    assert Step(s, Go(a)) == s1;
    var s2 := StepFileWrite(s1, b, sess', f');
    assert Step(s1, Go(b)) == s2;
    hide Step, Run;
    var finish := FinishBoth(s2, a, b, sess, f, sess', f');
    GoThen(s1, b, finish);
    GoThen(s, a, [Go(b)] + finish);
    es := [Go(a)] + ([Go(b)] + finish);
    assert s.threads[a := Idle(sess)][b := Idle(sess')] == s2.threads[b := Idle(sess')][a := Idle(sess)];
  }

  lemma FinishBoth(s: State, a: nat, b: nat, sess: Session, f: Frame, sess': Session, f': Frame)
    returns (es: seq<Event>)
    requires Calm(s) && a in s.threads && b in s.threads && a != b
    requires s.threads[a] == NotifyWait(sess, f) && s.threads[b] == NotifyWait(sess', f')
    requires UserAt(s.table, sess.user) < |s.table| && UserAt(s.table, sess'.user) < |s.table|
    ensures Possible(s, es)
    ensures
      var s' := Run(s, es);
      && s'.threads == s.threads[b := Idle(sess')][a := Idle(sess)] && |s'.backups| == |s.backups| && s'.disk == s.disk
      && forall i :: 0 <= i < |s.backups| ==>
           s'.backups[i].log == s.backups[i].log + [MessageOf(sess', f')] + [MessageOf(sess, f)]
  {
    hide UserAt, MessageOf, Run;
    var finishB := FinishRuns(s, b, sess', f');
    var finishA := FinishRuns(Run(s, finishB), a, sess, f);
    PossibleConcat(s, finishB, finishA);
    es := finishB + finishA;
  }

  /** Any two operations on one path with different effects, both about to write, can end with every backup
      having the one and the primary having the other: the condition of Convergence cannot be dropped. */
  lemma OverlapDiverges(s: State, a: nat, b: nat, sess: Session, f: Frame, sess': Session, f': Frame)
    returns (es: seq<Event>)
    requires ClusterInv(s) && Calm(s) && a in s.threads && b in s.threads && a != b
    requires s.threads[a] == FileWrite(sess, f) && s.threads[b] == FileWrite(sess', f')
    requires MessageOf(sess, f).path == MessageOf(sess', f').path
    requires MessageEffect(sess, f) != MessageEffect(sess', f')
    requires UserAt(s.table, sess.user) < |s.table|
    ensures Possible(s, es)
    ensures
      var s', path := Run(s, es), MessageOf(sess, f).path;
      && s'.threads == s.threads[a := Idle(sess)][b := Idle(sess')] && |s'.backups| == |s.backups|
      && Content(s'.disk, path) == MessageEffect(sess', f')
      && forall i :: 0 <= i < |s'.backups| ==> Content(Replay(s'.backups[i].log).disk, path) == MessageEffect(sess, f)
  {
    assert ThreadOk(s.threads[a]) && ThreadOk(s.threads[b]);
    StoredPathInjective(sess.user, f.name, sess'.user, f'.name);
    WritesShow(s, a, b, sess, f, sess', f');
    MessageIsFile(BackupWait(sess', f'));
    hide Step, Run, MessageOf, StoredPath, ClusterInv, Content, Replay, StepFileWrite, MessageEffect;
    es := OverlapRun(s, a, b, sess, f, sess', f');
    var s' := Run(s, es);
    forall i | 0 <= i < |s'.backups|
      ensures Content(Replay(s'.backups[i].log).disk, MessageOf(sess, f).path) == MessageEffect(sess, f)
    {
      BothSent(s, a, i, sess, f, MessageOf(sess', f'));
    }
  }

  function MessageEffect(sess: Session, f: Frame): Option<string> { Effect(MessageOf(sess, f)) }

  lemma WritesShow(s: State, a: nat, b: nat, sess: Session, f: Frame, sess': Session, f': Frame)
    requires CausalInv(s) && a in s.threads && b in s.threads && s.threads[b] == FileWrite(sess', f') && '/' !in f'.name
    ensures
      var s2 := StepFileWrite(StepFileWrite(s, a, sess, f), b, sess', f');
      Content(s2.disk, MessageOf(sess', f').path) == MessageEffect(sess', f')
  {
    MessageDir(sess', f');
    ThreadIsKnown(s, b);
    hide DirOf, UserDir, StoredPath, CausalInv;
    assert StepFileWrite(s, a, sess, f).disk.dirs == s.disk.dirs;
  }

  lemma BothSent(s: State, a: nat, i: nat, sess: Session, f: Frame, m': Message)
    requires ClusterInv(s) && a in s.threads && s.threads[a] == FileWrite(sess, f) && '/' !in f.name
    requires i < |s.backups| && IsFile(m') && m'.path == MessageOf(sess, f).path
    ensures
      var m := MessageOf(sess, f);
      Content(Replay(s.backups[i].log + [m'] + [m]).disk, m.path) == MessageEffect(sess, f)
  {
    var m, log := MessageOf(sess, f), s.backups[i].log;
    MessageDir(sess, f);
    ThreadIsKnown(s, a);
    LogUp(s, i);
    ReplayAppend(log, m');
    DirsAppend(log, m');
    hide Replay, DirsOf, DirOf, UserDir, StoredPath, ClusterInv, Content, MessageOf;
    SendTakesEffect(log + [m'], m, m.path);
  }

  // ---------- a backup that joins late ----------

  lemma ReplayInsertRefused(t: Table, c: Connection)
    requires TableInv(t) && c.user != "" && c.device != -1 && !CanLogin(t, c.user, c.device)
    ensures ReplayInsert(t, c) == None || ReplayInsert(t, c) == Some(t)
  {
    var u := UserAt(t, c.user);
    if u < |t| {
      InsertDeviceForm(t, u, c, c.clientSocket);
    } else {
      if UserAt(t, "") < |t| { SeatHasRoom(t, c.user, c.device); }
    }
  }

  /** A free row has a free slot. */
  lemma SeatHasRoom(t: Table, user: string, device: int)
    requires TableInv(t) && UserAt(t, user) == |t| && UserAt(t, "") < |t| && device != -1
    ensures CanLogin(t, user, device)
  {
    assert t[UserAt(t, "")].devices[0] == FREE;
  }

  ghost predicate ProperMessage(m: Message) {
    match m
    case InsertMsg(c) => c.user != "" && c.device != -1
    case ExitMsg(user, device) => user != "" && device != -1
    case _ => true
  }

  lemma InsertBrings(t: Table, c: Connection, user: string, device: int)
    requires TableInv(t) && c.user != "" && c.device != -1 && user != "" && device != -1
    ensures
      var r := ReplayInsert(t, c);
      r.Some? ==>
        && TableInv(r.value)
        && (Present(r.value, user, device) ==> Present(t, user, device) || (c.user == user && c.device == device))
  {
    if CanLogin(t, c.user, c.device) {
      ReplayInsertForm(t, c);
      SeatedKeepsInv(t, c, c.clientSocket);
      hide ReplayInsert, Seated, TableInv, Present, Abs;
      LoginRefines(t, c, c.clientSocket);
      PresentIs(t, user, device);
      PresentIs(Seated(t, c, c.clientSocket), user, device);
    } else {
      ReplayInsertRefused(t, c);
    }
  }

  lemma VacatedBrings(t: Table, name: string, id: int, user: string, device: int)
    requires TableInv(t) && name != "" && id != -1 && user != "" && device != -1 && Present(t, name, id)
    ensures TableInv(Vacated(t, name, id))
    ensures Present(Vacated(t, name, id), user, device) ==> Present(t, user, device)
  {
    VacatedKeepsInv(t, name, id);
    ExitRefines(t, name, id);
    hide Vacated, TableInv, Present, Abs;
    PresentIs(t, user, device);
    PresentIs(Vacated(t, name, id), user, device);
  }

  lemma ExitBrings(t: Table, name: string, id: int, user: string, device: int)
    requires TableInv(t) && name != "" && id != -1 && user != "" && device != -1
    ensures TableInv(ReplayExit(t, name, id))
    ensures Present(ReplayExit(t, name, id), user, device) ==> Present(t, user, device)
  {
    hide ReplayExit, Vacated, TableInv, Present;
    ReplayExitForm(t, name, id);
    if Present(t, name, id) { VacatedBrings(t, name, id, user, device); }
  }

  /** Only an INSERT_USER of a device brings it into a backup's table. */
  lemma OnlyInserts(b: Store, m: Message, user: string, device: int)
    requires TableInv(b.table) && ProperMessage(m) && user != "" && device != -1
    ensures TableInv(Apply(b, m).table)
    ensures Present(Apply(b, m).table, user, device) ==>
      Present(b.table, user, device) || (m.InsertMsg? && m.conn.user == user && m.conn.device == device)
  {
    hide ReplayInsert, ReplayExit, TableInv, Present, ApplyFile;
    match m
    case InsertMsg(c) => InsertBrings(b.table, c, user, device);
    case ExitMsg(name, id) => ExitBrings(b.table, name, id, user, device);
    case _ =>
  }

  /** Whatever messages a backup gets, it knows only devices whose login is among them. */
  lemma {:induction false} LateBackup(received: seq<Message>, user: string, device: int)
    requires forall k :: 0 <= k < |received| ==> ProperMessage(received[k])
    requires user != "" && device != -1
    ensures TableInv(Replay(received).table)
    ensures Present(Replay(received).table, user, device) ==>
      exists k | 0 <= k < |received| ::
        received[k].InsertMsg? && received[k].conn.user == user && received[k].conn.device == device
  {
    if received == [] {
      EmptyTableInv();
      PresentIs(EmptyTable(), user, device);
    } else {
      hide Apply, Present;
      LateBackup(received[..|received| - 1], user, device);
      OnlyInserts(Replay(received[..|received| - 1]), received[|received| - 1], user, device);
    }
  }
}
