/** The primary's table against the table its backups replay. */
module ClusterTables {
  import opened SessionTable
  import opened SessionMap
  import opened SessionRuns
  import opened Fanout
  import opened Disk
  import opened Cluster
  import opened ClusterLocks

  /** The table is in order, and replaying all committed session messages gives one of the same shape. */
  ghost predicate TablesInv(s: State) {
    var b := Replay(s.sessionLog);
    TableInv(s.table) && b.up && TableInv(b.table) && SameShape(s.table, b.table)
  }

  /** Every backup's store is the replay of the part of its log that it has worked off. */
  ghost predicate StoresInv(s: State) {
    forall i :: 0 <= i < |s.backups| ==>
      var b := s.backups[i];
      b.applied <= |b.log| && b.store == Replay(b.log[..b.applied])
  }

  lemma LoginTables(s: State, tid: nat, c: Connection, socket: int)
    requires TablesInv(s) && c.user != "" && c.device != -1
    ensures TablesInv(StepLoginWait(s, tid, c, socket))
    ensures StepLoginWait(s, tid, c, socket).alive == s.alive
    ensures StepLoginWait(s, tid, c, socket).backups == s.backups
  {
    LoginDecision(s.table, c, socket);
    hide Login, Replay, SameShape, TableInv;
    if CanLogin(s.table, c.user, c.device) {
      SeatedKeepsInv(s.table, c, socket);
      ReplayInsertAgrees(s.table, Replay(s.sessionLog).table, c, socket);
      ReplayAppend(s.sessionLog, InsertMsg(c));
    }
  }

  lemma ExitTables(s: State, tid: nat, sess: Session)
    requires TablesInv(s) && SessionOk(sess)
    ensures TablesInv(StepExitWait(s, tid, sess))
    ensures StepExitWait(s, tid, sess).alive == (s.alive && Present(s.table, sess.user, sess.device))
    ensures StepExitWait(s, tid, sess).backups == s.backups
  {
    ExitEffect(s.table, sess.user, sess.device);
    hide Exit, Replay, SameShape, TableInv;
    if Present(s.table, sess.user, sess.device) {
      VacatedKeepsInv(s.table, sess.user, sess.device);
      ReplayExitAgrees(s.table, Replay(s.sessionLog).table, sess.user, sess.device);
      ReplayAppend(s.sessionLog, ExitMsg(sess.user, sess.device));
    }
  }

  predicate SessionStep(s: State, e: Event) {
    e.Go? && s.alive && e.tid in s.threads && s.userLock.None? && (s.threads[e.tid].LoginWait? || s.threads[e.tid].ExitWait?)
  }

  /** Only a login or an exit that gets the lock touches the table or the session messages. */
  lemma OtherSteps(s: State, e: Event)
    requires !SessionStep(s, e)
    ensures Step(s, e).table == s.table && Step(s, e).sessionLog == s.sessionLog
  {
    if e.Go? && s.alive && e.tid in s.threads {
      OtherThreads(s, e.tid);
    } else {
      hide Apply;
    }
  }

  lemma OtherThreads(s: State, tid: nat)
    requires tid in s.threads
    requires s.userLock.Some? || (!s.threads[tid].LoginWait? && !s.threads[tid].ExitWait?)
    ensures StepThread(s, tid).table == s.table && StepThread(s, tid).sessionLog == s.sessionLog
  {
    hide Targets, Todo, AddFrames, UserAt, MessageOf, ApplyFile, MakeDir, Get, IsFile, StepLoginWait, StepExitWait;
    match s.threads[tid]
    case NotifyWait(_, _) => hide StepLoginDir, StepNotify, StepBroadcast, StepBackupWait, StepFileWrite;
    case Notify(_, _, _) => hide StepLoginDir, StepNotifyWait, StepBroadcast, StepBackupWait, StepFileWrite;
    case Broadcast(_, _, _) => hide StepLoginDir, StepNotifyWait, StepNotify, StepBackupWait, StepFileWrite;
    case _ => hide StepNotifyWait, StepNotify, StepBroadcast;
  }

  lemma StepTables(s: State, e: Event)
    requires ControlInv(s) && TablesInv(s)
    ensures TablesInv(Step(s, e))
  {
    hide Login, Exit, Replay, SameShape, TableInv, StepLoginWait, StepExitWait;
    if SessionStep(s, e) {
      assert ThreadOk(s.threads[e.tid]);
      match s.threads[e.tid]
      case LoginWait(c, socket) => LoginTables(s, e.tid, c, socket);
      case ExitWait(sess) => ExitTables(s, e.tid, sess);
      case _ =>
    } else {
      OtherSteps(s, e);
    }
  }

  lemma ApplyStores(s: State, i: nat)
    requires StoresInv(s) && i < |s.backups| && s.backups[i].applied < |s.backups[i].log|
    ensures StoresInv(StepApply(s, i))
  {
    hide Apply;
    var b := s.backups[i];
    assert b.log[..b.applied + 1] == b.log[..b.applied] + [b.log[b.applied]];
    ReplayAppend(b.log[..b.applied], b.log[b.applied]);
  }

  lemma BroadcastStores(s: State, tid: nat, m: Message, k: nat, next: Thread)
    requires StoresInv(s)
    ensures StoresInv(StepBroadcast(s, tid, m, k, next))
  {
    hide Replay;
    if k < |s.backups| {
      var b := s.backups[k];
      assert (b.log + [m])[..b.applied] == b.log[..b.applied];
    }
  }

  predicate LogStep(s: State, e: Event) {
    e.ApplyNext? || (e.Go? && e.tid in s.threads && s.threads[e.tid].Broadcast?)
  }

  /** Only a send or a backup's own step touches the backups. */
  lemma OtherBackups(s: State, e: Event)
    requires !LogStep(s, e)
    ensures Step(s, e).backups == s.backups
  {
    hide Login, Exit, Targets, Todo, AddFrames, UserAt, MessageOf, ApplyFile, Apply, MakeDir, Get;
    if e.Go? && s.alive && e.tid in s.threads {
      match s.threads[e.tid]
      case LoginWait(c, socket) => var r := Login(s.table, c, socket); AfterLoginBackups(s, e.tid, c, socket, r.0, r.1);
      case _ =>
    }
  }

  lemma AfterLoginBackups(s: State, tid: nat, c: Connection, socket: int, table: Table, outcome: Outcome)
    ensures AfterLogin(s, tid, c, socket, table, outcome).backups == s.backups
  {}

  lemma StepStores(s: State, e: Event)
    requires StoresInv(s)
    ensures StoresInv(Step(s, e))
  {
    hide StoresInv, StepBroadcast, StepApply, Login, Exit, AfterLogin, AfterExit,
      StepNotifyWait, StepNotify, StepBackupWait, StepFileWrite, StepLoginDir;
    if !LogStep(s, e) {
      OtherBackups(s, e);
      SameBackupsStores(s, Step(s, e));
    } else if e.ApplyNext? {
      if e.slot < |s.backups| && s.backups[e.slot].applied < |s.backups[e.slot].log| { ApplyStores(s, e.slot); }
    } else {
      var t := s.threads[e.tid];
      BroadcastStores(s, e.tid, t.message, t.slot, t.next);
    }
  }

  lemma SameBackupsStores(s: State, s': State)
    requires StoresInv(s) && s'.backups == s.backups
    ensures StoresInv(s')
  {
    hide Replay;
  }
}
