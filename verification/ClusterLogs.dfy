/** Every backup's log against what was committed under each lock. */
module ClusterLogs {
  import opened Limits
  import opened SessionTable
  import opened Fanout
  import opened Wire
  import opened Disk
  import opened Cluster
  import opened ClusterLocks

  // The two classes of messages: file messages under the server lock, session messages under the user lock.
  function Part(log: seq<Message>, file: bool): seq<Message> { if file then FilePart(log) else SessionPart(log) }
  function LockOf(s: State, file: bool): Option<nat> { if file then s.serverLock else s.userLock }
  function LogOf(s: State, file: bool): seq<Message> { if file then s.fileLog else s.sessionLog }

  /** What a thread in the loop over the backups has still to send to slot i. */
  function PendingOf(t: Thread, file: bool, i: nat): seq<Message> {
    if t.Broadcast? && IsFile(t.message) == file && t.slot <= i then [t.message] else []
  }

  function Pending(s: State, file: bool, i: nat): seq<Message> {
    var lock := LockOf(s, file);
    if lock.Some? && lock.value in s.threads then PendingOf(s.threads[lock.value], file, i) else []
  }

  /** Each log, with what is still pending for it, is everything committed under the lock, in lock order. */
  ghost predicate LogInv(s: State, file: bool) {
    forall i :: 0 <= i < |s.backups| ==> Part(s.backups[i].log, file) + Pending(s, file, i) == LogOf(s, file)
  }

  ghost predicate LogsInv(s: State) { LogInv(s, false) && LogInv(s, true) }

  /** No log grows, nothing is committed and nothing pending changes. */
  lemma QuietLog(s: State, s': State, file: bool)
    requires LogInv(s, file) && LogOf(s', file) == LogOf(s, file)
    requires |s'.backups| == |s.backups| && forall i :: 0 <= i < |s.backups| ==> s'.backups[i].log == s.backups[i].log
    requires forall i :: 0 <= i < |s.backups| ==> Pending(s', file, i) == Pending(s, file, i)
    ensures LogInv(s', file)
  {
    hide Part, Pending;
  }

  /** A thread moves that has nothing pending in this class before or after. */
  lemma MoveLog(s: State, s': State, tid: nat, t: Thread, file: bool)
    requires ControlInv(s) && LogInv(s, file) && s'.backups == s.backups && LogOf(s', file) == LogOf(s, file)
    requires s'.threads == s.threads[tid := t]
    requires tid in s.threads ==> !InLoop(s.threads[tid], file)
    requires !InLoop(t, file)
    requires LockOf(s', file) == LockOf(s, file) || (FreeFor(LockOf(s, file), tid) && FreeFor(LockOf(s', file), tid))
    ensures LogInv(s', file)
  {
    hide SessionPart, FilePart, ThreadOk;
    forall i | 0 <= i < |s.backups| ensures Pending(s', file, i) == Pending(s, file, i) {}
    QuietLog(s, s', file);
  }

  predicate FreeFor(lock: Option<nat>, tid: nat) { lock == None || lock == Some(tid) }

  /** The thread is in the loop over the backups with a message of this class. */
  predicate InLoop(t: Thread, file: bool) { t.Broadcast? && IsFile(t.message) == file }

  /** A thread that takes the lock commits its message and has it pending everywhere. */
  lemma CommitLog(s: State, s': State, tid: nat, m: Message, next: Thread)
    requires LogInv(s, IsFile(m)) && LockOf(s, IsFile(m)).None?
    requires LockOf(s', IsFile(m)) == Some(tid) && s'.threads == s.threads[tid := Broadcast(m, 0, next)]
    requires s'.backups == s.backups && LogOf(s', IsFile(m)) == LogOf(s, IsFile(m)) + [m]
    ensures LogInv(s', IsFile(m))
  {
    hide SessionPart, FilePart;
  }

  /** One send moves the message from what is pending for a slot to the slot's log. */
  lemma SendLog(s: State, s': State, k: nat, m: Message, file: bool)
    requires LogInv(s, file) && LogOf(s', file) == LogOf(s, file) && k < |s.backups|
    requires s'.backups == s.backups[k := s.backups[k].(log := s.backups[k].log + [m])]
    requires forall i :: 0 <= i < |s.backups| && (i != k || IsFile(m) != file) ==> Pending(s', file, i) == Pending(s, file, i)
    requires IsFile(m) == file ==> Pending(s, file, k) == [m] && Pending(s', file, k) == []
    ensures LogInv(s', file)
  {
    hide Pending, SessionPart, FilePart;
    PartsAppend(s.backups[k].log, m);
  }

  lemma AfterLoginLogs(s: State, tid: nat, c: Connection, socket: int, table: Table, outcome: Outcome)
    requires ControlInv(s) && LogsInv(s) && tid in s.threads && s.threads[tid] == LoginWait(c, socket) && s.userLock.None?
    ensures LogsInv(AfterLogin(s, tid, c, socket, table, outcome))
  {
    hide LogInv, ControlInv;
    var s' := AfterLogin(s, tid, c, socket, table, outcome);
    match outcome
    case Accepted =>
      CommitLog(s, s', tid, InsertMsg(c), LoginDir(c, socket));
      MoveLog(s, s', tid, s'.threads[tid], true);
    case Fault =>
      QuietLog(s, s', false);
      QuietLog(s, s', true);
    case _ =>
      MoveLog(s, s', tid, s'.threads[tid], false);
      MoveLog(s, s', tid, s'.threads[tid], true);
  }

  lemma AfterExitLogs(s: State, tid: nat, sess: Session, result: Option<Table>)
    requires ControlInv(s) && LogsInv(s) && tid in s.threads && s.threads[tid] == ExitWait(sess) && s.userLock.None?
    ensures LogsInv(AfterExit(s, tid, sess, result))
  {
    hide LogInv, ControlInv;
    var s' := AfterExit(s, tid, sess, result);
    if result.Some? {
      CommitLog(s, s', tid, ExitMsg(sess.user, sess.device), Done);
      MoveLog(s, s', tid, s'.threads[tid], true);
    } else {
      QuietLog(s, s', false);
      QuietLog(s, s', true);
    }
  }

  lemma BackupWaitLogs(s: State, tid: nat, sess: Session, f: Frame)
    requires ControlInv(s) && LogsInv(s) && tid in s.threads && s.threads[tid] == BackupWait(sess, f) && s.serverLock.None?
    ensures LogsInv(StepBackupWait(s, tid, sess, f))
  {
    hide LogInv, ControlInv, StoredPath;
    var s' := StepBackupWait(s, tid, sess, f);
    CommitLog(s, s', tid, MessageOf(sess, f), Idle(sess));
    MoveLog(s, s', tid, s'.threads[tid], false);
  }

  lemma NotifyWaitLogs(s: State, tid: nat, sess: Session, f: Frame)
    requires ControlInv(s) && LogsInv(s) && tid in s.threads && s.threads[tid] == NotifyWait(sess, f) && s.userLock.None?
    ensures LogsInv(StepNotifyWait(s, tid, sess, f))
  {
    hide LogInv, ControlInv, Targets, Todo, AddFrames, UserAt;
    var s' := StepNotifyWait(s, tid, sess, f);
    if s'.threads == s.threads && s'.userLock == s.userLock {
      QuietLog(s, s', false);
      QuietLog(s, s', true);
    } else {
      MoveLog(s, s', tid, s'.threads[tid], false);
      MoveLog(s, s', tid, s'.threads[tid], true);
    }
  }

  lemma NotifyLogs(s: State, tid: nat, sess: Session, f: Frame, todo: seq<(int, string)>)
    requires ControlInv(s) && LogsInv(s) && tid in s.threads && s.threads[tid] == Notify(sess, f, todo)
    ensures LogsInv(StepNotify(s, tid, sess, f, todo))
  {
    ThreadControl(s, tid);
    hide LogInv, ControlInv, ThreadOk;
    var s' := StepNotify(s, tid, sess, f, todo);
    MoveLog(s, s', tid, s'.threads[tid], false);
    MoveLog(s, s', tid, s'.threads[tid], true);
  }

  /** One round of the loop over the backups; leaving it leaves nothing pending. */
  lemma BroadcastLogs(s: State, tid: nat, m: Message, k: nat, next: Thread)
    requires ControlInv(s) && LogsInv(s) && tid in s.threads && s.threads[tid] == Broadcast(m, k, next)
    ensures LogsInv(StepBroadcast(s, tid, m, k, next))
  {
    var s' := StepBroadcast(s, tid, m, k, next);
    BroadcastPending(s, tid, m, k, next, false);
    BroadcastPending(s, tid, m, k, next, true);
    hide LogInv, ControlInv, Pending;
    if k < |s.backups| {
      SendLog(s, s', k, m, false);
      SendLog(s, s', k, m, true);
    } else {
      QuietLog(s, s', false);
      QuietLog(s, s', true);
    }
  }

  lemma BroadcastPending(s: State, tid: nat, m: Message, k: nat, next: Thread, file: bool)
    requires ControlInv(s) && tid in s.threads && s.threads[tid] == Broadcast(m, k, next)
    ensures
      var s' := StepBroadcast(s, tid, m, k, next);
      && (forall i :: 0 <= i < |s.backups| && (i != k || IsFile(m) != file) ==> Pending(s', file, i) == Pending(s, file, i))
      && (IsFile(m) == file && k < |s.backups| ==> Pending(s, file, k) == [m] && Pending(s', file, k) == [])
  {
    ThreadControl(s, tid);
    var s', lock := StepBroadcast(s, tid, m, k, next), LockOf(s, file);
    if lock.Some? && lock.value != tid {
      assert IsFile(m) != file;
      hide ControlInv, ThreadOk, IsFile;
      assert LockOf(s', file) == lock;
    } else {
      hide ControlInv, ThreadOk, IsFile;
    }
  }

  lemma FreeLogs(s: State, tid: nat)
    requires ControlInv(s) && LogsInv(s) && tid in s.threads && (s.threads[tid].LoginDir? || s.threads[tid].FileWrite?)
    ensures LogsInv(StepThread(s, tid))
  {
    hide LogInv, ControlInv, MakeDir, ApplyFile, MessageOf;
    var s' := StepThread(s, tid);
    MoveLog(s, s', tid, s'.threads[tid], false);
    MoveLog(s, s', tid, s'.threads[tid], true);
  }

  lemma ClientLogs(s: State, e: Event)
    requires ControlInv(s) && LogsInv(s) && !e.Go?
    ensures LogsInv(Step(s, e))
  {
    hide LogInv, ControlInv, Apply, Part;
    var s' := Step(s, e);
    if s'.threads == s.threads {
      QuietLog(s, s', false);
      QuietLog(s, s', true);
    } else {
      MoveLog(s, s', e.tid, s'.threads[e.tid], false);
      MoveLog(s, s', e.tid, s'.threads[e.tid], true);
    }
  }

  lemma StepLogs(s: State, e: Event)
    requires ControlInv(s) && LogsInv(s)
    ensures LogsInv(Step(s, e))
  {
    hide Login, Exit, ControlInv, LogsInv, AfterLogin, AfterExit, StepLoginDir, StepFileWrite, StepNotifyWait, StepNotify,
      StepBackupWait, StepBroadcast, StepApply;
    if !e.Go? {
      ClientLogs(s, e);
    } else if s.alive && e.tid in s.threads {
      var tid := e.tid;
      match s.threads[tid]
      case LoginWait(c, socket) =>
        var r := Login(s.table, c, socket);
        if s.userLock.None? { AfterLoginLogs(s, tid, c, socket, r.0, r.1); }
      case ExitWait(sess) =>
        if s.userLock.None? { AfterExitLogs(s, tid, sess, Exit(s.table, sess.user, sess.device)); }
      case NotifyWait(sess, f) => if s.userLock.None? { NotifyWaitLogs(s, tid, sess, f); }
      case Notify(sess, f, todo) => NotifyLogs(s, tid, sess, f, todo);
      case BackupWait(sess, f) => if s.serverLock.None? { BackupWaitLogs(s, tid, sess, f); }
      case Broadcast(m, k, next) => BroadcastLogs(s, tid, m, k, next);
      case LoginDir(_, _) => FreeLogs(s, tid);
      case FileWrite(_, _) => FreeLogs(s, tid);
      case _ =>
    }
  }
}
