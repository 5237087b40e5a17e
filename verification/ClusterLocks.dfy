/** Who holds which lock, and what every lock protects: the invariants of the primary's steps. */
module ClusterLocks {
  import opened Limits
  import opened SessionTable
  import opened Fanout
  import opened Wire
  import opened Disk
  import opened Cluster

  predicate HasUserLock(t: Thread) { t.Stuck? || t.Notify? || (t.Broadcast? && !IsFile(t.message)) }

  predicate HasServerLock(t: Thread) { t.Broadcast? && IsFile(t.message) }

  /** A lock is held by exactly the thread that is between its wait and its post. */
  ghost predicate LocksInv(s: State) {
    && (forall tid :: tid in s.threads ==> (HasUserLock(s.threads[tid]) <==> s.userLock == Some(tid)))
    && (forall tid :: tid in s.threads ==> (HasServerLock(s.threads[tid]) <==> s.serverLock == Some(tid)))
    && (s.userLock.Some? ==> s.userLock.value in s.threads)
    && (s.serverLock.Some? ==> s.serverLock.value in s.threads)
  }

  predicate SessionOk(sess: Session) { UserOk(sess.user) && sess.device != -1 && IsInt(sess.device) }

  ghost predicate ThreadOk(t: Thread) {
    match t
    case LoginWait(c, _) => ConnectionOk(c)
    case LoginDir(c, _) => ConnectionOk(c)
    case Idle(sess) => SessionOk(sess)
    case ExitWait(sess) => SessionOk(sess)
    case Stuck => true
    case Done => true
    case Broadcast(m, _, next) => MessageOk(m) && (next.LoginDir? || next.Idle? || next.Done?) && ThreadOk(next)
    case _ => SessionOk(t.sess) && FrameOk(t.frame) && EntryOk(t.frame.name) && PathFits(t.sess, t.frame)
  }

  ghost predicate ThreadsOk(s: State) {
    forall tid :: tid in s.threads ==> ThreadOk(s.threads[tid])
  }

  ghost predicate ControlInv(s: State) { LocksInv(s) && ThreadsOk(s) }

  /** The lock after its holder, or a thread taking it, has moved. */
  predicate LockMoves(before: Option<nat>, after: Option<nat>, tid: nat, holds: bool) {
    if holds then after == Some(tid) && (before.None? || before == Some(tid))
    else after == if before == Some(tid) then None else before
  }

  lemma MoveControl(s: State, s': State, tid: nat, t: Thread)
    requires ControlInv(s) && s'.threads == s.threads[tid := t] && ThreadOk(t)
    requires LockMoves(s.userLock, s'.userLock, tid, HasUserLock(t))
    requires LockMoves(s.serverLock, s'.serverLock, tid, HasServerLock(t))
    ensures ControlInv(s')
  {
    hide ThreadOk;
  }

  lemma SameControl(s: State, s': State)
    requires ControlInv(s) && s'.threads == s.threads && s'.userLock == s.userLock && s'.serverLock == s.serverLock
    ensures ControlInv(s')
  {
    hide ThreadOk;
  }

  /** What is known of a thread from the invariant. */
  lemma ThreadControl(s: State, tid: nat)
    requires ControlInv(s) && tid in s.threads
    ensures ThreadOk(s.threads[tid])
    ensures HasUserLock(s.threads[tid]) <==> s.userLock == Some(tid)
    ensures HasServerLock(s.threads[tid]) <==> s.serverLock == Some(tid)
  {
    hide ThreadOk;
  }

  lemma AfterLoginControl(s: State, tid: nat, c: Connection, socket: int, table: Table, outcome: Outcome)
    requires ControlInv(s) && tid in s.threads && s.threads[tid] == LoginWait(c, socket) && s.userLock.None?
    ensures ControlInv(AfterLogin(s, tid, c, socket, table, outcome))
  {
    ThreadControl(s, tid);
    hide ControlInv;
    var s' := AfterLogin(s, tid, c, socket, table, outcome);
    assert ThreadOk(LoginDir(c, socket));
    if outcome.Fault? { SameControl(s, s'); } else { MoveControl(s, s', tid, s'.threads[tid]); }
  }

  lemma AfterExitControl(s: State, tid: nat, sess: Session, result: Option<Table>)
    requires ControlInv(s) && tid in s.threads && s.threads[tid] == ExitWait(sess) && s.userLock.None?
    ensures ControlInv(AfterExit(s, tid, sess, result))
  {
    ThreadControl(s, tid);
    hide ControlInv;
    var s' := AfterExit(s, tid, sess, result);
    assert ThreadOk(Done);
    if result.None? { SameControl(s, s'); } else { MoveControl(s, s', tid, s'.threads[tid]); }
  }

  lemma NotifyWaitControl(s: State, tid: nat, sess: Session, f: Frame)
    requires ControlInv(s) && tid in s.threads && s.threads[tid] == NotifyWait(sess, f) && s.userLock.None?
    ensures ControlInv(StepNotifyWait(s, tid, sess, f))
  {
    ThreadControl(s, tid);
    hide ControlInv, Targets, Todo, AddFrames, UserAt, FrameOk;
    var s' := StepNotifyWait(s, tid, sess, f);
    if s'.alive == s.alive && s'.userLock.Some? { MoveControl(s, s', tid, s'.threads[tid]); } else { SameControl(s, s'); }
  }

  lemma NotifyControl(s: State, tid: nat, sess: Session, f: Frame, todo: seq<(int, string)>)
    requires ControlInv(s) && tid in s.threads && s.threads[tid] == Notify(sess, f, todo)
    ensures ControlInv(StepNotify(s, tid, sess, f, todo))
  {
    ThreadControl(s, tid);
    hide ControlInv, FrameOk;
    var s' := StepNotify(s, tid, sess, f, todo);
    MoveControl(s, s', tid, s'.threads[tid]);
  }

  lemma BackupWaitControl(s: State, tid: nat, sess: Session, f: Frame)
    requires ControlInv(s) && tid in s.threads && s.threads[tid] == BackupWait(sess, f) && s.serverLock.None?
    ensures ControlInv(StepBackupWait(s, tid, sess, f))
  {
    ThreadControl(s, tid);
    MessageFits(sess, f);
    hide ControlInv, FrameOk, StoredPath, SessionOk, MessageOf, MessageOk;
    var s' := StepBackupWait(s, tid, sess, f);
    assert ThreadOk(Idle(sess));
    MoveControl(s, s', tid, s'.threads[tid]);
  }

  lemma MessageFits(sess: Session, f: Frame)
    requires SessionOk(sess) && FrameOk(f) && PathFits(sess, f)
    ensures MessageOk(MessageOf(sess, f)) && IsFile(MessageOf(sess, f))
  {
    hide UserDir;
    NoNul(sess.user);
  }

  lemma NoNul(user: string)
    requires UserOk(user)
    ensures '\0' !in UserDir(user)
  {}

  lemma BroadcastControl(s: State, tid: nat, m: Message, k: nat, next: Thread)
    requires ControlInv(s) && tid in s.threads && s.threads[tid] == Broadcast(m, k, next)
    ensures ControlInv(StepBroadcast(s, tid, m, k, next))
  {
    ThreadControl(s, tid);
    hide ControlInv, FrameOk, MessageOk, SessionOk, ConnectionOk;
    assert ThreadOk(next) && ThreadOk(Broadcast(m, k + 1, next));
    var s' := StepBroadcast(s, tid, m, k, next);
    MoveControl(s, s', tid, if k < |s.backups| then Broadcast(m, k + 1, next) else next);
  }

  lemma ClientControl(s: State, e: Event)
    requires ControlInv(s) && Legal(s, e) && !e.Go?
    ensures ControlInv(Step(s, e))
  {
    if IsClient(e) && e.tid in s.threads { ThreadControl(s, e.tid); }
    hide ControlInv, FrameOk, Apply;
    var s' := Step(s, e);
    if s'.threads == s.threads { SameControl(s, s'); } else { MoveControl(s, s', e.tid, s'.threads[e.tid]); }
  }

  predicate IsClient(e: Event) { e.Connect? || e.Command? || e.Quit? }

  /** A thread's steps that touch no lock. */
  lemma FreeControl(s: State, tid: nat)
    requires ControlInv(s) && tid in s.threads && (s.threads[tid].LoginDir? || s.threads[tid].FileWrite?)
    ensures ControlInv(StepThread(s, tid))
  {
    ThreadControl(s, tid);
    hide ControlInv, FrameOk, MakeDir, ApplyFile, MessageOf;
    var s' := StepThread(s, tid);
    MoveControl(s, s', tid, s'.threads[tid]);
  }

  lemma StepControl(s: State, e: Event)
    requires ControlInv(s) && Legal(s, e)
    ensures ControlInv(Step(s, e))
  {
    hide Login, Exit, ControlInv, AfterLogin, AfterExit, StepLoginDir, StepFileWrite, StepNotifyWait, StepNotify, StepBackupWait,
      StepBroadcast, StepApply;
    if !e.Go? {
      ClientControl(s, e);
    } else if s.alive && e.tid in s.threads {
      var tid := e.tid;
      match s.threads[tid]
      case LoginWait(c, socket) =>
        var r := Login(s.table, c, socket);
        if s.userLock.None? { AfterLoginControl(s, tid, c, socket, r.0, r.1); }
      case ExitWait(sess) =>
        if s.userLock.None? { AfterExitControl(s, tid, sess, Exit(s.table, sess.user, sess.device)); }
      case NotifyWait(sess, f) => if s.userLock.None? { NotifyWaitControl(s, tid, sess, f); }
      case Notify(sess, f, todo) => NotifyControl(s, tid, sess, f, todo);
      case BackupWait(sess, f) => if s.serverLock.None? { BackupWaitControl(s, tid, sess, f); }
      case Broadcast(m, k, next) => BroadcastControl(s, tid, m, k, next);
      case LoginDir(_, _) => FreeControl(s, tid);
      case FileWrite(_, _) => FreeControl(s, tid);
      case _ =>
    }
  }
}
