/** A user's directory is there, on the primary and on every backup, before a file of that user is stored. */
module ClusterCausal {
  import opened Limits
  import opened SessionTable
  import opened SessionRuns
  import opened Fanout
  import opened Wire
  import opened Disk
  import opened Cluster
  import opened ClusterLocks
  import opened ClusterTables

  /** A login of this user is in the logs of the first n slots. */
  ghost predicate Announced(s: State, user: string, n: nat) {
    forall i :: 0 <= i < |s.backups| && i < n ==> UserDir(user) in DirsOf(s.backups[i].log)
  }

  ghost predicate Known(s: State, user: string) {
    UserDir(user) in s.disk.dirs && Announced(s, user, |s.backups|)
  }

  ghost predicate ThreadKnown(s: State, t: Thread) {
    match t
    case LoginWait(_, _) => true
    case Stuck => true
    case Done => true
    case LoginDir(c, _) => Announced(s, c.user, |s.backups|)
    case Broadcast(m, k, next) =>
      if next.Idle? then Known(s, next.sess.user) && (IsFile(m) ==> DirOf(m.path) == UserDir(next.sess.user))
      else if next.LoginDir? then m == InsertMsg(next.conn) && Announced(s, next.conn.user, k)
      else !IsFile(m)
    case _ => Known(s, t.sess.user)
  }

  ghost predicate CausalInv(s: State) {
    && (forall tid :: tid in s.threads ==> ThreadKnown(s, s.threads[tid]))
    && (forall i :: 0 <= i < |s.backups| ==> Causal(s.backups[i].log))
  }

  /** Directories and logs only grow. */
  ghost predicate Grows(s: State, s': State) {
    && s.disk.dirs <= s'.disk.dirs && |s.backups| == |s'.backups|
    && (forall i :: 0 <= i < |s.backups| ==> DirsOf(s.backups[i].log) <= DirsOf(s'.backups[i].log))
  }

  lemma KnownGrows(s: State, s': State, t: Thread)
    requires Grows(s, s') && ThreadKnown(s, t)
    ensures ThreadKnown(s', t)
  {
    hide DirsOf;
  }

  /** A step of one thread that sends nothing. */
  lemma MoveCausal(s: State, s': State, tid: nat, t: Thread)
    requires CausalInv(s) && Grows(s, s') && s'.threads == s.threads[tid := t] && ThreadKnown(s', t)
    requires forall i :: 0 <= i < |s.backups| ==> s'.backups[i].log == s.backups[i].log
    ensures CausalInv(s')
  {
    hide Causal, DirsOf, ThreadKnown;
    forall x | x in s'.threads ensures ThreadKnown(s', s'.threads[x]) {
      if x != tid { KnownGrows(s, s', s.threads[x]); }
    }
  }

  lemma MessageDir(sess: Session, f: Frame)
    requires '/' !in f.name
    ensures IsFile(MessageOf(sess, f)) && DirOf(MessageOf(sess, f).path) == UserDir(sess.user)
  {
    DirOfIs(UserDir(sess.user), f.name);
  }

  lemma LoginCausal(s: State, tid: nat, c: Connection, socket: int, table: Table, outcome: Outcome)
    requires CausalInv(s) && !outcome.Silent?
    ensures CausalInv(AfterLogin(s, tid, c, socket, table, outcome))
  {
    hide Causal, DirsOf, CausalInv;
    var s' := AfterLogin(s, tid, c, socket, table, outcome);
    if outcome.Fault? { SameCausal(s, s'); } else { MoveCausal(s, s', tid, s'.threads[tid]); }
  }

  lemma SameCausal(s: State, s': State)
    requires CausalInv(s) && s'.threads == s.threads && s'.disk == s.disk && s'.backups == s.backups
    ensures CausalInv(s')
  {
    hide Causal, DirsOf;
    forall x | x in s'.threads ensures ThreadKnown(s', s'.threads[x]) { KnownGrows(s, s', s.threads[x]); }
  }

  lemma SendGrows(s: State, s': State, k: nat, m: Message)
    requires k < |s.backups| && s'.backups == s.backups[k := s.backups[k].(log := s.backups[k].log + [m])] && s'.disk == s.disk
    ensures Grows(s, s')
    ensures forall user | m.InsertMsg? && m.conn.user == user && '/' !in user ::
      Announced(s, user, k) ==> Announced(s', user, k + 1)
  {
    DirsAppend(s.backups[k].log, m);
    if m.InsertMsg? && '/' !in m.conn.user { PlainUserCanMake(DirsOf(s.backups[k].log), m.conn.user); }
    hide Causal, DirsOf, UserDir, CanMake;
  }

  lemma SendCausalLog(s: State, s': State, k: nat, m: Message)
    requires k < |s.backups| && s'.backups == s.backups[k := s.backups[k].(log := s.backups[k].log + [m])]
    requires forall i :: 0 <= i < |s.backups| ==> Causal(s.backups[i].log)
    requires IsFile(m) ==> DirOf(m.path) in DirsOf(s.backups[k].log)
    ensures forall i :: 0 <= i < |s'.backups| ==> Causal(s'.backups[i].log)
  {
    DirsAppend(s.backups[k].log, m);
    hide Causal, DirsOf, DirOf;
  }

  lemma SendCausal(s: State, tid: nat, m: Message, k: nat, next: Thread)
    requires MessageOk(m) && CausalInv(s) && tid in s.threads && s.threads[tid] == Broadcast(m, k, next) && k < |s.backups|
    requires next.LoginDir? || next.Idle? || next.Done?
    ensures CausalInv(StepBroadcast(s, tid, m, k, next))
  {
    var s' := StepBroadcast(s, tid, m, k, next);
    ThreadIsKnown(s, tid);
    SendGrows(s, s', k, m);
    hide Causal, DirsOf, DirOf, UserDir, Grows;
    KnownGrows(s, s', Broadcast(m, k, next));
    assert ThreadKnown(s', Broadcast(m, k + 1, next));
    SendCausalLog(s, s', k, m);
    hide ThreadKnown;
    forall x | x in s'.threads ensures ThreadKnown(s', s'.threads[x]) {
      if x != tid { KnownGrows(s, s', s.threads[x]); }
    }
  }

  lemma BroadcastCausal(s: State, tid: nat, m: Message, k: nat, next: Thread)
    requires MessageOk(m) && CausalInv(s) && tid in s.threads && s.threads[tid] == Broadcast(m, k, next)
    requires next.LoginDir? || next.Idle? || next.Done?
    ensures CausalInv(StepBroadcast(s, tid, m, k, next))
  {
    hide CausalInv, DirsOf, DirOf, UserDir;
    ThreadIsKnown(s, tid);
    if k < |s.backups| {
      SendCausal(s, tid, m, k, next);
    } else {
      MoveCausal(s, StepBroadcast(s, tid, m, k, next), tid, next);
    }
  }

  lemma FileStepsCausal(s: State, tid: nat)
    requires CausalInv(s) && tid in s.threads && ThreadOk(s.threads[tid])
    requires var t := s.threads[tid]; t.FileWrite? || t.NotifyWait? || t.Notify? || t.BackupWait?
    ensures CausalInv(StepThread(s, tid))
  {
    hide Causal, DirsOf, CausalInv, Targets, Todo, AddFrames, UserAt, MessageOf, DirOf, UserDir, StepLoginWait, StepLoginDir,
      StepExitWait, StepBroadcast, FrameOk;
    var s', t := StepThread(s, tid), s.threads[tid];
    MessageDir(t.sess, t.frame);
    ThreadIsKnown(s, tid);
    OneThreadMoves(s, tid);
    MoveCausal(s, s', tid, s'.threads[tid]);
  }

  lemma ThreadIsKnown(s: State, tid: nat)
    requires CausalInv(s) && tid in s.threads
    ensures ThreadKnown(s, s.threads[tid])
  {
    hide ThreadKnown, Causal;
  }

  lemma LoginDirCausal(s: State, tid: nat, c: Connection, socket: int)
    requires CausalInv(s) && tid in s.threads && s.threads[tid] == LoginDir(c, socket) && UserOk(c.user)
    ensures CausalInv(StepLoginDir(s, tid, c, socket))
  {
    PlainUserCanMake(s.disk.dirs, c.user);
    hide Causal, DirsOf, CausalInv, UserDir, CanMake;
    var s' := StepLoginDir(s, tid, c, socket);
    ThreadIsKnown(s, tid);
    MoveCausal(s, s', tid, s'.threads[tid]);
  }

  lemma ExitCausal(s: State, tid: nat, sess: Session, result: Option<Table>)
    requires CausalInv(s)
    ensures CausalInv(AfterExit(s, tid, sess, result))
  {
    hide Causal, DirsOf, CausalInv;
    var s' := AfterExit(s, tid, sess, result);
    if result.None? { SameCausal(s, s'); } else { MoveCausal(s, s', tid, s'.threads[tid]); }
  }

  lemma ApplyCausal(s: State, i: nat)
    requires CausalInv(s) && i < |s.backups| && s.backups[i].applied < |s.backups[i].log|
    ensures CausalInv(StepApply(s, i))
  {
    hide Causal, DirsOf, Apply;
    var s' := StepApply(s, i);
    forall x | x in s'.threads ensures ThreadKnown(s', s'.threads[x]) { KnownGrows(s, s', s.threads[x]); }
  }

  /** Events of the clients. */
  lemma ClientCausal(s: State, e: Event)
    requires CausalInv(s) && (e.Connect? || e.Command? || e.Quit?)
    ensures CausalInv(Step(s, e))
  {
    hide Causal, DirsOf, CausalInv;
    var s' := Step(s, e);
    if IsIdle(s, e.tid) { ThreadIsKnown(s, e.tid); }
    if s' == s { SameCausal(s, s'); } else { MoveCausal(s, s', e.tid, s'.threads[e.tid]); }
  }

  lemma StepCausal(s: State, e: Event)
    requires ControlInv(s) && TablesInv(s) && CausalInv(s)
    ensures CausalInv(Step(s, e))
  {
    hide CausalInv, TableInv, SameShape, Replay, Login, Exit, AfterLogin, AfterExit, StepLoginDir, StepNotifyWait,
      StepNotify, StepFileWrite, StepBackupWait, StepBroadcast, StepApply;
    match e
    case ApplyNext(i) =>
      if i < |s.backups| && s.backups[i].applied < |s.backups[i].log| { ApplyCausal(s, i); }
    case Crash => SameCausal(s, Step(s, e));
    case Go(tid) =>
      if s.alive && tid in s.threads {
        assert ThreadOk(s.threads[tid]);
        match s.threads[tid]
        case LoginWait(c, socket) =>
          LoginDecision(s.table, c, socket);
          var r := Login(s.table, c, socket);
          if s.userLock.None? { LoginCausal(s, tid, c, socket, r.0, r.1); }
        case LoginDir(c, socket) => LoginDirCausal(s, tid, c, socket);
        case ExitWait(sess) => if s.userLock.None? { ExitCausal(s, tid, sess, Exit(s.table, sess.user, sess.device)); }
        case Broadcast(m, k, next) => BroadcastCausal(s, tid, m, k, next);
        case Stuck =>
        case Idle(_) =>
        case Done =>
        case _ => FileStepsCausal(s, tid);
      }
    case _ => ClientCausal(s, e);
  }
}
