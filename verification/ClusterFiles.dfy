/** Stored files: what a backup's replay gives at a path, against what the primary has there. */
module ClusterFiles {
  import opened Limits
  import opened SessionTable
  import opened SessionRuns
  import opened Fanout
  import opened Wire
  import opened Disk
  import opened Cluster
  import opened ClusterLocks
  import opened ClusterLogs
  import opened ClusterTables
  import opened ClusterCausal

  ghost predicate ClusterInv(s: State) {
    ControlInv(s) && LogsInv(s) && TablesInv(s) && StoresInv(s) && CausalInv(s)
  }

  /** The message of an operation that has changed the primary's disk and not finished with the backups. */
  function Carried(t: Thread): Option<Message> {
    match t
    case NotifyWait(sess, f) => Some(MessageOf(sess, f))
    case Notify(sess, f, _) => Some(MessageOf(sess, f))
    case BackupWait(sess, f) => Some(MessageOf(sess, f))
    case Broadcast(m, _, _) => if IsFile(m) then Some(m) else None
    case _ => None
  }

  lemma CarriedIsFile(t: Thread)
    ensures Carried(t).Some? ==> IsFile(Carried(t).value)
  {}

  /** The thread is carrying out an operation on this path that has not been sent to slot i yet. */
  predicate Owes(t: Thread, i: nat, path: string) {
    CarriedIsFile(t);
    Carried(t).Some? && Carried(t).value.path == path && (t.Broadcast? ==> t.slot <= i)
  }

  /** The thread is carrying out an operation on this path that has changed the primary's disk. */
  predicate IsOn(t: Thread, path: string) {
    CarriedIsFile(t);
    Carried(t).Some? && Carried(t).value.path == path
  }

  /** No two operations in flight are on this path. */
  ghost predicate NoOverlap(s: State, path: string) {
    forall a, b | a in s.threads && b in s.threads && a != b :: !(IsOn(s.threads[a], path) && IsOn(s.threads[b], path))
  }

  ghost predicate OwedBy(s: State, tid: nat, i: nat, path: string) {
    tid in s.threads && Owes(s.threads[tid], i, path)
  }

  /** An owed operation is what the primary has at the path; with none owed the backup's replay has the same. */
  ghost predicate PathInv(s: State, i: nat, path: string)
    requires i < |s.backups|
  {
    && (forall tid :: OwedBy(s, tid, i, path) ==> Content(s.disk, path) == EffectOf(s.threads[tid]))
    && ((forall tid :: !OwedBy(s, tid, i, path)) ==> Content(Replay(s.backups[i].log).disk, path) == Content(s.disk, path))
  }

  function EffectOf(t: Thread): Option<string>
    requires Carried(t).Some?
  {
    CarriedIsFile(t);
    Effect(Carried(t).value)
  }

  // ---------- logs replay without faults ----------

  /** No log a backup has received makes it fault. */
  lemma LogUp(s: State, i: nat)
    requires LogsInv(s) && TablesInv(s) && i < |s.backups|
    ensures Replay(s.backups[i].log).up
  {
    var log := s.backups[i].log;
    assert SessionPart(log) + Pending(s, false, i) == s.sessionLog by { assert LogInv(s, false); }
    assert s.sessionLog[..|SessionPart(log)|] == SessionPart(log);
    ReplayPrefixUp(s.sessionLog, |SessionPart(log)|);
    ReplaySessions(log);
  }

  /** A file message sent to a backup takes effect there. */
  lemma SendTakesEffect(log: seq<Message>, m: Message, path: string)
    requires Replay(log).up && (IsFile(m) ==> DirOf(m.path) in DirsOf(log))
    ensures Content(Replay(log + [m]).disk, path) ==
      if IsFile(m) && m.path == path then Effect(m) else Content(Replay(log).disk, path)
  {
    ReplayAppend(log, m);
    ReplayDirs(log);
    hide Replay, DirsOf, ReplayInsert, ReplayExit, DirOf;
  }

  lemma OneOwner(s: State, tid: nat, i: nat, path: string)
    requires NoOverlap(s, path) && OwedBy(s, tid, i, path)
    ensures forall x :: OwedBy(s, x, i, path) ==> x == tid
  {}

  // ---------- steps ----------

  /** Nothing at this path changes, and what is owed to the slot stays the same. */
  lemma QuietPath(s: State, s': State, i: nat, path: string)
    requires i < |s.backups| && |s'.backups| == |s.backups| && PathInv(s, i, path)
    requires s'.disk.files == s.disk.files
    requires Content(Replay(s'.backups[i].log).disk, path) == Content(Replay(s.backups[i].log).disk, path)
    requires forall tid :: OwedBy(s', tid, i, path) <==> OwedBy(s, tid, i, path)
    requires forall tid :: OwedBy(s', tid, i, path) ==> EffectOf(s'.threads[tid]) == EffectOf(s.threads[tid])
    ensures PathInv(s', i, path)
  {
    hide Owes, EffectOf, Replay;
  }

  /** A thread moves on with the same operation, or without one. */
  lemma MovePath(s: State, s': State, tid: nat, t: Thread, i: nat, path: string)
    requires i < |s.backups| && s'.backups == s.backups && PathInv(s, i, path)
    requires s'.disk.files == s.disk.files && s'.threads == s.threads[tid := t]
    requires if tid in s.threads then Carried(t) == Carried(s.threads[tid]) && Owes(t, i, path) == Owes(s.threads[tid], i, path)
             else Carried(t).None?
    ensures PathInv(s', i, path)
  {
    hide Replay, Carried;
    QuietPath(s, s', i, path);
  }

  lemma WritePath(s: State, tid: nat, sess: Session, f: Frame, i: nat, path: string)
    requires CausalInv(s) && i < |s.backups| && PathInv(s, i, path)
    requires tid in s.threads && s.threads[tid] == FileWrite(sess, f) && '/' !in f.name
    requires NoOverlap(StepFileWrite(s, tid, sess, f), path)
    ensures PathInv(StepFileWrite(s, tid, sess, f), i, path)
  {
    var s' := StepFileWrite(s, tid, sess, f);
    var m := MessageOf(sess, f);
    MessageDir(sess, f);
    ThreadIsKnown(s, tid);
    hide Replay, DirsOf, DirOf, UserDir, StoredPath, CausalInv;
    assert Carried(s'.threads[tid]) == Some(m);
    if m.path == path {
      assert Content(s'.disk, path) == Effect(m);
      assert OwedBy(s', tid, i, path);
      OneOwner(s', tid, i, path);
    } else {
      assert Content(s'.disk, path) == Content(s.disk, path);
      forall x ensures OwedBy(s', x, i, path) <==> OwedBy(s, x, i, path) {}
    }
  }

  /** The send that an operation owed to the slot: the replay now has what the primary has. */
  lemma SettlePath(s: State, tid: nat, m: Message, next: Thread, i: nat)
    requires CausalInv(s) && i < |s.backups| && Replay(s.backups[i].log).up
    requires tid in s.threads && s.threads[tid] == Broadcast(m, i, next) && next.Idle? && IsFile(m) && NoOverlap(s, m.path)
    requires PathInv(s, i, m.path)
    ensures PathInv(StepBroadcast(s, tid, m, i, next), i, m.path)
  {
    var s' := StepBroadcast(s, tid, m, i, next);
    ThreadIsKnown(s, tid);
    hide DirsOf, DirOf, UserDir, CausalInv, Replay, NoOverlap;
    SendTakesEffect(s.backups[i].log, m, m.path);
    assert OwedBy(s, tid, i, m.path);
    OneOwner(s, tid, i, m.path);
    forall x ensures !OwedBy(s', x, i, m.path) {}
  }

  lemma BroadcastPath(s: State, tid: nat, m: Message, k: nat, next: Thread, i: nat, path: string)
    requires CausalInv(s) && i < |s.backups| && Replay(s.backups[i].log).up && PathInv(s, i, path) && NoOverlap(s, path)
    requires tid in s.threads && s.threads[tid] == Broadcast(m, k, next)
    requires next.LoginDir? || next.Idle? || next.Done?
    ensures PathInv(StepBroadcast(s, tid, m, k, next), i, path)
  {
    if k == i && IsFile(m) && m.path == path {
      ThreadIsKnown(s, tid);
      hide CausalInv, Replay, PathInv, NoOverlap;
      SettlePath(s, tid, m, next, i);
    } else {
      OtherOwners(s, tid, m, k, next, i, path);
      OtherContent(s, tid, m, k, next, i, path);
      hide CausalInv, Replay, PathInv, NoOverlap, OwedBy, StepBroadcast;
      QuietPath(s, StepBroadcast(s, tid, m, k, next), i, path);
    }
  }

  lemma OtherContent(s: State, tid: nat, m: Message, k: nat, next: Thread, i: nat, path: string)
    requires CausalInv(s) && i < |s.backups| && Replay(s.backups[i].log).up
    requires tid in s.threads && s.threads[tid] == Broadcast(m, k, next)
    requires !(k == i && IsFile(m) && m.path == path)
    ensures
      var s' := StepBroadcast(s, tid, m, k, next);
      && |s'.backups| == |s.backups| && s'.disk == s.disk
      && Content(Replay(s'.backups[i].log).disk, path) == Content(Replay(s.backups[i].log).disk, path)
  {
    if k == i {
      ThreadIsKnown(s, tid);
      hide DirsOf, DirOf, UserDir, CausalInv, Replay, Content;
      SendTakesEffect(s.backups[i].log, m, path);
    } else {
      hide CausalInv, Replay, Content, IsFile;
    }
  }

  lemma OtherOwners(s: State, tid: nat, m: Message, k: nat, next: Thread, i: nat, path: string)
    requires i < |s.backups| && tid in s.threads && s.threads[tid] == Broadcast(m, k, next)
    requires next.LoginDir? || next.Idle? || next.Done?
    requires !(k == i && IsFile(m) && m.path == path)
    ensures
      var s' := StepBroadcast(s, tid, m, k, next);
      && (forall x :: OwedBy(s', x, i, path) <==> OwedBy(s, x, i, path))
      && (forall x :: OwedBy(s', x, i, path) ==> EffectOf(s'.threads[x]) == EffectOf(s.threads[x]))
  {}

  lemma LoginPath(s: State, tid: nat, c: Connection, socket: int, table: Table, outcome: Outcome, i: nat, path: string)
    requires i < |s.backups| && PathInv(s, i, path) && tid in s.threads && s.threads[tid] == LoginWait(c, socket)
    ensures PathInv(AfterLogin(s, tid, c, socket, table, outcome), i, path)
  {
    hide Replay, PathInv;
    var s' := AfterLogin(s, tid, c, socket, table, outcome);
    if outcome.Fault? { QuietPath(s, s', i, path); } else { MovePath(s, s', tid, s'.threads[tid], i, path); }
  }

  lemma ExitPath(s: State, tid: nat, sess: Session, result: Option<Table>, i: nat, path: string)
    requires i < |s.backups| && PathInv(s, i, path) && tid in s.threads && s.threads[tid] == ExitWait(sess)
    ensures PathInv(AfterExit(s, tid, sess, result), i, path)
  {
    hide Replay, PathInv;
    var s' := AfterExit(s, tid, sess, result);
    if result.None? { QuietPath(s, s', i, path); } else { MovePath(s, s', tid, s'.threads[tid], i, path); }
  }

  lemma FileStepsPath(s: State, tid: nat, i: nat, path: string)
    requires i < |s.backups| && PathInv(s, i, path) && tid in s.threads
    requires var t := s.threads[tid]; t.NotifyWait? || t.Notify? || t.BackupWait? || t.LoginDir?
    ensures PathInv(StepThread(s, tid), i, path)
  {
    hide Replay, PathInv, Targets, Todo, AddFrames, UserAt;
    var s' := StepThread(s, tid);
    MessageIsFile(s.threads[tid]);
    OneThreadMoves(s, tid);
    MovePath(s, s', tid, s'.threads[tid], i, path);
  }

  lemma MessageIsFile(t: Thread)
    ensures t.BackupWait? ==> IsFile(MessageOf(t.sess, t.frame))
  {}

  lemma ClientPath(s: State, e: Event, i: nat, path: string)
    requires i < |s.backups| && PathInv(s, i, path)
    requires e.Connect? || e.Command? || e.Quit? || e.Crash? || e.ApplyNext?
    ensures PathInv(Step(s, e), i, path)
  {
    hide Replay, PathInv, Apply;
    var s' := Step(s, e);
    if s'.threads == s.threads { QuietPath(s, s', i, path); } else { MovePath(s, s', e.tid, s'.threads[e.tid], i, path); }
  }

  lemma StepPath(s: State, e: Event, i: nat, path: string)
    requires ClusterInv(s) && i < |s.backups| && PathInv(s, i, path) && NoOverlap(s, path) && NoOverlap(Step(s, e), path)
    ensures |Step(s, e).backups| == |s.backups| && PathInv(Step(s, e), i, path)
  {
    SameSlots(s, e);
    hide CausalInv, TablesInv, StoresInv, LogsInv, PathInv, NoOverlap, Replay, Login, Exit, AfterLogin, AfterExit,
      StepLoginDir, StepNotifyWait, StepNotify, StepFileWrite, StepBackupWait, StepBroadcast, StepApply, FrameOk;
    if e.Go? {
      var tid := e.tid;
      if s.alive && tid in s.threads {
        assert ThreadOk(s.threads[tid]);
        match s.threads[tid]
        case LoginWait(c, socket) =>
          var r := Login(s.table, c, socket);
          if s.userLock.None? { LoginPath(s, tid, c, socket, r.0, r.1, i, path); }
        case ExitWait(sess) => if s.userLock.None? { ExitPath(s, tid, sess, Exit(s.table, sess.user, sess.device), i, path); }
        case Broadcast(m, k, next) => LogUp(s, i); BroadcastPath(s, tid, m, k, next, i, path);
        case FileWrite(sess, f) => WritePath(s, tid, sess, f, i, path);
        case Stuck =>
        case Idle(_) =>
        case Done =>
        case _ => FileStepsPath(s, tid, i, path);
      }
    } else {
      ClientPath(s, e, i, path);
    }
  }

  lemma SameSlots(s: State, e: Event)
    ensures |Step(s, e).backups| == |s.backups|
    ensures forall i :: 0 <= i < |s.backups| ==> Step(s, e).backups[i].id == s.backups[i].id
  {
    if !LogStep(s, e) { OtherBackups(s, e); } else { hide Apply; }
  }
}
