/** What holds after every run of the primary, its threads and its backups. */
module ClusterTheorems {
  import opened SessionTable
  import opened SessionMap
  import opened SessionRuns
  import opened Fanout
  import opened Wire
  import opened Disk
  import opened Cluster
  import opened ClusterLocks
  import opened ClusterLogs
  import opened ClusterTables
  import opened ClusterCausal
  import opened ClusterFiles
  import opened ClusterWires

  lemma StartInv(ids: seq<int>, refusalReleases: bool)
    ensures ClusterInv(Start(ids, refusalReleases))
    ensures forall n :: WireInv(Start(ids, refusalReleases), n)
  {
    EmptyTableInv();
    assert Encodings([]) == [];
  }

  lemma StepInv(s: State, e: Event)
    requires ClusterInv(s) && Legal(s, e)
    ensures ClusterInv(Step(s, e))
  {
    hide ControlInv, LogsInv, TablesInv, StoresInv, CausalInv, Step, Legal;
    StepControl(s, e);
    StepLogs(s, e);
    StepTables(s, e);
    StepStores(s, e);
    StepCausal(s, e);
  }

  lemma {:induction false} RunInv(s: State, es: seq<Event>)
    requires ClusterInv(s) && AllLegal(s, es)
    ensures ClusterInv(Run(s, es))
  {
    hide ClusterInv, Step, Legal;
    if es != [] {
      RunInv(s, es[..|es| - 1]);
      StepInv(Run(s, es[..|es| - 1]), es[|es| - 1]);
    }
  }

  /** The state after a run from the start. */
  function Reached(ids: seq<int>, refusalReleases: bool, es: seq<Event>): State {
    Run(Start(ids, refusalReleases), es)
  }

  lemma ReachedInv(ids: seq<int>, refusalReleases: bool, es: seq<Event>)
    requires AllLegal(Start(ids, refusalReleases), es)
    ensures ClusterInv(Reached(ids, refusalReleases, es))
  {
    hide ClusterInv, Legal;
    StartInv(ids, refusalReleases);
    RunInv(Start(ids, refusalReleases), es);
  }

  lemma {:induction false} RunSlots(s: State, es: seq<Event>)
    ensures |Run(s, es).backups| == |s.backups|
    ensures forall i :: 0 <= i < |s.backups| ==> Run(s, es).backups[i].id == s.backups[i].id
  {
    hide Step;
    if es != [] {
      RunSlots(s, es[..|es| - 1]);
      SameSlots(Run(s, es[..|es| - 1]), es[|es| - 1]);
    }
  }

  // ---------- order of messages, and failover ----------

  ghost predicate Prefix(a: seq<Message>, b: seq<Message>) { |a| <= |b| && b[..|a|] == a }

  lemma PrefixIn(s: State, i: nat, j: nat, file: bool)
    requires LogInv(s, file) && i <= j < |s.backups|
    ensures
      var a, b, all := Part(s.backups[i].log, file), Part(s.backups[j].log, file), LogOf(s, file);
      Prefix(b, a) && Prefix(a, all) && |all| <= |b| + 1
  {
    hide SessionPart, FilePart;
    var a, b, all := Part(s.backups[i].log, file), Part(s.backups[j].log, file), LogOf(s, file);
    assert a + Pending(s, file, i) == all && b + Pending(s, file, j) == all;
    assert all[..|a|] == a && all[..|b|] == b;
  }

  /** In every interleaving the whole messages of one lock reach all backups in one order: a later slot's log
      is a prefix of an earlier slot's, shorter by at most one, and all are prefixes of what was committed. */
  lemma PrefixAgreement(ids: seq<int>, refusalReleases: bool, es: seq<Event>, i: nat, j: nat, file: bool)
    requires AllLegal(Start(ids, refusalReleases), es) && i <= j < |ids|
    ensures
      var s := Reached(ids, refusalReleases, es);
      && |s.backups| == |ids|
      && var a, b, all := Part(s.backups[i].log, file), Part(s.backups[j].log, file), LogOf(s, file);
         Prefix(b, a) && Prefix(a, all) && |all| <= |b| + 1
  {
    ReachedInv(ids, refusalReleases, es);
    RunSlots(Start(ids, refusalReleases), es);
    hide Legal, Run, Part, Prefix, ControlInv, TablesInv, StoresInv, CausalInv;
    PrefixIn(Reached(ids, refusalReleases, es), i, j, file);
  }

  /** After a crash, a backup that has worked off all it received lacks, per lock, at most one message that another one
      has, and at most the one that was being sent; with that one it has the dead primary's users and devices. This is so
      of whichever of the two wins the comparison of ids, which picks one exactly when the ids differ. */
  lemma Failover(ids: seq<int>, refusalReleases: bool, es: seq<Event>, w: nat, l: nat, file: bool)
    requires AllLegal(Start(ids, refusalReleases), es) && w < |ids| && l < |ids|
    ensures
      var s := Reached(ids, refusalReleases, es);
      && |s.backups| == |ids|
      && var winner, loser := s.backups[w], s.backups[l];
      (winner.applied == |winner.log| ==>
        && winner.store == Replay(winner.log) && winner.store.up
        && |Part(loser.log, file)| <= |Part(winner.log, file)| + 1
        && (Prefix(Part(loser.log, file), Part(winner.log, file)) || Prefix(Part(winner.log, file), Part(loser.log, file)))
        && |LogOf(s, file)| <= |Part(winner.log, file)| + 1
        && SameShape(s.table, Drain(winner.store, Pending(s, false, w)).table))
  {
    hide Legal, SessionPart, FilePart, ControlInv, CausalInv;
    var s := Reached(ids, refusalReleases, es);
    PrefixAgreement(ids, refusalReleases, es, if w <= l then w else l, if w <= l then l else w, file);
    RunSlots(Start(ids, refusalReleases), es);
    SessionReplication(ids, refusalReleases, es, w);
    var b := s.backups[w];
    if b.applied == |b.log| {
      assert b.log[b.applied..] + Pending(s, false, w) == Pending(s, false, w);
      assert b.log[..b.applied] == b.log;
      ReachedInv(ids, refusalReleases, es);
      LogUp(s, w);
    }
  }

  // ---------- replayed sessions ----------

  lemma ReplicationIn(s: State, i: nat)
    requires LogsInv(s) && TablesInv(s) && StoresInv(s) && i < |s.backups|
    ensures
      var b := s.backups[i];
      && b.applied <= |b.log| && b.store.up
      && var done := Drain(b.store, b.log[b.applied..] + Pending(s, false, i));
      done.up && SameShape(s.table, done.table)
  {
    hide TableInv, SameShape, Replay, SessionPart, FilePart, Apply, Drain;
    var b := s.backups[i];
    var pending := Pending(s, false, i);
    DrainReplays(b.log[..b.applied], b.log[b.applied..] + pending);
    assert b.log[..b.applied] + (b.log[b.applied..] + pending) == b.log + pending;
    if pending == [] { assert b.log + pending == b.log; } else { PartsAppend(b.log, pending[0]); }
    assert LogInv(s, false);
    assert SessionPart(b.log + pending) == s.sessionLog;
    ReplaySessions(b.log + pending);
    ReplaySessions(s.sessionLog);
    LogUp(s, i);
    ReplayPrefixUp(b.log, b.applied);
  }

  /** A backup that joined first and works off what it has received and what is still being sent to it
      never faults and has the primary's users and devices, slot by slot. */
  lemma SessionReplication(ids: seq<int>, refusalReleases: bool, es: seq<Event>, i: nat)
    requires AllLegal(Start(ids, refusalReleases), es) && i < |ids|
    ensures
      var s := Reached(ids, refusalReleases, es);
      && |s.backups| == |ids|
      && var b := s.backups[i];
      && b.applied <= |b.log| && b.store.up
      && var done := Drain(b.store, b.log[b.applied..] + Pending(s, false, i));
      done.up && TableInv(s.table) && SameShape(s.table, done.table)
  {
    ReachedInv(ids, refusalReleases, es);
    RunSlots(Start(ids, refusalReleases), es);
    hide Legal, Run, ControlInv, LogsInv, CausalInv, StoresInv, TableInv, SameShape, Replay, Drain;
    ReplicationIn(Reached(ids, refusalReleases, es), i);
  }

  lemma CausalIn(s: State, i: nat, k: nat)
    requires LogsInv(s) && TablesInv(s) && CausalInv(s) && i < |s.backups|
    requires k < |s.backups[i].log| && IsFile(s.backups[i].log[k])
    ensures
      var log := s.backups[i].log;
      && DirOf(log[k].path) in DirsOf(log[..k])
      && DirOf(log[k].path) in Replay(log[..k]).disk.dirs
      && Content(Replay(log[..k + 1]).disk, log[k].path) == Effect(log[k])
  {
    hide ThreadKnown, DirOf, DirsOf, Replay, Content;
    var log := s.backups[i].log;
    LogUp(s, i);
    assert Causal(log);
    ReplayPrefixUp(log, k);
    ReplayDirs(log[..k]);
    assert log[..k + 1] == log[..k] + [log[k]];
    SendTakesEffect(log[..k], log[k], log[k].path);
  }

  /** In a backup's log every file message follows a login of its user, so its directory is there on replay
      and the message takes effect. */
  lemma CausalOrder(ids: seq<int>, refusalReleases: bool, es: seq<Event>, i: nat, k: nat)
    requires AllLegal(Start(ids, refusalReleases), es) && i < |ids|
    ensures
      var s := Reached(ids, refusalReleases, es);
      && |s.backups| == |ids|
      && var log := s.backups[i].log;
      (k < |log| && IsFile(log[k]) ==>
        && DirOf(log[k].path) in DirsOf(log[..k])
        && DirOf(log[k].path) in Replay(log[..k]).disk.dirs
        && Content(Replay(log[..k + 1]).disk, log[k].path) == Effect(log[k]))
  {
    ReachedInv(ids, refusalReleases, es);
    RunSlots(Start(ids, refusalReleases), es);
    hide Legal, Run, ControlInv, LogsInv, TablesInv, CausalInv, StoresInv, DirOf, DirsOf, Replay, Content;
    var s := Reached(ids, refusalReleases, es);
    if k < |s.backups[i].log| && IsFile(s.backups[i].log[k]) { CausalIn(s, i, k); }
  }

  // ---------- stored files ----------

  ghost predicate NeverOverlaps(s: State, es: seq<Event>, path: string) {
    forall k :: 0 <= k <= |es| ==> NoOverlap(Run(s, es[..k]), path)
  }

  lemma {:induction false} RunPath(s: State, es: seq<Event>, i: nat, path: string)
    requires ClusterInv(s) && AllLegal(s, es) && NeverOverlaps(s, es, path)
    requires i < |s.backups| && PathInv(s, i, path)
    ensures |Run(s, es).backups| == |s.backups| && PathInv(Run(s, es), i, path)
  {
    hide ClusterInv, Step, Legal, PathInv, NoOverlap;
    if es != [] {
      var init := es[..|es| - 1];
      forall k | 0 <= k <= |init| ensures NoOverlap(Run(s, init[..k]), path) { assert init[..k] == es[..k]; }
      RunPath(s, init, i, path);
      RunInv(s, init);
      assert es[..|init|] == init && es[..|es|] == es;
      assert NoOverlap(Run(s, es[..|init|]), path) && NoOverlap(Run(s, es[..|es|]), path);
      StepPath(Run(s, init), es[|es| - 1], i, path);
    }
  }

  lemma ConvergenceIn(s: State, i: nat, path: string)
    requires ClusterInv(s) && i < |s.backups| && PathInv(s, i, path)
    ensures
      var b := s.backups[i];
      && b.applied <= |b.log|
      && var done := Drain(b.store, b.log[b.applied..]);
      && ((forall tid :: !OwedBy(s, tid, i, path)) ==> Content(done.disk, path) == Content(s.disk, path))
      && (forall tid :: OwedBy(s, tid, i, path) ==>
            Content(Apply(done, Carried(s.threads[tid]).value).disk, path) == Content(s.disk, path))
  {
    hide Replay, Drain, Apply, Content, ControlInv, LogsInv, TablesInv, CausalInv;
    var b := s.backups[i];
    DrainReplays(b.log[..b.applied], b.log[b.applied..]);
    assert b.log[..b.applied] + b.log[b.applied..] == b.log;
    forall tid | OwedBy(s, tid, i, path)
      ensures Content(Apply(Replay(b.log), Carried(s.threads[tid]).value).disk, path) == Content(s.disk, path)
    {
      OwedTakesEffect(s, tid, i, path);
    }
  }

  /** At every path on which no two operations were ever in flight together, a backup that works off its queue has the
      primary's content if none is in flight for it, and otherwise has it after the operation in flight. */
  lemma Convergence(ids: seq<int>, refusalReleases: bool, es: seq<Event>, i: nat, path: string)
    requires AllLegal(Start(ids, refusalReleases), es) && i < |ids| && NeverOverlaps(Start(ids, refusalReleases), es, path)
    ensures
      var s := Reached(ids, refusalReleases, es);
      && |s.backups| == |ids|
      && var b := s.backups[i];
      && b.applied <= |b.log|
      && var done := Drain(b.store, b.log[b.applied..]);
      && ((forall tid :: !OwedBy(s, tid, i, path)) ==> Content(done.disk, path) == Content(s.disk, path))
      && (forall tid :: OwedBy(s, tid, i, path) ==>
            Content(Apply(done, Carried(s.threads[tid]).value).disk, path) == Content(s.disk, path))
  {
    var start := Start(ids, refusalReleases);
    StartInv(ids, refusalReleases);
    assert PathInv(start, i, path);
    hide Start, Legal, NoOverlap, ClusterInv, PathInv, Content, Drain, Apply, OwedBy;
    RunPath(start, es, i, path);
    ReachedInv(ids, refusalReleases, es);
    RunSlots(start, es);
    assert |start.backups| == |ids| by { StartSlots(ids, refusalReleases); }
    hide Run, NeverOverlaps;
    ConvergenceIn(Reached(ids, refusalReleases, es), i, path);
  }

  lemma StartSlots(ids: seq<int>, refusalReleases: bool)
    ensures |Start(ids, refusalReleases).backups| == |ids|
  {}

  lemma OwedTakesEffect(s: State, tid: nat, i: nat, path: string)
    requires ClusterInv(s) && i < |s.backups| && OwedBy(s, tid, i, path) && PathInv(s, i, path)
    ensures
      var m := Carried(s.threads[tid]).value;
      Content(Apply(Replay(s.backups[i].log), m).disk, path) == Content(s.disk, path)
  {
    var t, log := s.threads[tid], s.backups[i].log;
    var m := Carried(t).value;
    CarriedIsFile(t);
    LogUp(s, i);
    ThreadIsKnown(s, tid);
    assert ThreadOk(t);
    hide Replay, DirsOf, DirOf, UserDir, ControlInv, LogsInv, TablesInv, StoresInv, CausalInv;
    if !t.Broadcast? { MessageDir(t.sess, t.frame); }
    SendTakesEffect(log, m, path);
    ReplayAppend(log, m);
  }

  // ---------- isolation of users ----------

  /** A thread is in the middle of an upload or delete of this user. */
  predicate Working(t: Thread, user: string) {
    match t
    case FileWrite(sess, _) => sess.user == user
    case NotifyWait(sess, _) => sess.user == user
    case Notify(sess, _, _) => sess.user == user
    case BackupWait(sess, _) => sess.user == user
    case Broadcast(m, _, next) => IsFile(m) && next.Idle? && next.sess.user == user
    case _ => false
  }

  ghost predicate Resting(s: State, user: string) {
    forall tid :: tid in s.threads ==> !Working(s.threads[tid], user)
  }

  /** The event starts no upload or delete of this user. */
  predicate Leaves(s: State, e: Event, user: string) {
    e.Command? && IsIdle(s, e.tid) ==> s.threads[e.tid].sess.user != user
  }

  ghost predicate AllLeave(s: State, es: seq<Event>, user: string) {
    forall k :: 0 <= k < |es| ==> Leaves(Run(s, es[..k]), es[k], user)
  }

  lemma AfterLoginRests(s: State, tid: nat, c: Connection, socket: int, table: Table, outcome: Outcome, user: string)
    requires Resting(s, user)
    ensures Resting(AfterLogin(s, tid, c, socket, table, outcome), user)
    ensures AfterLogin(s, tid, c, socket, table, outcome).disk == s.disk
  {}

  lemma StepThreadRests(s: State, tid: nat, user: string)
    requires tid in s.threads && Resting(s, user) && !s.threads[tid].LoginWait? && ThreadOk(s.threads[tid])
    ensures Resting(StepThread(s, tid), user)
  {
    NotWorking(s, tid, user);
    OneThreadMoves(s, tid);
    NewThreadRests(s, tid, user);
    hide Resting, StepThread;
    MoveRests(s, StepThread(s, tid), tid, StepThread(s, tid).threads[tid], user);
  }

  lemma NewThreadRests(s: State, tid: nat, user: string)
    requires tid in s.threads && !s.threads[tid].LoginWait? && ThreadOk(s.threads[tid]) && !Working(s.threads[tid], user)
    ensures tid in StepThread(s, tid).threads && !Working(StepThread(s, tid).threads[tid], user)
  {
    var t := s.threads[tid];
    if t.NotifyWait? || t.Notify? || t.Broadcast? {
      hide *;
      LoopRests(s, tid, user);
    } else {
      hide Exit, ApplyFile, MakeDir, FrameOk, StepLoginWait, StepNotifyWait, StepNotify, StepBroadcast;
    }
  }

  lemma LoopRests(s: State, tid: nat, user: string)
    requires tid in s.threads && !Working(s.threads[tid], user)
    requires var t := s.threads[tid]; (t.NotifyWait? || t.Notify? || t.Broadcast?) && ThreadOk(t)
    ensures tid in StepThread(s, tid).threads && !Working(StepThread(s, tid).threads[tid], user)
  {
    hide *;
    if s.threads[tid].Broadcast? { BroadcastRests(s, tid, user); } else { NotifyRests(s, tid, user); }
  }

  lemma BroadcastRests(s: State, tid: nat, user: string)
    requires tid in s.threads && s.threads[tid].Broadcast? && !Working(s.threads[tid], user) && ThreadOk(s.threads[tid])
    ensures tid in StepThread(s, tid).threads && !Working(StepThread(s, tid).threads[tid], user)
  {
    hide StepThread, MessageOk, FrameOk, UserOk;
    BroadcastIs(s, tid);
  }

  lemma NotifyRests(s: State, tid: nat, user: string)
    requires tid in s.threads && (s.threads[tid].NotifyWait? || s.threads[tid].Notify?) && !Working(s.threads[tid], user)
    ensures tid in StepThread(s, tid).threads && !Working(StepThread(s, tid).threads[tid], user)
  {
    hide Targets, Todo, AddFrames, UserAt, Get, StepLoginWait, StepLoginDir, StepExitWait, StepFileWrite, StepBackupWait,
      StepBroadcast;
  }

  lemma NotWorking(s: State, tid: nat, user: string)
    requires tid in s.threads && Resting(s, user)
    ensures !Working(s.threads[tid], user)
  {}

  lemma MoveRests(s: State, s': State, tid: nat, t: Thread, user: string)
    requires Resting(s, user) && s'.threads == s.threads[tid := t] && !Working(t, user)
    ensures Resting(s', user)
  {}

  lemma ClientRests(s: State, e: Event, user: string)
    requires Resting(s, user) && Leaves(s, e, user) && !e.Go?
    ensures Resting(Step(s, e), user)
  {
    hide Apply;
    if e.Quit? && IsIdle(s, e.tid) { assert !Working(ExitWait(s.threads[e.tid].sess), user); }
  }

  lemma StepRests(s: State, e: Event, user: string)
    requires ThreadsOk(s) && Resting(s, user) && Leaves(s, e, user)
    ensures Resting(Step(s, e), user)
  {
    if !e.Go? {
      ClientRests(s, e, user);
    } else if s.alive && e.tid in s.threads {
      hide Login, Resting, AfterLogin, StepLoginDir, StepExitWait, StepFileWrite,
        StepNotifyWait, StepNotify, StepBackupWait, StepBroadcast;
      match s.threads[e.tid]
      case LoginWait(c, socket) =>
        var r := Login(s.table, c, socket);
        AfterLoginRests(s, e.tid, c, socket, r.0, r.1, user);
      case _ => StepThreadRests(s, e.tid, user);
    }
  }

  /** Only a write of this user's own changes one of the user's files. */
  lemma StepDisk(s: State, e: Event, user: string, file: string)
    requires ThreadsOk(s) && Resting(s, user) && '/' !in file
    ensures Content(Step(s, e).disk, StoredPath(user, file)) == Content(s.disk, StoredPath(user, file))
  {
    hide Login, Exit, AfterLogin, AfterExit, StepNotifyWait, StepNotify, StepBackupWait, StepBroadcast,
      Apply, StoredPath, UserDir, DirOf, FrameOk;
    if e.Go? && s.alive && e.tid in s.threads {
      match s.threads[e.tid]
      case LoginWait(c, socket) =>
        var r := Login(s.table, c, socket);
        AfterLoginRests(s, e.tid, c, socket, r.0, r.1, user);
      case FileWrite(sess, f) =>
        assert ThreadOk(s.threads[e.tid]) && !Working(s.threads[e.tid], user);
        if StoredPath(sess.user, f.name) == StoredPath(user, file) {
          StoredPathInjective(sess.user, f.name, user, file);
        }
      case _ => OtherDisk(s, e.tid);
    }
  }

  lemma OtherDisk(s: State, tid: nat)
    requires tid in s.threads && !s.threads[tid].LoginWait? && !s.threads[tid].FileWrite?
    ensures StepThread(s, tid).disk.files == s.disk.files
  {
    hide Exit, Targets, Todo, AddFrames, UserAt, MessageOf, Get, IsFile;
    match s.threads[tid]
    case NotifyWait(sess, f) => hide StepNotify, StepBroadcast;
    case _ =>
  }

  /** Only a send of this user's own changes what a backup's replay has at one of the user's files. */
  lemma StepReplayed(s: State, e: Event, user: string, file: string, i: nat)
    requires ClusterInv(s) && Resting(s, user) && '/' !in file && i < |s.backups|
    ensures |Step(s, e).backups| == |s.backups|
    ensures Content(Replay(Step(s, e).backups[i].log).disk, StoredPath(user, file)) ==
            Content(Replay(s.backups[i].log).disk, StoredPath(user, file))
  {
    SameSlots(s, e);
    hide ClusterInv, Resting, StoredPath;
    if !LogStep(s, e) {
      OtherBackups(s, e);
    } else if e.ApplyNext? {
      hide Apply, Replay;
    } else if s.alive {
      var t := s.threads[e.tid];
      SendReplayed(s, e.tid, t.message, t.slot, t.next, user, file, i);
    }
  }

  lemma SendReplayed(s: State, tid: nat, m: Message, k: nat, next: Thread, user: string, file: string, i: nat)
    requires ClusterInv(s) && Resting(s, user) && '/' !in file && i < |s.backups|
    requires tid in s.threads && s.threads[tid] == Broadcast(m, k, next)
    ensures
      var s' := StepBroadcast(s, tid, m, k, next);
      && |s'.backups| == |s.backups|
      && Content(Replay(s'.backups[i].log).disk, StoredPath(user, file)) ==
         Content(Replay(s.backups[i].log).disk, StoredPath(user, file))
  {
    if k == i {
      ThreadIsKnown(s, tid);
      ThreadControl(s, tid);
      NotWorking(s, tid, user);
      LogUp(s, i);
      hide ClusterInv, Resting, Replay, Content, DirsOf, DirOf;
      DirOfIs(UserDir(user), file);
      if IsFile(m) { UserDirInjective(next.sess.user, user); }
      assert ThreadOk(next);
      SendTakesEffect(s.backups[i].log, m, StoredPath(user, file));
    } else {
      hide Replay, ClusterInv, Resting;
    }
  }

  lemma UserDirInjective(user: string, user': string)
    ensures UserDir(user) == UserDir(user') ==> user == user'
  {
    assert user == UserDir(user)[|"./database/"|..] && user' == UserDir(user')[|"./database/"|..];
  }

  /** While a user starts no upload or delete, nobody else's change any of the user's files, neither on
      the primary nor on what any backup replays. */
  lemma {:induction false} Isolation(s: State, es: seq<Event>, user: string, file: string, i: nat)
    requires ClusterInv(s) && AllLegal(s, es) && Resting(s, user) && AllLeave(s, es, user) && '/' !in file && i < |s.backups|
    ensures
      var s', path := Run(s, es), StoredPath(user, file);
      && Resting(s', user) && |s'.backups| == |s.backups|
      && Content(s'.disk, path) == Content(s.disk, path)
      && Content(Replay(s'.backups[i].log).disk, path) == Content(Replay(s.backups[i].log).disk, path)
  {
    hide ClusterInv, Step, Legal, Resting, Leaves, StoredPath, Content, Replay;
    if es != [] {
      var init := es[..|es| - 1];
      forall k | 0 <= k < |init| ensures Leaves(Run(s, init[..k]), init[k], user) {
        assert init[..k] == es[..k];
        assert Leaves(Run(s, es[..k]), es[k], user);
      }
      Isolation(s, init, user, file, i);
      RunInv(s, init);
      var s1 := Run(s, init);
      assert Leaves(Run(s, es[..|es| - 1]), es[|es| - 1], user);
      InvThreadsOk(s1);
      StepRests(s1, es[|es| - 1], user);
      StepDisk(s1, es[|es| - 1], user, file);
      StepReplayed(s1, es[|es| - 1], user, file, i);
    }
  }

  lemma InvThreadsOk(s: State)
    requires ClusterInv(s)
    ensures ThreadsOk(s) && ControlInv(s)
  {}

  // ---------- notification frames ----------

  lemma {:induction false} RunWire(s: State, es: seq<Event>, n: int)
    requires ClusterInv(s) && AllLegal(s, es) && WireInv(s, n)
    ensures WireInv(Run(s, es), n)
  {
    hide ClusterInv, Step, Legal, WireInv;
    if es != [] {
      var init := es[..|es| - 1];
      RunWire(s, init, n);
      RunInv(s, init);
      InvThreadsOk(Run(s, init));
      StepWire(Run(s, init), es[|es| - 1], n);
    }
  }

  /** However the threads interleave, write by write, the bytes on a notification descriptor since its login
      ack are the first k frames committed for it, in lock order, and a proper part of the next one; the
      client decodes exactly those k frames, and all of them when no notification is going on. */
  lemma FrameIntegrity(ids: seq<int>, refusalReleases: bool, es: seq<Event>, n: int) returns (k: nat, part: string)
    requires AllLegal(Start(ids, refusalReleases), es)
    ensures
      var s := Reached(ids, refusalReleases, es);
      var fs := FramesOn(s, n);
      && k <= |fs| && BytesOn(s, n) == EncodeAll(fs[..k]) + part
      && (if k == |fs| then part == "" else |part| < |Encode(fs[k])| && part == Encode(fs[k])[..|part|])
      && DecodeAll(BytesOn(s, n)) == (CommandsOf(fs[..k]), part)
      && (Left(s, n) == "" ==> DecodeAll(BytesOn(s, n)) == (CommandsOf(fs), ""))
  {
    StartInv(ids, refusalReleases);
    hide Run, Start, Legal, ClusterInv, EncodeAll, Encode, DecodeAll, CommandsOf, FrameOk;
    RunWire(Start(ids, refusalReleases), es, n);
    var s := Reached(ids, refusalReleases, es);
    var fs, bytes := FramesOn(s, n), BytesOn(s, n);
    assert bytes + Left(s, n) == EncodeAll(fs);
    assert EncodeAll(fs)[..|bytes|] == bytes;
    k, part := DecodePrefix(fs, |bytes|);
    if Left(s, n) == "" {
      assert bytes + "" == bytes && EncodeAll(fs) + "" == EncodeAll(fs);
      NothingDecodes();
      DecodeStream(fs, "");
    }
  }

  lemma NothingDecodes()
    ensures DecodeAll("") == ([], "")
  {}
}
