/** What every thread of the primary is there for, in terms of what the clients did: the connection it was started for,
    and the command it carries out. */
module ClusterHistory {
  import opened Limits
  import opened SessionTable
  import opened Fanout
  import opened Wire
  import opened Disk
  import opened Cluster
  import opened ClusterLocks
  import opened ClusterFiles
  import opened ClusterWires
  import opened ClusterTheorems

  // ---------- events of the clients ----------

  predicate AskedAt(es: seq<Event>, tid: nat, c: Connection, n: int, j: nat) {
    && j < |es| && es[j] == Connect(tid, c, n)
    && forall i :: 0 <= i < j ==> !(es[i].Connect? && es[i].tid == tid)
  }

  /** The thread was started for this connection on descriptor n. */
  ghost predicate Asks(es: seq<Event>, tid: nat, c: Connection, n: int) { exists j: nat :: AskedAt(es, tid, c, n, j) }

  predicate Commands(s: State, e: Event, tid: nat) { e.Command? && e.tid == tid && IsIdle(s, tid) }

  ghost predicate OrderedAt(s0: State, es: seq<Event>, tid: nat, f: Frame, j: nat) {
    && j < |es| && es[j] == Command(tid, f) && IsIdle(Run(s0, es[..j]), tid)
    && forall i :: j < i < |es| ==> !Commands(Run(s0, es[..i]), es[i], tid)
  }

  /** The last command that the thread took is this upload or delete. */
  ghost predicate Ordered(s0: State, es: seq<Event>, tid: nat, f: Frame) { exists j: nat :: OrderedAt(s0, es, tid, f, j) }

  // ---------- what a thread does for them ----------

  /** The thread serves this connection: only the first two connections of a device take commands. */
  ghost predicate Serves(t: Thread, c: Connection, n: int) {
    match t
    case LoginWait(c', n') => c' == c && n' == n
    case LoginDir(c', n') => c' == c && n' == n
    case Stuck => true
    case Done => true
    case Broadcast(m, _, next) =>
      && Serves(next, c, n) && (IsFile(m) ==> next.Idle?)
      && (m.InsertMsg? ==> m.conn == c) && (m.ExitMsg? ==> m.user == c.user && m.device == c.device)
    case _ => t.sess == Session(c.user, c.device, n) && (c.socketType == 1 || c.socketType == 2)
  }

  predicate Works(t: Thread) {
    t.FileWrite? || t.NotifyWait? || t.Notify? || t.BackupWait? || (t.Broadcast? && IsFile(t.message))
  }

  /** The thread carries out this command of this user. */
  predicate Carries(t: Thread, user: string, f: Frame)
    requires Works(t)
  {
    match t
    case Broadcast(m, _, _) =>
      && m.path == StoredPath(user, f.name)
      && (if f.command == UPLOAD then m.UploadMsg? && m.payload == f.payload else m.DeleteMsg?)
    case _ => t.frame == f
  }

  lemma LoginServes(s: State, tid: nat, c: Connection, socket: int, table: Table, outcome: Outcome, n: int)
    requires tid in s.threads && s.threads[tid] == LoginWait(c, socket) && socket == n
    ensures
      var s' := AfterLogin(s, tid, c, socket, table, outcome);
      tid in s'.threads && Serves(s'.threads[tid], c, n) && !Works(s'.threads[tid])
  {}

  lemma ExitServes(s: State, tid: nat, sess: Session, result: Option<Table>, c: Connection, n: int)
    requires tid in s.threads && s.threads[tid] == ExitWait(sess) && Serves(ExitWait(sess), c, n)
    ensures
      var s' := AfterExit(s, tid, sess, result);
      tid in s'.threads && Serves(s'.threads[tid], c, n) && !Works(s'.threads[tid])
  {}

  /** A thread's own step keeps what it is there for. */
  lemma StepServes(s: State, tid: nat, c: Connection, n: int)
    requires tid in s.threads && Serves(s.threads[tid], c, n) && ThreadOk(s.threads[tid])
    ensures tid in StepThread(s, tid).threads
    ensures
      var t, t' := s.threads[tid], StepThread(s, tid).threads[tid];
      Serves(t', c, n) && (Works(t') ==> Works(t) && forall f :: Carries(t, c.user, f) ==> Carries(t', c.user, f))
  {
    var t := s.threads[tid];
    hide *;
    match t
    case LoginWait(c', socket) => LoginStepServes(s, tid, c, n);
    case ExitWait(sess) => ExitStepServes(s, tid, c, n);
    case Broadcast(_, _, _) => SendStepServes(s, tid, c, n);
    case _ => OwnStepServes(s, tid, c, n);
  }

  lemma LoginStepServes(s: State, tid: nat, c: Connection, n: int)
    requires tid in s.threads && Serves(s.threads[tid], c, n) && s.threads[tid].LoginWait?
    ensures tid in StepThread(s, tid).threads
    ensures var t' := StepThread(s, tid).threads[tid]; Serves(t', c, n) && !Works(t')
  {
    hide Login, AfterLogin;
    var r := Login(s.table, c, n);
    LoginServes(s, tid, c, n, r.0, r.1, n);
  }

  lemma ExitStepServes(s: State, tid: nat, c: Connection, n: int)
    requires tid in s.threads && Serves(s.threads[tid], c, n) && s.threads[tid].ExitWait?
    ensures tid in StepThread(s, tid).threads
    ensures var t' := StepThread(s, tid).threads[tid]; Serves(t', c, n) && !Works(t')
  {
    hide Exit, AfterExit;
    var sess := s.threads[tid].sess;
    ExitServes(s, tid, sess, Exit(s.table, sess.user, sess.device), c, n);
  }

  lemma SendStepServes(s: State, tid: nat, c: Connection, n: int)
    requires tid in s.threads && Serves(s.threads[tid], c, n) && s.threads[tid].Broadcast? && ThreadOk(s.threads[tid])
    ensures tid in StepThread(s, tid).threads
    ensures
      var t, t' := s.threads[tid], StepThread(s, tid).threads[tid];
      Serves(t', c, n) && (Works(t') ==> Works(t) && forall f :: Carries(t, c.user, f) ==> Carries(t', c.user, f))
  {
    hide StepThread, MessageOk, ConnectionOk, SessionOk, FrameOk;
    BroadcastIs(s, tid);
  }

  lemma OwnStepServes(s: State, tid: nat, c: Connection, n: int)
    requires tid in s.threads && Serves(s.threads[tid], c, n)
    requires var t := s.threads[tid]; !t.LoginWait? && !t.ExitWait? && !t.Broadcast?
    ensures tid in StepThread(s, tid).threads
    ensures
      var t, t' := s.threads[tid], StepThread(s, tid).threads[tid];
      Serves(t', c, n) && (Works(t') ==> Works(t) && forall f :: Carries(t, c.user, f) ==> Carries(t', c.user, f))
  {
    hide *;
    match s.threads[tid]
    case NotifyWait(_, _) => NotifyStepServes(s, tid, c, n);
    case Notify(_, _, _) => NotifyStepServes(s, tid, c, n);
    case BackupWait(_, _) => FileStepServes(s, tid, c, n);
    case FileWrite(_, _) => FileStepServes(s, tid, c, n);
    case _ => OtherStepServes(s, tid, c, n);
  }

  lemma NotifyStepServes(s: State, tid: nat, c: Connection, n: int)
    requires tid in s.threads && Serves(s.threads[tid], c, n)
    requires var t := s.threads[tid]; t.NotifyWait? || t.Notify?
    ensures tid in StepThread(s, tid).threads
    ensures
      var t, t' := s.threads[tid], StepThread(s, tid).threads[tid];
      Serves(t', c, n) && (Works(t') ==> Works(t) && forall f :: Carries(t, c.user, f) ==> Carries(t', c.user, f))
  {
    hide StepLoginWait, StepExitWait, StepBroadcast, StepLoginDir, StepFileWrite, StepBackupWait, UserAt, Targets, Todo,
      AddFrames,
      StoredPath;
  }

  lemma FileStepServes(s: State, tid: nat, c: Connection, n: int)
    requires tid in s.threads && Serves(s.threads[tid], c, n)
    requires var t := s.threads[tid]; t.FileWrite? || t.BackupWait?
    ensures tid in StepThread(s, tid).threads
    ensures
      var t, t' := s.threads[tid], StepThread(s, tid).threads[tid];
      Serves(t', c, n) && (Works(t') ==> Works(t) && forall f :: Carries(t, c.user, f) ==> Carries(t', c.user, f))
  {
    hide StepLoginWait, StepExitWait, StepBroadcast, StepLoginDir, StepNotifyWait, StepNotify, ApplyFile, StoredPath;
  }

  lemma OtherStepServes(s: State, tid: nat, c: Connection, n: int)
    requires tid in s.threads && Serves(s.threads[tid], c, n)
    requires var t := s.threads[tid]; t.LoginDir? || t.Stuck? || t.Idle? || t.Done?
    ensures tid in StepThread(s, tid).threads
    ensures var t' := StepThread(s, tid).threads[tid]; Serves(t', c, n) && !Works(t')
  {
    hide StepLoginWait, StepExitWait, StepBroadcast, StepFileWrite, StepBackupWait, StepNotifyWait, StepNotify, MakeDir;
  }

  // ---------- runs ----------

  /** The thread serves the connection it was started for, and carries out the last command that it took. */
  ghost predicate ThreadHistory(s0: State, es: seq<Event>, tid: nat, t: Thread) {
    exists c, n ::
      && Asks(es, tid, c, n) && Serves(t, c, n)
      && (Works(t) ==> exists f :: Ordered(s0, es, tid, f) && Carries(t, c.user, f))
  }

  ghost predicate Started(es: seq<Event>, s: State) {
    s.alive ==> forall j :: 0 <= j < |es| && es[j].Connect? ==> es[j].tid in s.threads
  }

  ghost predicate HistoryInv(s0: State, es: seq<Event>) {
    var s := Run(s0, es);
    Started(es, s) && forall tid :: tid in s.threads ==> ThreadHistory(s0, es, tid, s.threads[tid])
  }

  lemma AsksMore(es: seq<Event>, tid: nat, c: Connection, n: int)
    requires es != [] && Asks(es[..|es| - 1], tid, c, n)
    ensures Asks(es, tid, c, n)
  {
    var init := es[..|es| - 1];
    var j: nat :| AskedAt(init, tid, c, n, j);
    assert forall i :: 0 <= i <= j ==> es[i] == init[i];
    assert AskedAt(es, tid, c, n, j);
  }

  lemma OrderedMore(s0: State, es: seq<Event>, tid: nat, f: Frame)
    requires es != [] && Ordered(s0, es[..|es| - 1], tid, f)
    requires !Commands(Run(s0, es[..|es| - 1]), es[|es| - 1], tid)
    ensures Ordered(s0, es, tid, f)
  {
    hide Run, Commands;
    var init := es[..|es| - 1];
    var j: nat :| OrderedAt(s0, init, tid, f, j);
    assert forall i :: 0 <= i < |init| ==> es[i] == init[i] && es[..i] == init[..i];
    assert es[..|es| - 1] == init;
    assert OrderedAt(s0, es, tid, f, j);
  }

  lemma OrderedNow(s0: State, es: seq<Event>, tid: nat, f: Frame)
    requires es != [] && es[|es| - 1] == Command(tid, f) && IsIdle(Run(s0, es[..|es| - 1]), tid)
    ensures Ordered(s0, es, tid, f)
  {
    hide Run;
    assert OrderedAt(s0, es, tid, f, |es| - 1);
  }

  lemma AsksNow(es: seq<Event>, tid: nat, c: Connection, n: int)
    requires es != [] && es[|es| - 1] == Connect(tid, c, n)
    requires forall j :: 0 <= j < |es| - 1 && es[j].Connect? ==> es[j].tid != tid
    ensures Asks(es, tid, c, n)
  {
    assert AskedAt(es, tid, c, n, |es| - 1);
  }

  /** A thread that does not take a command in this event. */
  lemma StillHistory(s0: State, es: seq<Event>, tid: nat, t: Thread, t': Thread)
    requires es != [] && ThreadHistory(s0, es[..|es| - 1], tid, t) && !Commands(Run(s0, es[..|es| - 1]), es[|es| - 1], tid)
    requires forall c, n :: Serves(t, c, n) ==>
               Serves(t', c, n) && (Works(t') ==> Works(t) && forall f :: Carries(t, c.user, f) ==> Carries(t', c.user, f))
    ensures ThreadHistory(s0, es, tid, t')
  {
    hide Run, Asks, Ordered, Commands, Serves, Carries, Works;
    var init := es[..|es| - 1];
    var c, n :|
      Asks(init, tid, c, n) && Serves(t, c, n) && (Works(t) ==> exists f :: Ordered(s0, init, tid, f) && Carries(t, c.user, f));
    AsksMore(es, tid, c, n);
    if Works(t') {
      var f :| Ordered(s0, init, tid, f) && Carries(t, c.user, f);
      OrderedMore(s0, es, tid, f);
      assert Carries(t', c.user, f);
    }
  }

  lemma GoHistory(s0: State, es: seq<Event>, tid: nat)
    requires es != [] && es[|es| - 1].Go? && HistoryInv(s0, es[..|es| - 1]) && ThreadsOk(Run(s0, es[..|es| - 1]))
    requires tid in Run(s0, es[..|es| - 1]).threads
    ensures var s := Run(s0, es); tid in s.threads && ThreadHistory(s0, es, tid, s.threads[tid])
  {
    var before, x := Run(s0, es[..|es| - 1]), es[|es| - 1].tid;
    var t := before.threads[tid];
    assert Run(s0, es) == Step(before, Go(x));
    if before.alive && x in before.threads {
      OneThreadMoves(before, x);
      hide Run, StepThread, ThreadHistory, Serves, Works, Carries, ThreadOk;
      if x == tid {
        forall c, n | Serves(t, c, n)
          ensures
            var t' := StepThread(before, x).threads[tid];
            Serves(t', c, n) && (Works(t') ==> Works(t) && forall f :: Carries(t, c.user, f) ==> Carries(t', c.user, f))
        {
          StepServes(before, x, c, n);
        }
      }
      StillHistory(s0, es, tid, t, StepThread(before, x).threads[tid]);
    } else {
      hide Run, ThreadHistory, Serves, Works, Carries, ThreadOk;
      StillHistory(s0, es, tid, t, t);
    }
  }

  lemma RunLast(s0: State, es: seq<Event>)
    requires es != []
    ensures Run(s0, es) == Step(Run(s0, es[..|es| - 1]), es[|es| - 1])
  {}

  lemma ClientHistory(s0: State, es: seq<Event>, tid: nat)
    requires es != [] && !es[|es| - 1].Go? && HistoryInv(s0, es[..|es| - 1]) && tid in Run(s0, es).threads
    ensures ThreadHistory(s0, es, tid, Run(s0, es).threads[tid])
  {
    hide *;
    RunLast(s0, es);
    var init, e := es[..|es| - 1], es[|es| - 1];
    var before, t' := Run(s0, init), Run(s0, es).threads[tid];
    if tid !in before.threads {
      NewThread(s0, init, before, e, tid);
      AsksNow(es, tid, e.conn, e.socket);
      StartHistory(s0, es, tid, e.conn, e.socket);
    } else {
      HistoryOf(s0, init, tid);
      if Commands(before, e, tid) {
        CommandHistory(s0, es, tid);
      } else {
        ClientKeeps(before, e, tid);
        StillHistory(s0, es, tid, before.threads[tid], t');
      }
    }
  }

  lemma HistoryOf(s0: State, es: seq<Event>, tid: nat)
    requires HistoryInv(s0, es) && tid in Run(s0, es).threads
    ensures ThreadHistory(s0, es, tid, Run(s0, es).threads[tid])
  {
    hide Run, ThreadHistory;
  }

  lemma NewThread(s0: State, init: seq<Event>, s: State, e: Event, tid: nat)
    requires HistoryInv(s0, init) && s == Run(s0, init) && !e.Go? && tid !in s.threads && tid in Step(s, e).threads
    ensures e.Connect? && e == Connect(tid, e.conn, e.socket) && Step(s, e).threads[tid] == LoginWait(e.conn, e.socket)
    ensures forall j :: 0 <= j < |init| && init[j].Connect? ==> init[j].tid != tid
  {
    hide Run, Apply, ThreadHistory;
  }

  lemma StartHistory(s0: State, es: seq<Event>, tid: nat, c: Connection, n: int)
    requires Asks(es, tid, c, n)
    ensures ThreadHistory(s0, es, tid, LoginWait(c, n))
  {
    hide Asks, Run;
    assert Serves(LoginWait(c, n), c, n);
  }

  lemma CommandHistory(s0: State, es: seq<Event>, tid: nat)
    requires es != [] && tid in Run(s0, es[..|es| - 1]).threads
    requires var before := Run(s0, es[..|es| - 1]);
             Commands(before, es[|es| - 1], tid) && ThreadHistory(s0, es[..|es| - 1], tid, before.threads[tid])
    ensures tid in Run(s0, es).threads && ThreadHistory(s0, es, tid, Run(s0, es).threads[tid])
  {
    RunLast(s0, es);
    var init, e := es[..|es| - 1], es[|es| - 1];
    var before := Run(s0, init);
    hide Run, Asks, Ordered;
    var c, n :| Asks(init, tid, c, n) && Serves(before.threads[tid], c, n);
    AsksMore(es, tid, c, n);
    OrderedNow(s0, es, tid, e.frame);
    var t' := FileWrite(before.threads[tid].sess, e.frame);
    assert Serves(t', c, n) && Carries(t', c.user, e.frame);
  }

  lemma ClientKeeps(s: State, e: Event, tid: nat)
    requires !e.Go? && tid in s.threads && !Commands(s, e, tid)
    ensures tid in Step(s, e).threads
    ensures
      var t, t' := s.threads[tid], Step(s, e).threads[tid];
      forall c, n :: Serves(t, c, n) ==>
        Serves(t', c, n) && (Works(t') ==> Works(t) && forall f :: Carries(t, c.user, f) ==> Carries(t', c.user, f))
  {
    hide Apply, StoredPath;
  }

  lemma StartedNext(s0: State, es: seq<Event>)
    requires es != [] && Started(es[..|es| - 1], Run(s0, es[..|es| - 1]))
    ensures Started(es, Run(s0, es))
  {
    hide *;
    RunLast(s0, es);
    ThreadsStay(Run(s0, es[..|es| - 1]), es[|es| - 1]);
    StartedStep(es, Run(s0, es[..|es| - 1]), Run(s0, es));
  }

  lemma StartedStep(es: seq<Event>, s: State, s': State)
    requires es != [] && Started(es[..|es| - 1], s) && s.threads.Keys <= s'.threads.Keys && (s'.alive ==> s.alive)
    requires var e := es[|es| - 1]; s'.alive && e.Connect? ==> e.tid in s'.threads
    ensures Started(es, s')
  {
    assert forall j :: 0 <= j < |es| - 1 ==> es[j] == es[..|es| - 1][j];
  }

  lemma ThreadsStay(s: State, e: Event)
    ensures s.threads.Keys <= Step(s, e).threads.Keys && (Step(s, e).alive ==> s.alive)
    ensures Step(s, e).alive && e.Connect? ==> e.tid in Step(s, e).threads
  {
    if e.Go? && s.alive && e.tid in s.threads {
      OneThreadMoves(s, e.tid);
      hide StepThread;
    } else {
      hide StepThread, Apply;
    }
  }

  lemma {:induction false} RunHistory(s0: State, es: seq<Event>)
    requires ClusterInv(s0) && s0.threads == map[] && AllLegal(s0, es)
    ensures HistoryInv(s0, es)
  {
    hide ClusterInv, Legal;
    if es != [] {
      var init, e := es[..|es| - 1], es[|es| - 1];
      RunHistory(s0, init);
      RunInv(s0, init);
      InvThreadsOk(Run(s0, init));
      StartedNext(s0, es);
      hide Run, ThreadHistory, Started;
      forall tid | tid in Run(s0, es).threads ensures ThreadHistory(s0, es, tid, Run(s0, es).threads[tid]) {
        if e.Go? { GoThreads(s0, es, tid); GoHistory(s0, es, tid); } else { ClientHistory(s0, es, tid); }
      }
    }
  }

  lemma GoThreads(s0: State, es: seq<Event>, tid: nat)
    requires es != [] && es[|es| - 1].Go? && tid in Run(s0, es).threads
    ensures tid in Run(s0, es[..|es| - 1]).threads
  {
    var before, x := Run(s0, es[..|es| - 1]), es[|es| - 1].tid;
    if before.alive && x in before.threads { OneThreadMoves(before, x); }
    hide StepThread;
  }

  lemma AsksOnce(es: seq<Event>, tid: nat, c: Connection, n: int, c': Connection, n': int)
    requires Asks(es, tid, c, n) && Asks(es, tid, c', n')
    ensures c == c' && n == n'
  {
    var j: nat :| AskedAt(es, tid, c, n, j);
    var j': nat :| AskedAt(es, tid, c', n', j');
  }

  lemma OrderedOnce(s0: State, es: seq<Event>, tid: nat, f: Frame, f': Frame)
    requires Ordered(s0, es, tid, f) && Ordered(s0, es, tid, f')
    ensures f == f'
  {
    var j: nat :| OrderedAt(s0, es, tid, f, j);
    var j': nat :| OrderedAt(s0, es, tid, f', j');
    hide Run;
    assert Commands(Run(s0, es[..j]), es[j], tid) && Commands(Run(s0, es[..j']), es[j'], tid);
  }

  /** In every run from the start: a thread serves the connection it was started for, only a first or second connection
      of a device gets to take commands, and a thread at work carries out the last command that it took. */
  lemma ThreadsServe(ids: seq<int>, refusalReleases: bool, es: seq<Event>, tid: nat, c: Connection, n: int)
    requires AllLegal(Start(ids, refusalReleases), es) && Asks(es, tid, c, n)
    ensures
      var s0, s := Start(ids, refusalReleases), Reached(ids, refusalReleases, es);
      tid in s.threads ==>
        && Serves(s.threads[tid], c, n)
        && (c.socketType == 3 ==> !IsIdle(s, tid) && !Works(s.threads[tid]))
        && (Works(s.threads[tid]) ==> exists f :: Ordered(s0, es, tid, f))
        && forall f :: Ordered(s0, es, tid, f) && Works(s.threads[tid]) ==> Carries(s.threads[tid], c.user, f)
  {
    hide *;
    StartThreads(ids, refusalReleases);
    StartInv(ids, refusalReleases);
    RunHistory(Start(ids, refusalReleases), es);
    ReachedIs(ids, refusalReleases, es);
    var s0, s := Start(ids, refusalReleases), Reached(ids, refusalReleases, es);
    if tid in s.threads {
      HistoryOf(s0, es, tid);
      ThreadServes(s0, es, s, tid, c, n);
    }
  }

  lemma StartThreads(ids: seq<int>, refusalReleases: bool)
    ensures Start(ids, refusalReleases).threads == map[]
  {}

  lemma ReachedIs(ids: seq<int>, refusalReleases: bool, es: seq<Event>)
    ensures Reached(ids, refusalReleases, es) == Run(Start(ids, refusalReleases), es)
  {}

  lemma ThreadServes(s0: State, es: seq<Event>, s: State, tid: nat, c: Connection, n: int)
    requires Asks(es, tid, c, n) && tid in s.threads && ThreadHistory(s0, es, tid, s.threads[tid])
    ensures
      var t := s.threads[tid];
      && Serves(t, c, n)
      && (c.socketType == 3 ==> !IsIdle(s, tid) && !Works(t))
      && (Works(t) ==> exists f :: Ordered(s0, es, tid, f))
      && forall f :: Ordered(s0, es, tid, f) && Works(t) ==> Carries(t, c.user, f)
  {
    hide Asks, Ordered, StoredPath;
    var t := s.threads[tid];
    var c', n' :|
      Asks(es, tid, c', n') && Serves(t, c', n') && (Works(t) ==> exists f :: Ordered(s0, es, tid, f) && Carries(t, c'.user, f));
    AsksOnce(es, tid, c, n, c', n');
    forall f | Ordered(s0, es, tid, f) && Works(t) ensures Carries(t, c.user, f) {
      var f' :| Ordered(s0, es, tid, f') && Carries(t, c.user, f');
      OrderedOnce(s0, es, tid, f, f');
    }
  }
}
