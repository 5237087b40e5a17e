/** Building runs: what a thread does when it moves alone, as a run of the whole system. */
module ClusterRuns {
  import opened Limits
  import opened SessionTable
  import opened Fanout
  import opened Wire
  import opened Disk
  import opened Cluster
  import opened ClusterFiles

  /** No crash, and no step of a backup. */
  ghost predicate Plain(es: seq<Event>) {
    forall i :: 0 <= i < |es| ==> !es[i].Crash? && !es[i].ApplyNext?
  }

  /** A run that the clients and the primary's threads can make from s. */
  ghost predicate Possible(s: State, es: seq<Event>) { AllLegal(s, es) && Plain(es) }

  lemma PossibleIsLegal(s: State, es: seq<Event>)
    requires Possible(s, es)
    ensures AllLegal(s, es)
  {}

  lemma {:induction false} RunConcat(s: State, a: seq<Event>, b: seq<Event>)
    ensures Run(s, a + b) == Run(Run(s, a), b)
  {
    hide Step;
    if b == [] {
      assert a + b == a;
    } else {
      RunConcat(s, a, b[..|b| - 1]);
      assert (a + b)[..|a + b| - 1] == a + b[..|b| - 1];
    }
  }

  lemma RunOne(s: State, e: Event)
    ensures Run(s, [e]) == Step(s, e)
  {
    hide Step;
    assert [e][..0] == [];
    assert Run(s, []) == s;
  }

  lemma {:induction false} PossibleConcat(s: State, a: seq<Event>, b: seq<Event>)
    requires Possible(s, a) && Possible(Run(s, a), b)
    ensures Possible(s, a + b) && Run(s, a + b) == Run(Run(s, a), b)
  {
    hide Step, Legal;
    RunConcat(s, a, b);
    if b == [] {
      assert a + b == a;
    } else {
      PossibleConcat(s, a, b[..|b| - 1]);
      assert (a + b)[..|a + b| - 1] == a + b[..|b| - 1];
    }
  }

  lemma PossibleOne(s: State, e: Event)
    requires Legal(s, e) && !e.Crash? && !e.ApplyNext?
    ensures Possible(s, [e]) && Run(s, [e]) == Step(s, e)
  {
    hide Step, Legal;
    RunOne(s, e);
    assert [e][..0] == [] && AllLegal(s, []) && Run(s, []) == s;
  }

  /** One step of a thread, then a run. */
  lemma GoThen(s: State, tid: nat, rest: seq<Event>)
    requires Possible(Step(s, Go(tid)), rest)
    ensures Possible(s, [Go(tid)] + rest) && Run(s, [Go(tid)] + rest) == Run(Step(s, Go(tid)), rest)
  {
    hide Step;
    PossibleOne(s, Go(tid));
    PossibleConcat(s, [Go(tid)], rest);
  }

  /** The primary is alive and no thread holds a lock. */
  predicate Calm(s: State) { s.alive && s.userLock.None? && s.serverLock.None? }

  /** Only the user lock, the bytes on descriptors and one thread differ. */
  ghost predicate OnlyThread(s: State, s': State, tid: nat, t: Thread) {
    && s'.alive && s'.userLock.None? && s'.serverLock == s.serverLock && s'.table == s.table && s'.disk == s.disk
    && s'.threads == s.threads[tid := t] && s'.backups == s.backups
  }

  lemma {:induction false} NotifyRuns(s: State, tid: nat) returns (es: seq<Event>)
    requires s.alive && tid in s.threads && s.threads[tid].Notify? && s.userLock == Some(tid)
    ensures Possible(s, es) && OnlyThread(s, Run(s, es), tid, BackupWait(s.threads[tid].sess, s.threads[tid].frame))
    decreases |s.threads[tid].todo|
  {
    var t := s.threads[tid];
    var s1 := StepNotify(s, tid, t.sess, t.frame, t.todo);
    assert Step(s, Go(tid)) == s1;
    hide Step;
    if t.todo == [] {
      PossibleOne(s, Go(tid));
      es := [Go(tid)];
    } else {
      var rest := NotifyRuns(s1, tid);
      GoThen(s, tid, rest);
      es := [Go(tid)] + rest;
    }
  }

  /** Logs of the slots from k on have m at their end. */
  ghost predicate Sent(s: State, s': State, m: Message, k: nat) {
    && |s'.backups| == |s.backups|
    && forall i :: 0 <= i < |s.backups| ==> s'.backups[i].log == s.backups[i].log + if i < k then [] else [m]
  }

  /** The loop over the backups goes to its end and releases its lock; the other one is free all the time. */
  lemma {:induction false} BroadcastRuns(s: State, tid: nat) returns (es: seq<Event>)
    requires s.alive && tid in s.threads && s.threads[tid].Broadcast?
    requires if IsFile(s.threads[tid].message) then s.userLock.None? else s.serverLock.None?
    ensures Possible(s, es)
    ensures
      var s', t := Run(s, es), s.threads[tid];
      && Calm(s') && s'.table == s.table && s'.disk == s.disk && s'.refusalReleases == s.refusalReleases
      && s'.threads == s.threads[tid := t.next] && Sent(s, s', t.message, t.slot)
    decreases |s.backups| - s.threads[tid].slot
  {
    var t := s.threads[tid];
    var s1 := StepBroadcast(s, tid, t.message, t.slot, t.next);
    assert Step(s, Go(tid)) == s1;
    hide Step, IsFile;
    if t.slot < |s.backups| {
      var rest := BroadcastRuns(s1, tid);
      GoThen(s, tid, rest);
      es := [Go(tid)] + rest;
    } else {
      PossibleOne(s, Go(tid));
      es := [Go(tid)];
    }
  }

  /** A thread that has written its file notifies the devices and takes the lock for the backups. */
  lemma ReachLoop(s: State, tid: nat, sess: Session, f: Frame) returns (es: seq<Event>)
    requires Calm(s) && tid in s.threads && s.threads[tid] == NotifyWait(sess, f) && UserAt(s.table, sess.user) < |s.table|
    ensures Possible(s, es)
    ensures
      var s' := Run(s, es);
      && s'.alive && s'.userLock.None? && s'.table == s.table && s'.disk == s.disk && s'.backups == s.backups
      && s'.threads == s.threads[tid := Broadcast(MessageOf(sess, f), 0, Idle(sess))]
  {
    hide UserAt, Targets, Todo, AddFrames;
    var s1 := StepNotifyWait(s, tid, sess, f);
    assert Step(s, Go(tid)) == s1;
    var notify := NotifyRuns(s1, tid);
    var s2 := Run(s1, notify);
    var s3 := StepBackupWait(s2, tid, sess, f);
    assert Step(s2, Go(tid)) == s3;
    hide Step, Run, MessageOf;
    PossibleOne(s2, Go(tid));
    PossibleConcat(s1, notify, [Go(tid)]);
    GoThen(s, tid, notify + [Go(tid)]);
    es := [Go(tid)] + (notify + [Go(tid)]);
  }

  /** A thread that has written can run to its end while nobody else moves. */
  lemma FinishRuns(s: State, tid: nat, sess: Session, f: Frame) returns (es: seq<Event>)
    requires Calm(s) && tid in s.threads && s.threads[tid] == NotifyWait(sess, f) && UserAt(s.table, sess.user) < |s.table|
    ensures Possible(s, es)
    ensures
      var s' := Run(s, es);
      && Calm(s') && s'.table == s.table && s'.disk == s.disk
      && s'.threads == s.threads[tid := Idle(sess)] && Sent(s, s', MessageOf(sess, f), 0)
  {
    var reach := ReachLoop(s, tid, sess, f);
    var s1 := Run(s, reach);
    MessageIsFile(BackupWait(sess, f));
    hide Step, Run, MessageOf, UserAt;
    var send := BroadcastRuns(s1, tid);
    PossibleConcat(s, reach, send);
    es := reach + send;
  }

  /** Where a connection's thread goes on after its login. */
  function AfterDir(c: Connection, socket: int): Thread {
    if c.socketType == T1 || c.socketType == T2 then Idle(Session(c.user, c.device, socket)) else Done
  }

  /** A login that is admitted runs to its end. */
  lemma LoginRuns(s: State, tid: nat, c: Connection, socket: int) returns (es: seq<Event>)
    requires Calm(s) && TableInv(s.table) && tid !in s.threads && ConnectionOk(c) && CanLogin(s.table, c.user, c.device)
    ensures Possible(s, es)
    ensures
      var s' := Run(s, es);
      && Calm(s') && s'.table == Seated(s.table, c, socket) && s'.threads == s.threads[tid := AfterDir(c, socket)]
      && s'.refusalReleases == s.refusalReleases && |s'.backups| == |s.backups|
      && (IsIdle(s', tid) <==> c.socketType == 1 || c.socketType == 2)
  {
    hide Login, Step, TableInv, CanLogin, Seated, Run, ConnectionOk, Possible;
    var reach := LoginLoop(s, tid, c, socket);
    var s1 := Run(s, reach);
    var send := BroadcastRuns(s1, tid);
    var s2 := Run(s1, send);
    EndsInDir(s2, tid, c, socket);
    PossibleOne(s2, Go(tid));
    PossibleConcat(s1, send, [Go(tid)]);
    PossibleConcat(s, reach, send + [Go(tid)]);
    es := reach + (send + [Go(tid)]);
  }

  lemma EndsInDir(s: State, tid: nat, c: Connection, socket: int)
    requires s.alive && tid in s.threads && s.threads[tid] == LoginDir(c, socket)
    ensures Step(s, Go(tid)) == s.(threads := s.threads[tid := AfterDir(c, socket)], disk := MakeDir(s.disk, c.user))
  {
    hide MakeDir;
  }

  /** A login that is admitted takes the lock and is about to tell the backups. */
  lemma LoginLoop(s: State, tid: nat, c: Connection, socket: int) returns (es: seq<Event>)
    requires s.alive && s.userLock.None? && TableInv(s.table) && tid !in s.threads
    requires ConnectionOk(c) && CanLogin(s.table, c.user, c.device)
    ensures Possible(s, es)
    ensures
      var s' := Run(s, es);
      && s'.alive && s'.userLock == Some(tid) && s'.serverLock == s.serverLock && s'.table == Seated(s.table, c, socket)
      && s'.threads == s.threads[tid := Broadcast(InsertMsg(c), 0, LoginDir(c, socket))]
      && s'.refusalReleases == s.refusalReleases && s'.backups == s.backups
  {
    LoginDecision(s.table, c, socket);
    hide Login, TableInv, CanLogin, Seated;
    var s1 := Step(s, Connect(tid, c, socket));
    assert s1 == s.(threads := s.threads[tid := LoginWait(c, socket)]);
    PossibleOne(s, Connect(tid, c, socket));
    assert Step(s1, Go(tid)) == StepLoginWait(s1, tid, c, socket);
    PossibleOne(s1, Go(tid));
    hide Step, Run;
    PossibleConcat(s, [Connect(tid, c, socket)], [Go(tid)]);
    es := [Connect(tid, c, socket)] + [Go(tid)];
  }

  /** An idle thread's exit runs to its end. */
  lemma ExitRuns(s: State, tid: nat, sess: Session) returns (es: seq<Event>)
    requires Calm(s) && TableInv(s.table) && tid in s.threads && s.threads[tid] == Idle(sess)
    requires sess.user != "" && sess.device != -1 && Present(s.table, sess.user, sess.device)
    ensures Possible(s, es)
    ensures
      var s' := Run(s, es);
      && Calm(s') && s'.table == Vacated(s.table, sess.user, sess.device) && s'.threads == s.threads[tid := Done]
      && |s'.backups| == |s.backups|
  {
    ExitEffect(s.table, sess.user, sess.device);
    hide Exit, TableInv, Present, Vacated;
    var s1 := Step(s, Quit(tid));
    assert s1 == s.(threads := s.threads[tid := ExitWait(sess)]);
    PossibleOne(s, Quit(tid));
    var s2 := Step(s1, Go(tid));
    assert s2 == StepExitWait(s1, tid, sess);
    hide Step, Run;
    var send := BroadcastRuns(s2, tid);
    GoThen(s1, tid, send);
    PossibleConcat(s, [Quit(tid)], [Go(tid)] + send);
    es := [Quit(tid)] + ([Go(tid)] + send);
  }
}
