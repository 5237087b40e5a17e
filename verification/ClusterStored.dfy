/** What is stored at a path, in terms of what the clients sent: the last upload or delete written there. */
module ClusterStored {
  import opened Limits
  import opened SessionTable
  import opened Wire
  import opened Disk
  import opened Cluster
  import opened ClusterLocks
  import opened ClusterLogs
  import opened ClusterTables
  import opened ClusterCausal
  import opened ClusterFiles
  import opened ClusterTheorems
  import opened ClusterRuns
  import opened ClusterHistory

  // ---------- one write ----------

  /** The write of an operation stores the payload of an upload, or removes the file, and touches no other path. */
  lemma WriteStores(s: State, tid: nat, sess: Session, f: Frame, path: string)
    requires ClusterInv(s) && s.alive && tid in s.threads && s.threads[tid] == FileWrite(sess, f)
    ensures
      Content(Step(s, Go(tid)).disk, path) ==
      if path != StoredPath(sess.user, f.name) then Content(s.disk, path)
      else if f.command == UPLOAD then Some(f.payload)
      else None
  {
    var m := MessageOf(sess, f);
    ThreadIsKnown(s, tid);
    ThreadControl(s, tid);
    MessageDir(sess, f);
    assert Step(s, Go(tid)).disk == ApplyFile(s.disk, m);
    hide DirOf, UserDir, StoredPath, DirsOf, ControlInv, LogsInv, TablesInv, StoresInv, CausalInv;
  }

  predicate Writing(s: State, e: Event) { e.Go? && s.alive && e.tid in s.threads && s.threads[e.tid].FileWrite? }

  /** Every other event leaves what is stored as it is. */
  lemma OthersKeepFiles(s: State, e: Event, path: string)
    requires !Writing(s, e)
    ensures Content(Step(s, e).disk, path) == Content(s.disk, path)
  {
    if e.Go? && s.alive && e.tid in s.threads {
      hide *;
      ThreadKeepsFiles(s, e.tid);
      SameFiles(s.disk, Step(s, e).disk, path);
    } else {
      hide StepThread, Apply;
    }
  }

  lemma SameFiles(d: Disk, d': Disk, path: string)
    requires d'.files == d.files
    ensures Content(d', path) == Content(d, path)
  {}

  lemma ThreadKeepsFiles(s: State, tid: nat)
    requires s.alive && tid in s.threads && !Writing(s, Go(tid))
    ensures Step(s, Go(tid)).disk.files == s.disk.files
  {
    if s.threads[tid].LoginWait? { LoginKeepsFiles(s, tid); } else { OtherDisk(s, tid); }
    hide StepThread;
  }

  lemma LoginKeepsFiles(s: State, tid: nat)
    requires tid in s.threads && s.threads[tid].LoginWait?
    ensures StepThread(s, tid).disk.files == s.disk.files
  {
    hide Login;
  }

  // ---------- runs ----------

  /** At k a thread writes this upload or delete, its last command, at the path. */
  ghost predicate WroteAt(s0: State, es: seq<Event>, path: string, f: Frame, k: nat) {
    && k < |es| && Writing(Run(s0, es[..k]), es[k]) && Ordered(s0, es[..k], es[k].tid, f)
    && exists c, n :: Asks(es[..k], es[k].tid, c, n) && path == StoredPath(c.user, f.name)
  }

  ghost predicate WroteSome(s0: State, es: seq<Event>, path: string, k: nat) { exists f :: WroteAt(s0, es, path, f, k) }

  ghost predicate NoneSince(s0: State, es: seq<Event>, path: string, k: nat) {
    forall j: nat :: k < j < |es| ==> !WroteSome(s0, es, path, j)
  }

  /** This was the last upload or delete written at the path. */
  ghost predicate LastWritten(s0: State, es: seq<Event>, path: string, f: Frame) {
    exists k: nat :: WroteAt(s0, es, path, f, k) && NoneSince(s0, es, path, k)
  }

  lemma WroteBefore(s0: State, es: seq<Event>, path: string, f: Frame, k: nat)
    requires k + 1 < |es|
    ensures WroteAt(s0, es, path, f, k) <==> WroteAt(s0, es[..|es| - 1], path, f, k)
  {
    hide Run, Writing, Asks, Ordered, StoredPath;
    assert es[..|es| - 1][..k] == es[..k] && es[..|es| - 1][k] == es[k];
  }

  lemma SomeBefore(s0: State, es: seq<Event>, path: string, k: nat)
    requires k + 1 < |es|
    ensures WroteSome(s0, es, path, k) <==> WroteSome(s0, es[..|es| - 1], path, k)
  {
    hide WroteAt;
    var init := es[..|es| - 1];
    forall f ensures WroteAt(s0, es, path, f, k) <==> WroteAt(s0, init, path, f, k) { WroteBefore(s0, es, path, f, k); }
  }

  lemma NoneBefore(s0: State, es: seq<Event>, path: string, k: nat)
    requires k + 1 < |es|
    ensures NoneSince(s0, es, path, k) <==> NoneSince(s0, es[..|es| - 1], path, k) && !WroteSome(s0, es, path, |es| - 1)
  {
    hide WroteSome;
    var init, last: nat := es[..|es| - 1], |es| - 1;
    forall j: nat | j < last ensures WroteSome(s0, es, path, j) <==> WroteSome(s0, init, path, j) { SomeBefore(s0, es, path, j); }
    if NoneSince(s0, init, path, k) && !WroteSome(s0, es, path, last) {
      forall j: nat | k < j < |es| ensures !WroteSome(s0, es, path, j) {
        if j < last { assert !WroteSome(s0, init, path, j); }
      }
    }
    if NoneSince(s0, es, path, k) {
      assert !WroteSome(s0, es, path, last);
      forall j: nat | k < j < last ensures !WroteSome(s0, init, path, j) { assert !WroteSome(s0, es, path, j); }
    }
  }

  lemma WroteIsInside(s0: State, es: seq<Event>, path: string, f: Frame, k: nat)
    requires WroteAt(s0, es, path, f, k)
    ensures k < |es|
  {
    hide Asks, Ordered, Run;
  }

  lemma LastWrittenNext(s0: State, es: seq<Event>, path: string, f: Frame)
    requires es != []
    ensures
      var last := |es| - 1;
      LastWritten(s0, es, path, f) <==>
      WroteAt(s0, es, path, f, last) || (LastWritten(s0, es[..last], path, f) && !WroteSome(s0, es, path, last))
  {
    hide WroteAt, WroteSome;
    var last: nat := |es| - 1;
    var init := es[..last];
    assert NoneSince(s0, es, path, last);
    hide NoneSince;
    if k: nat :| WroteAt(s0, init, path, f, k) && NoneSince(s0, init, path, k) {
      WroteIsInside(s0, init, path, f, k);
      WroteBefore(s0, es, path, f, k);
      NoneBefore(s0, es, path, k);
    }
    if k: nat :| WroteAt(s0, es, path, f, k) && NoneSince(s0, es, path, k) {
      WroteIsInside(s0, es, path, f, k);
      if k < last {
        WroteBefore(s0, es, path, f, k);
        NoneBefore(s0, es, path, k);
      }
    }
  }

  /** The last operation written at the path is an upload of this content. */
  ghost predicate LastUploaded(s0: State, es: seq<Event>, path: string, content: string) {
    exists f :: LastWritten(s0, es, path, f) && f.command == UPLOAD && f.payload == content
  }

  /** The write that is the last event. */
  lemma LastWrite(s0: State, es: seq<Event>, path: string, g: Frame) returns (sess: Session, f: Frame)
    requires es != [] && HistoryInv(s0, es[..|es| - 1]) && Writing(Run(s0, es[..|es| - 1]), es[|es| - 1])
    ensures Run(s0, es[..|es| - 1]).threads[es[|es| - 1].tid] == FileWrite(sess, f)
    ensures WroteAt(s0, es, path, g, |es| - 1) <==> path == StoredPath(sess.user, f.name) && g == f
  {
    var init, tid := es[..|es| - 1], es[|es| - 1].tid;
    HistoryOf(s0, init, tid);
    var t := Run(s0, init).threads[tid];
    hide Run, Asks, Ordered, HistoryInv, StoredPath;
    var c, n :| Asks(init, tid, c, n) && Serves(t, c, n) && exists f :: Ordered(s0, init, tid, f) && Carries(t, c.user, f);
    f :| Ordered(s0, init, tid, f) && Carries(t, c.user, f);
    sess := t.sess;
    if WroteAt(s0, es, path, g, |es| - 1) {
      var c', n' :| Asks(init, tid, c', n') && path == StoredPath(c'.user, g.name);
      AsksOnce(init, tid, c, n, c', n');
      OrderedOnce(s0, init, tid, f, g);
    }
  }

  lemma UploadedNext(s0: State, es: seq<Event>, path: string, content: string)
    requires es != [] && ClusterInv(Run(s0, es[..|es| - 1])) && HistoryInv(s0, es[..|es| - 1])
    requires Content(Run(s0, es[..|es| - 1]).disk, path) == Some(content) <==> LastUploaded(s0, es[..|es| - 1], path, content)
    ensures Content(Run(s0, es).disk, path) == Some(content) <==> LastUploaded(s0, es, path, content)
  {
    hide *;
    RunLast(s0, es);
    var init, e := es[..|es| - 1], es[|es| - 1];
    var before := Run(s0, init);
    if Writing(before, e) {
      var sess, f := WrittenThen(s0, es, path);
      WritingIs(before, e);
      WriteStores(before, e.tid, sess, f, path);
      UploadedThen(s0, es, path, content, path == StoredPath(sess.user, f.name), f);
    } else {
      OthersKeepFiles(before, e, path);
      NotWritten(s0, es, path);
      UploadedStill(s0, es, path, content);
    }
  }

  lemma WritingIs(s: State, e: Event)
    requires Writing(s, e)
    ensures e.Go? && e == Go(e.tid) && s.alive && e.tid in s.threads
  {}

  lemma WrittenThen(s0: State, es: seq<Event>, path: string) returns (sess: Session, f: Frame)
    requires es != [] && HistoryInv(s0, es[..|es| - 1]) && Writing(Run(s0, es[..|es| - 1]), es[|es| - 1])
    ensures Run(s0, es[..|es| - 1]).threads[es[|es| - 1].tid] == FileWrite(sess, f)
    ensures forall g :: WroteHere(s0, es, path, g) <==> path == StoredPath(sess.user, f.name) && g == f
  {
    var t := Run(s0, es[..|es| - 1]).threads[es[|es| - 1].tid];
    sess, f := t.sess, t.frame;
    hide Run, HistoryInv, Writing, WroteAt, StoredPath;
    forall g ensures WroteHere(s0, es, path, g) <==> path == StoredPath(sess.user, f.name) && g == f {
      var sess', f' := LastWrite(s0, es, path, g);
    }
  }

  ghost predicate WroteHere(s0: State, es: seq<Event>, path: string, f: Frame) {
    es != [] && WroteAt(s0, es, path, f, |es| - 1)
  }

  lemma UploadedThen(s0: State, es: seq<Event>, path: string, content: string, here: bool, f: Frame)
    requires es != [] && forall g :: WroteHere(s0, es, path, g) <==> here && g == f
    ensures
      LastUploaded(s0, es, path, content) <==>
      if here then f.command == UPLOAD && f.payload == content else LastUploaded(s0, es[..|es| - 1], path, content)
  {
    hide WroteAt, LastWritten;
    var last: nat := |es| - 1;
    assert WroteSome(s0, es, path, last) <==> here by {
      if here { assert WroteHere(s0, es, path, f) && WroteAt(s0, es, path, f, last); }
      if g :| WroteAt(s0, es, path, g, last) { assert WroteHere(s0, es, path, g); }
    }
    forall g ensures LastWritten(s0, es, path, g) <==> if here then g == f else LastWritten(s0, es[..|es| - 1], path, g) {
      LastWrittenNext(s0, es, path, g);
      assert WroteHere(s0, es, path, g) <==> here && g == f;
    }
  }

  lemma NotWritten(s0: State, es: seq<Event>, path: string)
    requires es != [] && !Writing(Run(s0, es[..|es| - 1]), es[|es| - 1])
    ensures forall g :: !WroteHere(s0, es, path, g)
  {
    hide Run, Writing, Asks, Ordered;
  }

  lemma UploadedStill(s0: State, es: seq<Event>, path: string, content: string)
    requires es != [] && forall g :: !WroteHere(s0, es, path, g)
    ensures LastUploaded(s0, es, path, content) <==> LastUploaded(s0, es[..|es| - 1], path, content)
  {
    hide *;
    UploadedThen(s0, es, path, content, false, Frame(0, "", "", ""));
  }

  lemma {:induction false} RunStores(s0: State, es: seq<Event>, path: string, content: string)
    requires ClusterInv(s0) && s0.threads == map[] && s0.disk.files == map[] && AllLegal(s0, es)
    ensures Content(Run(s0, es).disk, path) == Some(content) <==> LastUploaded(s0, es, path, content)
  {
    hide ClusterInv, Legal, LastUploaded;
    if es == [] {
      NothingWritten(s0, path, content);
      assert Run(s0, es) == s0;
    } else {
      var init := es[..|es| - 1];
      RunStores(s0, init, path, content);
      RunInv(s0, init);
      RunHistory(s0, init);
      hide Run, HistoryInv;
      UploadedNext(s0, es, path, content);
    }
  }

  lemma NothingWritten(s0: State, path: string, content: string)
    ensures !LastUploaded(s0, [], path, content)
  {
    hide WroteAt;
    if f, k: nat :| WroteAt(s0, [], path, f, k) { WroteIsInside(s0, [], path, f, k); }
  }

  /** In every run from the start, the primary stores a content at a path if and only if the last upload or delete written
      there, in whatever order the threads wrote, is an upload of that content. */
  lemma StoredExactly(ids: seq<int>, refusalReleases: bool, es: seq<Event>, path: string, content: string)
    requires AllLegal(Start(ids, refusalReleases), es)
    ensures
      Content(Reached(ids, refusalReleases, es).disk, path) == Some(content) <==>
      LastUploaded(Start(ids, refusalReleases), es, path, content)
  {
    StartInv(ids, refusalReleases);
    var s0 := Start(ids, refusalReleases);
    assert s0.threads == map[] && s0.disk.files == map[];
    hide Start, ClusterInv, AllLegal, LastUploaded, Run;
    RunStores(s0, es, path, content);
  }

  /** And so does every backup that has worked off its queue, unless an operation there is still in flight for it, at
      every path on which no two operations were ever in flight together. */
  lemma BackupsStore(ids: seq<int>, refusalReleases: bool, es: seq<Event>, i: nat, path: string, content: string)
    requires AllLegal(Start(ids, refusalReleases), es) && i < |ids| && NeverOverlaps(Start(ids, refusalReleases), es, path)
    requires forall tid :: !OwedBy(Reached(ids, refusalReleases, es), tid, i, path)
    ensures
      var s := Reached(ids, refusalReleases, es);
      && |s.backups| == |ids| && s.backups[i].applied <= |s.backups[i].log|
      && (Content(Drain(s.backups[i].store, s.backups[i].log[s.backups[i].applied..]).disk, path) == Some(content) <==>
          LastUploaded(Start(ids, refusalReleases), es, path, content))
  {
    hide *;
    StoredExactly(ids, refusalReleases, es, path, content);
    Convergence(ids, refusalReleases, es, i, path);
  }

  // ---------- an operation that runs alone ----------

  /** An operation that is about to write can run to its end alone, and then the primary has stored it and every backup
      has once it has worked off its queue; the primary has everything else as before. */
  lemma OperationRuns(s: State, tid: nat, sess: Session, f: Frame) returns (es: seq<Event>)
    requires ClusterInv(s) && Calm(s) && tid in s.threads && s.threads[tid] == FileWrite(sess, f)
    requires UserAt(s.table, sess.user) < |s.table|
    ensures Possible(s, es) && Calm(Run(s, es)) && Run(s, es).threads == s.threads[tid := Idle(sess)]
    ensures
      forall path :: Content(Run(s, es).disk, path) ==
        if path != StoredPath(sess.user, f.name) then Content(s.disk, path)
        else if f.command == UPLOAD then Some(f.payload) else None
    ensures
      forall i :: 0 <= i < |Run(s, es).backups| ==>
        var b := Run(s, es).backups[i];
        && b.applied <= |b.log|
        && Content(Drain(b.store, b.log[b.applied..]).disk, StoredPath(sess.user, f.name)) ==
           if f.command == UPLOAD then Some(f.payload) else None
  {
    hide *;
    var s1 := Step(s, Go(tid));
    WriteStep(s, tid, sess, f);
    StepInv(s, Go(tid));
    var finish := FinishRuns(s1, tid, sess, f);
    GoThen(s, tid, finish);
    es := [Go(tid)] + finish;
    PossibleIsLegal(s1, finish);
    RunInv(s1, finish);
    var s' := Run(s1, finish);
    SentIs(s1, s', MessageOf(sess, f));
    forall path
      ensures
        Content(s'.disk, path) ==
        if path != StoredPath(sess.user, f.name) then Content(s.disk, path)
        else if f.command == UPLOAD then Some(f.payload) else None
    {
      WriteStores(s, tid, sess, f, path);
    }
    forall i | 0 <= i < |s'.backups|
      ensures
        var b := s'.backups[i];
        && b.applied <= |b.log|
        && Content(Drain(b.store, b.log[b.applied..]).disk, StoredPath(sess.user, f.name)) ==
           if f.command == UPLOAD then Some(f.payload) else None
    {
      BackupStores(s1, s', tid, sess, f, i);
    }
  }

  lemma WriteStep(s: State, tid: nat, sess: Session, f: Frame)
    requires Calm(s) && tid in s.threads && s.threads[tid] == FileWrite(sess, f) && UserAt(s.table, sess.user) < |s.table|
    ensures
      var s1 := Step(s, Go(tid));
      && s.alive && Legal(s, Go(tid)) && Calm(s1) && s1.threads == s.threads[tid := NotifyWait(sess, f)]
      && UserAt(s1.table, sess.user) < |s1.table|
      && s.threads[tid := NotifyWait(sess, f)][tid := Idle(sess)] == s.threads[tid := Idle(sess)]
  {
    hide ApplyFile, MessageOf, UserAt;
  }

  lemma SentIs(s: State, s': State, m: Message)
    requires Sent(s, s', m, 0)
    ensures |s'.backups| == |s.backups| && forall i :: 0 <= i < |s.backups| ==> s'.backups[i].log == s.backups[i].log + [m]
  {}

  lemma BackupStores(s: State, s': State, tid: nat, sess: Session, f: Frame, i: nat)
    requires ClusterInv(s) && ClusterInv(s') && tid in s.threads && s.threads[tid] == NotifyWait(sess, f)
    requires i < |s.backups| == |s'.backups| && s'.backups[i].log == s.backups[i].log + [MessageOf(sess, f)]
    ensures
      var b := s'.backups[i];
      && b.applied <= |b.log|
      && Content(Drain(b.store, b.log[b.applied..]).disk, StoredPath(sess.user, f.name)) ==
         if f.command == UPLOAD then Some(f.payload) else None
  {
    var b, m := s'.backups[i], MessageOf(sess, f);
    ThreadIsKnown(s, tid);
    ThreadControl(s, tid);
    MessageDir(sess, f);
    LogUp(s, i);
    Drained(s', i);
    hide ClusterInv, ControlInv, Replay, Drain, DirOf, UserDir, DirsOf, StoredPath;
    SendTakesEffect(s.backups[i].log, m, m.path);
  }

  lemma Drained(s: State, i: nat)
    requires StoresInv(s) && i < |s.backups|
    ensures
      var b := s.backups[i];
      b.applied <= |b.log| && Drain(b.store, b.log[b.applied..]) == Replay(b.log)
  {
    hide Replay, Drain;
    var b := s.backups[i];
    DrainReplays(b.log[..b.applied], b.log[b.applied..]);
    assert b.log[..b.applied] + b.log[b.applied..] == b.log;
  }
}
